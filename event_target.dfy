/**
 * A window's listener registry, as `addEventListener` and
 * `removeEventListener` keep it: registration order, no duplicate
 * (event, callback) pair. A callback is identified by a handle number;
 * the owner is whatever the callback belongs to.
 */
module EventTarget {
  datatype EventName = Storage | AuthChange

  datatype Listener<H> = Listener(event: EventName, handle: nat, owner: H)

  /** `addEventListener`: appends the pair, unless it is already registered. */
  function Add<H(==)>(ls: seq<Listener<H>>, l: Listener<H>): (r: seq<Listener<H>>)
    ensures l in r && ls <= r
    ensures l !in ls ==> r == ls + [l]
    ensures l in ls ==> r == ls
  {
    if l in ls then ls else ls + [l]
  }

  /** Registering the same pair twice registers it once. */
  lemma AddIdempotent<H>(ls: seq<Listener<H>>, l: Listener<H>)
    ensures Add(Add(ls, l), l) == Add(ls, l)
  {
  }

  /** `removeEventListener`: drops the pair, keeping the order of the rest. */
  function Remove<H(==)>(ls: seq<Listener<H>>, l: Listener<H>): (r: seq<Listener<H>>)
    ensures |r| <= |ls|
    ensures l !in r
  {
    if ls == [] then []
    else (if ls[0] == l then [] else [ls[0]]) + Remove(ls[1..], l)
  }

  /** Every pair left was registered before. */
  lemma {:induction false} RemoveOnlyDrops<H>(ls: seq<Listener<H>>, l: Listener<H>, i: nat)
    requires i < |Remove(ls, l)|
    ensures Remove(ls, l)[i] in ls
  {
    if ls[0] == l {
      RemoveOnlyDrops(ls[1..], l, i);
    } else if i > 0 {
      RemoveOnlyDrops(ls[1..], l, i - 1);
    }
  }

  /** Every other registered pair stays registered. */
  lemma {:induction false} RemoveKeepsOthers<H>(ls: seq<Listener<H>>, l: Listener<H>, x: Listener<H>)
    requires x in ls && x != l
    ensures x in Remove(ls, l)
  {
    if ls[0] != x {
      RemoveKeepsOthers(ls[1..], l, x);
    }
  }

  /** Removing a pair that is not registered changes nothing. */
  lemma {:induction false} RemoveAbsent<H>(ls: seq<Listener<H>>, l: Listener<H>)
    requires l !in ls
    ensures Remove(ls, l) == ls
  {
    if ls != [] {
      RemoveAbsent(ls[1..], l);
      assert ls == [ls[0]] + ls[1..];
    }
  }

  /** Removing from a concatenation removes from each part. */
  lemma {:induction false} RemoveAppend<H>(a: seq<Listener<H>>, b: seq<Listener<H>>, l: Listener<H>)
    ensures Remove(a + b, l) == Remove(a, l) + Remove(b, l)
  {
    if a == [] {
      assert a + b == b;
    } else {
      assert (a + b)[1..] == a[1..] + b;
      RemoveAppend(a[1..], b, l);
    }
  }

  /** Adding two new pairs and then removing them restores the registry exactly. */
  lemma AddTwoRemoveTwo<H>(ls: seq<Listener<H>>, a: Listener<H>, b: Listener<H>)
    requires a !in ls && b !in ls && a != b
    ensures Remove(Remove(Add(Add(ls, a), b), a), b) == ls
  {
    assert Add(Add(ls, a), b) == ls + [a, b];
    RemoveAppend(ls, [a, b], a);
    RemoveAbsent(ls, a);
    assert Remove([a, b], a) == [b];
    RemoveAfterAppend(ls, b, b);
  }

  /** Removing `l` from `ls + [x]`, where `l` is not in `ls`, keeps `ls` and drops `x` exactly when it is `l`. */
  lemma RemoveAfterAppend<H>(ls: seq<Listener<H>>, x: Listener<H>, l: Listener<H>)
    requires l !in ls
    ensures Remove(ls + [x], l) == if x == l then ls else ls + [x]
  {
    RemoveAppend(ls, [x], l);
    RemoveAbsent(ls, l);
    assert [x][1..] == [];
  }

  /** Every registered callback has a handle below `next`. */
  predicate HandlesBelow<H>(ls: seq<Listener<H>>, next: nat) {
    forall i :: 0 <= i < |ls| ==> ls[i].handle < next
  }

  /** A pair with a handle not yet handed out is not registered. */
  lemma FreshHandleAbsent<H>(ls: seq<Listener<H>>, next: nat, l: Listener<H>)
    requires HandlesBelow(ls, next) && l.handle >= next
    ensures l !in ls
  {
  }

  /** The owners of the callbacks registered for an event. */
  function Owners<H>(ls: seq<Listener<H>>, e: EventName): (s: set<H>)
    ensures forall i :: 0 <= i < |ls| && ls[i].event == e ==> ls[i].owner in s
  {
    set l | l in ls && l.event == e :: l.owner
  }
}
