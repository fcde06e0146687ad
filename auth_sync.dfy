/**
 * The session wiring of a page component: on mount it reads the session
 * and registers a `storage` listener (changes made by other tabs) and an
 * `authChange` listener (changes made in this tab); on unmount it removes
 * both; `logout` clears the session in the store, resets the in-memory
 * state, signals the tab, and navigates home. `Navbar` and `Header` carry
 * this logic word for word, so one class models both.
 */
module AuthSync {
  import opened Wrappers
  import opened SessionStore
  import opened EventTarget
  import opened RoleRouter

  /**
   * An event fired at a window. A `storage` event carries the key that
   * changed; the key is null when another tab cleared the whole store.
   */
  datatype Event = StorageEvent(key: Option<string>) | AuthChangeEvent

  function NameOf(e: Event): (name: EventName)
    ensures name == Storage <==> e.StorageEvent?
  {
    if e.StorageEvent? then Storage else AuthChange
  }

  /** The keys the `storage` handler reacts to. */
  predicate IsSessionKey(key: Option<string>) {
    key == Some(TokenKey) || key == Some(UserKey)
  }

  /** Whether the component's handler for the event re-reads the session. */
  predicate Rereads(e: Event) {
    e.AuthChangeEvent? || IsSessionKey(e.key)
  }

  /** What an event does to a handler owner's state, given what a read would return. */
  function AfterEvent(e: Event, current: Session, read: Result<Session, ReadError>): (next: Session)
    ensures !Rereads(e) ==> next == current
    ensures Rereads(e) && read.Success? ==> next == read.value
    ensures read.Failure? ==> next == current
  {
    if Rereads(e) then Refreshed(current, read) else current
  }

  /** Delivering an event twice leaves the state as delivering it once. */
  lemma AfterEventIdempotent(e: Event, current: Session, read: Result<Session, ReadError>)
    ensures AfterEvent(e, AfterEvent(e, current, read), read) == AfterEvent(e, current, read)
  {
  }

  /** Subscription a mounted component holds: the two callbacks it registered. */
  datatype Subscription = Subscription(onStorage: Listener<AuthComponent>, onAuthChange: Listener<AuthComponent>)

  /** Every callback of `ls` was created before `next` and belongs to a component of window `w`. */
  ghost predicate WellFormed(ls: seq<Listener<AuthComponent>>, next: nat, w: Window) {
    && HandlesBelow(ls, next)
    && forall i :: 0 <= i < |ls| ==> ls[i].owner.window == w
  }

  lemma WellFormedAppend(ls: seq<Listener<AuthComponent>>, next: nat, next': nat, w: Window, l: Listener<AuthComponent>)
    requires WellFormed(ls, next, w) && next <= next' && l.handle < next' && l.owner.window == w
    ensures WellFormed(ls + [l], next', w)
  {
  }

  lemma WellFormedRemove(ls: seq<Listener<AuthComponent>>, next: nat, w: Window, l: Listener<AuthComponent>)
    requires WellFormed(ls, next, w)
    ensures WellFormed(Remove(ls, l), next, w)
  {
    var r := Remove(ls, l);
    forall i | 0 <= i < |r| ensures r[i].handle < next && r[i].owner.window == w {
      RemoveOnlyDrops(ls, l, i);
    }
  }

  /** One browser tab: the origin's shared store, the realm's `JSON.parse`, and the window's listeners. */
  class Window {
    const storage: LocalStorage
    const parse: string -> Parsed
    var listeners: seq<Listener<AuthComponent>>
    /** Every event fired at this window, in order. */
    var fired: seq<Event>
    /** Callbacks created so far; the next one gets this number. */
    var nextHandle: nat

    ghost predicate Valid()
      reads this
    {
      WellFormed(listeners, nextHandle, this)
    }

    constructor (storage: LocalStorage, parse: string -> Parsed)
      ensures this.storage == storage && this.parse == parse
      ensures listeners == [] && fired == [] && Valid()
    {
      this.storage := storage;
      this.parse := parse;
      listeners := [];
      fired := [];
      nextHandle := 0;
    }

    /** A new callback, distinct from every one created before. */
    method NewHandle() returns (h: nat)
      modifies this`nextHandle
      ensures h == old(nextHandle) && nextHandle == h + 1
    {
      h := nextHandle;
      nextHandle := nextHandle + 1;
    }

    /** `window.addEventListener` */
    method AddEventListener(l: Listener<AuthComponent>)
      modifies this`listeners
      ensures listeners == Add(old(listeners), l)
    {
      if l !in listeners {
        listeners := listeners + [l];
      }
    }

    /** `window.removeEventListener` */
    method RemoveEventListener(l: Listener<AuthComponent>)
      modifies this`listeners
      ensures listeners == Remove(old(listeners), l)
    {
      listeners := Remove(listeners, l);
    }

    /**
     * Fires an event at the window: the listeners registered for it when
     * it is fired run in order. A listener that throws leaves its owner's
     * state as it was and the others still run.
     */
    method DispatchEvent(e: Event)
      requires Valid()
      modifies this`fired, Owners(listeners, NameOf(e))`auth
      ensures Valid()
      ensures fired == old(fired) + [e]
      ensures forall c: AuthComponent :: c in Owners(listeners, NameOf(e)) ==>
        c.auth == AfterEvent(e, old(c.auth), Read(storage.items, parse))
    {
      fired := fired + [e];
      var ls: seq<Listener<AuthComponent>> := listeners;
      ghost var result := Read(storage.items, parse);
      var i := 0;
      while i < |ls|
        invariant 0 <= i <= |ls|
        invariant fired == old(fired) + [e]
        invariant forall c: AuthComponent :: c in Owners(ls, NameOf(e)) ==>
          c.auth == old(c.auth) || c.auth == AfterEvent(e, old(c.auth), result)
        invariant forall j :: 0 <= j < i && ls[j].event == NameOf(e) ==>
          ls[j].owner.auth == AfterEvent(e, old(ls[j].owner.auth), result)
      {
        var l := ls[i];
        if l.event == NameOf(e) {
          AfterEventIdempotent(e, old(l.owner.auth), result);
          match e
          case StorageEvent(key) => l.owner.OnStorage(key);
          case AuthChangeEvent => l.owner.OnAuthChange();
        }
        i := i + 1;
      }
      forall c: AuthComponent | c in Owners(ls, NameOf(e))
        ensures c.auth == AfterEvent(e, old(c.auth), result)
      {
        var l :| l in ls && l.event == NameOf(e) && l.owner == c;
        var j :| 0 <= j < |ls| && ls[j] == l;
      }
    }
  }

  /** A page component holding the auth state `{token, user}`. */
  class AuthComponent {
    const window: Window
    var auth: Session
    /** The route the component last navigated to. */
    var navigatedTo: Option<string>
    /** The callbacks its effect registered, while mounted. */
    var subscription: Option<Subscription>

    /** A component before its first render: `{null, null}`, no navigation, not mounted. */
    constructor (window: Window)
      ensures this.window == window
      ensures auth == Anonymous && navigatedTo == None && subscription == None
    {
      this.window := window;
      auth := Anonymous;
      navigatedTo := None;
      subscription := None;
    }

    /** `onStorage`: re-reads only when the changed key is `token` or `user`. */
    method OnStorage(key: Option<string>)
      modifies this`auth
      ensures auth == AfterEvent(StorageEvent(key), old(auth), Read(window.storage.items, window.parse))
    {
      if key == Some(TokenKey) || key == Some(UserKey) {
        var r := Read(window.storage.items, window.parse);
        if r.Success? {
          auth := r.value;
        }
      }
    }

    /** `onAuthChange`: always re-reads. */
    method OnAuthChange()
      modifies this`auth
      ensures auth == AfterEvent(AuthChangeEvent, old(auth), Read(window.storage.items, window.parse))
    {
      var r := Read(window.storage.items, window.parse);
      if r.Success? {
        auth := r.value;
      }
    }

    /**
     * The effect run on mount: reads the session, then registers its two
     * listeners. A read that throws ends the effect before any listener
     * is registered.
     */
    method Mount() returns (r: Result<(), ReadError>)
      requires window.Valid() && subscription.None?
      modifies this`auth, this`subscription, window`listeners, window`nextHandle
      ensures window.Valid()
      ensures r.Failure? <==> old(Read(window.storage.items, window.parse)).Failure?
      ensures r.Failure? ==>
        && auth == old(auth) && subscription.None?
        && window.listeners == old(window.listeners) && window.nextHandle == old(window.nextHandle)
      ensures r.Success? ==>
        && auth == old(Read(window.storage.items, window.parse)).value
        && window.nextHandle == old(window.nextHandle) + 2
        && subscription == Some(Subscription(Listener(Storage, old(window.nextHandle), this),
                                             Listener(AuthChange, old(window.nextHandle) + 1, this)))
        && window.listeners == old(window.listeners) + [subscription.value.onStorage, subscription.value.onAuthChange]
    {
      var session := Read(window.storage.items, window.parse);
      if session.Failure? {
        return Failure(session.error);
      }
      auth := session.value;
      ghost var before := window.listeners;
      var h1 := window.NewHandle();
      var h2 := window.NewHandle();
      var onStorage := Listener(Storage, h1, this);
      var onAuthChange := Listener(AuthChange, h2, this);
      FreshHandleAbsent(before, h1, onStorage);
      window.AddEventListener(onStorage);
      assert window.listeners == before + [onStorage];
      WellFormedAppend(before, h1, h2, window, onStorage);
      FreshHandleAbsent(window.listeners, h2, onAuthChange);
      window.AddEventListener(onAuthChange);
      WellFormedAppend(before + [onStorage], h2, h2 + 1, window, onAuthChange);
      subscription := Some(Subscription(onStorage, onAuthChange));
      r := Success(());
    }

    /** The effect's cleanup: removes the two listeners the effect registered. */
    method Unmount()
      requires window.Valid() && subscription.Some?
      modifies this`subscription, window`listeners
      ensures window.Valid() && subscription.None?
      ensures window.listeners ==
        Remove(Remove(old(window.listeners), old(subscription).value.onStorage), old(subscription).value.onAuthChange)
    {
      var sub := subscription.value;
      WellFormedRemove(window.listeners, window.nextHandle, window, sub.onStorage);
      window.RemoveEventListener(sub.onStorage);
      WellFormedRemove(window.listeners, window.nextHandle, window, sub.onAuthChange);
      window.RemoveEventListener(sub.onAuthChange);
      subscription := None;
    }

    /**
     * `logout`: removes both keys, resets the state to `{null, null}`,
     * fires `authChange` at the tab, and navigates to `/`.
     */
    method Logout()
      requires window.Valid()
      modifies window.storage, this`auth, this`navigatedTo, window`fired, Owners(window.listeners, AuthChange)`auth
      ensures window.Valid()
      ensures window.storage.items == old(window.storage.items) - {TokenKey, UserKey}
      ensures auth == Anonymous
      ensures forall c: AuthComponent :: c in Owners(window.listeners, AuthChange) ==> c.auth == Anonymous
      ensures window.fired == old(window.fired) + [AuthChangeEvent]
      ensures navigatedTo == Some("/")
    {
      window.storage.RemoveItem(TokenKey);
      window.storage.RemoveItem(UserKey);
      assert window.storage.items == old(window.storage.items) - {TokenKey, UserKey};
      ReadAfterClear(old(window.storage.items), window.parse);
      auth := Anonymous;
      window.DispatchEvent(AuthChangeEvent);
      navigatedTo := Some("/");
    }
  }

  /** Mounting and then unmounting a component leaves the window's listeners as they were. */
  method MountThenUnmount(c: AuthComponent)
    requires c.window.Valid() && c.subscription.None?
    modifies c`auth, c`subscription, c.window`listeners, c.window`nextHandle
    ensures c.window.Valid() && c.subscription.None?
    ensures c.window.listeners == old(c.window.listeners)
  {
    ghost var before := c.window.listeners;
    ghost var next := c.window.nextHandle;
    var r := c.Mount();
    if r.Success? {
      var sub := c.subscription.value;
      FreshHandleAbsent(before, next, sub.onStorage);
      FreshHandleAbsent(before, next, sub.onAuthChange);
      assert Add(Add(before, sub.onStorage), sub.onAuthChange) == c.window.listeners;
      c.Unmount();
      AddTwoRemoveTwo(before, sub.onStorage, sub.onAuthChange);
    }
  }

  /** Logging out a second time changes neither the store nor the state; it only signals and navigates again. */
  method LogoutTwice(c: AuthComponent)
    requires c.window.Valid()
    modifies c.window.storage, c`auth, c`navigatedTo, c.window`fired, Owners(c.window.listeners, AuthChange)`auth
    ensures c.window.storage.items == old(c.window.storage.items) - {TokenKey, UserKey}
    ensures c.auth == Anonymous && c.navigatedTo == Some("/")
    ensures c.window.fired == old(c.window.fired) + [AuthChangeEvent, AuthChangeEvent]
  {
    c.Logout();
    ghost var once := c.window.storage.items;
    c.Logout();
    assert c.window.storage.items == once;
  }

  /**
   * A sign-in in the same tab: the login flow writes both keys and fires
   * `authChange`; every component listening for it then holds the new session.
   */
  method SignInSameTab(w: Window, token: string, text: string, user: Option<User>)
    requires w.Valid() && text != "" && w.parse(text) == Value(user)
    modifies w.storage, w`fired, Owners(w.listeners, AuthChange)`auth
    ensures w.storage.items == old(w.storage.items)[TokenKey := token][UserKey := text]
    ensures forall c: AuthComponent :: c in Owners(w.listeners, AuthChange) ==> c.auth == Session(Some(token), user)
  {
    w.storage.SetItem(TokenKey, token);
    w.storage.SetItem(UserKey, text);
    ReadAfterWrite(old(w.storage.items), token, text, user, w.parse);
    w.DispatchEvent(AuthChangeEvent);
  }

  /**
   * A sign-in in tab `a` seen from tab `b`: the store is shared, and the
   * browser fires a `storage` event at `b` for each written key. Every
   * component of `b` listening for `storage` then holds the new session.
   */
  method CrossTabSignIn(a: Window, b: Window, token: string, text: string, user: Option<User>)
    requires a != b && a.storage == b.storage && a.parse == b.parse && b.Valid()
    requires text != "" && a.parse(text) == Value(user)
    modifies a.storage, b`fired, Owners(b.listeners, Storage)`auth
    ensures b.storage.items == old(b.storage.items)[TokenKey := token][UserKey := text]
    ensures forall c: AuthComponent :: c in Owners(b.listeners, Storage) ==> c.auth == Session(Some(token), user)
  {
    a.storage.SetItem(TokenKey, token);
    b.DispatchEvent(StorageEvent(Some(TokenKey)));
    a.storage.SetItem(UserKey, text);
    ReadAfterWrite(old(a.storage.items), token, text, user, a.parse);
    b.DispatchEvent(StorageEvent(Some(UserKey)));
  }

  /**
   * The same sign-in when the browser delivers both `storage` events only
   * after both writes: every `storage` listener of `b` again ends with the
   * new session.
   */
  method CrossTabSignInBatched(a: Window, b: Window, token: string, text: string, user: Option<User>)
    requires a != b && a.storage == b.storage && a.parse == b.parse && b.Valid()
    requires text != "" && a.parse(text) == Value(user)
    modifies a.storage, b`fired, Owners(b.listeners, Storage)`auth
    ensures b.storage.items == old(b.storage.items)[TokenKey := token][UserKey := text]
    ensures forall c: AuthComponent :: c in Owners(b.listeners, Storage) ==> c.auth == Session(Some(token), user)
  {
    a.storage.SetItem(TokenKey, token);
    a.storage.SetItem(UserKey, text);
    ReadAfterWrite(old(a.storage.items), token, text, user, a.parse);
    b.DispatchEvent(StorageEvent(Some(TokenKey)));
    b.DispatchEvent(StorageEvent(Some(UserKey)));
  }

  /**
   * The `storage` handler drops the null-key event of a `clear()`, so a
   * signed-in state survives it although a read would now give `{null, null}`.
   */
  lemma StorageClearIgnored(auth: Session, parse: string -> Parsed)
    requires Truthy(auth.token)
    ensures Read(map[], parse) == Success(Anonymous)
    ensures AfterEvent(StorageEvent(None), auth, Read(map[], parse)) == auth
    ensures auth != Anonymous
  {
  }

  /**
   * Another tab clears the whole store: the browser fires a `storage`
   * event with a null key at `b`, which every component of `b` ignores.
   * Their state stays what it was, while the store now reads `{null, null}`.
   */
  method CrossTabClear(a: Window, b: Window)
    requires a != b && a.storage == b.storage && b.Valid()
    modifies a.storage, b`fired, Owners(b.listeners, Storage)`auth
    ensures b.storage.items == map[]
    ensures Read(b.storage.items, b.parse) == Success(Anonymous)
    ensures forall c: AuthComponent :: c in Owners(b.listeners, Storage) ==> c.auth == old(c.auth)
  {
    a.storage.Clear();
    b.DispatchEvent(StorageEvent(None));
  }
}
