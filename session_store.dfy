/**
 * The session as the components keep it, and its read from the browser's
 * `localStorage`, a string-to-string store shared by all tabs of one origin.
 */
module SessionStore {
  import opened Wrappers
  import opened RoleRouter

  type Store = map<string, string>

  const TokenKey := "token"
  const UserKey := "user"

  /** The parsed `user` value; only its `role` is used. A value without a string `role` has none. */
  datatype User = User(role: Option<string>)

  /** What `JSON.parse` does with a text: it throws, or returns a value (`null` is None). */
  datatype Parsed = SyntaxError | Value(user: Option<User>)

  /** The in-memory auth state `{token, user}`. */
  datatype Session = Session(token: Option<string>, user: Option<User>)

  const Anonymous := Session(None, None)

  /** The exception a read throws: `JSON.parse` refused the stored `user` text. */
  datatype ReadError = MalformedUser(text: string)

  /** `localStorage.getItem`: the stored string, or null for a missing key. */
  function GetItem(items: Store, key: string): (v: Option<string>)
    ensures v.Some? <==> key in items
    ensures v.Some? ==> v.value == items[key]
  {
    if key in items then Some(items[key]) else None
  }

  /** `user?.role`: the role of a present user, else absent. */
  function RoleOf(user: Option<User>): (role: Option<string>)
    ensures user.None? ==> role.None?
    ensures user.Some? ==> role == user.value.role
  {
    if user.Some? then user.value.role else None
  }

  /** `user?.role || 'Dashboard'`: the label of the dashboard link. */
  function DashboardLabel(user: Option<User>): (name: string)
    ensures name != ""
    ensures Truthy(RoleOf(user)) ==> name == RoleOf(user).value
    ensures !Truthy(RoleOf(user)) ==> name == "Dashboard"
  {
    if Truthy(RoleOf(user)) then RoleOf(user).value else "Dashboard"
  }

  /**
   * The read of both keys: the token as stored; the user parsed when its
   * text is present and not empty, else null. A text the parser refuses
   * makes the whole read throw, token included.
   */
  function Read(items: Store, parse: string -> Parsed): (r: Result<Session, ReadError>)
    ensures r.Failure? <==> Truthy(GetItem(items, UserKey)) && parse(items[UserKey]).SyntaxError?
    ensures r.Success? ==> r.value.token == GetItem(items, TokenKey)
    ensures r.Success? && !Truthy(GetItem(items, UserKey)) ==> r.value.user.None?
    ensures r.Success? && Truthy(GetItem(items, UserKey)) ==> r.value.user == parse(items[UserKey]).user
  {
    var token := GetItem(items, TokenKey);
    var text := GetItem(items, UserKey);
    if Truthy(text) then
      match parse(text.value)
      case SyntaxError => Failure(MalformedUser(text.value))
      case Value(u) => Success(Session(token, u))
    else Success(Session(token, None))
  }

  /** `setAuth(read())`: the fresh read when it returns; when it throws, the state is left as it was. */
  function Refreshed(current: Session, r: Result<Session, ReadError>): (next: Session)
    ensures r.Success? ==> next == r.value
    ensures r.Failure? ==> next == current
  {
    if r.Success? then r.value else current
  }

  /** Setting or removing any one key other than `token` and `user` does not change what a read returns. */
  lemma ReadIgnoresOtherKeys(items: Store, key: string, value: string, parse: string -> Parsed)
    requires key != TokenKey && key != UserKey
    ensures Read(items[key := value], parse) == Read(items, parse)
    ensures Read(items - {key}, parse) == Read(items, parse)
  {
    assert GetItem(items[key := value], TokenKey) == GetItem(items, TokenKey);
    assert GetItem(items[key := value], UserKey) == GetItem(items, UserKey);
    assert GetItem(items - {key}, TokenKey) == GetItem(items, TokenKey);
    assert GetItem(items - {key}, UserKey) == GetItem(items, UserKey);
  }

  /** Once both keys are gone, a read returns `{null, null}`, whatever else the store holds. */
  lemma ReadAfterClear(items: Store, parse: string -> Parsed)
    ensures Read(items - {TokenKey, UserKey}, parse) == Success(Anonymous)
  {
  }

  /** Writing a token and a well-formed user text and then reading gives back that token and user. */
  lemma ReadAfterWrite(items: Store, token: string, text: string, user: Option<User>, parse: string -> Parsed)
    requires text != "" && parse(text) == Value(user)
    ensures Read(items[TokenKey := token][UserKey := text], parse) == Success(Session(Some(token), user))
  {
  }

  /** An empty `user` text is treated as no user, whatever the parser would make of it. */
  lemma EmptyUserIsNull(items: Store, parse: string -> Parsed)
    requires UserKey in items && items[UserKey] == ""
    ensures Read(items, parse) == Success(Session(GetItem(items, TokenKey), None))
  {
  }

  /**
   * The browser's `localStorage` of one origin. Every tab of the origin
   * holds a reference to the same object.
   */
  class LocalStorage {
    var items: Store

    constructor (init: Store)
      ensures items == init
    {
      items := init;
    }

    /** `localStorage.setItem` */
    method SetItem(key: string, value: string)
      modifies this
      ensures items == old(items)[key := value]
    {
      items := items[key := value];
    }

    /** `localStorage.clear` */
    method Clear()
      modifies this
      ensures items == map[]
    {
      items := map[];
    }

    /** `localStorage.removeItem`: removing a missing key does nothing. */
    method RemoveItem(key: string)
      modifies this
      ensures items == old(items) - {key}
    {
      items := items - {key};
    }
  }
}
