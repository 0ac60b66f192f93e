/**
 * The session store (`AuthProvider`): the signed-in user, the `loading`
 * flag that holds the route guard until the session is restored, and the
 * token kept in the browser's storage.
 */
module AuthContext {
  import opened Wrappers
  import opened Js
  import opened Identity
  import opened BrowserStorage
  import opened ApiConfigs

  /** A snapshot of the session: the whole store, the user and `loading`. */
  datatype Session = Session(store: map<string, string>, user: Option<User>, loading: bool)

  /** `localStorage.getItem('token')` in that snapshot. */
  function Token(s: Session): Option<string> {
    GetItem(s.store, TokenKey)
  }

  /** `checkUser` consults the backend exactly when the stored token is truthy. */
  predicate Fetches(s: Session) {
    TruthyText(Token(s))
  }

  /** The session `checkUser` leaves behind, given the answer `/auth/me` would give. */
  function CheckUserSpec(s: Session, me: Response<User>): (r: Session)
    ensures !r.loading
    ensures !Fetches(s) ==> r.store == s.store && r.user == s.user
    ensures Fetches(s) && me.Ok? ==> r.store == s.store && r.user == Some(me.data)
    ensures Fetches(s) && me.Failed? ==> r.store == s.store - {TokenKey} && r.user == None
  {
    if !Fetches(s) then s.(loading := false)
    else match me
      case Ok(data) => s.(user := Some(data), loading := false)
      case Failed(_) => s.(store := s.store - {TokenKey}, user := None, loading := false)
  }

  /** `login(token, userData)`: no round trip, `loading` untouched. */
  function LoginSpec(s: Session, token: string, data: User): (r: Session)
    ensures Token(r) == Some(token) && r.user == Some(data) && r.loading == s.loading
    ensures forall k :: k != TokenKey ==> GetItem(r.store, k) == GetItem(s.store, k)
  {
    s.(store := s.store[TokenKey := token], user := Some(data))
  }

  /** `logout()`. */
  function LogoutSpec(s: Session): (r: Session)
    ensures Token(r) == None && r.user == None && r.loading == s.loading
    ensures forall k :: k != TokenKey ==> GetItem(r.store, k) == GetItem(s.store, k)
  {
    s.(store := s.store - {TokenKey}, user := None)
  }

  /** What `checkUser` does on each path: it always settles, and only a failure signs out. */
  lemma CheckUserOutcomes(s: Session, me: Response<User>)
    ensures !CheckUserSpec(s, me).loading
    ensures Fetches(s) && me.Failed? ==> Token(CheckUserSpec(s, me)) == None && CheckUserSpec(s, me).user == None
    ensures (!Fetches(s) || me.Ok?) ==> Token(CheckUserSpec(s, me)) == Token(s)
    ensures forall k :: k != TokenKey ==> GetItem(CheckUserSpec(s, me).store, k) == GetItem(s.store, k)
  {
  }

  /** Signing out twice is signing out once. */
  lemma LogoutIdempotent(s: Session)
    ensures LogoutSpec(LogoutSpec(s)) == LogoutSpec(s)
  {
    assert (s.store - {TokenKey}) - {TokenKey} == s.store - {TokenKey};
  }

  /** After a login with a non-empty token, the next `checkUser` revalidates that token. */
  lemma LoginThenCheck(s: Session, token: string, data: User, me: Response<User>)
    requires token != ""
    ensures Fetches(LoginSpec(s, token, data))
    ensures me.Ok? ==> CheckUserSpec(LoginSpec(s, token, data), me).user == Some(me.data)
    ensures me.Ok? ==> Token(CheckUserSpec(LoginSpec(s, token, data), me)) == Some(token)
  {
  }

  /** After a logout, `checkUser` makes no request and the session stays signed out. */
  lemma LogoutThenCheck(s: Session, me: Response<User>)
    ensures !Fetches(LogoutSpec(s))
    ensures CheckUserSpec(LogoutSpec(s), me).user == None
  {
  }

  /** The members the provider puts in the context value. */
  datatype ContextMember = UserField | LoginFn | LogoutFn | LoadingField | CheckUserFn

  /** The context value `{ user, login, logout, loading }`: `checkUser` stays private. */
  predicate Provides(m: ContextMember) {
    m != CheckUserFn
  }

  /** The context value with `checkUser` added, as the admin console expects it. */
  predicate ProvidesWithCheckUser(m: ContextMember) {
    true
  }

  class AuthProvider {
    var user: Option<User>
    var loading: bool
    const storage: LocalStorage

    function State(): Session
      reads this, storage
    {
      Session(storage.items, user, loading)
    }

    /** The provider mounts with no user and `loading` set. */
    constructor (storage: LocalStorage)
      ensures this.storage == storage
      ensures State() == Session(storage.items, None, true)
    {
      this.storage := storage;
      user := None;
      loading := true;
    }

    /**
     * `checkUser`: with a truthy token, ask `/auth/me` (the answer is `me`,
     * after the response interceptor); keep the user on success, forget
     * token and user on failure; in every case clear `loading`.
     */
    method CheckUser(me: Response<User>) returns (fetched: bool)
      modifies this, storage
      ensures fetched == Fetches(old(State()))
      ensures State() == CheckUserSpec(old(State()), me)
    {
      var token := storage.Get(TokenKey);
      if !TruthyText(token) {
        loading := false;
        return false;
      }
      fetched := true;
      var answer := InterceptResponse(storage, me);
      match answer {
        case Ok(data) =>
          user := Some(data);
        case Failed(_) =>
          storage.RemoveItem(TokenKey);
          user := None;
      }
      loading := false;
    }

    /** `login(token, userData)`. */
    method Login(token: string, data: User)
      modifies this, storage
      ensures State() == LoginSpec(old(State()), token, data)
    {
      storage.SetItem(TokenKey, token);
      user := Some(data);
    }

    /** `logout()`. */
    method Logout()
      modifies this, storage
      ensures State() == LogoutSpec(old(State()))
    {
      storage.RemoveItem(TokenKey);
      user := None;
    }
  }
}
