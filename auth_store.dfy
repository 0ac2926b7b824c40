/** The client session store (frontend/src/store/authStore.ts) and the
    bootstrap that runs over it (frontend/src/components/guards/AuthGuard.tsx).
    `localStorage` is a map from keys to strings; `jwtDecode` is a parameter
    that reads the `sub` and `exp` claims of a JSON Web Token (sections
    4.1.2 and 4.1.4 of RFC 7519), or fails. */
module AuthStore {
  import opened Wrappers

  datatype JwtClaims = JwtClaims(sub: string, exp: real)

  type JwtDecoder = string -> Option<JwtClaims>

  /** The user profile the guard fetches; its fields are carried, not inspected. */
  datatype UserProfile = UserProfile(id: string, username: string, isAdmin: bool, adAccountId: Option<string>)

  /** The five public fields of the store. */
  datatype Session = Session(
    accessToken: Option<string>,
    refreshToken: Option<string>,
    userId: Option<string>,
    user: Option<UserProfile>,
    isAuthenticated: bool)

  /** The store together with the browser storage it writes. */
  datatype Snapshot = Snapshot(session: Session, storage: map<string, string>)

  const LoggedOut := Session(None, None, None, None, false)
  const AccessKey := "access_token"
  const RefreshKey := "refresh_token"

  /** `localStorage.getItem(key)` is non-null and non-empty. */
  predicate Stored(storage: map<string, string>, key: string) {
    key in storage && storage[key] != ""
  }

  /** `setTokens`: both keys written, both tokens set, authenticated; the
      user id follows the token's subject when it decodes and is otherwise
      left as it was; the profile is not touched. */
  function SetTokensStep(s: Snapshot, access: string, refresh: string, decode: JwtDecoder): Snapshot {
    var userId := match decode(access)
      case Some(claims) => Some(claims.sub)
      case None => s.session.userId;
    Snapshot(
      s.session.(accessToken := Some(access), refreshToken := Some(refresh),
                 userId := userId, isAuthenticated := true),
      s.storage[AccessKey := access][RefreshKey := refresh])
  }

  function SetUserStep(s: Snapshot, user: UserProfile): Snapshot {
    s.(session := s.session.(user := Some(user)))
  }

  /** `clearAuth`: both keys removed, every field back to its initial value. */
  function ClearAuthStep(s: Snapshot): Snapshot {
    Snapshot(LoggedOut, s.storage - {AccessKey, RefreshKey})
  }

  /** `loadFromStorage`, with whether a session was restored. The token's
      expiry is read but both of its branches do the same, so it does not
      appear here. */
  function LoadStep(s: Snapshot, decode: JwtDecoder): (Snapshot, bool) {
    if Stored(s.storage, AccessKey) && Stored(s.storage, RefreshKey) then
      var access, refresh := s.storage[AccessKey], s.storage[RefreshKey];
      match decode(access)
      case Some(claims) =>
        (s.(session := s.session.(accessToken := Some(access), refreshToken := Some(refresh),
                                  userId := Some(claims.sub), isAuthenticated := true)), true)
      case None => (s.(storage := s.storage - {AccessKey, RefreshKey}), false)
    else (s, false)
  }

  class Store {
    var accessToken: Option<string>
    var refreshToken: Option<string>
    var userId: Option<string>
    var user: Option<UserProfile>
    var isAuthenticated: bool
    /** The browser's `localStorage`. */
    var storage: map<string, string>
    const decode: JwtDecoder

    function State(): Snapshot
      reads this
    {
      Snapshot(Session(accessToken, refreshToken, userId, user, isAuthenticated), storage)
    }

    constructor (storage0: map<string, string>, decode: JwtDecoder)
      ensures State() == Snapshot(LoggedOut, storage0)
      ensures this.decode == decode
    {
      accessToken, refreshToken, userId, user, isAuthenticated := None, None, None, None, false;
      storage := storage0;
      this.decode := decode;
    }

    method SetTokens(access: string, refresh: string)
      modifies this
      ensures State() == SetTokensStep(old(State()), access, refresh, decode)
    {
      storage := storage[AccessKey := access];
      storage := storage[RefreshKey := refresh];
      match decode(access) {
        case Some(claims) =>
          accessToken, refreshToken, userId, isAuthenticated := Some(access), Some(refresh), Some(claims.sub), true;
        case None =>
          accessToken, refreshToken, isAuthenticated := Some(access), Some(refresh), true;
      }
    }

    method SetUser(u: UserProfile)
      modifies this
      ensures State() == SetUserStep(old(State()), u)
    {
      user := Some(u);
    }

    method ClearAuth()
      modifies this
      ensures State() == ClearAuthStep(old(State()))
    {
      storage := storage - {AccessKey};
      storage := storage - {RefreshKey};
      accessToken, refreshToken, userId, user, isAuthenticated := None, None, None, None, false;
    }

    /** `now` is `Date.now() / 1000`. */
    method LoadFromStorage(now: real) returns (restored: bool)
      modifies this
      ensures (State(), restored) == LoadStep(old(State()), decode)
    {
      var access := if AccessKey in storage then storage[AccessKey] else "";
      var refresh := if RefreshKey in storage then storage[RefreshKey] else "";
      if access != "" && refresh != "" {
        match decode(access) {
          case Some(claims) =>
            if claims.exp > now {
              accessToken, refreshToken, userId, isAuthenticated := Some(access), Some(refresh), Some(claims.sub), true;
              return true;
            }
            // Past `exp`: the very same update.
            accessToken, refreshToken, userId, isAuthenticated := Some(access), Some(refresh), Some(claims.sub), true;
            return true;
          case None =>
            ghost var before := storage;
            storage := storage - {AccessKey};
            storage := storage - {RefreshKey};
            assert storage == before - {AccessKey, RefreshKey};
            return false;
        }
      }
      return false;
    }
  }

  // ---------------------------------------------------------------------
  // Properties of the store's transitions

  /** Logging out twice is the same as logging out once. */
  lemma ClearAuthIdempotent(s: Snapshot)
    ensures ClearAuthStep(ClearAuthStep(s)) == ClearAuthStep(s)
  {
  }

  /** Logging out after a login leaves the fields as in a freshly started
      client and no token in storage, whatever the tokens were. */
  lemma ClearAfterSetTokens(s: Snapshot, access: string, refresh: string, decode: JwtDecoder)
    ensures var t := ClearAuthStep(SetTokensStep(s, access, refresh, decode));
      && t.session == LoggedOut
      && AccessKey !in t.storage && RefreshKey !in t.storage
      && t.storage == s.storage - {AccessKey, RefreshKey}
  {
    var mid := SetTokensStep(s, access, refresh, decode).storage;
    assert mid - {AccessKey, RefreshKey} == s.storage - {AccessKey, RefreshKey};
  }

  /** A login with an undecodable token still authenticates; the user id
      stays what it was. */
  lemma SetTokensUndecodable(s: Snapshot, access: string, refresh: string, decode: JwtDecoder)
    requires decode(access) == None
    ensures var t := SetTokensStep(s, access, refresh, decode);
      && t.session.isAuthenticated
      && t.session.userId == s.session.userId
      && t.session.user == s.session.user
      && t.storage[AccessKey] == access && t.storage[RefreshKey] == refresh
  {
  }

  /** Restoring right after a login with non-empty, decodable tokens
      succeeds and changes nothing: the login already wrote what a restore
      would read. */
  lemma LoadAfterSetTokens(s: Snapshot, access: string, refresh: string, decode: JwtDecoder)
    requires access != "" && refresh != "" && decode(access).Some?
    ensures LoadStep(SetTokensStep(s, access, refresh, decode), decode)
            == (SetTokensStep(s, access, refresh, decode), true)
  {
    var t := SetTokensStep(s, access, refresh, decode);
    assert t.storage[AccessKey] == access;
  }

  /** A restore reports success exactly when both tokens are stored and
      the access token decodes; on success it authenticates with the
      token's subject, otherwise the fields are untouched, and storage is
      cleared only when the tokens were there but did not decode. */
  lemma LoadSpec(s: Snapshot, decode: JwtDecoder)
    ensures var (t, ok) := LoadStep(s, decode);
      var present := Stored(s.storage, AccessKey) && Stored(s.storage, RefreshKey);
      && (ok <==> present && decode(s.storage[AccessKey]).Some?)
      && (ok ==> t.session.isAuthenticated && t.session.userId == Some(decode(s.storage[AccessKey]).value.sub)
                 && t.session.user == s.session.user && t.storage == s.storage)
      && (!ok ==> t.session == s.session)
      && (!present ==> t == s)
      && (present && !ok ==> t.storage == s.storage - {AccessKey, RefreshKey})
  {
  }

  // ---------------------------------------------------------------------
  // The guard's bootstrap

  /** What the guard renders. */
  datatype View = Spinner | RedirectToLogin | ChildRoute

  function Render(loading: bool, isAuthenticated: bool): View {
    if loading then Spinner else if !isAuthenticated then RedirectToLogin else ChildRoute
  }

  /** The user id the bootstrap looks up, if it looks one up: only after a
      successful restore, with a non-empty user id and no profile yet. */
  function LookupTarget(restored: bool, s: Session): Option<string> {
    if restored && s.userId.Some? && s.userId.value != "" && s.user.None? then s.userId else None
  }

  /** The whole `init` sequence as one transition; `fetchUser` is the
      profile endpoint (None when the request fails). */
  function BootStep(s: Snapshot, decode: JwtDecoder, fetchUser: string -> Option<UserProfile>): Snapshot {
    var (t, restored) := LoadStep(s, decode);
    match LookupTarget(restored, t.session)
    case None => t
    case Some(id) =>
      match fetchUser(id)
      case Some(profile) => SetUserStep(t, profile)
      case None => ClearAuthStep(t)
  }

  class Guard {
    var loading: bool
    const store: Store

    constructor (store: Store)
      ensures this.store == store && loading
    {
      this.store := store;
      loading := true;
    }

    /** The effect of `init`: one restore, at most one profile lookup, then
        `loading` off. Returns the user id that was looked up, if any. */
    method Init(now: real, fetchUser: string -> Option<UserProfile>) returns (lookedUp: Option<string>)
      modifies this, store
      ensures !loading
      ensures store.State() == BootStep(old(store.State()), store.decode, fetchUser)
      ensures lookedUp == LookupTarget(LoadStep(old(store.State()), store.decode).1,
                                       LoadStep(old(store.State()), store.decode).0.session)
    {
      lookedUp := None;
      var hasTokens := store.LoadFromStorage(now);
      if hasTokens {
        var currentUserId := store.userId;
        var currentUser := store.user;
        if currentUserId.Some? && currentUserId.value != "" && currentUser.None? {
          lookedUp := currentUserId;
          match fetchUser(currentUserId.value) {
            case Some(profile) => store.SetUser(profile);
            case None => store.ClearAuth();
          }
        }
      }
      loading := false;
    }

    /** What the guard shows once `init` has run. */
    method View() returns (v: View)
      ensures v == Render(loading, store.isAuthenticated)
    {
      v := Render(loading, store.isAuthenticated);
    }
  }

  /** A failed profile lookup during bootstrap ends the session. */
  lemma BootFailedLookupLogsOut(s: Snapshot, decode: JwtDecoder, fetchUser: string -> Option<UserProfile>)
    requires var (t, restored) := LoadStep(s, decode);
      var id := LookupTarget(restored, t.session);
      id.Some? && fetchUser(id.value).None?
    ensures BootStep(s, decode, fetchUser).session == LoggedOut
    ensures AccessKey !in BootStep(s, decode, fetchUser).storage
  {
  }

  /** From a freshly started client, bootstrap ends authenticated exactly
      when both tokens are stored, the access token decodes, and either its
      subject is empty (no lookup happens) or the profile lookup succeeds;
      once loaded, the guard redirects to the login page exactly when not
      authenticated. */
  lemma BootFromFresh(storage: map<string, string>, decode: JwtDecoder, fetchUser: string -> Option<UserProfile>)
    ensures var s := BootStep(Snapshot(LoggedOut, storage), decode, fetchUser).session;
      var ok := Stored(storage, AccessKey) && Stored(storage, RefreshKey) && decode(storage[AccessKey]).Some?;
      && (s.isAuthenticated <==>
            ok && (decode(storage[AccessKey]).value.sub == "" ||
                   fetchUser(decode(storage[AccessKey]).value.sub).Some?))
      && (Render(false, s.isAuthenticated) == RedirectToLogin <==> !s.isAuthenticated)
  {
  }
}
