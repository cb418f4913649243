/**
 * The session logic of the frontend's root component (frontend/src/App.jsx):
 * the four session fields, the record persisted under `eventhub_auth_session`
 * in local storage, loading that record at start-up, the login and logout
 * handlers, and the route guard.
 */
module AppSession {
  import opened JsText
  import opened JsValues
  import opened UiModel

  /**
   * A JSON value as `JSON.parse` gives it back. A missing property reads as
   * `undefined`, which every use here treats like `null`, so it is `JNull`.
   */
  datatype Json = JNull | JBool(b: bool) | JNum(r: real) | JStr(s: string) | JComposite

  /** `Boolean(v)` */
  predicate JsonTruthy(v: Json) {
    match v
    case JNull => false
    case JBool(b) => b
    case JNum(r) => r != 0.0
    case JStr(s) => s != ""
    case JComposite => true
  }

  /** `Number(v)`; `num` is what `Number` gives for a string. */
  function JsonNumber(v: Json, num: string -> JsNumber): JsNumber {
    match v
    case JNull => Finite(0.0)
    case JBool(b) => Finite(if b then 1.0 else 0.0)
    case JNum(r) => Finite(r)
    case JStr(s) => num(s)
    case JComposite => NaN
  }

  /** The four session fields held in the component's state. */
  datatype Session = Session(isLoggedIn: bool, currentUser: JsName, currentUserId: Option<int>, userRole: JsName)

  const LOGGED_OUT: Session := Session(false, Null, None, Null)

  /**
   * The parsed session record. The user name and role are strings, `null`
   * or missing (`Undefined`, which is how `JSON.stringify` drops an
   * `undefined` field); the other two fields may hold any JSON value.
   */
  datatype StoredRecord = StoredRecord(isLoggedIn: Json, currentUser: JsName, currentUserId: Json, userRole: JsName)

  /** The storage entry: absent or empty, not valid JSON, or a parsed record. */
  datatype Stored = Missing | Unparsable | Parsed(rec: StoredRecord)

  /** `Number.isInteger(n) && n > 0 ? n : null` */
  function PositiveId(n: JsNumber): (id: Option<int>)
    ensures id.Some? <==> IsInteger(n) && n.value > 0.0
    ensures id.Some? ==> id.value > 0 && FromInt(id.value) == n
  {
    if IsInteger(n) && n.value > 0.0 then Some(n.value.Floor) else None
  }

  /** `v || null` for a stored name. */
  function NameOrNull(v: JsName): (r: JsName)
    ensures Truthy(v) ==> r == v
    ensures !Truthy(v) ==> r == Null
  {
    if Truthy(v) then v else Null
  }

  /** `loadAuthSession()` */
  function LoadAuthSession(stored: Stored, num: string -> JsNumber): (s: Session)
    ensures !stored.Parsed? ==> s == LOGGED_OUT
    ensures s.currentUserId.None? || s.currentUserId.value > 0
    ensures s.isLoggedIn ==> s.currentUserId.Some?
    ensures stored.Parsed? && JsonTruthy(stored.rec.isLoggedIn) && PositiveId(JsonNumber(stored.rec.currentUserId, num)).None? ==>
      s == LOGGED_OUT
    ensures stored.Parsed? && PositiveId(JsonNumber(stored.rec.currentUserId, num)).Some? ==>
      s == Session(JsonTruthy(stored.rec.isLoggedIn), NameOrNull(stored.rec.currentUser),
                   PositiveId(JsonNumber(stored.rec.currentUserId, num)), NameOrNull(stored.rec.userRole))
  {
    match stored
    case Missing => LOGGED_OUT
    case Unparsable => LOGGED_OUT
    case Parsed(rec) =>
      var isLoggedIn := JsonTruthy(rec.isLoggedIn);
      var currentUserId := PositiveId(JsonNumber(rec.currentUserId, num));
      if isLoggedIn && currentUserId.None? then LOGGED_OUT
      else Session(isLoggedIn, NameOrNull(rec.currentUser), currentUserId, NameOrNull(rec.userRole))
  }

  /** The record the persistence effect writes: `JSON.stringify` of the four fields, read back by `JSON.parse`. */
  function Persist(s: Session): (rec: StoredRecord)
    ensures rec.isLoggedIn == JBool(s.isLoggedIn)
    ensures rec.currentUser == s.currentUser && rec.userRole == s.userRole
    ensures s.currentUserId.None? <==> rec.currentUserId == JNull
  {
    StoredRecord(JBool(s.isLoggedIn), s.currentUser,
                 if s.currentUserId.Some? then JNum(s.currentUserId.value as real) else JNull,
                 s.userRole)
  }

  /** The sessions that survive a reload unchanged. */
  predicate WellFormed(s: Session) {
    && (s.currentUserId.None? || s.currentUserId.value > 0)
    && (s.isLoggedIn ==> s.currentUserId.Some?)
    && (s.currentUser == Null || Truthy(s.currentUser))
    && (s.userRole == Null || Truthy(s.userRole))
  }

  /** Persisting a session and loading it again gives the same session exactly when it is well formed. */
  lemma PersistLoadRoundTrip(s: Session, num: string -> JsNumber)
    ensures LoadAuthSession(Parsed(Persist(s)), num) == s <==> WellFormed(s)
  {
    if s.currentUserId.Some? {
      assert JsonNumber(Persist(s).currentUserId, num) == FromInt(s.currentUserId.value);
    }
  }

  /** The logged-out session loads as itself, and so does a missing entry. */
  lemma LoggedOutSurvivesReload(num: string -> JsNumber)
    ensures LoadAuthSession(Parsed(Persist(LOGGED_OUT)), num) == LOGGED_OUT
    ensures LoadAuthSession(Missing, num) == LOGGED_OUT
  {
    PersistLoadRoundTrip(LOGGED_OUT, num);
  }

  /** Where `ProtectedRoute` sends the user. */
  datatype RouteDecision = RedirectToLogin | RedirectToHome | RenderChildren

  /** `ProtectedRoute`; `RedirectToHome` is also when `onUnauthorized` is called. */
  function ProtectedRoute(requireAdmin: bool, isLoggedIn: bool, userRole: JsName): (d: RouteDecision)
    ensures !isLoggedIn <==> d == RedirectToLogin
    ensures d == RedirectToHome <==> isLoggedIn && requireAdmin && !IsAdmin(userRole)
    ensures d == RenderChildren <==> isLoggedIn && (!requireAdmin || IsAdmin(userRole))
  {
    if !isLoggedIn then RedirectToLogin
    else if requireAdmin && !IsAdmin(userRole) then RedirectToHome
    else RenderChildren
  }

  /** The user object `handleLogin` receives; a name or role that is not a string is not modelled. */
  datatype LoginUser = LoginUser(id: Option<int>, username: JsName, name: JsName, role: JsName)

  /** `user?.username || user?.name || "user"` */
  function ResolveUsername(user: LoginUser): (name: string)
    ensures name != ""
    ensures Truthy(user.username) ==> name == user.username.text
    ensures !Truthy(user.username) && Truthy(user.name) ==> name == user.name.text
    ensures !Truthy(user.username) && !Truthy(user.name) ==> name == "user"
  {
    if Truthy(user.username) then user.username.text
    else if Truthy(user.name) then user.name.text
    else "user"
  }

  /** `user?.role || (String(resolvedUsername).toLowerCase() === "admin" ? "admin" : "user")` */
  function ResolveRole(user: LoginUser): (role: string)
    ensures role != ""
    ensures Truthy(user.role) ==> role == user.role.text
    ensures !Truthy(user.role) ==> (role == "admin" <==> ToLower(ResolveUsername(user)) == "admin")
    ensures !Truthy(user.role) ==> role == "admin" || role == "user"
  {
    if Truthy(user.role) then user.role.text
    else if ToLower(ResolveUsername(user)) == "admin" then "admin"
    else "user"
  }

  /** The session `handleLogin` sets. */
  function LoginSession(user: LoginUser): (s: Session)
    ensures s.isLoggedIn && s.currentUserId == user.id
    ensures s.currentUser == Name(ResolveUsername(user)) && s.userRole == Name(ResolveRole(user))
  {
    Session(true, Name(ResolveUsername(user)), user.id, Name(ResolveRole(user)))
  }

  /**
   * A login survives a reload exactly when its user has a positive id; one
   * without an id, or with the id 0 or a negative one, is logged out by it.
   */
  lemma LoginSurvivesReloadIffId(user: LoginUser, num: string -> JsNumber)
    ensures LoadAuthSession(Parsed(Persist(LoginSession(user))), num) == LoginSession(user) <==> user.id.Some? && user.id.value > 0
    ensures !(user.id.Some? && user.id.value > 0) ==> LoadAuthSession(Parsed(Persist(LoginSession(user))), num) == LOGGED_OUT
  {
    PersistLoadRoundTrip(LoginSession(user), num);
    if user.id.Some? {
      assert JsonNumber(Persist(LoginSession(user)).currentUserId, num) == FromInt(user.id.value);
    }
  }

  /** The session state and its storage entry. */
  class AuthState {
    var isLoggedIn: bool
    var currentUser: JsName
    var currentUserId: Option<int>
    var userRole: JsName
    var stored: Stored
    /** Whether the last write of the persistence effect succeeded. */
    ghost var synced: bool

    function Current(): Session
      reads this
    {
      Session(isLoggedIn, currentUser, currentUserId, userRole)
    }

    /**
     * After a successful write the storage entry holds the current session,
     * except right after a logout from an already logged-out state, when the
     * entry was removed and the persistence effect, whose inputs did not
     * change, did not run. A failed write is ignored, so the entry may then
     * hold an older session.
     */
    ghost predicate Valid()
      reads this
    {
      synced ==> stored == Parsed(Persist(Current())) || (stored == Missing && Current() == LOGGED_OUT)
    }

    /**
     * Start-up: the state is loaded from the entry, and the persistence effect
     * then writes it back on mount; a failed write leaves the entry as it was.
     */
    constructor(initial: Stored, num: string -> JsNumber, writeFails: bool)
      ensures Valid()
      ensures Current() == LoadAuthSession(initial, num)
      ensures stored == if writeFails then initial else Parsed(Persist(Current()))
      ensures synced == !writeFails
    {
      var s := LoadAuthSession(initial, num);
      isLoggedIn := s.isLoggedIn;
      currentUser := s.currentUser;
      currentUserId := s.currentUserId;
      userRole := s.userRole;
      if writeFails {
        stored := initial;
      } else {
        stored := Parsed(Persist(s));
      }
      synced := !writeFails;
    }

    /**
     * The effect on `[isLoggedIn, currentUser, currentUserId, userRole]`: it
     * runs only when one of them changed, and a failed `setItem` is caught
     * and leaves the entry unchanged.
     */
    method PersistIfChanged(before: Session, writeFails: bool)
      modifies this
      ensures Current() == old(Current())
      ensures before != Current() ==> stored == if writeFails then old(stored) else Parsed(Persist(Current()))
      ensures before != Current() ==> synced == !writeFails
      ensures before == Current() ==> stored == old(stored) && synced == old(synced)
    {
      if before != Current() {
        if !writeFails {
          stored := Parsed(Persist(Current()));
        }
        synced := !writeFails;
      }
    }

    /** `handleLogin(user)` followed by the persistence effect. */
    method Login(user: LoginUser, writeFails: bool)
      requires Valid()
      modifies this
      ensures Valid()
      ensures Current() == LoginSession(user)
      ensures old(Current()) != LoginSession(user) ==>
        stored == if writeFails then old(stored) else Parsed(Persist(LoginSession(user)))
      ensures old(Current()) == LoginSession(user) ==> stored == old(stored)
      ensures synced ==> stored == Parsed(Persist(LoginSession(user)))
      ensures old(synced) && !writeFails ==> stored == Parsed(Persist(LoginSession(user)))
    {
      var before := Current();
      isLoggedIn := true;
      currentUser := Name(ResolveUsername(user));
      currentUserId := user.id;
      userRole := Name(ResolveRole(user));
      PersistIfChanged(before, writeFails);
    }

    /** `handleLogout()` followed by the persistence effect. */
    method Logout(writeFails: bool)
      requires Valid()
      modifies this
      ensures Valid()
      ensures Current() == LOGGED_OUT
      ensures old(Current()) == LOGGED_OUT ==> stored == Missing
      ensures old(Current()) != LOGGED_OUT ==> stored == if writeFails then Missing else Parsed(Persist(LOGGED_OUT))
    {
      var before := Current();
      isLoggedIn := false;
      currentUser := Null;
      currentUserId := None;
      userRole := Null;
      stored := Missing;
      PersistIfChanged(before, writeFails);
    }
  }

  /** Whatever the storage holds after a logout, a reload starts logged out. */
  lemma LogoutSurvivesReload(stored: Stored, num: string -> JsNumber)
    requires stored == Missing || stored == Parsed(Persist(LOGGED_OUT))
    ensures LoadAuthSession(stored, num) == LOGGED_OUT
  {
    LoggedOutSurvivesReload(num);
  }
}
