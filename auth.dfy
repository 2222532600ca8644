/**
 * The session and the role checks over it (includes/auth.php). `$_SESSION`
 * is a record of the keys the application uses; a key that is unset, or
 * set to null, is None (which is what `isset` and `??` see).
 */
module Auth {
  import opened Common

  datatype SessionData = SessionData(
    userId: Option<int>,
    username: Option<string>,
    role: Option<string>,
    userType: Option<int>,
    lastActivity: Option<int>,
    justLoggedIn: Option<int>,
    errorMsg: Option<string>,
    successMsg: Option<string>)

  /** A fresh session, and what `session_unset` leaves. */
  const EmptySession := SessionData(None, None, None, None, None, None, None, None)

  /** The `$_SESSION` of one request, which the pages read and write. */
  class SessionStore {
    var data: SessionData

    constructor ()
      ensures data == EmptySession
    {
      data := EmptySession;
    }
  }

  /** `isLoggedIn`: `user_id` is set. */
  function IsLoggedIn(s: SessionData): (b: bool)
    ensures b <==> s.userId.Some?
  {
    s.userId.Some?
  }

  /** `getCurrentUserId`: the id, or null when unset. */
  function GetCurrentUserId(s: SessionData): (id: Option<int>)
    ensures id.Some? <==> IsLoggedIn(s)
    ensures id.Some? ==> id.value == s.userId.value
  {
    s.userId
  }

  /** `getCurrentUsername`: the name, or null when unset. */
  function GetCurrentUsername(s: SessionData): (name: Option<string>)
    ensures name.None? <==> s.username.None?
    ensures name.Some? ==> name.value == s.username.value
  {
    s.username
  }

  /** `isManager`: the role is exactly 'manager' or 'super'. */
  function IsManager(s: SessionData): (b: bool)
    ensures b <==> s.role.Some? && (s.role.value == "manager" || s.role.value == "super")
  {
    s.role == Some("manager") || s.role == Some("super")
  }

  /** `isSuper`: the role is exactly 'super'. */
  function IsSuper(s: SessionData): (b: bool)
    ensures b <==> s.role.Some? && s.role.value == "super"
  {
    s.role == Some("super")
  }

  /** Every super user passes the manager check; a role of 'user', or none, passes neither. */
  lemma RoleOrder(s: SessionData)
    ensures IsSuper(s) ==> IsManager(s)
    ensures GetCurrentUserRole(s) == "user" ==> !IsManager(s) && !IsSuper(s)
  {
  }

  /** `getCurrentUserRole`: the role, or 'user' when unset. */
  function GetCurrentUserRole(s: SessionData): (role: string)
    ensures s.role.Some? ==> role == s.role.value
    ensures s.role.None? ==> role == "user"
  {
    s.role.GetOr("user")
  }

  /** `requireLogin`: the page it redirects to, or None when the request may go on. */
  function RequireLogin(s: SessionData): (redirect: Option<string>)
    ensures redirect.None? <==> IsLoggedIn(s)
    ensures redirect.Some? ==> redirect.value == "login.php"
  {
    if IsLoggedIn(s) then None else Some("login.php")
  }

  /** `requireManager`: only a logged-in manager goes on; anyone else is sent to the dashboard. */
  function RequireManager(s: SessionData): (redirect: Option<string>)
    ensures redirect.None? <==> IsLoggedIn(s) && IsManager(s)
    ensures redirect.Some? ==> redirect.value == "dashboard.php"
  {
    if !IsLoggedIn(s) || !IsManager(s) then Some("dashboard.php") else None
  }

  /** Passing the manager guard implies passing the login guard. */
  lemma ManagerGuardImpliesLoginGuard(s: SessionData)
    requires RequireManager(s).None?
    ensures RequireLogin(s).None?
  {
  }
}
