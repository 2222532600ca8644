/**
 * The inactivity timeout every page runs first (includes/session.php): a
 * session whose last activity lies more than five hours back is emptied
 * and the request redirected to the login page, ending it; otherwise the
 * last activity becomes now. The clock `time()` is the `now` parameter.
 */
module SessionTimeout {
  import opened Common
  import opened Auth

  /** Five hours, in seconds. */
  const Timeout := 18000

  /** The session has a last activity, and more than `Timeout` seconds have passed since. */
  predicate Expired(s: SessionData, now: int) {
    s.lastActivity.Some? && now - s.lastActivity.value > Timeout
  }

  datatype Checked = Checked(session: SessionData, redirect: Option<string>)

  /** What the check leaves: the emptied session and the redirect, or the session stamped with now. */
  function Check(s: SessionData, now: int): (r: Checked)
    ensures r.redirect.Some? <==> Expired(s, now)
    ensures Expired(s, now) ==> r.session == EmptySession && r.redirect.value == "login.php?timeout=1"
    ensures !Expired(s, now) ==> (r.session.lastActivity == Some(now)
      && r.session == s.(lastActivity := Some(now)))
  {
    if Expired(s, now) then Checked(EmptySession, Some("login.php?timeout=1"))
    else Checked(s.(lastActivity := Some(now)), None)
  }

  /** The check on the page's `$_SESSION`. */
  method CheckActivity(store: SessionStore, now: int) returns (redirect: Option<string>)
    modifies store
    ensures store.data == Check(old(store.data), now).session
    ensures redirect == Check(old(store.data), now).redirect
  {
    if store.data.lastActivity.Some? {
      var timePassed := now - store.data.lastActivity.value;
      if timePassed > Timeout {
        store.data := EmptySession;
        redirect := Some("login.php?timeout=1");
        return;
      }
    }
    store.data := store.data.(lastActivity := Some(now));
    redirect := None;
  }

  /** Exactly five hours of inactivity is still allowed; one second more is not. */
  lemma BoundaryIsInclusive(s: SessionData, t: int)
    requires s.lastActivity == Some(t)
    ensures Check(s, t + Timeout).redirect.None?
    ensures Check(s, t + Timeout + 1).redirect == Some("login.php?timeout=1")
  {
  }

  /** A session never stamped survives its first check and is stamped then. */
  lemma FirstCheckStamps(s: SessionData, now: int)
    requires s.lastActivity.None?
    ensures Check(s, now) == Checked(s.(lastActivity := Some(now)), None)
  {
  }

  /** A surviving session expires at a later check exactly when more than five hours separate the two. */
  lemma NextCheckMeasuresFromThisOne(s: SessionData, now: int, later: int)
    requires Check(s, now).redirect.None?
    ensures Check(Check(s, now).session, later).redirect.Some? <==> later - now > Timeout
  {
  }

  /** Expiry logs the user out. */
  lemma ExpiryLogsOut(s: SessionData, now: int)
    requires Expired(s, now)
    ensures !IsLoggedIn(Check(s, now).session)
  {
  }
}
