/**
 * The login page's request handling (login.php, before the markup): a
 * logged-in visitor is sent to the dashboard; a posted form is checked
 * field by field, then the user is looked up by e-mail and the password
 * verified, and only a full success writes the session. The statement
 * preparation, query and `password_verify` are the `lookup` and `verify`
 * parameters; the clock is `now`.
 */
module Login {
  import opened Common
  import opened Php
  import opened Auth
  import SessionTimeout

  /** A user row: id, name and password hash. */
  datatype UserRecord = UserRecord(id: int, name: string, hash: string)

  /** What the lookup by e-mail gives; preparing the statement can fail, and so can running it. */
  datatype UserLookup = PrepareFailed | ExecuteFailed | Rows(users: seq<UserRecord>)

  /** The raw posted fields. */
  datatype LoginForm = LoginForm(email: string, password: string)

  /** What the request leaves for the page: a redirect, or the form's value and messages. */
  datatype LoginPage = LoginPage(redirect: Option<string>, email: string,
                                 emailErr: string, passwordErr: string, loginErr: string)

  datatype LoginResult = LoginResult(session: SessionData, page: LoginPage)

  const LoginTarget := "frontend/index.html"
  const BlankPage := LoginPage(None, "", "", "", "")

  /** The session a successful login leaves: id, name, activity stamp and the just-logged-in flag. */
  function LoggedIn(s: SessionData, user: UserRecord, now: int): SessionData {
    s.(userId := Some(user.id), username := Some(user.name), lastActivity := Some(now), justLoggedIn := Some(1))
  }

  /** Both fields are filled in (not empty, nor "0", once trimmed). */
  predicate FieldsFilled(form: LoginForm) {
    !EmptyStr(Trim(form.email, PhpSpace)) && !EmptyStr(Trim(form.password, PhpSpace))
  }

  /** The lookup found exactly one user, whose hash accepts the password. */
  predicate Accepted(form: LoginForm, lookup: string -> UserLookup, verify: (string, string) -> bool) {
    var found := lookup(Trim(form.email, PhpSpace));
    found.Rows? && |found.users| == 1 && verify(Trim(form.password, PhpSpace), found.users[0].hash)
  }

  /** The message of a lookup that did not log the user in. */
  function LookupError(found: UserLookup): (e: string)
    ensures found.PrepareFailed? ==> e == ""
    ensures found.ExecuteFailed? ==> e == "Oops! Something went wrong. Please try again later."
    ensures found.Rows? && |found.users| == 1 ==> e == "Invalid password."
    ensures found.Rows? && |found.users| != 1 ==> e == "Invalid email"
  {
    match found
    case PrepareFailed => ""
    case ExecuteFailed => "Oops! Something went wrong. Please try again later."
    case Rows(users) => if |users| == 1 then "Invalid password." else "Invalid email"
  }

  /** The outcome of one request to the page; `post` is None for a request that is not a POST. */
  function LoginDecision(s: SessionData, post: Option<LoginForm>, lookup: string -> UserLookup,
                         verify: (string, string) -> bool, now: int): (r: LoginResult)
    ensures IsLoggedIn(s) ==> r == LoginResult(s, LoginPage(Some("dashboard.php"), "", "", "", ""))
    ensures !IsLoggedIn(s) && post.None? ==> r == LoginResult(s, BlankPage)
    ensures r.page.redirect == Some(LoginTarget) <==>
      !IsLoggedIn(s) && post.Some? && FieldsFilled(post.value) && Accepted(post.value, lookup, verify)
    ensures r.page.redirect == Some(LoginTarget) ==>
      r.session == LoggedIn(s, lookup(Trim(post.value.email, PhpSpace)).users[0], now)
    ensures r.page.redirect != Some(LoginTarget) ==> r.session == s
    ensures r.session.role == s.role
    ensures !IsLoggedIn(s) && post.Some? ==>
      var email := Trim(post.value.email, PhpSpace);
      (r.page.emailErr == "Please enter email." <==> EmptyStr(email))
      && (r.page.emailErr != "Please enter email." ==> r.page.emailErr == "" && r.page.email == email)
      && (r.page.passwordErr == "Please enter your password." <==> EmptyStr(Trim(post.value.password, PhpSpace)))
      && (r.page.passwordErr != "Please enter your password." ==> r.page.passwordErr == "")
    ensures !IsLoggedIn(s) && post.Some? && !FieldsFilled(post.value) ==> r.page.loginErr == ""
    ensures !IsLoggedIn(s) && post.Some? && FieldsFilled(post.value) && !Accepted(post.value, lookup, verify) ==>
      r.page.loginErr == LookupError(lookup(Trim(post.value.email, PhpSpace)))
  {
    if IsLoggedIn(s) then LoginResult(s, LoginPage(Some("dashboard.php"), "", "", "", ""))
    else if post.None? then LoginResult(s, BlankPage)
    else
      var form := post.value;
      var email := Trim(form.email, PhpSpace);
      var password := Trim(form.password, PhpSpace);
      var emailErr := if EmptyStr(email) then "Please enter email." else "";
      var passwordErr := if EmptyStr(password) then "Please enter your password." else "";
      var shown := if EmptyStr(email) then "" else email;
      if !FieldsFilled(form) then LoginResult(s, LoginPage(None, shown, emailErr, passwordErr, ""))
      else if Accepted(form, lookup, verify) then
        LoginResult(LoggedIn(s, lookup(email).users[0], now), LoginPage(Some(LoginTarget), email, "", "", ""))
      else LoginResult(s, LoginPage(None, email, "", "", LookupError(lookup(email))))
  }

  /** The page's handling, statement by statement, on the request's `$_SESSION`. */
  method HandleLogin(store: SessionStore, post: Option<LoginForm>, lookup: string -> UserLookup,
                     verify: (string, string) -> bool, now: int) returns (page: LoginPage)
    modifies store
    ensures store.data == LoginDecision(old(store.data), post, lookup, verify, now).session
    ensures page == LoginDecision(old(store.data), post, lookup, verify, now).page
  {
    if store.data.userId.Some? {
      return LoginPage(Some("dashboard.php"), "", "", "", "");
    }
    var email, password := "", "";
    var emailErr, passwordErr, loginErr := "", "", "";
    if post.Some? {
      if EmptyStr(Trim(post.value.email, PhpSpace)) {
        emailErr := "Please enter email.";
      } else {
        email := Trim(post.value.email, PhpSpace);
      }
      if EmptyStr(Trim(post.value.password, PhpSpace)) {
        passwordErr := "Please enter your password.";
      } else {
        password := Trim(post.value.password, PhpSpace);
      }
      if emailErr == "" && passwordErr == "" {
        var found := lookup(email);
        if found.ExecuteFailed? {
          loginErr := "Oops! Something went wrong. Please try again later.";
        } else if found.Rows? {
          if |found.users| == 1 {
            var user := found.users[0];
            if verify(password, user.hash) {
              store.data := store.data.(userId := Some(user.id), username := Some(user.name),
                                        lastActivity := Some(now), justLoggedIn := Some(1));
              return LoginPage(Some(LoginTarget), email, "", "", "");
            } else {
              loginErr := "Invalid password.";
            }
          } else {
            loginErr := "Invalid email";
          }
        }
      }
    }
    page := LoginPage(None, email, emailErr, passwordErr, loginErr);
  }

  /** A form with a blank field never reaches the database: the answer is the same for any lookup. */
  lemma BlankFieldSkipsLookup(s: SessionData, form: LoginForm, l1: string -> UserLookup, l2: string -> UserLookup,
                              v1: (string, string) -> bool, v2: (string, string) -> bool, now: int)
    requires !FieldsFilled(form)
    ensures LoginDecision(s, Some(form), l1, v1, now) == LoginDecision(s, Some(form), l2, v2, now)
  {
  }

  /** A successful login leaves a logged-in session that survives the timeout check at the same moment. */
  lemma LoginSurvivesTimeoutCheck(s: SessionData, form: LoginForm, lookup: string -> UserLookup,
                                  verify: (string, string) -> bool, now: int)
    requires LoginDecision(s, Some(form), lookup, verify, now).page.redirect == Some(LoginTarget)
    ensures var after := LoginDecision(s, Some(form), lookup, verify, now).session;
      IsLoggedIn(after) && SessionTimeout.Check(after, now).redirect.None?
  {
  }

  /** Logging in does not grant manager rights: a session without a role stays without one. */
  lemma LoginGrantsNoRole(s: SessionData, post: Option<LoginForm>, lookup: string -> UserLookup,
                          verify: (string, string) -> bool, now: int)
    requires s.role.None?
    ensures !IsManager(LoginDecision(s, post, lookup, verify, now).session)
  {
  }
}
