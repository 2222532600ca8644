/**
 * The registration page's request handling (register.php, before the
 * markup): the posted fields are validated in order, each setting its own
 * message, and the user is inserted only when no message was set. The
 * format check (`filter_var`), the uniqueness query and the insert are
 * parameters; the stored password is the trimmed one (its hashing is not
 * part of this model).
 */
module Register {
  import opened Common
  import opened Php

  datatype RegisterForm = RegisterForm(email: string, username: string, password: string, confirmPassword: string)

  /** What the query for the e-mail gives: a failure to prepare or to run it, or the number of rows. */
  datatype EmailCheck = CheckPrepareFailed | CheckExecuteFailed | Matches(count: nat)

  datatype InsertOutcome = InsertPrepareFailed | InsertExecuteFailed | Inserted

  /** The values the insert is given. */
  datatype NewUser = NewUser(name: string, email: string, password: string)

  datatype Errors = Errors(email: string, username: string, password: string, confirmPassword: string)

  /** What the request leaves: a redirect, the messages, and the insert it attempted, if any. */
  datatype RegisterPage = RegisterPage(redirect: Option<string>, errors: Errors, loginErr: string,
                                       attempted: Option<NewUser>)

  const NoErrors := Errors("", "", "", "")

  /** PHP `empty(trim($x))`: blank, or "0" once trimmed. */
  predicate Blank(s: string) {
    EmptyStr(Trim(s, PhpSpace))
  }

  /** The e-mail message: empty, malformed, or already taken, in that order. */
  function EmailError(raw: string, validEmail: string -> bool, check: EmailCheck): (e: string)
    ensures e == "" <==> !Blank(raw) && validEmail(Trim(raw, PhpSpace)) && !(check.Matches? && check.count > 0)
    ensures Blank(raw) ==> e == "Please enter a email."
    ensures !Blank(raw) && !validEmail(Trim(raw, PhpSpace)) ==> e == "Invalid email format."
    ensures !Blank(raw) && validEmail(Trim(raw, PhpSpace)) && check.Matches? && check.count > 0 ==>
      e == "This email is already taken."
  {
    if Blank(raw) then "Please enter a email."
    else if !validEmail(Trim(raw, PhpSpace)) then "Invalid email format."
    else if check.Matches? && check.count > 0 then "This email is already taken."
    else ""
  }

  /** The password message: blank, or shorter than six bytes once trimmed. */
  function PasswordError(raw: string): (e: string)
    ensures e == "" <==> !Blank(raw) && StrLen(Trim(raw, PhpSpace)) >= 6
    ensures Blank(raw) ==> e == "Please enter a password."
    ensures !Blank(raw) && StrLen(Trim(raw, PhpSpace)) < 6 ==> e == "Password must have at least 6 characters."
  {
    if Blank(raw) then "Please enter a password."
    else if StrLen(Trim(raw, PhpSpace)) < 6 then "Password must have at least 6 characters."
    else ""
  }

  /** `strlen` counts bytes: three two-byte letters already make six. */
  lemma MultibytePasswordLongEnough()
    ensures PasswordError([0xE9 as char, 0xE9 as char, 0xE9 as char]) == ""
  {
    var p := [0xE9 as char, 0xE9 as char, 0xE9 as char];
    assert TrimLeft(p, PhpSpace) == p;
    assert TrimRight(p, PhpSpace) == p;
    assert Utf8Width(0xE9 as char) == 2;
    assert StrLen(p[..1]) == StrLen([]) + 2 by { assert p[..1][..0] == []; }
    assert StrLen(p[..2]) == StrLen(p[..1]) + 2 by { assert p[..2][..1] == p[..1]; }
    assert StrLen(p) == StrLen(p[..2]) + 2;
  }

  /** The messages the form earns; the uniqueness answer matters only for a well-formed address. */
  function FormErrors(form: RegisterForm, validEmail: string -> bool, check: EmailCheck): (errs: Errors)
    ensures errs.email == EmailError(form.email, validEmail, check)
    ensures errs.username == "" <==> !Blank(form.username)
    ensures Blank(form.username) ==> errs.username == "Please enter a username."
    ensures Blank(form.confirmPassword) ==> errs.confirmPassword == "Please confirm password."
    ensures !Blank(form.confirmPassword) && PasswordError(form.password) == ""
            && Trim(form.password, PhpSpace) != Trim(form.confirmPassword, PhpSpace) ==>
      errs.confirmPassword == "Password did not match."
    ensures errs.password == PasswordError(form.password)
    ensures errs.confirmPassword == "Password did not match." ==>
      errs.password == "" && Trim(form.password, PhpSpace) != Trim(form.confirmPassword, PhpSpace)
    ensures errs.confirmPassword == "" <==>
      !Blank(form.confirmPassword)
      && (PasswordError(form.password) == "" ==> Trim(form.password, PhpSpace) == Trim(form.confirmPassword, PhpSpace))
  {
    var confirm :=
      if Blank(form.confirmPassword) then "Please confirm password."
      else if PasswordError(form.password) == "" && Trim(form.password, PhpSpace) != Trim(form.confirmPassword, PhpSpace)
      then "Password did not match."
      else "";
    Errors(EmailError(form.email, validEmail, check),
           if Blank(form.username) then "Please enter a username." else "",
           PasswordError(form.password), confirm)
  }

  /**
   * The e-mail the insert uses: the trimmed address once the query found
   * no row; "" when the query could not be prepared or run.
   */
  function KeptEmail(form: RegisterForm, validEmail: string -> bool, check: EmailCheck): string {
    if !Blank(form.email) && validEmail(Trim(form.email, PhpSpace)) && check == Matches(0)
    then Trim(form.email, PhpSpace) else ""
  }

  /** The insert the request attempts: only when every message is empty. */
  function Attempt(form: RegisterForm, validEmail: string -> bool, check: EmailCheck): (u: Option<NewUser>)
    ensures u.Some? <==> FormErrors(form, validEmail, check) == NoErrors
    ensures u.Some? ==> u.value.name == Trim(form.username, PhpSpace) && u.value.password == Trim(form.password, PhpSpace)
  {
    if FormErrors(form, validEmail, check) == NoErrors then
      Some(NewUser(Trim(form.username, PhpSpace), KeptEmail(form, validEmail, check), Trim(form.password, PhpSpace)))
    else None
  }

  const CheckOops := "Oops! Something went wrong. Please try again later!"
  const InsertOops := "Oops! Something went wrong. Please try again later !!"

  /** The uniqueness query ran for a well-formed address and could not be executed. */
  predicate CheckFailedMessage(form: RegisterForm, validEmail: string -> bool, check: EmailCheck) {
    !Blank(form.email) && validEmail(Trim(form.email, PhpSpace)) && check.CheckExecuteFailed?
  }

  /** The e-mail statements: its message, the address kept for the insert, and the query's failure message. */
  method ValidateEmail(form: RegisterForm, validEmail: string -> bool, check: EmailCheck)
    returns (emailErr: string, email: string, loginErr: string)
    ensures emailErr == EmailError(form.email, validEmail, check)
    ensures email == KeptEmail(form, validEmail, check)
    ensures loginErr == (if CheckFailedMessage(form, validEmail, check) then CheckOops else "")
  {
    emailErr, email, loginErr := "", "", "";
    if Blank(form.email) {
      emailErr := "Please enter a email.";
    } else if !validEmail(Trim(form.email, PhpSpace)) {
      emailErr := "Invalid email format.";
    } else if check.CheckExecuteFailed? {
      loginErr := CheckOops;
    } else if check.Matches? {
      if check.count > 0 {
        emailErr := "This email is already taken.";
      } else {
        email := Trim(form.email, PhpSpace);
      }
    }
  }

  /** The password statements: its message, and the trimmed password once it is accepted. */
  method ValidatePassword(raw: string) returns (passwordErr: string, password: string)
    ensures passwordErr == PasswordError(raw)
    ensures passwordErr == "" ==> password == Trim(raw, PhpSpace)
  {
    password := "";
    if Blank(raw) {
      passwordErr := "Please enter a password.";
    } else if StrLen(Trim(raw, PhpSpace)) < 6 {
      passwordErr := "Password must have at least 6 characters.";
    } else {
      passwordErr := "";
      password := Trim(raw, PhpSpace);
    }
  }

  /** The validation statements: the four messages and the values kept for the insert. */
  method Validate(form: RegisterForm, validEmail: string -> bool, check: EmailCheck)
    returns (errors: Errors, kept: NewUser, loginErr: string)
    ensures errors == FormErrors(form, validEmail, check)
    ensures errors == NoErrors ==> kept == Attempt(form, validEmail, check).value
    ensures loginErr == (if CheckFailedMessage(form, validEmail, check) then CheckOops else "")
  {
    var emailErr, email, checkErr := ValidateEmail(form, validEmail, check);
    loginErr := checkErr;

    var username, usernameErr := "", "";
    if Blank(form.username) {
      usernameErr := "Please enter a username.";
    } else {
      username := Trim(form.username, PhpSpace);
    }

    var passwordErr, password := ValidatePassword(form.password);

    var confirmErr := "";
    if Blank(form.confirmPassword) {
      confirmErr := "Please confirm password.";
    } else {
      var confirm := Trim(form.confirmPassword, PhpSpace);
      if passwordErr == "" && password != confirm {
        confirmErr := "Password did not match.";
      }
    }
    errors := Errors(emailErr, usernameErr, passwordErr, confirmErr);
    kept := NewUser(username, email, password);
  }

  /** The page's handling, statement by statement; `post` is None for a request that is not a POST. */
  method HandleRegister(post: Option<RegisterForm>, validEmail: string -> bool,
                        countEmail: string -> EmailCheck, insert: NewUser -> InsertOutcome)
    returns (page: RegisterPage)
    ensures post.None? ==> page == RegisterPage(None, NoErrors, "", None)
    ensures post.Some? ==>
      var check := countEmail(Trim(post.value.email, PhpSpace));
      var u := Attempt(post.value, validEmail, check);
      page.errors == FormErrors(post.value, validEmail, check)
      && page.attempted == u
      && (page.redirect.Some? <==> u.Some? && insert(u.value) == Inserted)
      && (page.redirect.Some? ==> page.redirect.value == "login.php?registered=1")
      && (u.Some? && insert(u.value) == InsertExecuteFailed ==> page.loginErr == InsertOops)
      && (!(u.Some? && insert(u.value) == InsertExecuteFailed) ==>
            page.loginErr == (if CheckFailedMessage(post.value, validEmail, check) then CheckOops else ""))
  {
    if post.None? {
      return RegisterPage(None, NoErrors, "", None);
    }
    var check := countEmail(Trim(post.value.email, PhpSpace));
    var errors, kept, loginErr := Validate(post.value, validEmail, check);
    var attempted: Option<NewUser> := None;
    var redirect: Option<string> := None;
    if errors == NoErrors {
      attempted := Some(kept);
      var outcome := insert(kept);
      if outcome.Inserted? {
        redirect := Some("login.php?registered=1");
      } else if outcome.InsertExecuteFailed? {
        loginErr := InsertOops;
      }
    }
    page := RegisterPage(redirect, errors, loginErr, attempted);
  }

  /**
   * When the uniqueness query cannot be prepared or run, no message is
   * set, so an otherwise valid form is inserted with an empty e-mail.
   */
  lemma FailedCheckInsertsBlankEmail(form: RegisterForm, validEmail: string -> bool, check: EmailCheck)
    requires check.CheckPrepareFailed? || check.CheckExecuteFailed?
    requires !Blank(form.email) && validEmail(Trim(form.email, PhpSpace))
    requires FormErrors(form, validEmail, Matches(0)) == NoErrors
    ensures Attempt(form, validEmail, check).Some?
    ensures Attempt(form, validEmail, check).value.email == ""
  {
  }

  /** Once the uniqueness check succeeded, the insert uses the trimmed address. */
  lemma ValidFormKeepsEmail(form: RegisterForm, validEmail: string -> bool)
    requires FormErrors(form, validEmail, Matches(0)) == NoErrors
    ensures Attempt(form, validEmail, Matches(0)) ==
      Some(NewUser(Trim(form.username, PhpSpace), Trim(form.email, PhpSpace), Trim(form.password, PhpSpace)))
  {
  }

  /** A blank or malformed address is reported the same whatever the uniqueness query says. */
  lemma MalformedEmailSkipsCheck(form: RegisterForm, validEmail: string -> bool, c1: EmailCheck, c2: EmailCheck)
    requires Blank(form.email) || !validEmail(Trim(form.email, PhpSpace))
    ensures FormErrors(form, validEmail, c1) == FormErrors(form, validEmail, c2)
    ensures Attempt(form, validEmail, c1).None?
  {
  }

  /** A taken address is never inserted. */
  lemma TakenEmailNotInserted(form: RegisterForm, validEmail: string -> bool, count: nat)
    requires !Blank(form.email) && validEmail(Trim(form.email, PhpSpace)) && count > 0
    ensures FormErrors(form, validEmail, Matches(count)).email == "This email is already taken."
    ensures Attempt(form, validEmail, Matches(count)).None?
  {
  }
}
