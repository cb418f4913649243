/**
 * The sign-in page (frontend/src/pages/Login.jsx): the three form
 * validators, the request each handler sends once its form is valid, the
 * page state the handlers leave behind, the user object handed to the app on
 * sign-in, and the demo-account provisioning payloads and the classification
 * of their failures. The page reuses the response parsing of
 * `EventsApi.ParseApiResponse`, of which it holds a copy.
 */
module LoginPage {
  import opened JsText
  import opened JsValues
  import opened UiModel
  import AppSession

  const USER_ROLE: string := "user"
  const ADMIN_ROLE: string := "admin"
  const MIN_PASSWORD_LENGTH: nat := 6

  const USERNAME_REQUIRED: string := "Username is required"
  const EMAIL_REQUIRED: string := "Email is required"
  const PASSWORD_REQUIRED: string := "Password is required"
  const NEW_PASSWORD_REQUIRED: string := "New password is required"
  const PASSWORD_TOO_SHORT: string := "Password must be at least 6 characters"
  const CONFIRM_PASSWORD: string := "Confirm your password"
  const CONFIRM_NEW_PASSWORD: string := "Confirm your new password"
  const PASSWORDS_DIFFER: string := "Passwords do not match"
  const INVALID_ROLE: string := "Please select a valid role"
  const INVITE_KEY_REQUIRED: string := "Admin invite key is required"

  // ---------------------------------------------------------------------------
  // Validators

  datatype SignInForm = SignInForm(username: string, password: string)

  datatype SignInErrors = SignInErrors(username: Option<string>, password: Option<string>)
  {
    predicate Any() { username.Some? || password.Some? }
  }

  /** The errors `validateSignIn` reports. */
  function SignInErrorsOf(f: SignInForm): (e: SignInErrors)
    ensures !e.Any() <==> Trim(f.username) != "" && Trim(f.password) != ""
    ensures e.username.Some? ==> e.username.value == USERNAME_REQUIRED
    ensures e.password.Some? ==> e.password.value == PASSWORD_REQUIRED
  {
    SignInErrors(Check(Trim(f.username) == "", USERNAME_REQUIRED), Check(Trim(f.password) == "", PASSWORD_REQUIRED))
  }

  /** `validateSignIn()` */
  method ValidateSignIn(f: SignInForm) returns (errors: SignInErrors)
    ensures errors == SignInErrorsOf(f)
  {
    errors := SignInErrors(None, None);
    if Trim(f.username) == "" { errors := errors.(username := Some(USERNAME_REQUIRED)); }
    if Trim(f.password) == "" { errors := errors.(password := Some(PASSWORD_REQUIRED)); }
  }

  /**
   * The password rule shared by sign-up and recovery: "required" for a blank
   * password, overwritten by "at least 6 characters" for a length of 1 to 5.
   */
  function PasswordError(password: string, requiredMessage: string): (e: Option<string>)
    ensures 0 < |password| < MIN_PASSWORD_LENGTH ==> e == Some(PASSWORD_TOO_SHORT)
    ensures (|password| == 0 || |password| >= MIN_PASSWORD_LENGTH) ==> (e.Some? <==> Trim(password) == "")
    ensures (|password| == 0 || |password| >= MIN_PASSWORD_LENGTH) && e.Some? ==> e.value == requiredMessage
    ensures e.None? <==> |password| >= MIN_PASSWORD_LENGTH && Trim(password) != ""
  {
    if 0 < |password| < MIN_PASSWORD_LENGTH then Some(PASSWORD_TOO_SHORT)
    else if Trim(password) == "" then Some(requiredMessage)
    else None
  }

  /** The confirmation rule: a mismatch is reported only when both entries are non-blank, and overwrites "confirm". */
  function ConfirmError(password: string, confirm: string, missingMessage: string): (e: Option<string>)
    ensures Trim(password) != "" && Trim(confirm) != "" && password != confirm ==> e == Some(PASSWORDS_DIFFER)
    ensures Trim(confirm) == "" ==> e == Some(missingMessage)
    ensures e.None? <==> Trim(confirm) != "" && (Trim(password) == "" || password == confirm)
  {
    if Trim(password) != "" && Trim(confirm) != "" && password != confirm then Some(PASSWORDS_DIFFER)
    else if Trim(confirm) == "" then Some(missingMessage)
    else None
  }

  datatype SignUpForm = SignUpForm(username: string, email: string, password: string, confirmPassword: string,
                                   role: string, adminInviteKey: string)

  const BLANK_SIGN_UP: SignUpForm := SignUpForm("", "", "", "", USER_ROLE, "")

  datatype SignUpErrors = SignUpErrors(username: Option<string>, email: Option<string>, password: Option<string>,
                                       confirmPassword: Option<string>, role: Option<string>, adminInviteKey: Option<string>)
  {
    predicate Any() {
      username.Some? || email.Some? || password.Some? || confirmPassword.Some? || role.Some? || adminInviteKey.Some?
    }
  }

  /** The sign-up form passes every rule. */
  predicate SignUpAcceptable(f: SignUpForm) {
    && Trim(f.username) != "" && Trim(f.email) != ""
    && |f.password| >= MIN_PASSWORD_LENGTH && Trim(f.password) != "" && f.password == f.confirmPassword
    && (f.role == USER_ROLE || f.role == ADMIN_ROLE)
    && (f.role == ADMIN_ROLE ==> Trim(f.adminInviteKey) != "")
  }

  /** The errors `validateSignUp` reports. */
  function SignUpErrorsOf(f: SignUpForm): (e: SignUpErrors)
    ensures !e.Any() <==> SignUpAcceptable(f)
    ensures e.role.Some? <==> f.role != USER_ROLE && f.role != ADMIN_ROLE
    ensures e.adminInviteKey.Some? <==> f.role == ADMIN_ROLE && Trim(f.adminInviteKey) == ""
  {
    SignUpErrors(
      Check(Trim(f.username) == "", USERNAME_REQUIRED),
      Check(Trim(f.email) == "", EMAIL_REQUIRED),
      PasswordError(f.password, PASSWORD_REQUIRED),
      ConfirmError(f.password, f.confirmPassword, CONFIRM_PASSWORD),
      Check(f.role != USER_ROLE && f.role != ADMIN_ROLE, INVALID_ROLE),
      Check(f.role == ADMIN_ROLE && Trim(f.adminInviteKey) == "", INVITE_KEY_REQUIRED))
  }

  /** `validateSignUp()`, whose later writes overwrite earlier ones. */
  method ValidateSignUp(f: SignUpForm) returns (errors: SignUpErrors)
    ensures errors == SignUpErrorsOf(f)
  {
    errors := SignUpErrors(None, None, None, None, None, None);
    if Trim(f.username) == "" { errors := errors.(username := Some(USERNAME_REQUIRED)); }
    if Trim(f.email) == "" { errors := errors.(email := Some(EMAIL_REQUIRED)); }
    if Trim(f.password) == "" { errors := errors.(password := Some(PASSWORD_REQUIRED)); }
    if |f.password| > 0 && |f.password| < MIN_PASSWORD_LENGTH {
      errors := errors.(password := Some(PASSWORD_TOO_SHORT));
    }
    if Trim(f.confirmPassword) == "" { errors := errors.(confirmPassword := Some(CONFIRM_PASSWORD)); }
    if Trim(f.password) != "" && Trim(f.confirmPassword) != "" && f.password != f.confirmPassword {
      errors := errors.(confirmPassword := Some(PASSWORDS_DIFFER));
    }
    if f.role != USER_ROLE && f.role != ADMIN_ROLE { errors := errors.(role := Some(INVALID_ROLE)); }
    if f.role == ADMIN_ROLE && Trim(f.adminInviteKey) == "" {
      errors := errors.(adminInviteKey := Some(INVITE_KEY_REQUIRED));
    }
  }

  datatype RecoveryForm = RecoveryForm(username: string, email: string, newPassword: string, confirmNewPassword: string)

  const BLANK_RECOVERY: RecoveryForm := RecoveryForm("", "", "", "")

  datatype RecoveryErrors = RecoveryErrors(username: Option<string>, email: Option<string>, newPassword: Option<string>,
                                           confirmNewPassword: Option<string>)
  {
    predicate Any() { username.Some? || email.Some? || newPassword.Some? || confirmNewPassword.Some? }
  }

  /** The errors `validateRecovery` reports: the sign-up rules for the name, email and new password. */
  function RecoveryErrorsOf(f: RecoveryForm): (e: RecoveryErrors)
    ensures !e.Any() <==>
      Trim(f.username) != "" && Trim(f.email) != ""
      && |f.newPassword| >= MIN_PASSWORD_LENGTH && Trim(f.newPassword) != "" && f.newPassword == f.confirmNewPassword
    ensures e.newPassword == PasswordError(f.newPassword, NEW_PASSWORD_REQUIRED)
    ensures e.confirmNewPassword == ConfirmError(f.newPassword, f.confirmNewPassword, CONFIRM_NEW_PASSWORD)
  {
    RecoveryErrors(
      Check(Trim(f.username) == "", USERNAME_REQUIRED),
      Check(Trim(f.email) == "", EMAIL_REQUIRED),
      PasswordError(f.newPassword, NEW_PASSWORD_REQUIRED),
      ConfirmError(f.newPassword, f.confirmNewPassword, CONFIRM_NEW_PASSWORD))
  }

  /** `validateRecovery()` */
  method ValidateRecovery(f: RecoveryForm) returns (errors: RecoveryErrors)
    ensures errors == RecoveryErrorsOf(f)
  {
    errors := RecoveryErrors(None, None, None, None);
    if Trim(f.username) == "" { errors := errors.(username := Some(USERNAME_REQUIRED)); }
    if Trim(f.email) == "" { errors := errors.(email := Some(EMAIL_REQUIRED)); }
    if Trim(f.newPassword) == "" { errors := errors.(newPassword := Some(NEW_PASSWORD_REQUIRED)); }
    if |f.newPassword| > 0 && |f.newPassword| < MIN_PASSWORD_LENGTH {
      errors := errors.(newPassword := Some(PASSWORD_TOO_SHORT));
    }
    if Trim(f.confirmNewPassword) == "" { errors := errors.(confirmNewPassword := Some(CONFIRM_NEW_PASSWORD)); }
    if Trim(f.newPassword) != "" && Trim(f.confirmNewPassword) != "" && f.newPassword != f.confirmNewPassword {
      errors := errors.(confirmNewPassword := Some(PASSWORDS_DIFFER));
    }
  }

  /** Recovery and sign-up judge a password and its confirmation the same way. */
  lemma RecoveryMatchesSignUpRules(f: SignUpForm, r: RecoveryForm)
    requires r.newPassword == f.password && r.confirmNewPassword == f.confirmPassword
    ensures RecoveryErrorsOf(r).newPassword.None? <==> SignUpErrorsOf(f).password.None?
    ensures RecoveryErrorsOf(r).confirmNewPassword.None? <==> SignUpErrorsOf(f).confirmPassword.None?
    ensures RecoveryErrorsOf(r).confirmNewPassword == Some(PASSWORDS_DIFFER) <==> SignUpErrorsOf(f).confirmPassword == Some(PASSWORDS_DIFFER)
  {
  }

  // ---------------------------------------------------------------------------
  // Requests

  /** The body of a sign-up request; `adminInviteKey` None is a body without that field. */
  datatype SignupPayload = SignupPayload(username: string, email: string, password: string, role: string,
                                         adminInviteKey: Option<string>)

  /** The payload `handleSignUp` sends. */
  function SignupPayloadOf(f: SignUpForm): (p: SignupPayload)
    ensures p.username == Trim(f.username) && p.email == ToLower(Trim(f.email))
    ensures p.password == f.password && p.role == f.role
    ensures p.adminInviteKey.Some? <==> f.role == ADMIN_ROLE
    ensures p.adminInviteKey.Some? ==> p.adminInviteKey.value == Trim(f.adminInviteKey)
  {
    SignupPayload(Trim(f.username), ToLower(Trim(f.email)), f.password, f.role,
                  if f.role == ADMIN_ROLE then Some(Trim(f.adminInviteKey)) else None)
  }

  /** A form that passes validation yields a payload with a name, an email, a long enough password, a known role and, for an admin, a key. */
  lemma AcceptedSignupPayload(f: SignUpForm)
    requires !SignUpErrorsOf(f).Any()
    ensures var p := SignupPayloadOf(f);
      && p.username != "" && p.email != "" && |p.password| >= MIN_PASSWORD_LENGTH
      && (p.role == USER_ROLE || p.role == ADMIN_ROLE)
      && (p.role == ADMIN_ROLE <==> p.adminInviteKey.Some?)
      && (p.adminInviteKey.Some? ==> p.adminInviteKey.value != "")
  {
  }

  datatype SigninRequest = SigninRequest(username: string, password: string)

  datatype RecoveryRequest = RecoveryRequest(username: string, email: string, newPassword: string)

  /** The body `handleRecover` sends. */
  function RecoveryRequestOf(f: RecoveryForm): (r: RecoveryRequest)
    ensures r.username == Trim(f.username) && r.email == ToLower(Trim(f.email)) && r.newPassword == f.newPassword
  {
    RecoveryRequest(Trim(f.username), ToLower(Trim(f.email)), f.newPassword)
  }

  /** The `user` object of a sign-in response; its fields may be missing. */
  datatype ResponseUser = ResponseUser(id: Option<int>, username: JsName, role: JsName)

  /** The user `handleSignIn` passes to `onLogin`: the response's name or the typed one, the response's role or "user". */
  function SignedInUser(f: SignInForm, user: Option<ResponseUser>): (u: AppSession.LoginUser)
    ensures u.id == (if user.Some? then user.value.id else None)
    ensures user.Some? && Truthy(user.value.username) ==> u.username == user.value.username
    ensures !(user.Some? && Truthy(user.value.username)) ==> u.username == Name(Trim(f.username))
    ensures Truthy(u.role)
  {
    AppSession.LoginUser(
      if user.Some? then user.value.id else None,
      Name(if user.Some? && Truthy(user.value.username) then user.value.username.text else Trim(f.username)),
      Undefined,
      Name(if user.Some? && Truthy(user.value.role) then user.value.role.text else USER_ROLE))
  }

  /**
   * Sign-in always hands the app a role, so the app's rule that makes a user
   * named "admin" an admin never applies on this path: a response without a
   * role signs in every user, "admin" included, as "user".
   */
  lemma SignInRoleIgnoresName(f: SignInForm, user: Option<ResponseUser>)
    ensures !(user.Some? && Truthy(user.value.role)) ==> AppSession.ResolveRole(SignedInUser(f, user)) == USER_ROLE
    ensures user.Some? && Truthy(user.value.role) ==> AppSession.ResolveRole(SignedInUser(f, user)) == user.value.role.text
  {
  }

  /** A valid sign-in form without a name in the response signs in under the typed name, trimmed. */
  lemma SignInUsesTypedName(f: SignInForm, user: Option<ResponseUser>)
    requires !SignInErrorsOf(f).Any()
    requires !(user.Some? && Truthy(user.value.username))
    ensures AppSession.ResolveUsername(SignedInUser(f, user)) == Trim(f.username)
  {
  }

  // ---------------------------------------------------------------------------
  // Demo accounts

  datatype DemoAccount = DemoAccount(username: string, email: string, password: string, role: string)

  const DEMO_SIGNUP_ACCOUNTS: seq<DemoAccount> := [
    DemoAccount("admin", "admin_demo@eventhub.local", "admin123", ADMIN_ROLE),
    DemoAccount("user", "user_demo@eventhub.local", "user123", USER_ROLE)
  ]

  /** `signupData.adminInviteKey.trim() || DEFAULT_ADMIN_INVITE_KEY`, the default being the trimmed build setting. */
  function ResolvedAdminInviteKey(formKey: string, configuredKey: string): (key: string)
    ensures Trim(formKey) != "" ==> key == Trim(formKey)
    ensures Trim(formKey) == "" ==> key == Trim(configuredKey)
    ensures Unpadded(key)
  {
    if Trim(formKey) != "" then Trim(formKey) else Trim(configuredKey)
  }

  /** The payload sent for a demo account: the invite key only for the admin account, and only when there is one. */
  function DemoPayload(account: DemoAccount, inviteKey: string): (p: SignupPayload)
    ensures p.username == account.username && p.email == account.email
    ensures p.password == account.password && p.role == account.role
    ensures p.adminInviteKey.Some? <==> account.role == ADMIN_ROLE && inviteKey != ""
    ensures p.adminInviteKey.Some? ==> p.adminInviteKey.value == inviteKey
  {
    SignupPayload(account.username, account.email, account.password, account.role,
                  if account.role == ADMIN_ROLE && inviteKey != "" then Some(inviteKey) else None)
  }

  /** How one demo sign-up ended. */
  datatype ProvisionStatus = Created | AlreadyExists | Failed(error: string)

  /** The status of a demo sign-up that threw with `message`. */
  function ClassifyProvisionError(message: string): (s: ProvisionStatus)
    ensures s == AlreadyExists <==> Includes(ToLower(message), "already") || Includes(ToLower(message), "taken")
    ensures s != AlreadyExists ==> s == Failed(message)
  {
    var lowered := ToLower(message);
    if Includes(lowered, "already") || Includes(lowered, "taken") then AlreadyExists else Failed(message)
  }

  /** A failure message saying the account "already" exists, in any letter case, is classed as an existing account. */
  lemma AlreadyMessageIsExisting(before: string, word: string, after: string)
    requires ToLower(word) == "already"
    ensures ClassifyProvisionError(before + word + after) == AlreadyExists
  {
    LoweredIncludes(before, word, after, "already");
  }

  /** "already" is written in lower case. */
  lemma AlreadyIsLowerCase()
    ensures ToLower("already") == "already"
  {
    var w := "already";
    forall i | 0 <= i < |w| ensures LowerChar(w[i]) == w[i] {
      assert 'a' <= w[i] <= 'z';
    }
    assert ToLower(w) == w;
  }

  // ---------------------------------------------------------------------------
  // Page state

  datatype Mode = SignIn | SignUp | Recover

  /** The `errors` state: empty, or the errors of the last rejected form. */
  datatype PageErrors = NoErrors | SignInIssues(signIn: SignInErrors) | SignUpIssues(signUp: SignUpErrors)
                      | RecoveryIssues(recovery: RecoveryErrors)

  /** The `message` state. */
  datatype Message = NoMessage | ErrorMessage(text: string) | SuccessMessage(text: string)

  class LoginPageState {
    var mode: Mode
    var signin: SignInForm
    var signup: SignUpForm
    var recover: RecoveryForm
    var errors: PageErrors
    var message: Message

    constructor()
      ensures mode == SignIn && signin == SignInForm("", "") && signup == BLANK_SIGN_UP && recover == BLANK_RECOVERY
      ensures errors == NoErrors && message == NoMessage
    {
      mode := SignIn;
      signin := SignInForm("", "");
      signup := BLANK_SIGN_UP;
      recover := BLANK_RECOVERY;
      errors := NoErrors;
      message := NoMessage;
    }

    /** `switchMode(next)` */
    method SwitchMode(next: Mode)
      modifies this
      ensures mode == next && errors == NoErrors && message == NoMessage
      ensures signin == old(signin) && signup == old(signup) && recover == old(recover)
    {
      mode := next;
      errors := NoErrors;
      message := NoMessage;
    }

    /** The synchronous part of `handleSignIn`: an invalid form records its errors and sends nothing. */
    method SubmitSignIn() returns (request: Option<SigninRequest>)
      modifies this
      ensures mode == old(mode) && signin == old(signin) && signup == old(signup) && recover == old(recover)
      ensures request.None? <==> SignInErrorsOf(signin).Any()
      ensures request.None? ==> errors == SignInIssues(SignInErrorsOf(signin)) && message == old(message)
      ensures request.Some? ==> request.value == SigninRequest(Trim(signin.username), signin.password)
      ensures request.Some? ==> message == NoMessage && errors == old(errors)
    {
      var form := signin;
      var validationErrors := ValidateSignIn(form);
      if validationErrors.Any() {
        errors := SignInIssues(validationErrors);
        return None;
      }
      message := NoMessage;
      return Some(SigninRequest(Trim(form.username), form.password));
    }

    /** The synchronous part of `handleSignUp`. */
    method SubmitSignUp() returns (payload: Option<SignupPayload>)
      modifies this
      ensures mode == old(mode) && signin == old(signin) && signup == old(signup) && recover == old(recover)
      ensures payload.None? <==> SignUpErrorsOf(signup).Any()
      ensures payload.None? ==> errors == SignUpIssues(SignUpErrorsOf(signup)) && message == old(message)
      ensures payload.Some? ==> payload.value == SignupPayloadOf(signup) && message == NoMessage && errors == old(errors)
    {
      var validationErrors := ValidateSignUp(signup);
      if validationErrors.Any() {
        errors := SignUpIssues(validationErrors);
        return None;
      }
      message := NoMessage;
      var p := SignupPayload(Trim(signup.username), ToLower(Trim(signup.email)), signup.password, signup.role, None);
      if signup.role == ADMIN_ROLE {
        p := p.(adminInviteKey := Some(Trim(signup.adminInviteKey)));
      }
      return Some(p);
    }

    /** A sign-up the server accepted: the name moves to the sign-in form, the sign-up form is cleared. */
    method SignUpSucceeded()
      modifies this
      ensures signin == SignInForm(Trim(old(signup).username), "") && signup == BLANK_SIGN_UP
      ensures mode == SignIn && errors == NoErrors
      ensures message == SuccessMessage("Registration successful. Please sign in.")
      ensures recover == old(recover)
    {
      signin := SignInForm(Trim(signup.username), "");
      signup := BLANK_SIGN_UP;
      SwitchMode(SignIn);
      message := SuccessMessage("Registration successful. Please sign in.");
    }

    /** The synchronous part of `handleRecover`. */
    method SubmitRecovery() returns (request: Option<RecoveryRequest>)
      modifies this
      ensures mode == old(mode) && signin == old(signin) && signup == old(signup) && recover == old(recover)
      ensures request.None? <==> RecoveryErrorsOf(recover).Any()
      ensures request.None? ==> errors == RecoveryIssues(RecoveryErrorsOf(recover)) && message == old(message)
      ensures request.Some? ==> request.value == RecoveryRequestOf(recover) && message == NoMessage && errors == old(errors)
    {
      var validationErrors := ValidateRecovery(recover);
      if validationErrors.Any() {
        errors := RecoveryIssues(validationErrors);
        return None;
      }
      message := NoMessage;
      return Some(RecoveryRequest(Trim(recover.username), ToLower(Trim(recover.email)), recover.newPassword));
    }

    /** A reset the server accepted: the sign-in form is filled with the name and the new password. */
    method RecoverySucceeded()
      modifies this
      ensures signin == SignInForm(Trim(old(recover).username), old(recover).newPassword) && recover == BLANK_RECOVERY
      ensures mode == SignIn && errors == NoErrors
      ensures message == SuccessMessage("Password reset successful. You can sign in now.")
      ensures signup == old(signup)
    {
      signin := SignInForm(Trim(recover.username), recover.newPassword);
      recover := BLANK_RECOVERY;
      SwitchMode(SignIn);
      message := SuccessMessage("Password reset successful. You can sign in now.");
    }

    /** A request that threw: its message is shown and nothing else changes. */
    method RequestFailed(text: string)
      modifies this
      ensures message == ErrorMessage(text)
      ensures mode == old(mode) && errors == old(errors)
      ensures signin == old(signin) && signup == old(signup) && recover == old(recover)
    {
      message := ErrorMessage(text);
    }
  }

  /** A recovery that passed validation leaves a sign-in form that passes validation too. */
  lemma RecoveredSignInIsValid(f: RecoveryForm)
    requires !RecoveryErrorsOf(f).Any()
    ensures !SignInErrorsOf(SignInForm(Trim(f.username), f.newPassword)).Any()
  {
    TrimIdempotent(f.username);
  }
}
