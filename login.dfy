/**
 * The login page: sign-in, sign-up and the password-reset flow over the list
 * of registered users kept in localStorage.
 */
module Login {
  import opened Wrappers
  import opened Strings
  import opened BrowserStorage
  import opened AuthContext
  import opened AppState

  /** The stored account `u` has this email and this password. */
  predicate Matches(u: StoredUser, email: string, password: string) {
    u.email == email && u.password == password
  }

  /** `users.find` for the first account with both this email and this password. */
  function FindByCredentials(users: seq<StoredUser>, email: string, password: string): (r: Option<StoredUser>)
    ensures r.None? <==> forall i :: 0 <= i < |users| ==> !Matches(users[i], email, password)
    ensures r.Some? ==> exists i :: (0 <= i < |users| && users[i] == r.value && Matches(users[i], email, password) &&
      forall j :: 0 <= j < i ==> !Matches(users[j], email, password))
  {
    if users == [] then None
    else if Matches(users[0], email, password) then Some(users[0])
    else
      var r := FindByCredentials(users[1..], email, password);
      if r.Some? then
        var i :| 0 <= i < |users| - 1 && users[1..][i] == r.value && Matches(users[1..][i], email, password) &&
          forall j :: 0 <= j < i ==> !Matches(users[1..][j], email, password);
        assert users[i + 1] == r.value && forall j :: 0 <= j < i + 1 ==> !Matches(users[j], email, password) by {
          forall j | 0 <= j < i + 1 ensures !Matches(users[j], email, password) {
            if j > 0 {
              assert users[j] == users[1..][j - 1];
            }
          }
        }
        r
      else r
  }

  /** `users.find` for the first account with this email. */
  function FindByEmail(users: seq<StoredUser>, email: string): (r: Option<StoredUser>)
    ensures r.None? <==> forall i :: 0 <= i < |users| ==> users[i].email != email
    ensures r.Some? ==> exists i :: (0 <= i < |users| && users[i] == r.value && users[i].email == email &&
      forall j :: 0 <= j < i ==> users[j].email != email)
  {
    if users == [] then None
    else if users[0].email == email then Some(users[0])
    else
      var r := FindByEmail(users[1..], email);
      if r.Some? then
        var i :| 0 <= i < |users| - 1 && users[1..][i] == r.value && users[1..][i].email == email &&
          forall j :: 0 <= j < i ==> users[1..][j].email != email;
        assert users[i + 1] == r.value && forall j :: 0 <= j < i + 1 ==> users[j].email != email by {
          forall j | 0 <= j < i + 1 ensures users[j].email != email {
            if j > 0 {
              assert users[j] == users[1..][j - 1];
            }
          }
        }
        r
      else r
  }

  /** `users.some` for an account with this email. */
  function EmailRegistered(users: seq<StoredUser>, email: string): (b: bool)
    ensures b <==> exists i :: 0 <= i < |users| && users[i].email == email
  {
    if users == [] then false
    else users[0].email == email || EmailRegistered(users[1..], email)
  }

  /** No two accounts share an email. */
  ghost predicate EmailsUnique(users: seq<StoredUser>) {
    forall i, j :: 0 <= i < j < |users| ==> users[i].email != users[j].email
  }

  /** The `users.map` of a reset: every account with this email gets the new password. */
  function ResetPassword(users: seq<StoredUser>, email: string, newPassword: string): (r: seq<StoredUser>)
    ensures |r| == |users|
    ensures forall i :: 0 <= i < |users| ==>
      r[i] == if users[i].email == email then users[i].(password := newPassword) else users[i]
  {
    if users == [] then []
    else
      var u := users[0];
      [if u.email == email then u.(password := newPassword) else u] + ResetPassword(users[1..], email, newPassword)
  }

  /** The session record handed to the auth context: email, question and answer, no password. */
  function SessionUser(u: StoredUser): (r: User)
    ensures r.email == u.email && r.password.None?
    ensures r.securityQuestion == Some(u.securityQuestion) && r.securityAnswer == Some(u.securityAnswer)
  {
    User(u.email, None, Some(u.securityQuestion), Some(u.securityAnswer))
  }

  /** The security-answer comparison: both sides lower-cased. */
  predicate SameAnswer(given: string, expected: string): (b: bool)
    ensures given == expected ==> b
    ensures b ==> |given| == |expected|
  {
    ToLower(given) == ToLower(expected)
  }

  /** The comparison ignores case in either argument. */
  lemma SameAnswerIgnoresCase(given: string, expected: string)
    ensures SameAnswer(ToUpper(given), expected) == SameAnswer(given, expected)
    ensures SameAnswer(given, ToUpper(expected)) == SameAnswer(given, expected)
  {
    LowerOfUpper(given);
    LowerOfUpper(expected);
  }

  /** A sign-up with a fresh email keeps emails unique. */
  lemma SignupKeepsEmailsUnique(users: seq<StoredUser>, u: StoredUser)
    requires EmailsUnique(users) && !EmailRegistered(users, u.email)
    ensures EmailsUnique(users + [u])
  {
    var r := users + [u];
    forall i, j | 0 <= i < j < |r| ensures r[i].email != r[j].email {
      if j == |users| {
        assert r[i] == users[i];
      }
    }
  }

  /** A reset changes no email, so it keeps emails unique. */
  lemma ResetKeepsEmailsUnique(users: seq<StoredUser>, email: string, newPassword: string)
    requires EmailsUnique(users)
    ensures EmailsUnique(ResetPassword(users, email, newPassword))
  {
    var r := ResetPassword(users, email, newPassword);
    assert forall i :: 0 <= i < |r| ==> r[i].email == users[i].email;
  }

  /** After a sign-up with a fresh email, its email and password sign in as the new account. */
  lemma LoginAfterSignup(users: seq<StoredUser>, u: StoredUser)
    requires !EmailRegistered(users, u.email)
    ensures FindByCredentials(users + [u], u.email, u.password) == Some(u)
  {
    var r := users + [u];
    assert r[|users|] == u;
  }

  /**
   * After a reset for an email, that email signs in with a password exactly
   * when the password is the new one and the email is registered.
   */
  lemma LoginAfterReset(users: seq<StoredUser>, email: string, newPassword: string, password: string)
    ensures FindByCredentials(ResetPassword(users, email, newPassword), email, password).Some? <==>
      password == newPassword && EmailRegistered(users, email)
  {
    var r := ResetPassword(users, email, newPassword);
    if password == newPassword && EmailRegistered(users, email) {
      var i :| 0 <= i < |users| && users[i].email == email;
      assert r[i].email == email && r[i].password == password;
    }
  }

  /** A reset leaves every account with another email as it was. */
  lemma ResetLeavesOthers(users: seq<StoredUser>, email: string, newPassword: string, other: string, password: string)
    requires other != email
    ensures FindByCredentials(ResetPassword(users, email, newPassword), other, password) ==
      FindByCredentials(users, other, password)
    decreases |users|
  {
    if users != [] {
      ResetLeavesOthers(users[1..], email, newPassword, other, password);
      assert ResetPassword(users, email, newPassword)[1..] == ResetPassword(users[1..], email, newPassword);
    }
  }

  const LoginSucceededToast := Toast("Login successful", "Welcome back!", false)
  const LoginFailedToast := Toast("Login failed", "Invalid email or password", true)
  const PasswordMismatchToast := Toast("Passwords do not match", "Please make sure your passwords match", true)
  const EmailTakenToast := Toast("Email already registered", "Please use a different email or login instead", true)
  const AccountCreatedToast := Toast("Account created successfully", "Welcome to RetinaRisk!", false)
  const UserNotFoundToast := Toast("User not found", "No account with this email exists", true)
  const AnswerCorrectToast := Toast("Security answer correct", "You can now reset your password", false)
  const AnswerIncorrectToast := Toast("Incorrect answer", "The security answer is incorrect", true)
  const PasswordTooShortToast := Toast("Password too short", "Password must be at least 6 characters long", true)
  const PasswordResetToast := Toast("Password reset successful", "You can now login with your new password", false)

  /** The sign-in and sign-up form. */
  datatype FormData = FormData(
    email: string,
    password: string,
    securityQuestion: string,
    securityAnswer: string,
    confirmPassword: string)

  const DefaultQuestion := "What was your first pet's name?"

  class LoginPage {
    const storage: LocalStorage
    const auth: AuthProvider
    var formData: FormData
    var forgotMode: bool
    var resetEmail: string
    var securityAnswer: string
    var newPassword: string
    var foundUser: Option<StoredUser>

    constructor(auth: AuthProvider)
      ensures this.auth == auth && storage == auth.storage
      ensures formData == FormData("", "", DefaultQuestion, "", "")
      ensures !forgotMode && resetEmail == "" && securityAnswer == "" && newPassword == "" && foundUser == None
    {
      this.auth := auth;
      storage := auth.storage;
      formData := FormData("", "", DefaultQuestion, "", "");
      forgotMode := false;
      resetEmail := "";
      securityAnswer := "";
      newPassword := "";
      foundUser := None;
    }

    /** Sign in with the form's email and password at time `now`. */
    method HandleLogin(now: int) returns (toast: Toast)
      requires auth.storage == storage
      modifies auth, storage
      ensures storage.users == old(storage.users)
      ensures FindByCredentials(old(storage.users), formData.email, formData.password).None? ==>
        toast == LoginFailedToast &&
        auth.user == old(auth.user) && auth.loginHistory == old(auth.loginHistory) &&
        storage.user == old(storage.user) && storage.loginHistory == old(storage.loginHistory)
      ensures FindByCredentials(old(storage.users), formData.email, formData.password).Some? ==>
        toast == LoginSucceededToast &&
        auth.user == Some(SessionUser(FindByCredentials(old(storage.users), formData.email, formData.password).value)) &&
        auth.loginHistory == old(auth.loginHistory) + [LoginRecord(formData.email, now)] &&
        storage.user == auth.user && storage.loginHistory == Some(auth.loginHistory)
      ensures auth.loading == old(auth.loading)
    {
      var users := storage.users;
      var user := FindByCredentials(users, formData.email, formData.password);
      if user.Some? {
        auth.Login(SessionUser(user.value), now);
        toast := LoginSucceededToast;
      } else {
        toast := LoginFailedToast;
      }
    }

    /** Register the form's account and sign it in at time `now`. */
    method HandleSignup(now: int) returns (toast: Toast)
      requires auth.storage == storage
      modifies auth, storage
      ensures formData.password != formData.confirmPassword ==>
        toast == PasswordMismatchToast && storage.users == old(storage.users) &&
        auth.user == old(auth.user) && auth.loginHistory == old(auth.loginHistory) &&
        storage.user == old(storage.user) && storage.loginHistory == old(storage.loginHistory)
      ensures formData.password == formData.confirmPassword && EmailRegistered(old(storage.users), formData.email) ==>
        toast == EmailTakenToast && storage.users == old(storage.users) &&
        auth.user == old(auth.user) && auth.loginHistory == old(auth.loginHistory) &&
        storage.user == old(storage.user) && storage.loginHistory == old(storage.loginHistory)
      ensures formData.password == formData.confirmPassword && !EmailRegistered(old(storage.users), formData.email) ==>
        toast == AccountCreatedToast &&
        storage.users == old(storage.users) + [NewAccount(formData)] &&
        auth.user == Some(SessionUser(NewAccount(formData))) &&
        auth.loginHistory == old(auth.loginHistory) + [LoginRecord(formData.email, now)] &&
        storage.user == auth.user && storage.loginHistory == Some(auth.loginHistory)
      ensures auth.loading == old(auth.loading)
    {
      if formData.password != formData.confirmPassword {
        return PasswordMismatchToast;
      }
      var users := storage.users;
      if EmailRegistered(users, formData.email) {
        return EmailTakenToast;
      }
      var newUser := NewAccount(formData);
      users := users + [newUser];
      storage.users := users;
      auth.Login(SessionUser(newUser), now);
      toast := AccountCreatedToast;
    }

    /** Look up the account for the reset email. */
    method HandleForgotPassword() returns (toast: Option<Toast>)
      modifies this
      ensures FindByEmail(storage.users, resetEmail).None? ==>
        toast == Some(UserNotFoundToast) && foundUser == old(foundUser)
      ensures FindByEmail(storage.users, resetEmail).Some? ==>
        toast == None && foundUser == FindByEmail(storage.users, resetEmail)
      ensures formData == old(formData) && forgotMode == old(forgotMode) && resetEmail == old(resetEmail)
      ensures securityAnswer == old(securityAnswer) && newPassword == old(newPassword)
    {
      var user := FindByEmail(storage.users, resetEmail);
      if user.None? {
        return Some(UserNotFoundToast);
      }
      foundUser := user;
      toast := None;
    }

    /** Compare the typed answer with the found account's, ignoring case; nothing is changed. */
    method HandleCheckAnswer() returns (toast: Toast)
      ensures toast == AnswerCorrectToast <==>
        foundUser.Some? && SameAnswer(securityAnswer, foundUser.value.securityAnswer)
      ensures toast == AnswerCorrectToast || toast == AnswerIncorrectToast
    {
      if foundUser.Some? && ToLower(securityAnswer) == ToLower(foundUser.value.securityAnswer) {
        toast := AnswerCorrectToast;
      } else {
        toast := AnswerIncorrectToast;
      }
    }

    /**
     * Set the new password on every account with the found account's email
     * and leave the reset flow. Without a found account the handler throws,
     * which the model reports as `None` with nothing changed.
     */
    method HandleResetPassword() returns (toast: Option<Toast>)
      modifies this, storage
      ensures |old(newPassword)| < 6 ==>
        toast == Some(PasswordTooShortToast) && storage.users == old(storage.users) &&
        foundUser == old(foundUser) && forgotMode == old(forgotMode) && newPassword == old(newPassword) &&
        resetEmail == old(resetEmail) && securityAnswer == old(securityAnswer)
      ensures |old(newPassword)| >= 6 && old(foundUser).None? ==>
        toast == None && storage.users == old(storage.users) &&
        foundUser == old(foundUser) && forgotMode == old(forgotMode) && newPassword == old(newPassword) &&
        resetEmail == old(resetEmail) && securityAnswer == old(securityAnswer)
      ensures |old(newPassword)| >= 6 && old(foundUser).Some? ==>
        toast == Some(PasswordResetToast) &&
        storage.users == ResetPassword(old(storage.users), old(foundUser).value.email, old(newPassword)) &&
        !forgotMode && foundUser == None && resetEmail == "" && securityAnswer == "" && newPassword == ""
      ensures storage.user == old(storage.user) && storage.loginHistory == old(storage.loginHistory)
      ensures formData == old(formData)
    {
      if |newPassword| < 6 {
        return Some(PasswordTooShortToast);
      }
      if foundUser.None? {
        return None;
      }
      var users := storage.users;
      var updatedUsers := ResetPassword(users, foundUser.value.email, newPassword);
      storage.users := updatedUsers;
      toast := Some(PasswordResetToast);
      forgotMode := false;
      foundUser := None;
      resetEmail := "";
      securityAnswer := "";
      newPassword := "";
    }
  }

  /** The account the sign-up form creates. */
  function NewAccount(f: FormData): (u: StoredUser)
    ensures u.email == f.email && u.password == f.password
    ensures u.securityQuestion == f.securityQuestion && u.securityAnswer == f.securityAnswer
  {
    StoredUser(f.email, f.password, f.securityQuestion, f.securityAnswer)
  }
}
