/**
 * The localStorage entries the account code shares: the signed-in user, the
 * login history and the registered users. Entries hold parsed values;
 * serialisation to JSON is not modelled.
 */
module BrowserStorage {
  import opened Wrappers

  /** A user as the auth context holds it; every field but the email is optional. */
  datatype User = User(
    email: string,
    password: Option<string>,
    securityQuestion: Option<string>,
    securityAnswer: Option<string>)

  /** One entry of the login history. */
  datatype LoginRecord = LoginRecord(email: string, timestamp: int)

  /** A registered account as the sign-up form stores it. */
  datatype StoredUser = StoredUser(
    email: string,
    password: string,
    securityQuestion: string,
    securityAnswer: string)

  class LocalStorage {
    /** The "user" entry. */
    var user: Option<User>
    /** The "loginHistory" entry. */
    var loginHistory: Option<seq<LoginRecord>>
    /** The "users" entry; an absent entry reads as the empty list. */
    var users: seq<StoredUser>

    constructor(user: Option<User>, loginHistory: Option<seq<LoginRecord>>, users: seq<StoredUser>)
      ensures this.user == user && this.loginHistory == loginHistory && this.users == users
    {
      this.user := user;
      this.loginHistory := loginHistory;
      this.users := users;
    }
  }
}
