/**
 * The authentication context: the signed-in user, the login history and the
 * loading flag, kept in step with their localStorage copies.
 */
module AuthContext {
  import opened Wrappers
  import opened BrowserStorage

  /** The user with the password field removed. */
  function WithoutPassword(u: User): (r: User)
    ensures r.password.None?
    ensures r.email == u.email && r.securityQuestion == u.securityQuestion && r.securityAnswer == u.securityAnswer
  {
    User(u.email, None, u.securityQuestion, u.securityAnswer)
  }

  /** The stored history, an absent entry read as empty. */
  function StoredHistory(s: LocalStorage): seq<LoginRecord>
    reads s
  {
    if s.loginHistory.Some? then s.loginHistory.value else []
  }

  class AuthProvider {
    const storage: LocalStorage
    var user: Option<User>
    var loading: bool
    var loginHistory: seq<LoginRecord>

    /** Once loaded, the context agrees with what localStorage holds. */
    ghost predicate Valid()
      reads this, storage
    {
      !loading ==> user == storage.user && loginHistory == StoredHistory(storage)
    }

    /** The state before the mount effect runs. */
    ghost predicate Initial()
      reads this
    {
      user == None && loading && loginHistory == []
    }

    constructor(storage: LocalStorage)
      ensures this.storage == storage
      ensures Initial() && Valid()
    {
      this.storage := storage;
      user := None;
      loading := true;
      loginHistory := [];
    }

    /** The mount effect: restore the user and the history when stored, then stop loading. */
    method Mount()
      requires Initial()
      modifies this
      ensures storage.user.Some? ==> user == storage.user
      ensures storage.user.None? ==> user == None
      ensures loginHistory == StoredHistory(storage)
      ensures !loading
      ensures Valid()
    {
      if storage.user.Some? {
        user := storage.user;
      }
      if storage.loginHistory.Some? {
        loginHistory := storage.loginHistory.value;
      }
      loading := false;
    }

    /**
     * Sign `userData` in at time `now`: the user without its password becomes
     * current and is persisted, and one history entry is appended and persisted.
     */
    method Login(userData: User, now: int)
      modifies this, storage
      ensures user == Some(WithoutPassword(userData)) && storage.user == user
      ensures loginHistory == old(loginHistory) + [LoginRecord(userData.email, now)]
      ensures storage.loginHistory == Some(loginHistory)
      ensures loading == old(loading) && storage.users == old(storage.users)
      ensures Valid()
    {
      var safeUserData := WithoutPassword(userData);
      user := Some(safeUserData);
      storage.user := Some(safeUserData);
      var newHistoryItem := LoginRecord(userData.email, now);
      var updatedHistory := loginHistory + [newHistoryItem];
      loginHistory := updatedHistory;
      storage.loginHistory := Some(updatedHistory);
    }

    /** Sign out: forget the current user here and in storage; the history stays. */
    method Logout()
      modifies this, storage
      ensures user == None && storage.user == None
      ensures loginHistory == old(loginHistory) && storage.loginHistory == old(storage.loginHistory)
      ensures loading == old(loading) && storage.users == old(storage.users)
      ensures old(Valid()) ==> Valid()
    {
      user := None;
      storage.user := None;
    }
  }
}
