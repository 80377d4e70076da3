/**
 * The demo administrator login: the authentication flag, the signed-in
 * user and the stored session token.
 */
module Auth {
  import opened Wrappers

  datatype User = User(email: string, name: string)

  const DemoEmail := "admin@store.com"
  const DemoPassword := "admin123"
  const DemoToken := "demo_token"
  const AdminName := "Admin User"

  /** The only accepted credentials: the demo pair, matched exactly. */
  predicate AcceptsCredentials(email: string, password: string) {
    email == DemoEmail && password == DemoPassword
  }

  class AuthSession {
    var isAuthenticated: bool
    var user: Option<User>
    /** The browser's stored session token. */
    var storedToken: Option<string>

    /** Signed in exactly when there is a user, and then it is the administrator. */
    ghost predicate Valid()
      reads this
    {
      (isAuthenticated <==> user.Some?) && (user.Some? ==> user.value == User(DemoEmail, AdminName))
    }

    /** The state before the start-up effect runs: signed out, with whatever token was stored. */
    constructor (savedToken: Option<string>)
      ensures Valid()
      ensures !isAuthenticated && user == None && storedToken == savedToken
    {
      isAuthenticated := false;
      user := None;
      storedToken := savedToken;
    }

    /** The start-up effect: a non-empty stored token signs the administrator in. */
    method RestoreSession()
      requires Valid()
      modifies this
      ensures Valid()
      ensures storedToken == old(storedToken)
      ensures old(storedToken).Some? && old(storedToken).value != "" ==>
                isAuthenticated && user == Some(User(DemoEmail, AdminName))
      ensures !(old(storedToken).Some? && old(storedToken).value != "") ==>
                isAuthenticated == old(isAuthenticated) && user == old(user)
    {
      if storedToken.Some? && storedToken.value != "" {
        isAuthenticated := true;
        user := Some(User(DemoEmail, AdminName));
      }
    }

    /**
     * `login`: true exactly for the demo credentials, which store the token
     * and sign the administrator in; any other pair changes nothing.
     */
    method Login(email: string, password: string) returns (ok: bool)
      requires Valid()
      modifies this
      ensures Valid()
      ensures ok <==> AcceptsCredentials(email, password)
      ensures ok ==> isAuthenticated && user == Some(User(email, AdminName)) && storedToken == Some(DemoToken)
      ensures !ok ==> isAuthenticated == old(isAuthenticated) && user == old(user) && storedToken == old(storedToken)
    {
      if email == DemoEmail && password == DemoPassword {
        storedToken := Some(DemoToken);
        isAuthenticated := true;
        user := Some(User(email, AdminName));
        ok := true;
      } else {
        ok := false;
      }
    }

    /** `logout`: removes the token and signs out. */
    method Logout()
      modifies this
      ensures Valid()
      ensures !isAuthenticated && user == None && storedToken == None
    {
      storedToken := None;
      isAuthenticated := false;
      user := None;
    }
  }

  /** A successful login survives a reload: the next start-up restores the session. */
  method LoginSurvivesReload() returns (after: AuthSession)
    ensures after.isAuthenticated && after.user == Some(User(DemoEmail, AdminName))
  {
    var before := new AuthSession(None);
    var ok := before.Login(DemoEmail, DemoPassword);
    after := new AuthSession(before.storedToken);
    after.RestoreSession();
  }

  /** After a logout, the next start-up stays signed out. */
  method LogoutSurvivesReload(s: AuthSession) returns (after: AuthSession)
    requires s.Valid()
    modifies s
    ensures !after.isAuthenticated && after.user == None
  {
    s.Logout();
    after := new AuthSession(s.storedToken);
    after.RestoreSession();
  }
}
