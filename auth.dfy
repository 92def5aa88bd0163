/** The authentication store: the signed-in user, if any, and the
    `loading`/`error` flags, with the stubbed login, registration and
    logout. Passwords are accepted unchecked. */
module Auth {
  import opened Options
  import opened Users

  datatype LoginCredentials = LoginCredentials(email: string, password: string, rememberMe: bool)
  datatype RegisterData = RegisterData(email: string, password: string, displayName: string, phoneNumber: Option<string>)

  /** The user a login yields: the fixed id `temp-id`, the given email, a
      test display name, the plain user role and a verified email. */
  function LoggedInUser(c: LoginCredentials, now: int): (u: User)
    ensures u.id == "temp-id" && u.email == c.email && u.role == UserRole && u.emailVerified
  {
    User("temp-id", c.email, "Test User", None, UserRole, true, now, now)
  }

  /** The user a registration yields: the given email and display name, the
      plain user role and an unverified email. */
  function RegisteredUser(d: RegisterData, now: int): (u: User)
    ensures u.id == "temp-id" && u.email == d.email && u.displayName == d.displayName
    ensures u.role == UserRole && !u.emailVerified
  {
    User("temp-id", d.email, d.displayName, None, UserRole, false, now, now)
  }

  class AuthStore {
    var user: Option<User>
    var loading: bool
    var error: Option<string>

    constructor ()
      ensures user == None && !loading && error == None
    {
      user := None;
      loading := false;
      error := None;
    }

    /** isAuthenticated: a user is signed in. */
    predicate IsAuthenticated()
      reads this
    {
      user.Some?
    }

    method Login(credentials: LoginCredentials, now: int)
      modifies this
      ensures user == Some(LoggedInUser(credentials, now)) && IsAuthenticated()
      ensures !loading && error == None
    {
      loading := true;
      error := None;
      user := Some(LoggedInUser(credentials, now));
      loading := false;
    }

    method Register(data: RegisterData, now: int)
      modifies this
      ensures user == Some(RegisteredUser(data, now)) && IsAuthenticated()
      ensures !loading && error == None
    {
      loading := true;
      error := None;
      user := Some(RegisteredUser(data, now));
      loading := false;
    }

    /** Signs out; an earlier error is left as it was. */
    method Logout()
      modifies this
      ensures user == None && !IsAuthenticated()
      ensures !loading && error == old(error)
    {
      loading := true;
      user := None;
      loading := false;
    }
  }
}
