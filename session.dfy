/** The application-wide context both screens read: whether the visitor is
    authorized and, when known, who the user is. */
module Session {
  import opened Web

  /** The signed-in user as the context holds it; the screens read only the role. */
  datatype User = User(name: string, email: string, role: string)

  class Context {
    var isAuthorized: bool
    var user: Option<User>

    /** The context's starting value is supplied by the application root. */
    constructor (isAuthorized: bool, user: Option<User>)
      ensures this.isAuthorized == isAuthorized && this.user == user
    {
      this.isAuthorized := isAuthorized;
      this.user := user;
    }

    /** `setIsAuthorized`: changes the flag and nothing else. */
    method SetAuthorized(b: bool)
      modifies this
      ensures isAuthorized == b && user == old(user)
    {
      isAuthorized := b;
    }
  }
}
