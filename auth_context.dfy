/**
 * The session held by `AuthProvider`: two state cells, `isAuthenticated`
 * and `ssn`, written by `login` and `logout`.
 */
module AuthContext {
  import opened Wrappers

  class Auth {
    var isAuthenticated: bool
    /** `None` is JavaScript's `null`. */
    var ssn: Option<string>

    /** Authenticated exactly when an identifier is held. */
    predicate Consistent()
      reads this
    {
      isAuthenticated <==> ssn.Some?
    }

    /** `useState(false)` and `useState(null)`. */
    constructor()
      ensures !isAuthenticated && ssn.None?
      ensures Consistent()
    {
      isAuthenticated := false;
      ssn := None;
    }

    /**
     * `login(ssnValue)`: stores whatever it is given and marks the session
     * authenticated; the session stays consistent exactly when the value
     * is not null.
     */
    method Login(ssnValue: Option<string>)
      modifies this
      ensures ssn == ssnValue && isAuthenticated
      ensures Consistent() <==> ssnValue.Some?
    {
      ssn := ssnValue;
      isAuthenticated := true;
    }

    /** `logout()`: forgets the identifier and ends the session. */
    method Logout()
      modifies this
      ensures ssn.None? && !isAuthenticated
      ensures Consistent()
    {
      ssn := None;
      isAuthenticated := false;
    }
  }

  /** One step a client of the context can take. */
  datatype Step = LoginWith(value: string) | LogoutStep

  /**
   * Any sequence of logins with non-null values and logouts, from the
   * initial state, keeps the session consistent, and the state afterwards
   * is determined by the last step alone.
   */
  method RunSession(steps: seq<Step>) returns (auth: Auth)
    ensures fresh(auth)
    ensures auth.Consistent()
    ensures steps == [] || steps[|steps| - 1].LogoutStep? ==> !auth.isAuthenticated && auth.ssn.None?
    ensures steps != [] && steps[|steps| - 1].LoginWith? ==>
      auth.isAuthenticated && auth.ssn == Some(steps[|steps| - 1].value)
  {
    auth := new Auth();
    var i := 0;
    while i < |steps|
      invariant 0 <= i <= |steps|
      invariant auth.Consistent()
      invariant i == 0 || steps[i - 1].LogoutStep? ==> !auth.isAuthenticated && auth.ssn.None?
      invariant i > 0 && steps[i - 1].LoginWith? ==> auth.isAuthenticated && auth.ssn == Some(steps[i - 1].value)
    {
      match steps[i] {
        case LoginWith(v) => auth.Login(Some(v));
        case LogoutStep => auth.Logout();
      }
      i := i + 1;
    }
  }

  /** Logging out twice leaves the same state as logging out once. */
  method LogoutTwice(auth: Auth)
    modifies auth
    ensures !auth.isAuthenticated && auth.ssn.None?
  {
    auth.Logout();
    var afterOne := (auth.isAuthenticated, auth.ssn);
    auth.Logout();
    assert (auth.isAuthenticated, auth.ssn) == afterOne;
  }

  /** A second login replaces the identifier of the first. */
  method LoginOverwrites(auth: Auth, first: string, second: string)
    modifies auth
    ensures auth.isAuthenticated && auth.ssn == Some(second)
  {
    auth.Login(Some(first));
    auth.Login(Some(second));
  }
}
