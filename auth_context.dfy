/**
 * The authentication context of src/contexts/AuthContext.tsx: a fixed table
 * of three demo accounts, all with the password "123", and an `authState`
 * that `login` and `logout` replace wholesale.
 */
module AuthContext {
  import opened Store

  /** The three roles of src/types/auth.ts. */
  datatype Role = Admin | SupplierRole | WarehouseRole

  function RoleName(r: Role): string {
    match r
    case Admin => "admin"
    case SupplierRole => "supplier"
    case WarehouseRole => "warehouse"
  }

  datatype User = User(id: string, username: string, role: Role)

  datatype AuthState = AuthState(user: Option<User>, isAuthenticated: bool)

  /** The state every provider starts in, and the one `logout` restores. */
  const SignedOut := AuthState(None, false)

  /** The invariant the provider keeps: authenticated exactly when a user is present. */
  predicate Consistent(s: AuthState) {
    s.isAuthenticated <==> s.user.Some?
  }

  /**
   * The credential check: the role an account signs in with, or None when the
   * pair is rejected. The role is the username itself, read as a role.
   */
  function CredentialRole(username: string, password: string): (r: Option<Role>)
    ensures r.Some? <==> password == "123" && username in {"admin", "supplier", "warehouse"}
    ensures r.Some? ==> RoleName(r.value) == username
  {
    if password != "123" then None
    else if username == "admin" then Some(Admin)
    else if username == "supplier" then Some(SupplierRole)
    else if username == "warehouse" then Some(WarehouseRole)
    else None
  }

  /** The state after a successful sign-in as `role`. */
  function SignedIn(username: string, role: Role): (s: AuthState)
    ensures Consistent(s) && s.isAuthenticated
  {
    AuthState(Some(User("1", username, role)), true)
  }

  /** The `AuthProvider` component: its one state field and the two actions it exposes. */
  class AuthProvider {
    var authState: AuthState

    predicate Valid()
      reads this
    {
      Consistent(authState)
    }

    constructor ()
      ensures authState == SignedOut && Valid()
    {
      authState := SignedOut;
    }

    /** Accepts exactly the three demo accounts; a rejected attempt leaves the state untouched. */
    method Login(username: string, password: string) returns (ok: bool)
      requires Valid()
      modifies this
      ensures Valid()
      ensures ok <==> CredentialRole(username, password).Some?
      ensures ok ==> authState == SignedIn(username, CredentialRole(username, password).value)
      ensures ok ==> authState.user.value.role == CredentialRole(username, password).value
      ensures ok ==> RoleName(authState.user.value.role) == username
      ensures !ok ==> authState == old(authState)
    {
      var role := CredentialRole(username, password);
      if role.Some? {
        authState := SignedIn(username, role.value);
        ok := true;
      } else {
        ok := false;
      }
    }

    /** Signs out from any state. */
    method Logout()
      modifies this
      ensures authState == SignedOut && Valid()
    {
      authState := SignedOut;
    }
  }
}
