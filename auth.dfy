/**
 * What the pages learn from the authentication context: whether someone is
 * signed in, and the `hasPermission` check on a list of roles. The context
 * itself (src/context/AuthContext) is not part of this model, so the check
 * is a parameter; `SignedInAs` is one reading of it, by role membership,
 * used only in the example lemmas.
 */
module Auth {
  import opened Types

  datatype Session = Session(isAuthenticated: bool, hasPermission: seq<UserRole> -> bool)

  /** A signed-in user with `role`, permitted exactly where `role` is listed. */
  function SignedInAs(role: UserRole): Session
  {
    Session(true, (roles: seq<UserRole>) => role in roles)
  }

  /** Nobody signed in. */
  const SignedOut := Session(false, (roles: seq<UserRole>) => false)
}
