/**
 * The page frame's access gate (src/components/layout/Layout.tsx): before
 * rendering a page it sends a visitor who is not signed in to the login
 * page, and a signed-in visitor without permission to the unauthorized page.
 */
module Layout {
  import opened Types
  import opened Auth

  datatype Decision = RedirectTo(path: string) | Render

  /** The roles a page admits when it names none: all three. */
  const DefaultAllowedRoles: seq<UserRole> := AllRoles

  /** The gate's decision. It renders exactly when authentication is not
      required, or the visitor is signed in and permitted; otherwise the
      missing sign-in sends to /login, whatever the roles, and the missing
      permission to /unauthorized. */
  function LayoutDecision(requireAuth: bool, allowedRoles: seq<UserRole>, session: Session): (d: Decision)
    ensures d == Render <==>
              !requireAuth || (session.isAuthenticated && session.hasPermission(allowedRoles))
    ensures requireAuth && !session.isAuthenticated ==> d == RedirectTo("/login")
    ensures requireAuth && session.isAuthenticated && !session.hasPermission(allowedRoles) ==>
              d == RedirectTo("/unauthorized")
    ensures d.RedirectTo? ==> d.path in ["/login", "/unauthorized"]
  {
    if requireAuth && !session.isAuthenticated then RedirectTo("/login")
    else if requireAuth && session.isAuthenticated && !session.hasPermission(allowedRoles) then RedirectTo("/unauthorized")
    else Render
  }

  /** Under the role-membership reading, the default roles admit every
      signed-in user, and nobody signed out. */
  lemma DefaultRolesAdmitEveryRole(role: UserRole)
    ensures LayoutDecision(true, DefaultAllowedRoles, SignedInAs(role)) == Render
    ensures LayoutDecision(true, DefaultAllowedRoles, SignedOut) == RedirectTo("/login")
  {
  }
}
