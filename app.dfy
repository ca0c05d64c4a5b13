/**
 * The application's route table (src/App.tsx): which page each path shows,
 * which of them sit behind the page frame's access gate and with which
 * roles, and where the remaining paths redirect.
 */
module App {
  import opened Collections
  import opened Types
  import opened Auth
  import opened Layout
  import Sidebar

  datatype Screen =
    | LoginScreen | UnauthorizedScreen | DashboardScreen | PurchasesScreen
    | TransfersScreen | AssignmentsScreen | ExpendituresScreen

  /** One route: a page shown to anyone, a page inside the gated frame with
      the roles it admits, or a redirect. */
  datatype RouteEntry =
    | Ungated(screen: Screen)
    | Guarded(screen: Screen, allowedRoles: seq<UserRole>)
    | Redirect(to: string)

  /** The screens inside the gated frame: all but the login and unauthorized
      pages. */
  predicate Gated(screen: Screen)
  {
    screen != LoginScreen && screen != UnauthorizedScreen
  }

  /** The roles the route of a gated screen admits: administrators and base
      commanders for expenditures, the frame's default for the others. */
  function ScreenRoles(screen: Screen): seq<UserRole>
  {
    if screen == ExpendituresScreen then [Admin, BaseCommander] else DefaultAllowedRoles
  }

  /** The route table, matched on exact paths; "/" goes to the login page and
      every other unknown path to the dashboard. Every gated screen sits
      behind the frame, always with the same roles, and redirects lead only
      to the login page or the dashboard. */
  function Route(path: string): (r: RouteEntry)
    ensures r.Ungated? ==> !Gated(r.screen)
    ensures r.Guarded? ==> Gated(r.screen) && r.allowedRoles == ScreenRoles(r.screen)
    ensures r.Redirect? ==> r.to in ["/login", "/dashboard"]
  {
    if path == "/login" then Ungated(LoginScreen)
    else if path == "/unauthorized" then Ungated(UnauthorizedScreen)
    else if path == "/dashboard" then Guarded(DashboardScreen, DefaultAllowedRoles)
    else if path == "/purchases" then Guarded(PurchasesScreen, DefaultAllowedRoles)
    else if path == "/transfers" then Guarded(TransfersScreen, DefaultAllowedRoles)
    else if path in ["/assignments", "/assignments/active", "/assignments/history"]
    then Guarded(AssignmentsScreen, DefaultAllowedRoles)
    else if path == "/expenditures" then Guarded(ExpendituresScreen, [Admin, BaseCommander])
    else if path == "/" then Redirect("/login")
    else Redirect("/dashboard")
  }

  /** The shape of the table: only the login and unauthorized pages are
      ungated, only the expenditures page narrows the roles, and every
      redirect leads to the login page or the dashboard. */
  lemma RouteTable(path: string)
    ensures Route(path).Ungated? <==> path == "/login" || path == "/unauthorized"
    ensures Route(path).Guarded? && path != "/expenditures" ==> Route(path).allowedRoles == AllRoles
    ensures Route("/expenditures") == Guarded(ExpendituresScreen, [Admin, BaseCommander])
    ensures Route(path).Redirect? ==> Route(path).to in ["/login", "/dashboard"]
    ensures Route(path) == Guarded(AssignmentsScreen, AllRoles) <==>
              path in ["/assignments", "/assignments/active", "/assignments/history"]
  {
  }

  /** What one visit does: the page shown, or the path it sends to. */
  datatype Outcome = Shown(screen: Screen) | SentTo(path: string)

  /** A visit to `path`: an ungated page is shown, a guarded one goes through
      the frame's gate with the route's roles, a redirect sends on. A gated
      screen is shown only to a signed-in visitor permitted its roles, and a
      visit sends on only to the login, unauthorized or dashboard page. */
  function Visit(path: string, session: Session): (o: Outcome)
    ensures o.Shown? && Gated(o.screen) ==>
              session.isAuthenticated && session.hasPermission(ScreenRoles(o.screen))
    ensures o.SentTo? ==> o.path in ["/login", "/unauthorized", "/dashboard"]
  {
    match Route(path)
    case Ungated(screen) => Shown(screen)
    case Guarded(screen, roles) =>
      (match LayoutDecision(true, roles, session)
       case Render => Shown(screen)
       case RedirectTo(to) => SentTo(to))
    case Redirect(to) => SentTo(to)
  }

  /** The page finally shown when the visitor follows up to `fuel` visits,
      or None if that many do not reach one. However many redirects are
      followed, a gated screen is reached only by a signed-in visitor
      permitted its roles. */
  function Follow(path: string, session: Session, fuel: nat): (r: Option<Screen>)
    ensures r.Some? && Gated(r.value) ==>
              session.isAuthenticated && session.hasPermission(ScreenRoles(r.value))
    decreases fuel
  {
    if fuel == 0 then None
    else match Visit(path, session)
         case Shown(screen) => Some(screen)
         case SentTo(to) => Follow(to, session, fuel - 1)
  }

  /** A visit to a guarded page either shows it or sends to the login or the
      unauthorized page, both of which are shown to anyone. */
  lemma GuardedVisitSettles(path: string, session: Session)
    requires Route(path).Guarded?
    ensures Follow(path, session, 2) == Some(Route(path).screen) <==>
              session.isAuthenticated && session.hasPermission(Route(path).allowedRoles)
    ensures !session.isAuthenticated ==> Follow(path, session, 2) == Some(LoginScreen)
    ensures session.isAuthenticated && !session.hasPermission(Route(path).allowedRoles) ==>
              Follow(path, session, 2) == Some(UnauthorizedScreen)
  {
    var d := LayoutDecision(true, Route(path).allowedRoles, session);
    if d.RedirectTo? {
      assert Route(d.path).Ungated?;
    }
  }

  /** There are no redirect loops: from any path, three visits reach a page.
      Signed out, every path but the unauthorized page ends at the login
      page. */
  lemma NoRedirectLoops(path: string, session: Session)
    ensures Follow(path, session, 3).Some?
    ensures !session.isAuthenticated && path != "/unauthorized" ==> Follow(path, session, 3) == Some(LoginScreen)
  {
    match Route(path)
    case Ungated(_) =>
    case Guarded(_, _) =>
      GuardedVisitSettles(path, session);
      FollowMoreFuel(path, session, 2);
    case Redirect(to) =>
      if to == "/dashboard" {
        GuardedVisitSettles(to, session);
      }
  }

  /** More visits than needed change nothing. */
  lemma {:induction false} FollowMoreFuel(path: string, session: Session, fuel: nat)
    requires Follow(path, session, fuel).Some?
    ensures Follow(path, session, fuel + 1) == Follow(path, session, fuel)
    decreases fuel
  {
    assert fuel > 0;
    match Visit(path, session)
    case Shown(_) =>
    case SentTo(to) =>
      FollowMoreFuel(to, session, fuel - 1);
  }

  /** Under the role-membership reading, an administrator or base commander
      reaches the expenditures page and a logistics officer is sent to the
      unauthorized page. */
  lemma ExpendituresByRole()
    ensures Follow("/expenditures", SignedInAs(Admin), 3) == Some(ExpendituresScreen)
    ensures Follow("/expenditures", SignedInAs(BaseCommander), 3) == Some(ExpendituresScreen)
    ensures Follow("/expenditures", SignedInAs(LogisticsOfficer), 3) == Some(UnauthorizedScreen)
  {
    GuardedVisitSettles("/expenditures", SignedInAs(Admin));
    GuardedVisitSettles("/expenditures", SignedInAs(BaseCommander));
    GuardedVisitSettles("/expenditures", SignedInAs(LogisticsOfficer));
    FollowMoreFuel("/expenditures", SignedInAs(Admin), 2);
    FollowMoreFuel("/expenditures", SignedInAs(BaseCommander), 2);
    FollowMoreFuel("/expenditures", SignedInAs(LogisticsOfficer), 2);
  }

  /** The sidebar and the routes agree: each of the first five sidebar links
      leads to a guarded page admitting exactly the link's roles, the
      assignments sublinks lead to the assignments page, and the settings
      link has no route of its own, so it falls through to the dashboard. */
  lemma SidebarLinksRouted()
    ensures forall i :: 0 <= i < 5 ==>
              Route(Sidebar.Links[i].to).Guarded?
              && Route(Sidebar.Links[i].to).allowedRoles == Sidebar.Links[i].allowedRoles
    ensures forall k :: 0 <= k < |Sidebar.AssignmentsLink.subLinks| ==>
              Route(Sidebar.AssignmentsLink.subLinks[k].to) == Guarded(AssignmentsScreen, AllRoles)
    ensures Route(Sidebar.SettingsLink.to) == Redirect("/dashboard")
  {
  }
}
