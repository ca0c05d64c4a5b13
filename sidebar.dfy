/**
 * The navigation sidebar (src/components/layout/Sidebar.tsx): its table of
 * links and the roles each admits, which of them a visitor sees, and the
 * submenu of which at most one is open.
 */
module Sidebar {
  import opened Collections
  import opened Types
  import opened Auth

  /** The TypeScript `label` (a Dafny keyword) is `caption` here. */
  datatype SubLink = SubLink(to: string, caption: string, allowedRoles: seq<UserRole>)

  datatype SidebarLink = SidebarLink(
    to: string, caption: string, allowedRoles: seq<UserRole>, subLinks: seq<SubLink>)

  const DashboardLink := SidebarLink("/dashboard", "Dashboard", AllRoles, [])
  const PurchasesLink := SidebarLink("/purchases", "Purchases", AllRoles, [])
  const TransfersLink := SidebarLink("/transfers", "Transfers", AllRoles, [])
  const AssignmentsLink := SidebarLink("/assignments", "Assignments", AllRoles, [
    SubLink("/assignments/active", "Active Assignments", AllRoles),
    SubLink("/assignments/history", "Assignment History", AllRoles)
  ])
  const ExpendituresLink := SidebarLink("/expenditures", "Expenditures", [Admin, BaseCommander], [])
  const SettingsLink := SidebarLink("/settings", "Settings", [Admin], [])

  /** The sidebar's links, in display order. */
  const Links: seq<SidebarLink> :=
    [DashboardLink, PurchasesLink, TransfersLink, AssignmentsLink, ExpendituresLink, SettingsLink]

  /** The role table: settings is for administrators only, expenditures for
      administrators and base commanders, and every other link and sublink
      for all three roles. */
  lemma RoleTable(role: UserRole)
    ensures role in Links[5].allowedRoles <==> role == Admin
    ensures role in Links[4].allowedRoles <==> role == Admin || role == BaseCommander
    ensures forall i :: 0 <= i < 4 ==> role in Links[i].allowedRoles
    ensures forall k :: 0 <= k < |Links[3].subLinks| ==> role in Links[3].subLinks[k].allowedRoles
  {
  }

  /** A link's sublinks as rendered: none unless its submenu is the open
      one, and then those the visitor is permitted, in order. */
  function ShownSubLinks(link: SidebarLink, openSubmenu: Option<string>,
                         hasPermission: seq<UserRole> -> bool): (r: seq<SubLink>)
    ensures forall k :: 0 <= k < |r| ==>
              r[k] in link.subLinks && openSubmenu == Some(link.caption) && hasPermission(r[k].allowedRoles)
    ensures openSubmenu == Some(link.caption) ==>
              forall k :: 0 <= k < |link.subLinks| && hasPermission(link.subLinks[k].allowedRoles) ==>
                link.subLinks[k] in r
    ensures Embeds(r, link.subLinks)
    ensures forall x :: multiset(r)[x] ==
              if openSubmenu == Some(link.caption) && hasPermission(x.allowedRoles)
              then multiset(link.subLinks)[x] else 0
  {
    if openSubmenu == Some(link.caption) then
      FilterCounts(link.subLinks, (s: SubLink) => hasPermission(s.allowedRoles));
      FilterEmbeds(link.subLinks, (s: SubLink) => hasPermission(s.allowedRoles));
      Filter(link.subLinks, (s: SubLink) => hasPermission(s.allowedRoles))
    else
      []
  }

  /** The links the visitor is permitted, in display order. */
  function PermittedLinks(links: seq<SidebarLink>, hasPermission: seq<UserRole> -> bool): seq<SidebarLink>
  {
    Filter(links, (l: SidebarLink) => hasPermission(l.allowedRoles))
  }

  /** One rendered entry: a link and the sublinks shown under it. */
  datatype MenuEntry = MenuEntry(link: SidebarLink, shown: seq<SubLink>)

  /** The rendered menu: the permitted links in order, each with its shown
      sublinks. A sublink therefore shows only under a permitted parent whose
      submenu is open, and only when it is permitted itself. */
  function Menu(links: seq<SidebarLink>, openSubmenu: Option<string>,
                hasPermission: seq<UserRole> -> bool): (r: seq<MenuEntry>)
    ensures |r| == |PermittedLinks(links, hasPermission)|
    ensures forall j :: 0 <= j < |r| ==> r[j].link == PermittedLinks(links, hasPermission)[j]
    ensures forall j :: 0 <= j < |r| ==>
              r[j].link in links && hasPermission(r[j].link.allowedRoles)
              && r[j].shown == ShownSubLinks(r[j].link, openSubmenu, hasPermission)
    ensures forall i :: 0 <= i < |links| && hasPermission(links[i].allowedRoles) ==>
              exists j :: 0 <= j < |r| && r[j].link == links[i]
  {
    var permitted := PermittedLinks(links, hasPermission);
    var r := seq(|permitted|, j requires 0 <= j < |permitted| =>
      MenuEntry(permitted[j], ShownSubLinks(permitted[j], openSubmenu, hasPermission)));
    assert forall j :: 0 <= j < |r| ==> r[j].link == permitted[j];
    assert forall i :: 0 <= i < |links| && hasPermission(links[i].allowedRoles) ==> links[i] in permitted;
    r
  }

  /** Over a six-link table whose first four links the visitor is permitted,
      the visitor sees those four, followed by whichever of the last two they
      are permitted. */
  lemma SharedLinksFirst(links: seq<SidebarLink>, hasPermission: seq<UserRole> -> bool)
    requires |links| == 6
    requires forall i :: 0 <= i < 4 ==> hasPermission(links[i].allowedRoles)
    ensures PermittedLinks(links, hasPermission)
            == links[..4] + (if hasPermission(links[4].allowedRoles) then [links[4]] else [])
                          + (if hasPermission(links[5].allowedRoles) then [links[5]] else [])
  {
    var keep := (l: SidebarLink) => hasPermission(l.allowedRoles);
    FilterKeptPrefix(links, 4, keep);
    assert links[4..] == [links[4], links[5]];
    FilterPair(links[4], links[5], keep);
  }

  /** The role table's first four links admit every role. */
  lemma SharedLinksAdmitAll(hasPermission: seq<UserRole> -> bool)
    requires hasPermission(AllRoles)
    ensures forall i :: 0 <= i < 4 ==> hasPermission(Links[i].allowedRoles)
  {
    assert forall i :: 0 <= i < 4 ==> Links[i].allowedRoles == AllRoles;
  }

  /** Under the role-membership reading of permission, a logistics officer
      sees the four shared links only. */
  lemma LogisticsOfficerMenu()
    ensures PermittedLinks(Links, SignedInAs(LogisticsOfficer).hasPermission) == Links[..4]
  {
    var perm := SignedInAs(LogisticsOfficer).hasPermission;
    SharedLinksAdmitAll(perm);
    SharedLinksFirst(Links, perm);
    assert !perm(Links[4].allowedRoles) && !perm(Links[5].allowedRoles);
  }

  /** A base commander also sees expenditures, but not settings. */
  lemma BaseCommanderMenu()
    ensures PermittedLinks(Links, SignedInAs(BaseCommander).hasPermission) == Links[..5]
  {
    var perm := SignedInAs(BaseCommander).hasPermission;
    SharedLinksAdmitAll(perm);
    SharedLinksFirst(Links, perm);
    assert perm(Links[4].allowedRoles) && !perm(Links[5].allowedRoles);
    assert Links[..4] + [Links[4]] == Links[..5];
  }

  /** An administrator sees every link. */
  lemma AdminMenu()
    ensures PermittedLinks(Links, SignedInAs(Admin).hasPermission) == Links
  {
    var perm := SignedInAs(Admin).hasPermission;
    SharedLinksAdmitAll(perm);
    SharedLinksFirst(Links, perm);
    assert perm(Links[4].allowedRoles) && perm(Links[5].allowedRoles);
    assert Links[..4] + [Links[4]] + [Links[5]] == Links;
  }

  /** With the assignments submenu open, a logistics officer sees both of
      its sublinks. */
  lemma LogisticsOfficerSubmenu()
    ensures ShownSubLinks(AssignmentsLink, Some("Assignments"), SignedInAs(LogisticsOfficer).hasPermission)
            == AssignmentsLink.subLinks
  {
    var perm := SignedInAs(LogisticsOfficer).hasPermission;
    FilterAllKept(AssignmentsLink.subLinks, (s: SubLink) => perm(s.allowedRoles));
  }

  /** `toggleSubmenu(caption)`: close the submenu if it is the open one,
      otherwise open it (closing any other), so at most one submenu — the
      toggled one, if any — is open afterwards. */
  function Toggled(openSubmenu: Option<string>, caption: string): (r: Option<string>)
    ensures r == Some(caption) <==> openSubmenu != Some(caption)
    ensures r == None <==> openSubmenu == Some(caption)
  {
    if openSubmenu == Some(caption) then None else Some(caption)
  }

  /** Toggling the same caption twice restores a closed menu and an open
      `caption`, but closes any other open submenu for good. */
  lemma ToggleTwice(openSubmenu: Option<string>, caption: string)
    ensures openSubmenu == None || openSubmenu == Some(caption) ==>
              Toggled(Toggled(openSubmenu, caption), caption) == openSubmenu
    ensures openSubmenu.Some? && openSubmenu.value != caption ==>
              Toggled(Toggled(openSubmenu, caption), caption) == None
  {
  }

  /** The sidebar's own state: which submenu is open, none at first. */
  class SidebarState {
    var openSubmenu: Option<string>

    constructor ()
      ensures openSubmenu == None
    {
      openSubmenu := None;
    }

    method ToggleSubmenu(caption: string)
      modifies this
      ensures openSubmenu == Toggled(old(openSubmenu), caption)
    {
      if openSubmenu == Some(caption) {
        openSubmenu := None;
      } else {
        openSubmenu := Some(caption);
      }
    }
  }
}
