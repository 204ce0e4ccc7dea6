/**
 * The application shell and its routes: the role read from the path, the
 * public pages that skip the shell, the role switch, the side navigation
 * and the route table with its fallback redirect. Navigation is the
 * returned target path; the scroll-driven top bar is not modelled.
 */
module App {
  import opened Strings

  datatype Role = Doctor | Organizer

  /** `currentRole`: organizer exactly under `/organizer`. */
  function CurrentRole(pathname: string): (r: Role)
    ensures r == Organizer <==> StartsWith(pathname, "/organizer")
  {
    if StartsWith(pathname, "/organizer") then Organizer else Doctor
  }

  /** `isPublicPage`: the shell is skipped under `/event/`. */
  predicate IsPublicPage(pathname: string) {
    StartsWith(pathname, "/event/")
  }

  /** Where `handleRoleChange(role)` navigates. */
  function RoleHome(role: Role): string {
    match role
    case Doctor => "/"
    case Organizer => "/organizer/events"
  }

  /** Where `handleSwitchToOrganizer` navigates. */
  const HostPath := "/organizer/create"

  /** Arriving at the path a role change navigates to reads the same role back from the path. */
  lemma RoleChangeRoundTrip(role: Role)
    ensures CurrentRole(RoleHome(role)) == role
    ensures CurrentRole(HostPath) == Organizer
    ensures !IsPublicPage(RoleHome(role)) && !IsPublicPage(HostPath)
  {
    assert StartsWith(RoleHome(Organizer), "/organizer");
    assert StartsWith(HostPath, "/organizer");
    NotStartsWithAt(RoleHome(Organizer), "/event/", 1);
    NotStartsWithAt(HostPath, "/event/", 1);
  }

  datatype NavItem = NavItem(name: string, path: string)

  const DoctorNav: seq<NavItem> := [
    NavItem("Home", "/"), NavItem("Achievements", "/achievements"),
    NavItem("Passbook", "/passbook"), NavItem("Settings", "/settings")]

  const OrganizerNav: seq<NavItem> := [
    NavItem("Create Event", "/organizer/create"), NavItem("My Events", "/organizer/events"),
    NavItem("Profile", "/organizer/profile"), NavItem("Settings", "/organizer/settings")]

  /** `navItems`. */
  function NavItems(role: Role): seq<NavItem> {
    if role == Doctor then DoctorNav else OrganizerNav
  }

  /** `isActive`: the path equals the item's path exactly. */
  predicate IsActive(pathname: string, item: NavItem) {
    pathname == item.path
  }

  /** The pages the route table renders, and the redirect to `/`. */
  datatype Page =
    | HomePage | AchievementsPage | PassbookPage | OrganizerEventsPage | OrganizerProfilePage
    | PublicEvent(id: string)
    | RedirectHome

  /** The `:id` segment: one non-empty path segment. */
  predicate IsSegment(s: string) {
    s != [] && forall i :: 0 <= i < |s| ==> s[i] != '/'
  }

  /** The `<Routes>` table: six exact paths, `/event/:id`, and `*` (and the preview path) to `/`. */
  function Route(pathname: string): Page {
    if pathname == "/" then HomePage
    else if pathname == "/achievements" then AchievementsPage
    else if pathname == "/passbook" then PassbookPage
    else if pathname == "/organizer/create" || pathname == "/organizer/events" then OrganizerEventsPage
    else if pathname == "/organizer/profile" then OrganizerProfilePage
    else if IsPublicPage(pathname) && IsSegment(pathname[7..]) then PublicEvent(pathname[7..])
    else RedirectHome
  }

  /** The public-page route always skips the shell, and its id is what follows `/event/`. */
  lemma PublicRouteSkipsShell(pathname: string)
    requires Route(pathname).PublicEvent?
    ensures IsPublicPage(pathname)
    ensures pathname == "/event/" + Route(pathname).id
  {
  }

  /** Every id of one segment has its public page at `/event/` + id. */
  lemma PublicRouteRoundTrip(id: string)
    requires IsSegment(id)
    ensures Route("/event/" + id) == PublicEvent(id)
  {
    var p := "/event/" + id;
    assert StartsWith(p, "/event/");
    assert p[7..] == id;
    assert p[1] == 'e';
  }

  /** `/event/` with no id skips the shell but is redirected home. */
  lemma BareEventPathRedirects()
    ensures IsPublicPage("/event/") && Route("/event/") == RedirectHome
  {
  }

  /** The settings items of both navigations have no route of their own. */
  lemma SettingsRedirect()
    ensures Route("/settings") == RedirectHome && Route("/organizer/settings") == RedirectHome
    ensures Route("/preview_page_v2.html") == RedirectHome
  {
    NotStartsWithAt("/settings", "/event/", 1);
    NotStartsWithAt("/organizer/settings", "/event/", 1);
    NotStartsWithAt("/preview_page_v2.html", "/event/", 1);
  }

  /** Both organizer tab paths render the same page. */
  lemma OrganizerTabsSharePage()
    ensures Route("/organizer/create") == Route("/organizer/events") == OrganizerEventsPage
  {
  }

  /**
   * Each role's navigation leads to paths of that role, and on any path at
   * most one item is active.
   */
  lemma NavItemsConsistent(role: Role, pathname: string)
    ensures forall i :: 0 <= i < |NavItems(role)| ==> CurrentRole(NavItems(role)[i].path) == role
    ensures forall i, j :: 0 <= i < j < |NavItems(role)| ==>
              !(IsActive(pathname, NavItems(role)[i]) && IsActive(pathname, NavItems(role)[j]))
  {
    forall i | 0 <= i < 4 ensures CurrentRole(OrganizerNav[i].path) == Organizer {
      assert OrganizerNav[i].path[..10] == "/organizer";
    }
    NotStartsWithAt("/achievements", "/organizer", 1);
    NotStartsWithAt("/passbook", "/organizer", 1);
    NotStartsWithAt("/settings", "/organizer", 1);
  }

  /** The shell's state: the role shown by the switcher. */
  class AppShell {
    var role: Role

    /** The initial role comes from the path. */
    constructor (pathname: string)
      ensures role == CurrentRole(pathname)
    {
      role := CurrentRole(pathname);
    }

    /** The effect on a path change. */
    method OnPathChange(pathname: string)
      modifies this
      ensures role == CurrentRole(pathname)
    {
      role := CurrentRole(pathname);
    }

    /** `handleRoleChange`. */
    method HandleRoleChange(newRole: Role) returns (target: string)
      modifies this
      ensures role == newRole && target == RoleHome(newRole)
      ensures CurrentRole(target) == newRole
    {
      role := newRole;
      target := RoleHome(newRole);
      RoleChangeRoundTrip(newRole);
    }

    /** `handleSwitchToOrganizer`. */
    method HandleSwitchToOrganizer() returns (target: string)
      modifies this
      ensures role == Organizer && target == HostPath
      ensures CurrentRole(target) == Organizer
    {
      role := Organizer;
      target := HostPath;
      RoleChangeRoundTrip(Organizer);
    }

    /**
     * The achievements link the shell hands to the home page: it opens the
     * achievements page, inside the shell, in the doctor role.
     */
    method HandleNavigateToAchievements() returns (target: string)
      ensures target == "/achievements"
      ensures Route(target) == AchievementsPage
      ensures CurrentRole(target) == Doctor && !IsPublicPage(target)
    {
      target := "/achievements";
      NotStartsWithAt(target, "/organizer", 1);
      NotStartsWithAt(target, "/event/", 1);
    }

    /** The side navigation of the current role. */
    function Nav(): seq<NavItem>
      reads this
    {
      NavItems(role)
    }
  }
}
