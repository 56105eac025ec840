/**
  The header's navigation: which dashboard a user's "Dashboard" link opens
  and which links a signed-in user sees, by role.
 */
module Header {
  import opened Wrappers
  import opened Records

  /** What the header reads from the user context. */
  datatype Session = Session(isAuthenticated: bool, currentUser: Option<User>)

  predicate HasRole(session: Session, role: string) {
    session.currentUser.Some? && session.currentUser.value.role == role
  }

  predicate IsJobSeeker(session: Session) { HasRole(session, "jobSeeker") }
  predicate IsEmployer(session: Session) { HasRole(session, "employer") }
  predicate IsAdmin(session: Session) { HasRole(session, "admin") }

  datatype NavItem = NavItem(path: string, caption: string, icon: string)

  /** `getDashboardPath`: the role flags are tested in the order job seeker, employer, admin. */
  function DashboardPath(session: Session): (path: string)
    ensures IsJobSeeker(session) ==> path == "/job-seeker-dashboard"
    ensures IsEmployer(session) ==> path == "/employer-dashboard"
    ensures IsAdmin(session) ==> path == "/admin-dashboard"
    ensures !IsJobSeeker(session) && !IsEmployer(session) && !IsAdmin(session) ==> path == "/"
  {
    if IsJobSeeker(session) then "/job-seeker-dashboard"
    else if IsEmployer(session) then "/employer-dashboard"
    else if IsAdmin(session) then "/admin-dashboard"
    else "/"
  }

  const ProfileItem := NavItem("/profile", "Profile", "User")
  const ApplicationsItem := NavItem("/applications", "Applications", "FileText")

  /** `getNavItems`. */
  function NavItems(session: Session): (items: seq<NavItem>)
    ensures !session.isAuthenticated ==> items == []
    ensures session.isAuthenticated ==>
      |items| >= 2 && items[0] == NavItem(DashboardPath(session), "Dashboard", "Home") && items[1] == ProfileItem
    ensures session.isAuthenticated && IsJobSeeker(session) ==>
      |items| == 4 && items[2] == NavItem("/jobs", "Find Jobs", "Briefcase") && items[3] == ApplicationsItem
    ensures session.isAuthenticated && IsEmployer(session) ==> |items| == 3 && items[2] == ApplicationsItem
    ensures session.isAuthenticated && IsAdmin(session) ==>
      |items| == 3 && items[2] == NavItem("/applications", "Manage System", "Settings")
    ensures session.isAuthenticated && !IsJobSeeker(session) && !IsEmployer(session) && !IsAdmin(session) ==>
      |items| == 2
  {
    if !session.isAuthenticated then []
    else
      var common := [NavItem(DashboardPath(session), "Dashboard", "Home"), ProfileItem];
      if IsJobSeeker(session) then common + [NavItem("/jobs", "Find Jobs", "Briefcase"), ApplicationsItem]
      else if IsEmployer(session) then common + [ApplicationsItem]
      else if IsAdmin(session) then common + [NavItem("/applications", "Manage System", "Settings")]
      else common
  }

  /** The routes the application declares. */
  const Routes := ["/", "/job-seeker-dashboard", "/employer-dashboard", "/admin-dashboard", "/jobs", "/profile", "/applications"]

  /** Every link leads to a declared route, and no two links of one header lead to the same place. */
  lemma NavItemsAreRoutes(session: Session)
    ensures forall item :: item in NavItems(session) ==> item.path in Routes
    ensures forall i, j :: 0 <= i < j < |NavItems(session)| ==> NavItems(session)[i].path != NavItems(session)[j].path
  {
    var items := NavItems(session);
    if session.isAuthenticated {
      assert items[0].path in Routes;
      assert forall k :: 1 <= k < |items| ==> items[k].path in {"/profile", "/jobs", "/applications"};
      assert forall item :: item in items ==> exists k :: 0 <= k < |items| && items[k] == item;
    }
  }

  /** A signed-in user's "Dashboard" link opens the dashboard of their own role. */
  lemma DashboardLinkMatchesRole(session: Session)
    requires session.isAuthenticated && session.currentUser.Some?
    ensures NavItems(session)[0].path == match session.currentUser.value.role
      case "jobSeeker" => "/job-seeker-dashboard"
      case "employer" => "/employer-dashboard"
      case "admin" => "/admin-dashboard"
      case _ => "/"
  {
  }
}
