/** The application shell: the session handlers, the role lookup and the
    dispatch from the current page name to the view shown. */
module Index {
  import opened Common
  import Dashboard

  /** The authenticated identity and the session that carries it. */
  datatype User = User(id: Id, email: string)
  datatype Session = Session(user: User)

  /** What the shell shows. */
  datatype Screen =
    | LoadingScreen
    | LandingScreen
    | DashboardScreen
    | RunnersScreen
    | CollectorScreen
    | AdminScreen
    | ResetPasswordScreen

  /** `renderUserContent` for a signed-in user: the page name picks the view;
      "admin" shows the user-management view only for the role `admin`;
      every other name shows the dashboard. */
  function Dispatch(page: string, role: Option<string>): (v: Screen)
    ensures v == RunnersScreen <==> page == "runners"
    ensures v == CollectorScreen <==> page == "collector"
    ensures v == ResetPasswordScreen <==> page == "reset-password"
    ensures v == AdminScreen <==> page == "admin" && role == Some("admin")
    ensures v == DashboardScreen <==>
              page != "runners" && page != "collector" && page != "reset-password"
              && !(page == "admin" && role == Some("admin"))
    ensures v != LoadingScreen && v != LandingScreen
  {
    if page == "runners" then RunnersScreen
    else if page == "collector" then CollectorScreen
    else if page == "admin" && role == Some("admin") then AdminScreen
    else if page == "reset-password" then ResetPasswordScreen
    else DashboardScreen
  }

  /** The user-management view is reachable exactly for the role that also
      shows its card on the dashboard. */
  lemma AdminScreenMatchesAdminCard(page: string, role: Option<string>)
    ensures Dispatch(page, role) == AdminScreen ==> Dashboard.ShowsAdminCard(role)
    ensures Dashboard.ShowsAdminCard(role) ==> Dispatch("admin", role) == AdminScreen
  {
  }

  /** For a non-admin the admin page is the dashboard, so the redirect it
      triggers leads to a page that renders the same and triggers nothing. */
  lemma AdminRedirectIsStable(role: Option<string>)
    requires role != Some("admin")
    ensures Dispatch("admin", role) == Dispatch("dashboard", role) == DashboardScreen
  {
  }

  /** The state of the shell. */
  class IndexPage {
    var user: Option<User>
    var session: Option<Session>
    var loading: bool
    var currentPage: string
    var userRole: Option<string>

    constructor ()
      ensures user == None && session == None && loading
      ensures currentPage == "dashboard" && userRole == None
    {
      user, session, loading := None, None, true;
      currentPage, userRole := "dashboard", None;
    }

    /** An auth-state notification, or the answer to the initial session
        query: both run the same handler. `roleRequest` is the user whose
        role lookup the handler starts. The role itself is not reset. */
    method OnSession(s: Option<Session>) returns (roleRequest: Option<Id>)
      modifies this
      ensures session == s && !loading
      ensures user == (if s.Some? then Some(s.value.user) else None)
      ensures roleRequest == (if s.Some? then Some(s.value.user.id) else None)
      ensures currentPage == old(currentPage) && userRole == old(userRole)
    {
      session := s;
      user := if s.Some? then Some(s.value.user) else None;
      roleRequest := if s.Some? then Some(s.value.user.id) else None;
      loading := false;
    }

    /** `fetchUserRole`: store the looked-up role (null when empty); keep the
        previous one when the lookup fails. */
    method FetchUserRole(lookup: Dashboard.RoleLookup)
      modifies this
      ensures userRole == Dashboard.RoleAfterLookup(old(userRole), lookup)
      ensures lookup == Dashboard.LookupFailed ==> userRole == old(userRole)
      ensures user == old(user) && session == old(session)
      ensures loading == old(loading) && currentPage == old(currentPage)
    {
      userRole := Dashboard.RoleAfterLookup(userRole, lookup);
    }

    /** `onNavigate` of the dashboard. */
    method Navigate(page: string)
      modifies this
      ensures currentPage == page
      ensures user == old(user) && session == old(session)
      ensures loading == old(loading) && userRole == old(userRole)
    {
      currentPage := page;
    }

    /** The back action of every sub-view. */
    method Back()
      modifies this
      ensures currentPage == "dashboard"
      ensures user == old(user) && session == old(session)
      ensures loading == old(loading) && userRole == old(userRole)
    {
      currentPage := "dashboard";
    }

    /** One render of the shell. A non-admin on the admin page is sent back
        to the dashboard, which is what this render shows. */
    method Render() returns (screen: Screen)
      modifies this
      ensures loading ==> screen == LoadingScreen
      ensures !loading && user.None? ==> screen == LandingScreen
      ensures !loading && user.Some? ==> screen == Dispatch(old(currentPage), userRole)
      ensures currentPage ==
                if !loading && user.Some? && old(currentPage) == "admin" && userRole != Some("admin")
                then "dashboard" else old(currentPage)
      ensures user == old(user) && session == old(session)
      ensures loading == old(loading) && userRole == old(userRole)
    {
      if loading {
        return LoadingScreen;
      }
      if user.None? {
        return LandingScreen;
      }
      if currentPage == "admin" && userRole != Some("admin") {
        currentPage := "dashboard";
        return DashboardScreen;
      }
      screen := Dispatch(currentPage, userRole);
    }
  }

  /** What the contracts above imply when an admin's session ends while the
      admin page is open, and another user then signs in on the same page
      and that user's role lookup fails: the previous `admin` role and page
      are still in place, and the user-management view is rendered. */
  method StaleRoleAfterFailedLookup(admin: User, other: User)
  {
    var page := new IndexPage();
    var _ := page.OnSession(Some(Session(admin)));
    page.FetchUserRole(Dashboard.Found(Some("admin")));
    page.Navigate("admin");
    var screen := page.Render();
    assert screen == AdminScreen;
    var _ := page.OnSession(None);
    screen := page.Render();
    assert screen == LandingScreen;
    var _ := page.OnSession(Some(Session(other)));
    page.FetchUserRole(Dashboard.LookupFailed);
    screen := page.Render();
    assert page.user == Some(other) && screen == AdminScreen;
  }
}
