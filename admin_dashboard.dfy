/** The admin shell: which tab is highlighted for the current path, and the logout button. */
module AdminDashboard {
  import opened JsText
  import opened AuthContext
  import LoginPage

  datatype Tab = DashboardTab | RoleCreationTab | JobCreationTab | JobDetailsTab

  /** `getActiveTab`: the first of three path fragments that occurs decides; none gives the dashboard. */
  function ActiveTab(pathname: string): (tab: Tab)
    ensures tab == RoleCreationTab <==> Includes(pathname, "role-creation")
    ensures tab == JobCreationTab <==> !Includes(pathname, "role-creation") && Includes(pathname, "job-creation")
    ensures tab == JobDetailsTab <==>
              !Includes(pathname, "role-creation") && !Includes(pathname, "job-creation") && Includes(pathname, "job-details")
    ensures tab == DashboardTab <==>
              !Includes(pathname, "role-creation") && !Includes(pathname, "job-creation") && !Includes(pathname, "job-details")
  {
    if Includes(pathname, "role-creation") then RoleCreationTab
    else if Includes(pathname, "job-creation") then JobCreationTab
    else if Includes(pathname, "job-details") then JobDetailsTab
    else DashboardTab
  }

  /** A fragment found at a known position is included, whatever surrounds it. */
  lemma {:induction false} IncludesAt(prefix: string, sub: string, suffix: string)
    ensures Includes(prefix + sub + suffix, sub)
  {
    var s := prefix + sub + suffix;
    assert s[|prefix|..][..|sub|] == sub;
    assert StartsWith(s[|prefix|..], sub);
  }

  /** "role-creation" wins over the other fragments wherever they occur in the path. */
  lemma RoleCreationWins(prefix: string, suffix: string)
    ensures ActiveTab(prefix + "role-creation" + suffix) == RoleCreationTab
  {
    IncludesAt(prefix, "role-creation", suffix);
  }

  /** The bare admin route shows the dashboard and its sub-routes their own tabs. */
  lemma AdminRoutes()
    ensures ActiveTab("/admin") == DashboardTab
    ensures ActiveTab("/admin/role-creation") == RoleCreationTab
  {
    IncludesAt("/admin/", "role-creation", "");
    assert "/admin/role-creation" == "/admin/" + "role-creation" + "";
  }

  /** `handleLogout`: the session is cleared first, then the page navigates to "/". */
  method HandleLogout(auth: AuthProvider) returns (nav: LoginPage.Navigation)
    modifies auth
    ensures auth.State() == AfterLogout(old(auth.State()))
    ensures nav == LoginPage.Navigation("/", false)
  {
    auth.Logout();
    nav := LoginPage.Navigation("/", false);
  }
}
