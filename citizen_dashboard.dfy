/**
 * The citizen dashboard (src/frontend/src/pages/CitizenDashboard.tsx): its
 * role guard and the notifier it mounts; and, with the officer dashboard
 * and the sign-in page, the guarantee that role redirects settle.
 */
module CitizenDashboard {
  import opened Backend
  import opened Routing
  import opened UseQueries
  import NotificationManager
  import OfficerDashboard
  import AuthPage

  /**
   * The redirect effect: to sign-in without an identity, to the officer
   * dashboard for a loaded profile whose user type is exactly "officer",
   * nowhere otherwise.
   */
  function Redirect(hasIdentity: bool, profile: ProfileData): (r: Option<Route>)
    ensures !hasIdentity ==> r == Some(Auth)
    ensures r == Some(Route.OfficerDashboard) <==> hasIdentity && profile.IsOfficer()
    ensures r == None <==> hasIdentity && !profile.IsOfficer()
  {
    if !hasIdentity then Some(Auth)
    else if profile.Loaded? && profile.profile.userType == OfficerType then Some(Route.OfficerDashboard)
    else None
  }

  /** The page: a spinner while the profile loads, otherwise the dashboard with a citizen-mode notifier. */
  datatype Page = Spinner | Dashboard(notifier: Role)

  function View(isLoading: bool): (p: Page)
    ensures p == Spinner <==> isLoading
    ensures p.Dashboard? ==> p.notifier == CitizenRole
  {
    if isLoading then Spinner else Dashboard(CitizenRole)
  }

  /** The notifier this page mounts never alerts and never changes what it remembers. */
  lemma NotifierInert(previous: seq<string>, requests: seq<HelpRequest>)
    ensures View(false).notifier == CitizenRole
    ensures NotificationManager.Run(View(false).notifier, previous, requests) == NotificationManager.RunResult(None, previous)
  {
  }

  /**
   * For a signed-in user with a loaded profile exactly one dashboard keeps
   * them, and it is the one the sign-in page sends them to: a user type
   * that is neither "officer" nor "citizen" stays on the citizen dashboard.
   */
  lemma RedirectsSettle(profile: UserProfile)
    ensures var landing := AuthPage.Redirect(true, Loaded(profile));
            && landing == Some(DashboardFor(profile.userType))
            && (OfficerDashboard.Redirect(true, Loaded(profile)) == None <==> landing == Some(Route.OfficerDashboard))
            && (Redirect(true, Loaded(profile)) == None <==> landing == Some(Route.CitizenDashboard))
  {
  }

  /** While the profile is not loaded or absent, neither dashboard redirects a signed-in user. */
  lemma NoRoleRedirectWithoutProfile(profile: ProfileData)
    requires !profile.Loaded?
    ensures Redirect(true, profile) == None
    ensures OfficerDashboard.Redirect(true, profile) == None
  {
  }
}
