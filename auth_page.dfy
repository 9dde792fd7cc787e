/**
 * The sign-in page (src/frontend/src/pages/AuthPage.tsx): which screen it
 * shows (sign-in, role choice, registration form or loading), the role
 * the user picked, and the redirect once a profile exists.
 */
module AuthPage {
  import opened Backend
  import opened Routing
  import opened UseQueries

  datatype Screen = SignIn | RoleSelection | Registration(role: Role) | Loading

  /**
   * The screen for the current state. Signed out: sign-in. Signed in with
   * no role chosen and a fetched, settled, absent profile: the role choice.
   * Signed in with a role chosen: the registration form for it. Anything
   * else: loading.
   */
  function ScreenFor(isAuthenticated: bool, profileLoading: bool, isFetched: bool, profile: ProfileData,
                     selectedRole: Option<Role>): (s: Screen)
    ensures !isAuthenticated ==> s == SignIn
    ensures s == RoleSelection <==>
              isAuthenticated && !profileLoading && isFetched && profile == NoProfile && selectedRole == None
    ensures s.Registration? <==> isAuthenticated && selectedRole.Some?
    ensures s.Registration? ==> s.role == selectedRole.value
    ensures s == Loading <==>
              && isAuthenticated && selectedRole == None
              && (profileLoading || !isFetched || profile != NoProfile)
  {
    var showRoleSelection := isAuthenticated && !profileLoading && isFetched && profile == NoProfile && selectedRole == None;
    var showRegistrationForm := isAuthenticated && selectedRole != None;
    if !isAuthenticated then SignIn
    else if showRoleSelection then RoleSelection
    else if showRegistrationForm then Registration(selectedRole.value)
    else Loading
  }

  /** Signed in with a profile, the page leaves for the dashboard of the profile's user type. */
  function Redirect(isAuthenticated: bool, profile: ProfileData): (r: Option<Route>)
    ensures r.Some? <==> isAuthenticated && profile.Loaded?
    ensures r.Some? ==> r.value == DashboardFor(profile.profile.userType)
    ensures r.Some? ==> (r.value == OfficerDashboard <==> profile.IsOfficer())
  {
    if isAuthenticated && profile.Loaded? then Some(DashboardFor(profile.profile.userType)) else None
  }

  /** The role the user picked on the role screen: none after the page mounts. */
  class Page {
    var selectedRole: Option<Role>

    constructor ()
      ensures selectedRole == None
    {
      selectedRole := None;
    }

    /** `setSelectedRole`, the role screen's callback. */
    method SelectRole(role: Role)
      modifies this
      ensures selectedRole == Some(role)
    {
      selectedRole := Some(role);
    }
  }

  /**
   * A new user's path: with a fetched, absent profile the role choice is
   * shown; once a role is picked, the registration form for that role,
   * whatever the profile query is doing.
   */
  lemma SignUpPath(role: Role, profileLoading: bool, isFetched: bool, profile: ProfileData)
    ensures ScreenFor(true, false, true, NoProfile, None) == RoleSelection
    ensures ScreenFor(true, profileLoading, isFetched, profile, Some(role)) == Registration(role)
  {
  }
}
