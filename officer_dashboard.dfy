/**
 * The officer dashboard (src/frontend/src/pages/OfficerDashboard.tsx): the
 * role guard, and the three tabs that split the fetched requests by status,
 * with their count badges and empty states.
 */
module OfficerDashboard {
  import opened Backend
  import opened Routing
  import opened RequestLists
  import opened UseQueries

  /**
   * The redirect effect: to sign-in without an identity, to the citizen
   * dashboard for a loaded profile of any other user type, nowhere while
   * the profile is not loaded or is absent.
   */
  function Redirect(hasIdentity: bool, profile: ProfileData): (r: Option<Route>)
    ensures !hasIdentity ==> r == Some(Auth)
    ensures hasIdentity && profile.Loaded? && profile.profile.userType != OfficerType ==> r == Some(CitizenDashboard)
    ensures r == None <==> hasIdentity && (profile.Loaded? ==> profile.profile.userType == OfficerType)
  {
    if !hasIdentity then Some(Auth)
    else if profile.Loaded? && profile.profile.userType != OfficerType then Some(CitizenDashboard)
    else None
  }

  datatype Tab = PendingTab | ActiveTab | ResolvedTab
  {
    /** The status whose requests the tab lists. */
    function Shows(): Status {
      match this
      case PendingTab => Pending
      case ActiveTab => Accepted
      case ResolvedTab => Resolved
    }

    function EmptyMessage(): string {
      match this
      case PendingTab => "No pending emergency requests"
      case ActiveTab => "No active emergency requests"
      case ResolvedTab => "No resolved emergency requests"
    }
  }

  /** Each status is listed by exactly one tab. */
  lemma TabsCoverStatuses(st: Status)
    ensures exists t: Tab :: t.Shows() == st
    ensures forall t1: Tab, t2: Tab :: t1.Shows() == t2.Shows() ==> t1 == t2
  {
    match st
    case Pending => assert PendingTab.Shows() == st;
    case Accepted => assert ActiveTab.Shows() == st;
    case Resolved => assert ResolvedTab.Shows() == st;
  }

  /**
   * The count next to a tab's label: the number of its requests when there
   * are any, for the Pending and Active tabs only.
   */
  function Badge(tab: Tab, requests: seq<HelpRequest>): (b: Option<nat>)
    ensures tab == ResolvedTab ==> b == None
    ensures tab != ResolvedTab ==> (b.Some? <==> exists q :: q in requests && q.status == tab.Shows())
    ensures b.Some? ==> b.value == |WithStatus(requests, tab.Shows())| > 0
  {
    var shown := WithStatus(requests, tab.Shows());
    if tab != ResolvedTab && |shown| > 0 then
      assert shown[0] in shown;
      Some(|shown|)
    else
      None
  }

  /** What a tab's panel shows. */
  datatype Panel = Spinner | EmptyState(message: string) | Cards(requests: seq<HelpRequest>)

  /**
   * A spinner while the requests load; the empty-state message once they
   * are loaded and none has the tab's status; otherwise one card per
   * request with that status, in fetched order.
   */
  function TabPanel(tab: Tab, requestsLoading: bool, requests: seq<HelpRequest>): (p: Panel)
    ensures p == Spinner <==> requestsLoading
    ensures p.EmptyState? <==> !requestsLoading && forall q :: q in requests ==> q.status != tab.Shows()
    ensures p.EmptyState? ==> p.message == tab.EmptyMessage()
    ensures p.Cards? ==> p.requests == WithStatus(requests, tab.Shows()) && p.requests != []
  {
    var shown := WithStatus(requests, tab.Shows());
    if requestsLoading then Spinner
    else if |shown| == 0 then EmptyState(tab.EmptyMessage())
    else
      assert shown[0] in shown;
      Cards(shown)
  }

  /** The page: a spinner while the profile loads; otherwise the officer notifier and the three tabs. */
  datatype Page = ProfileSpinner | Dashboard(notifier: Role, pending: Panel, active: Panel, resolved: Panel)

  function View(profileLoading: bool, requestsLoading: bool, requests: seq<HelpRequest>): (p: Page)
    ensures p == ProfileSpinner <==> profileLoading
    ensures p.Dashboard? ==> p.notifier == OfficerRole
    ensures p.Dashboard? ==>
              && p.pending == TabPanel(PendingTab, requestsLoading, requests)
              && p.active == TabPanel(ActiveTab, requestsLoading, requests)
              && p.resolved == TabPanel(ResolvedTab, requestsLoading, requests)
  {
    if profileLoading then ProfileSpinner
    else Dashboard(OfficerRole,
                   TabPanel(PendingTab, requestsLoading, requests),
                   TabPanel(ActiveTab, requestsLoading, requests),
                   TabPanel(ResolvedTab, requestsLoading, requests))
  }

  /** The cards a panel holds. */
  function CardsOf(p: Panel): seq<HelpRequest> {
    if p.Cards? then p.requests else []
  }

  /**
   * Once the requests are loaded, the three tabs together show every
   * fetched request exactly once, and their card counts add up to the
   * number of requests.
   */
  lemma TabsShowEachRequestOnce(requests: seq<HelpRequest>)
    ensures var p := View(false, false, requests);
            && multiset(CardsOf(p.pending)) + multiset(CardsOf(p.active)) + multiset(CardsOf(p.resolved))
               == multiset(requests)
            && |CardsOf(p.pending)| + |CardsOf(p.active)| + |CardsOf(p.resolved)| == |requests|
  {
    var p := View(false, false, requests);
    assert CardsOf(p.pending) == WithStatus(requests, Pending);
    assert CardsOf(p.active) == WithStatus(requests, Accepted);
    assert CardsOf(p.resolved) == WithStatus(requests, Resolved);
    StatusPartition(requests);
    StatusCounts(requests);
  }
}
