/**
 * The request detail page (src/frontend/src/pages/RequestDetailPage.tsx):
 * finding the request named by the route parameter, who may mark it
 * resolved, where Back leads, and the name the chat is sent under.
 */
module RequestDetailPage {
  import opened Backend
  import opened Strings
  import opened Routing
  import opened UseQueries

  /** `requestId` matches `q` when it is exactly the decimal string of `q.id`. */
  predicate Names(param: string, q: HelpRequest) {
    DecimalString(q.id) == param
  }

  /**
   * `requests.find((r) => r.id.toString() === requestId)`, as the index of
   * the first request the parameter names.
   */
  function FindIndex(requests: seq<HelpRequest>, param: string): (i: Option<nat>)
    ensures i.None? <==> forall q :: q in requests ==> !Names(param, q)
    ensures i.Some? ==> i.value < |requests| && Names(param, requests[i.value])
    ensures i.Some? ==> forall j :: 0 <= j < i.value ==> !Names(param, requests[j])
    decreases |requests|
  {
    if requests == [] then None
    else if Names(param, requests[0]) then Some(0)
    else
      var rest := FindIndex(requests[1..], param);
      assert forall q :: q in requests ==> q == requests[0] || q in requests[1..];
      if rest.None? then None else Some(rest.value + 1)
  }

  /** The request the page shows, if any. */
  function Find(requests: seq<HelpRequest>, param: string): (r: Option<HelpRequest>)
    ensures r.None? <==> FindIndex(requests, param).None?
    ensures r.Some? ==> r.value == requests[FindIndex(requests, param).value]
  {
    var i := FindIndex(requests, param);
    if i.Some? then Some(requests[i.value]) else None
  }

  /**
   * The id written as its decimal string finds the first request with
   * that id; with distinct ids, the request itself.
   */
  lemma FindById(requests: seq<HelpRequest>, k: nat)
    requires k < |requests|
    ensures var i := FindIndex(requests, DecimalString(requests[k].id));
            i.Some? && i.value <= k && requests[i.value].id == requests[k].id
    ensures (forall a, b :: 0 <= a < b < |requests| ==> requests[a].id != requests[b].id)
            ==> FindIndex(requests, DecimalString(requests[k].id)) == Some(k)
  {
    var param := DecimalString(requests[k].id);
    assert requests[k] in requests;
    var i := FindIndex(requests, param).value;
    DecimalStringInjective(requests[i].id, requests[k].id);
  }

  /** A parameter with a leading zero or a non-digit, such as "007" or "7a", names no request. */
  lemma NonCanonicalParamNotFound(requests: seq<HelpRequest>, param: string)
    requires !IsDigits(param) || (|param| > 1 && param[0] == '0') || param == []
    ensures Find(requests, param) == None
  {
    forall q | q in requests ensures !Names(param, q) {
    }
  }

  /** Without an identity the page sends the user to sign in. */
  function Redirect(hasIdentity: bool): (r: Option<Route>)
    ensures r.Some? <==> !hasIdentity
    ensures r.Some? ==> r.value == Auth
  {
    if hasIdentity then None else Some(Auth)
  }

  /**
   * Back leads to the officer dashboard exactly when the viewer's loaded
   * profile is an officer's, and to the citizen dashboard otherwise,
   * including while there is no profile.
   */
  function BackRoute(profile: ProfileData): (r: Route)
    ensures r == OfficerDashboard <==> profile.IsOfficer()
    ensures r == CitizenDashboard <==> !profile.IsOfficer()
  {
    if profile.Loaded? then DashboardFor(profile.profile.userType) else CitizenDashboard
  }

  /**
   * "Mark as Resolved" is offered to any officer on an accepted request;
   * the assigned officer plays no part.
   */
  function CanComplete(profile: ProfileData, request: HelpRequest): (ok: bool)
    ensures ok <==> profile.IsOfficer() && request.status == Accepted
  {
    var isOfficer := profile.Loaded? && profile.profile.userType == OfficerType;
    isOfficer && request.status == Accepted
  }

  /** Changing the assigned officer never changes who may complete. */
  lemma CanCompleteIgnoresAssignee(profile: ProfileData, request: HelpRequest, other: Option<Principal>)
    ensures CanComplete(profile, request) == CanComplete(profile, request.(assignedOfficer := other))
  {
  }

  /** The name the chat sends under: the profile's name, or "User" when it is missing or empty. */
  function SenderName(profile: ProfileData): (name: string)
    ensures profile.Loaded? && profile.profile.name != [] ==> name == profile.profile.name
    ensures !(profile.Loaded? && profile.profile.name != []) ==> name == "User"
  {
    StringOr(if profile.Loaded? then Some(profile.profile.name) else None, "User")
  }

  /** What the page shows. */
  datatype Page =
    | NotFound(back: Route)
    | Details(request: HelpRequest, back: Route, completeOffered: bool, chatRequestId: nat, chatSender: string)

  function View(profile: ProfileData, requests: seq<HelpRequest>, param: string): (p: Page)
    ensures p.NotFound? <==> forall q :: q in requests ==> !Names(param, q)
    ensures p.back == BackRoute(profile)
    ensures p.Details? <==> Find(requests, param).Some?
    ensures p.Details? ==> Some(p.request) == Find(requests, param)
    ensures p.Details? ==> p.request in requests && Names(param, p.request)
    ensures p.Details? ==> p.completeOffered == CanComplete(profile, p.request)
    ensures p.Details? ==> p.chatRequestId == p.request.id && p.chatSender == SenderName(profile)
  {
    match Find(requests, param)
    case None => NotFound(BackRoute(profile))
    case Some(request) =>
      Details(request, BackRoute(profile), CanComplete(profile, request), request.id, SenderName(profile))
  }

  /** The toasts `handleComplete` raises. */
  datatype Feedback = MarkedResolved | CompleteFailed(description: string)

  /**
   * `handleComplete`: nothing without a request; otherwise the complete
   * mutation on exactly the shown request's id, and its outcome reported.
   */
  method HandleComplete(client: QueryClient, actorPresent: bool, request: Option<HelpRequest>,
                        reply: Outcome<()>) returns (feedback: Option<Feedback>)
    modifies client
    ensures request.None? ==> feedback == None && client.sent == old(client.sent) && client.stale == old(client.stale)
    ensures request.Some? && actorPresent ==> client.sent == old(client.sent) + [CompleteCall(request.value.id)]
    ensures request.Some? && !actorPresent ==> client.sent == old(client.sent)
    ensures request.Some? ==> feedback.Some?
    ensures feedback == Some(MarkedResolved) <==> request.Some? && actorPresent && reply.Success?
    ensures request.Some? && !actorPresent ==> feedback == Some(CompleteFailed(ActorMissing))
    ensures request.Some? && actorPresent && reply.Failure? ==>
              feedback == Some(CompleteFailed(StringOr(reply.message, "Please try again")))
    ensures request.Some? ==>
              client.stale == Settled(old(client.stale), CompleteMutation, if actorPresent then reply else Failure(None))
  {
    if request.None? {
      return None;
    }
    var outcome := client.CompleteHelpRequest(actorPresent, request.value.id, reply);
    if outcome.Success? {
      feedback := Some(MarkedResolved);
    } else {
      feedback := Some(CompleteFailed(StringOr(outcome.message, "Please try again")));
    }
  }
}
