/**
 * One request's card (src/frontend/src/components/HelpRequestCard.tsx):
 * which buttons it offers, what Accept sends, and where View Details leads.
 */
module HelpRequestCard {
  import opened Backend
  import opened Strings
  import opened Routing
  import opened UseQueries
  import RequestDetailPage

  datatype Button = AcceptButton(disabled: bool) | ViewDetailsButton

  /**
   * The card footer: Accept, disabled while an accept is in flight, for a
   * pending request only; View Details always, last.
   */
  function Buttons(request: HelpRequest, acceptInFlight: bool): (bs: seq<Button>)
    ensures AcceptButton(acceptInFlight) in bs <==> request.status == Pending
    ensures forall b :: b in bs && b.AcceptButton? ==> b == AcceptButton(acceptInFlight)
    ensures bs != [] && bs[|bs| - 1] == ViewDetailsButton
    ensures request.status == Pending ==> bs == [AcceptButton(acceptInFlight), ViewDetailsButton]
    ensures request.status != Pending ==> bs == [ViewDetailsButton]
  {
    if request.status == Pending then [AcceptButton(acceptInFlight), ViewDetailsButton]
    else [ViewDetailsButton]
  }

  /** `formatTimestamp`: the same text whatever the timestamp. */
  function FormatTimestamp(timestamp: int): (text: string)
    ensures text == "Just now"
  {
    "Just now"
  }

  /** `handleViewDetails`: the detail route of this card's request. */
  function ViewDetails(request: HelpRequest): (r: Route)
    ensures r.RequestDetail? && r.requestId == DecimalString(request.id)
  {
    DetailsRoute(request.id)
  }

  /**
   * The route View Details opens names this card's request on the detail
   * page: the first request with its id, and the card's own request when
   * ids are distinct.
   */
  lemma ViewDetailsFindsRequest(requests: seq<HelpRequest>, k: nat)
    requires k < |requests|
    requires forall a, b :: 0 <= a < b < |requests| ==> requests[a].id != requests[b].id
    ensures RequestDetailPage.Find(requests, ViewDetails(requests[k]).requestId) == Some(requests[k])
  {
    RequestDetailPage.FindById(requests, k);
  }

  /** The toasts `handleAccept` raises. */
  datatype Feedback = AcceptedToast | AcceptFailed(description: string)

  /**
   * `handleAccept`: the accept mutation on exactly this card's request id,
   * then a success toast or the error's message, "Please try again" when
   * it has none.
   */
  method HandleAccept(client: QueryClient, actorPresent: bool, request: HelpRequest, reply: Outcome<()>)
      returns (feedback: Feedback)
    modifies client
    ensures actorPresent ==> client.sent == old(client.sent) + [AcceptCall(request.id)]
    ensures !actorPresent ==> client.sent == old(client.sent)
    ensures feedback == AcceptedToast <==> actorPresent && reply.Success?
    ensures !actorPresent ==> feedback == AcceptFailed(ActorMissing)
    ensures actorPresent && reply.Failure? ==> feedback == AcceptFailed(StringOr(reply.message, "Please try again"))
    ensures client.stale == Settled(old(client.stale), AcceptMutation, if actorPresent then reply else Failure(None))
  {
    var outcome := client.AcceptHelpRequest(actorPresent, request.id, reply);
    if outcome.Success? {
      feedback := AcceptedToast;
    } else {
      feedback := AcceptFailed(StringOr(outcome.message, "Please try again"));
    }
  }
}
