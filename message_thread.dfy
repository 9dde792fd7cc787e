/**
 * A request's chat (src/frontend/src/components/MessageThread.tsx): the
 * draft the user types, the send action and its guard, and the order and
 * alignment of the fetched messages.
 */
module MessageThread {
  import opened Backend
  import opened Strings
  import opened UseQueries

  const EmptyMessageText: string := "Please enter a message"
  const SendFailedFallback: string := "Please try again"

  /** The toasts a send raises, or none after a successful send. */
  datatype SendFeedback = Sent | EmptyRejected(message: string) | SendFailed(description: string)

  /** The send button is disabled while a send is in flight or the trimmed draft is empty. */
  function SendDisabled(inFlight: bool, draft: string): (disabled: bool)
    ensures disabled <==> inFlight || IsBlank(draft)
  {
    inFlight || Trim(draft) == []
  }

  /** Enter sends; Shift+Enter and every other key do not. */
  function TriggersSend(key: string, shiftKey: bool): (sends: bool)
    ensures sends <==> key == "Enter" && !shiftKey
  {
    key == "Enter" && !shiftKey
  }

  /** The message as written in the thread: the viewer's own when the sender string is exactly theirs. */
  datatype Bubble = Bubble(message: ChatMessage, own: bool)

  /**
   * `messages.slice().reverse().map(...)`: the fetched messages newest
   * first, each marked as the viewer's own exactly when its sender equals
   * `senderName`.
   */
  function Bubbles(messages: seq<ChatMessage>, senderName: string): (bs: seq<Bubble>)
    ensures |bs| == |messages|
    ensures forall i :: 0 <= i < |bs| ==> bs[i].message == messages[|messages| - 1 - i]
    ensures forall i :: 0 <= i < |bs| ==> (bs[i].own <==> bs[i].message.sender == senderName)
  {
    if messages == [] then []
    else
      var last := messages[|messages| - 1];
      [Bubble(last, last.sender == senderName)] + Bubbles(messages[..|messages| - 1], senderName)
  }

  /** Reading the bubbles back in reverse gives the fetched list again. */
  lemma BubblesReverseBack(messages: seq<ChatMessage>, senderName: string)
    ensures var bs := Bubbles(messages, senderName);
            forall i :: 0 <= i < |messages| ==> bs[|bs| - 1 - i].message == messages[i]
  {
  }

  /** The thread body. */
  datatype Body = Loading | NoMessages | Messages(bubbles: seq<Bubble>)

  function View(isLoading: bool, messages: seq<ChatMessage>, senderName: string): (b: Body)
    ensures b == Loading <==> isLoading
    ensures b == NoMessages <==> !isLoading && messages == []
    ensures b.Messages? ==> b.bubbles == Bubbles(messages, senderName) && b.bubbles != []
  {
    if isLoading then Loading
    else if messages == [] then NoMessages
    else Messages(Bubbles(messages, senderName))
  }

  /**
   * One thread on screen. Only the draft in the text box is state; the
   * request id and the sender name are props, read afresh at every send.
   */
  class Thread {
    var draft: string

    constructor ()
      ensures draft == []
    {
      draft := [];
    }

    /** The text box changed. */
    method Edit(text: string)
      modifies this
      ensures draft == text
    {
      draft := text;
    }

    /**
     * `handleSend` with the current props: a blank draft is refused and
     * nothing is sent; otherwise the trimmed draft goes to `requestId`
     * under `senderName`, the draft is cleared if the send succeeded, and a
     * failure is reported with its message or "Please try again".
     */
    method HandleSend(client: QueryClient, requestId: nat, senderName: string, actorPresent: bool,
                      reply: Outcome<()>) returns (feedback: SendFeedback)
      modifies this, client
      ensures feedback.EmptyRejected? <==> IsBlank(old(draft))
      ensures IsBlank(old(draft)) ==>
                && feedback == EmptyRejected(EmptyMessageText)
                && client.sent == old(client.sent) && client.stale == old(client.stale)
      ensures !IsBlank(old(draft)) && actorPresent ==>
                client.sent == old(client.sent) + [SendMessageCall(requestId, senderName, Trim(old(draft)))]
      ensures !actorPresent ==> client.sent == old(client.sent)
      ensures !IsBlank(old(draft)) ==>
                client.stale == Settled(old(client.stale), SendMessageMutation(requestId),
                                        if actorPresent then reply else Failure(None))
      ensures feedback == Sent <==> !IsBlank(old(draft)) && actorPresent && reply.Success?
      ensures !IsBlank(old(draft)) && !actorPresent ==> feedback == SendFailed(ActorMissing)
      ensures !IsBlank(old(draft)) && actorPresent && reply.Failure? ==>
                feedback == SendFailed(StringOr(reply.message, SendFailedFallback))
      ensures draft == if feedback == Sent then [] else old(draft)
    {
      if Trim(draft) == [] {
        return EmptyRejected(EmptyMessageText);
      }
      var outcome := client.SendMessage(actorPresent, requestId, senderName, Trim(draft), reply);
      if outcome.Success? {
        draft := [];
        feedback := Sent;
      } else {
        feedback := SendFailed(StringOr(outcome.message, SendFailedFallback));
      }
    }

    /**
     * `handleKeyPress`: Enter without Shift sends, any other key does
     * nothing. The handler does not consult whether a send is in flight
     * (`inFlight`): Enter sends a non-blank draft even while the send
     * button is disabled.
     */
    method HandleKeyPress(client: QueryClient, requestId: nat, senderName: string, inFlight: bool,
                          key: string, shiftKey: bool, actorPresent: bool, reply: Outcome<()>)
        returns (feedback: Option<SendFeedback>)
      modifies this, client
      ensures !TriggersSend(key, shiftKey) ==>
                feedback == None && draft == old(draft)
                && client.sent == old(client.sent) && client.stale == old(client.stale)
      ensures TriggersSend(key, shiftKey) ==> feedback.Some?
      ensures TriggersSend(key, shiftKey) ==> (feedback.value.EmptyRejected? <==> IsBlank(old(draft)))
      ensures TriggersSend(key, shiftKey) ==>
                (feedback == Some(Sent) <==> !IsBlank(old(draft)) && actorPresent && reply.Success?)
      ensures TriggersSend(key, shiftKey) && IsBlank(old(draft)) ==>
                && feedback == Some(EmptyRejected(EmptyMessageText))
                && client.sent == old(client.sent) && client.stale == old(client.stale)
      ensures TriggersSend(key, shiftKey) && !IsBlank(old(draft)) && actorPresent ==>
                client.sent == old(client.sent) + [SendMessageCall(requestId, senderName, Trim(old(draft)))]
      ensures TriggersSend(key, shiftKey) && !IsBlank(old(draft)) ==>
                client.stale == Settled(old(client.stale), SendMessageMutation(requestId),
                                        if actorPresent then reply else Failure(None))
      ensures TriggersSend(key, shiftKey) && !IsBlank(old(draft)) && !actorPresent ==>
                feedback == Some(SendFailed(ActorMissing))
      ensures TriggersSend(key, shiftKey) && !IsBlank(old(draft)) && actorPresent && reply.Failure? ==>
                feedback == Some(SendFailed(StringOr(reply.message, SendFailedFallback)))
      ensures !actorPresent ==> client.sent == old(client.sent)
      ensures inFlight && TriggersSend(key, shiftKey) && !IsBlank(old(draft)) && actorPresent ==>
                SendDisabled(inFlight, old(draft)) && |client.sent| == |old(client.sent)| + 1
      ensures draft == if feedback == Some(Sent) then [] else old(draft)
    {
      if TriggersSend(key, shiftKey) {
        var f := HandleSend(client, requestId, senderName, actorPresent, reply);
        feedback := Some(f);
      } else {
        feedback := None;
      }
    }
  }
}
