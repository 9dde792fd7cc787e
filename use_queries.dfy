/**
 * The data layer of the client (src/frontend/src/hooks/useQueries.ts):
 * query keys and poll intervals, the guards on a missing backend actor,
 * and the shared query cache that each successful mutation marks stale.
 *
 * The backend itself is outside the model: every backend call's reply is a
 * parameter, and the cache object keeps a log of the calls the client sent.
 */
module UseQueries {
  import opened Backend
  import opened Strings

  /** A query key is the array that names a cached query. */
  type QueryKey = seq<string>

  const ProfileKey: QueryKey := ["currentUserProfile"]
  const RequestsKey: QueryKey := ["helpRequests"]
  const MyRequestsKey: QueryKey := ["myRequests"]

  function RequestsByStatusKey(st: Status): QueryKey {
    ["helpRequests", st.Name()]
  }

  /** The per-thread message key, with the request id as its decimal string. */
  function MessagesKey(requestId: nat): QueryKey {
    ["messages", DecimalString(requestId)]
  }

  const ActorMissing: string := "Actor not available"

  /** Refetch intervals in milliseconds. */
  const RequestsPollMs: nat := 5000
  const MessagesPollMs: nat := 3000

  /** What `useActor` reports: whether there is an actor and whether it is still being created. */
  datatype ActorState = ActorState(present: bool, fetching: bool)

  /** The options a query is declared with. */
  datatype QueryOptions = QueryOptions(key: QueryKey, enabled: bool, refetchIntervalMs: Option<nat>)

  function Enabled(actor: ActorState): bool {
    actor.present && !actor.fetching
  }

  function ProfileQuery(actor: ActorState): QueryOptions {
    QueryOptions(ProfileKey, Enabled(actor), None)
  }

  function AllRequestsQuery(actor: ActorState): QueryOptions {
    QueryOptions(RequestsKey, Enabled(actor), Some(RequestsPollMs))
  }

  function RequestsByStatusQuery(actor: ActorState, st: Status): QueryOptions {
    QueryOptions(RequestsByStatusKey(st), Enabled(actor), Some(RequestsPollMs))
  }

  function MessagesQuery(actor: ActorState, requestId: nat): QueryOptions {
    QueryOptions(MessagesKey(requestId), Enabled(actor), Some(MessagesPollMs))
  }

  /**
   * Every query runs only with a present, settled actor; request lists poll
   * every 5 seconds, message threads every 3 seconds, the profile never.
   */
  lemma QueryOptionsTable(actor: ActorState, st: Status, requestId: nat)
    ensures forall q :: q in [ProfileQuery(actor), AllRequestsQuery(actor),
                              RequestsByStatusQuery(actor, st), MessagesQuery(actor, requestId)]
                        ==> (q.enabled <==> actor.present && !actor.fetching)
    ensures AllRequestsQuery(actor).refetchIntervalMs == Some(5000)
    ensures RequestsByStatusQuery(actor, st).refetchIntervalMs == Some(5000)
    ensures MessagesQuery(actor, requestId).refetchIntervalMs == Some(3000)
    ensures ProfileQuery(actor).refetchIntervalMs == None
  {
  }

  /** The outcome of an asynchronous call: a value, or a thrown error with an optional message. */
  datatype Outcome<+T> = Success(value: T) | Failure(message: Option<string>)

  /** The profile query's function: it throws when there is no actor. */
  function ProfileQueryFn(actorPresent: bool, reply: Outcome<Option<UserProfile>>): (r: Outcome<Option<UserProfile>>)
    ensures !actorPresent ==> r == Failure(Some(ActorMissing))
    ensures actorPresent ==> r == reply
  {
    if !actorPresent then Failure(Some(ActorMissing)) else reply
  }

  /** The request-list and message query functions: the empty list when there is no actor. */
  function ListQueryFn<T>(actorPresent: bool, reply: Outcome<seq<T>>): (r: Outcome<seq<T>>)
    ensures !actorPresent ==> r == Success([])
    ensures actorPresent ==> r == reply
  {
    if !actorPresent then Success([]) else reply
  }

  /** The profile as the pages see it: `undefined` before it is loaded, `null` when there is none. */
  datatype ProfileData = NotLoaded | NoProfile | Loaded(profile: UserProfile)
  {
    /** `userProfile?.userType === 'officer'` */
    predicate IsOfficer() {
      Loaded? && profile.userType == OfficerType
    }
  }

  /** What `useGetCallerUserProfile` returns besides the data. */
  datatype ProfileFlags = ProfileFlags(isLoading: bool, isFetched: bool)

  /**
   * The profile hook is loading while the actor is being created or the
   * query loads, and counts as fetched only with an actor present.
   */
  function ProfileHookFlags(actor: ActorState, queryLoading: bool, queryFetched: bool): (f: ProfileFlags)
    ensures actor.fetching ==> f.isLoading
    ensures f.isFetched <==> actor.present && queryFetched
    ensures f.isLoading <==> actor.fetching || queryLoading
  {
    ProfileFlags(actor.fetching || queryLoading, actor.present && queryFetched)
  }

  /** The calls the client makes on the backend. */
  datatype BackendCall =
    | RegisterCall(name: string, mobile: string, userType: string)
    | SaveProfileCall(profile: UserProfile)
    | SosCall(location: Location)
    | AcceptCall(requestId: nat)
    | CompleteCall(requestId: nat)
    | SendMessageCall(requestId: nat, sender: string, message: string)

  /** The mutations whose success invalidates cached queries. */
  datatype Mutation =
    | RegisterMutation
    | SosMutation
    | AcceptMutation
    | CompleteMutation
    | SendMessageMutation(requestId: nat)

  /** The key filters each mutation's `onSuccess` passes to `invalidateQueries`. */
  function OnSuccessKeys(m: Mutation): seq<QueryKey> {
    match m
    case RegisterMutation => [ProfileKey]
    case SosMutation => [RequestsKey, MyRequestsKey]
    case AcceptMutation => [RequestsKey]
    case CompleteMutation => [RequestsKey]
    case SendMessageMutation(id) => [MessagesKey(id)]
  }

  /**
   * Whether a filter selects a key. `invalidateQueries({queryKey})` selects,
   * by the query library's default, every key that starts with the filter;
   * the model takes that prefix matching as given.
   */
  predicate Selects(filter: QueryKey, key: QueryKey) {
    |filter| <= |key| && key[..|filter|] == filter
  }

  predicate SelectedByAny(filters: seq<QueryKey>, key: QueryKey) {
    exists f :: f in filters && Selects(f, key)
  }

  /** The cache after one `invalidateQueries` call: selected entries become stale, nothing else changes. */
  function Invalidate(stale: map<QueryKey, bool>, filter: QueryKey): (r: map<QueryKey, bool>)
    ensures r.Keys == stale.Keys
    ensures forall k :: k in r ==> (r[k] <==> stale[k] || Selects(filter, k))
  {
    map k | k in stale :: stale[k] || Selects(filter, k)
  }

  /** The cache after invalidating each filter of a list in turn. */
  function InvalidateAll(stale: map<QueryKey, bool>, filters: seq<QueryKey>): (r: map<QueryKey, bool>)
    ensures r.Keys == stale.Keys
    ensures forall k :: k in r ==> (r[k] <==> stale[k] || SelectedByAny(filters, k))
    decreases |filters|
  {
    if filters == [] then stale
    else
      var r := InvalidateAll(Invalidate(stale, filters[0]), filters[1..]);
      assert forall k :: k in r && SelectedByAny(filters, k) && !Selects(filters[0], k)
                         ==> SelectedByAny(filters[1..], k) by {
        forall k | k in r && SelectedByAny(filters, k) && !Selects(filters[0], k)
          ensures SelectedByAny(filters[1..], k)
        {
          var f :| f in filters && Selects(f, k);
          assert f in filters[1..];
        }
      }
      r
  }

  /** The state the client's shared query cache is in after a mutation settles. */
  function Settled<T>(stale: map<QueryKey, bool>, m: Mutation, r: Outcome<T>): map<QueryKey, bool> {
    if r.Success? then InvalidateAll(stale, OnSuccessKeys(m)) else stale
  }

  /**
   * A successful SOS marks stale exactly the entries under "helpRequests"
   * and "myRequests"; an accept or a complete exactly those under
   * "helpRequests"; a registration exactly the profile.
   */
  lemma OnSuccessTable(stale: map<QueryKey, bool>, k: QueryKey)
    requires k in stale
    ensures InvalidateAll(stale, OnSuccessKeys(SosMutation))[k]
            <==> stale[k] || Selects(RequestsKey, k) || Selects(MyRequestsKey, k)
    ensures InvalidateAll(stale, OnSuccessKeys(AcceptMutation))[k] <==> stale[k] || Selects(RequestsKey, k)
    ensures InvalidateAll(stale, OnSuccessKeys(CompleteMutation))[k] <==> stale[k] || Selects(RequestsKey, k)
    ensures InvalidateAll(stale, OnSuccessKeys(RegisterMutation))[k] <==> stale[k] || Selects(ProfileKey, k)
  {
    assert SelectedByAny([RequestsKey, MyRequestsKey], k) <==> Selects(RequestsKey, k) || Selects(MyRequestsKey, k) by {
      if Selects(MyRequestsKey, k) {
        assert MyRequestsKey in [RequestsKey, MyRequestsKey];
      }
    }
    assert SelectedByAny([RequestsKey], k) <==> Selects(RequestsKey, k);
    assert SelectedByAny([ProfileKey], k) <==> Selects(ProfileKey, k);
  }

  /** A status change also refreshes every per-status list, because their keys start with "helpRequests". */
  lemma StatusChangeRefreshesStatusLists(stale: map<QueryKey, bool>, m: Mutation, st: Status)
    requires m == SosMutation || m == AcceptMutation || m == CompleteMutation
    requires RequestsByStatusKey(st) in stale
    ensures InvalidateAll(stale, OnSuccessKeys(m))[RequestsByStatusKey(st)]
  {
    assert Selects(RequestsKey, RequestsByStatusKey(st));
    assert RequestsKey in OnSuccessKeys(m);
  }

  /**
   * A message sent to one request marks that request's thread stale and
   * leaves every other thread, and every request list, as it was.
   */
  lemma SendMessageTouchesOnlyItsThread(stale: map<QueryKey, bool>, requestId: nat, k: QueryKey)
    requires k in stale
    ensures var r := InvalidateAll(stale, OnSuccessKeys(SendMessageMutation(requestId)));
            && (k == MessagesKey(requestId) ==> r[k])
            && (k == [] || k[0] != "messages" ==> r[k] == stale[k])
  {
    var f := MessagesKey(requestId);
    assert SelectedByAny([f], k) <==> Selects(f, k);
    if k == f {
      assert Selects(f, k);
    }
  }

  /** Another request's thread is never selected by a message sent to `requestId`. */
  lemma OtherThreadUntouched(stale: map<QueryKey, bool>, requestId: nat, other: nat)
    requires other != requestId
    requires MessagesKey(other) in stale
    ensures InvalidateAll(stale, OnSuccessKeys(SendMessageMutation(requestId)))[MessagesKey(other)]
            == stale[MessagesKey(other)]
  {
    DecimalStringInjective(requestId, other);
    assert MessagesKey(other)[1] != MessagesKey(requestId)[1];
    SendMessageTouchesOnlyItsThread(stale, requestId, MessagesKey(other));
  }

  /** Invalidating twice with the same filters is the same as invalidating once. */
  lemma InvalidateIdempotent(stale: map<QueryKey, bool>, filters: seq<QueryKey>)
    ensures InvalidateAll(InvalidateAll(stale, filters), filters) == InvalidateAll(stale, filters)
  {
  }

  /**
   * The shared query cache: a stale flag per cached key. A stale entry is
   * refetched on its next read; `sent` records, for the model only, every
   * mutation call the client made on the backend (register,
   * saveCallerUserProfile, SOS, accept, complete, sendMessage). The query
   * functions' reads are not logged: a fetch appears only as `Fetched`.
   */
  class QueryClient {
    var stale: map<QueryKey, bool>
    ghost var sent: seq<BackendCall>

    constructor ()
      ensures stale == map[] && sent == []
    {
      stale := map[];
      sent := [];
    }

    /** A query's data arrived: its entry is cached and fresh. */
    method Fetched(key: QueryKey)
      modifies this
      ensures stale == old(stale)[key := false]
      ensures sent == old(sent)
    {
      stale := stale[key := false];
    }

    /** `queryClient.invalidateQueries({ queryKey: filter })` */
    method InvalidateQueries(filter: QueryKey)
      modifies this
      ensures stale == Invalidate(old(stale), filter)
      ensures sent == old(sent)
    {
      stale := Invalidate(stale, filter);
    }

    /** `useRegister`: register, then save the profile built from the same three strings. */
    method Register(actorPresent: bool, name: string, mobile: string, userType: string,
                    registerReply: Outcome<()>, saveReply: Outcome<()>) returns (r: Outcome<()>)
      modifies this
      ensures !actorPresent ==> r == Failure(Some(ActorMissing)) && sent == old(sent)
      ensures actorPresent && registerReply.Failure? ==>
                r == registerReply && sent == old(sent) + [RegisterCall(name, mobile, userType)]
      ensures actorPresent && registerReply.Success? ==>
                r == saveReply
                && sent == old(sent) + [RegisterCall(name, mobile, userType),
                                        SaveProfileCall(UserProfile(userType, name, mobile))]
      ensures stale == Settled(old(stale), RegisterMutation, r)
    {
      if !actorPresent {
        return Failure(Some(ActorMissing));
      }
      sent := sent + [RegisterCall(name, mobile, userType)];
      if registerReply.Failure? {
        return registerReply;
      }
      var profile := UserProfile(userType, name, mobile);
      sent := sent + [SaveProfileCall(profile)];
      r := saveReply;
      if r.Success? {
        InvalidateQueries(ProfileKey);
      }
    }

    /** `useSendSosRequest`: the new request's id on success. */
    method SendSosRequest(actorPresent: bool, location: Location, reply: Outcome<nat>) returns (r: Outcome<nat>)
      modifies this
      ensures !actorPresent ==> r == Failure(Some(ActorMissing)) && sent == old(sent)
      ensures actorPresent ==> r == reply && sent == old(sent) + [SosCall(location)]
      ensures stale == Settled(old(stale), SosMutation, r)
    {
      if !actorPresent {
        return Failure(Some(ActorMissing));
      }
      sent := sent + [SosCall(location)];
      r := reply;
      if r.Success? {
        InvalidateQueries(RequestsKey);
        InvalidateQueries(MyRequestsKey);
      }
    }

    /** `useAcceptHelpRequest` */
    method AcceptHelpRequest(actorPresent: bool, requestId: nat, reply: Outcome<()>) returns (r: Outcome<()>)
      modifies this
      ensures !actorPresent ==> r == Failure(Some(ActorMissing)) && sent == old(sent)
      ensures actorPresent ==> r == reply && sent == old(sent) + [AcceptCall(requestId)]
      ensures stale == Settled(old(stale), AcceptMutation, r)
    {
      if !actorPresent {
        return Failure(Some(ActorMissing));
      }
      sent := sent + [AcceptCall(requestId)];
      r := reply;
      if r.Success? {
        InvalidateQueries(RequestsKey);
      }
    }

    /** `useCompleteHelpRequest` */
    method CompleteHelpRequest(actorPresent: bool, requestId: nat, reply: Outcome<()>) returns (r: Outcome<()>)
      modifies this
      ensures !actorPresent ==> r == Failure(Some(ActorMissing)) && sent == old(sent)
      ensures actorPresent ==> r == reply && sent == old(sent) + [CompleteCall(requestId)]
      ensures stale == Settled(old(stale), CompleteMutation, r)
    {
      if !actorPresent {
        return Failure(Some(ActorMissing));
      }
      sent := sent + [CompleteCall(requestId)];
      r := reply;
      if r.Success? {
        InvalidateQueries(RequestsKey);
      }
    }

    /** `useSendMessage`: only the thread the message went to is invalidated. */
    method SendMessage(actorPresent: bool, requestId: nat, sender: string, message: string,
                       reply: Outcome<()>) returns (r: Outcome<()>)
      modifies this
      ensures !actorPresent ==> r == Failure(Some(ActorMissing)) && sent == old(sent)
      ensures actorPresent ==> r == reply && sent == old(sent) + [SendMessageCall(requestId, sender, message)]
      ensures stale == Settled(old(stale), SendMessageMutation(requestId), r)
    {
      if !actorPresent {
        return Failure(Some(ActorMissing));
      }
      sent := sent + [SendMessageCall(requestId, sender, message)];
      r := reply;
      if r.Success? {
        InvalidateQueries(MessagesKey(requestId));
      }
    }
  }
}
