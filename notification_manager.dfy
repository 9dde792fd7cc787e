/**
 * The officer alert (src/frontend/src/components/NotificationManager.tsx):
 * on every fetch of the request list the manager compares the pending ids
 * with the ones it remembered from the previous run and raises one
 * summarising alert when new ones appeared.
 */
module NotificationManager {
  import opened Backend
  import opened Strings
  import opened Routing
  import opened RequestLists

  /** The one alert a run may raise, for `count` new pending requests. */
  datatype Alert = Alert(count: nat)
  {
    function Title(): string { "New Emergency Alert!" }
    function Tag(): string { "emergency-alert" }
    function Icon(): string { "/assets/generated/emergency-icon.dim_128x128.png" }

    /** The body starts with the count in decimal. */
    function Body(): (b: string)
      ensures |DecimalString(count)| < |b| && b[..|DecimalString(count)|] == DecimalString(count)
    {
      var n := DecimalString(count);
      var b := n + " new emergency request(s) received. Immediate response required.";
      assert b[..|n|] == n;
      b
    }
  }

  /** `id` is the decimal id of a pending request in `requests`. */
  ghost predicate IsPendingId(requests: seq<HelpRequest>, id: string) {
    exists q :: q in requests && q.status == Pending && DecimalString(q.id) == id
  }

  /** Some pending request in `requests` has an id that `previous` does not hold. */
  ghost predicate HasNewPending(requests: seq<HelpRequest>, previous: seq<string>) {
    exists id :: IsPendingId(requests, id) && id !in previous
  }

  /** The ids of the pending requests, as strings, in list order. */
  function PendingIds(requests: seq<HelpRequest>): (ids: seq<string>)
    ensures |ids| == |WithStatus(requests, Pending)|
  {
    IdStrings(WithStatus(requests, Pending))
  }

  /** The pending ids are exactly the ids of the pending requests. */
  lemma PendingIdsExact(requests: seq<HelpRequest>)
    ensures forall id :: id in PendingIds(requests) <==> IsPendingId(requests, id)
  {
    var pending := WithStatus(requests, Pending);
    var ids := PendingIds(requests);
    forall id ensures id in ids <==> IsPendingId(requests, id) {
      if id in ids {
        var i :| 0 <= i < |ids| && ids[i] == id;
        assert pending[i] in pending;
      }
      if IsPendingId(requests, id) {
        var q :| q in requests && q.status == Pending && DecimalString(q.id) == id;
        assert q in pending;
        var i :| 0 <= i < |pending| && pending[i] == q;
        assert ids[i] == id;
      }
    }
  }

  /**
   * The current ids that the previous list does not hold, in order and
   * with their multiplicity in `current`.
   */
  function NewIds(current: seq<string>, previous: seq<string>): (added: seq<string>)
    ensures forall id :: id in added <==> id in current && id !in previous
    ensures forall id :: multiset(added)[id] == if id in previous then 0 else multiset(current)[id]
    ensures |added| <= |current|
  {
    if current == [] then []
    else
      assert current == [current[0]] + current[1..];
      if current[0] in previous then NewIds(current[1..], previous)
      else [current[0]] + NewIds(current[1..], previous)
  }

  /** What one run of the effect yields: the alert it raised, if any, and the list it remembers. */
  datatype RunResult = RunResult(alert: Option<Alert>, remembered: seq<string>)

  /**
   * One run of the effect for the given role. Only an officer diffs: it
   * alerts when new ids appeared and the previous list was not empty, and
   * it always remembers the current pending ids.
   */
  function Run(role: Role, previous: seq<string>, requests: seq<HelpRequest>): (r: RunResult)
    ensures role == CitizenRole ==> r == RunResult(None, previous)
    ensures role == OfficerRole ==> r.remembered == PendingIds(requests)
    ensures r.alert.Some? <==>
              role == OfficerRole && previous != [] && NewIds(PendingIds(requests), previous) != []
    ensures r.alert.Some? ==> r.alert.value.count == |NewIds(PendingIds(requests), previous)| >= 1
  {
    if role != OfficerRole then RunResult(None, previous)
    else
      var current := PendingIds(requests);
      var added := NewIds(current, previous);
      if added != [] && previous != [] then RunResult(Some(Alert(|added|)), current)
      else RunResult(None, current)
  }

  /** Some id is new exactly when some pending request's id is not remembered. */
  lemma NewIdsExist(requests: seq<HelpRequest>, previous: seq<string>)
    ensures NewIds(PendingIds(requests), previous) != [] <==> HasNewPending(requests, previous)
  {
    PendingIdsExact(requests);
    var added := NewIds(PendingIds(requests), previous);
    if added != [] {
      assert added[0] in added;
    }
  }

  /**
   * An officer run alerts exactly when the previous list is not empty and
   * some pending request's id is not in it.
   */
  lemma AlertExactly(role: Role, previous: seq<string>, requests: seq<HelpRequest>)
    ensures Run(role, previous, requests).alert.Some? <==>
              role == OfficerRole && previous != [] && HasNewPending(requests, previous)
  {
    NewIdsExist(requests, previous);
  }

  /** After an officer run the remembered ids are exactly the ids of the pending requests. */
  lemma RememberedExactly(previous: seq<string>, requests: seq<HelpRequest>)
    ensures forall id :: id in Run(OfficerRole, previous, requests).remembered <==> IsPendingId(requests, id)
  {
    PendingIdsExact(requests);
  }

  /** A run whose remembered list is empty, such as the first one after mounting, never alerts. */
  lemma EmptyPreviousNeverAlerts(role: Role, requests: seq<HelpRequest>)
    ensures Run(role, [], requests).alert == None
  {
  }

  /**
   * Once no request is pending, the next run alerts for nothing, even for
   * a request that has just become pending.
   */
  lemma SuppressedAfterDrain(drained: seq<HelpRequest>, previous: seq<string>, next: seq<HelpRequest>)
    requires WithStatus(drained, Pending) == []
    ensures Run(OfficerRole, previous, drained).alert == None
    ensures Run(OfficerRole, Run(OfficerRole, previous, drained).remembered, next).alert == None
  {
    var r := Run(OfficerRole, previous, drained);
    assert r.remembered == [];
  }

  /** An id remembered from the previous run is never counted as new. */
  lemma RememberedNotReported(previous: seq<string>, requests: seq<HelpRequest>, id: string)
    requires id in previous
    ensures id !in NewIds(PendingIds(requests), previous)
  {
  }

  /** Running twice on the same list raises no second alert and remembers the same ids. */
  lemma SecondRunSilent(role: Role, previous: seq<string>, requests: seq<HelpRequest>)
    ensures var first := Run(role, previous, requests);
            var second := Run(role, first.remembered, requests);
            second.alert == None && second.remembered == first.remembered
  {
    var first := Run(role, previous, requests);
    if role == OfficerRole {
      NewIdsExist(requests, first.remembered);
    }
  }

  /**
   * The effect's remembered ids (`previousRequestsRef`): the list of pending
   * ids from the last officer run, empty after mounting.
   */
  class Manager {
    const role: Role
    var previous: seq<string>

    constructor (role: Role)
      ensures this.role == role && previous == []
    {
      this.role := role;
      previous := [];
    }

    /** The effect run for a freshly fetched request list. */
    method Poll(requests: seq<HelpRequest>) returns (alert: Option<Alert>)
      modifies this
      ensures alert == Run(role, old(previous), requests).alert
      ensures previous == Run(role, old(previous), requests).remembered
    {
      alert := None;
      if role == OfficerRole {
        var current := PendingIds(requests);
        var added := NewIds(current, previous);
        if |added| > 0 && |previous| > 0 {
          alert := Some(Alert(|added|));
        }
        previous := current;
      }
    }
  }

  /** The alerts of a sequence of polls, starting from a given remembered list. */
  function Replay(role: Role, previous: seq<string>, polls: seq<seq<HelpRequest>>): (alerts: seq<Option<Alert>>)
    ensures |alerts| == |polls|
    ensures role == CitizenRole ==> forall i :: 0 <= i < |alerts| ==> alerts[i] == None
    decreases |polls|
  {
    if polls == [] then []
    else
      var r := Run(role, previous, polls[0]);
      [r.alert] + Replay(role, r.remembered, polls[1..])
  }

  /** The list the manager remembers before poll `k`. */
  function RememberedBefore(role: Role, previous: seq<string>, polls: seq<seq<HelpRequest>>, k: nat): (mem: seq<string>)
    requires k <= |polls|
    ensures role == CitizenRole ==> mem == previous
    ensures role == OfficerRole && k > 0 ==> mem == PendingIds(polls[k - 1])
  {
    if k == 0 then previous
    else Run(role, RememberedBefore(role, previous, polls, k - 1), polls[k - 1]).remembered
  }

  /** Starting after the first poll is the same as remembering one poll more. */
  lemma {:induction false} RememberedBeforeShift(role: Role, previous: seq<string>, polls: seq<seq<HelpRequest>>, k: nat)
    requires 1 <= k <= |polls|
    ensures RememberedBefore(role, Run(role, previous, polls[0]).remembered, polls[1..], k - 1)
            == RememberedBefore(role, previous, polls, k)
    decreases k
  {
    if k > 1 {
      RememberedBeforeShift(role, previous, polls, k - 1);
    }
  }

  /** Poll `k` of a replay is one run from the list remembered before it. */
  lemma {:induction false} ReplayStep(role: Role, previous: seq<string>, polls: seq<seq<HelpRequest>>, k: nat)
    requires k < |polls|
    ensures Replay(role, previous, polls)[k] == Run(role, RememberedBefore(role, previous, polls, k), polls[k]).alert
    decreases k
  {
    if k > 0 {
      var r := Run(role, previous, polls[0]);
      assert Replay(role, previous, polls) == [r.alert] + Replay(role, r.remembered, polls[1..]);
      assert polls[1..][k - 1] == polls[k];
      ReplayStep(role, r.remembered, polls[1..], k - 1);
      RememberedBeforeShift(role, previous, polls, k);
    }
  }

  /**
   * After the first poll an officer's alert depends only on the previous
   * poll's list and the current one; the first poll after mounting never
   * alerts.
   */
  lemma ReplayAlerts(polls: seq<seq<HelpRequest>>, k: nat)
    requires k < |polls|
    ensures k == 0 ==> Replay(OfficerRole, [], polls)[k] == None
    ensures k > 0 ==> Replay(OfficerRole, [], polls)[k] == Run(OfficerRole, PendingIds(polls[k - 1]), polls[k]).alert
  {
    ReplayStep(OfficerRole, [], polls, k);
  }

  /**
   * A request already pending at the previous poll is not counted as new:
   * a request that stays pending is reported at most once.
   */
  lemma StillPendingNotCounted(previous: seq<string>, polls: seq<seq<HelpRequest>>, k: nat, id: string)
    requires 0 < k < |polls|
    requires IsPendingId(polls[k - 1], id)
    ensures id !in NewIds(PendingIds(polls[k]), RememberedBefore(OfficerRole, previous, polls, k))
  {
    PendingIdsExact(polls[k - 1]);
  }
}
