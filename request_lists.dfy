/**
 * Status filters over a fetched request list: the `filter` on
 * `r.status === Type.x` written in the officer dashboard and in the
 * notification manager.
 */
module RequestLists {
  import opened Backend
  import opened Strings

  /** The requests whose status is `st`, in their original order. */
  function WithStatus(rs: seq<HelpRequest>, st: Status): (out: seq<HelpRequest>)
    ensures |out| <= |rs|
    ensures forall r :: r in out <==> r in rs && r.status == st
    ensures multiset(out) <= multiset(rs)
  {
    if rs == [] then []
    else
      assert rs == [rs[0]] + rs[1..];
      if rs[0].status == st then [rs[0]] + WithStatus(rs[1..], st)
      else WithStatus(rs[1..], st)
  }

  /** Filtering distributes over concatenation: the filter keeps the original order. */
  lemma {:induction false} WithStatusAppend(a: seq<HelpRequest>, b: seq<HelpRequest>, st: Status)
    ensures WithStatus(a + b, st) == WithStatus(a, st) + WithStatus(b, st)
  {
    if a == [] {
      assert a + b == b;
    } else {
      assert (a + b)[0] == a[0];
      assert (a + b)[1..] == a[1..] + b;
      WithStatusAppend(a[1..], b, st);
    }
  }

  /** Filtering a list with one more request in front. */
  lemma WithStatusCons(x: HelpRequest, tail: seq<HelpRequest>, st: Status)
    ensures multiset(WithStatus([x] + tail, st))
            == (if x.status == st then multiset{x} else multiset{}) + multiset(WithStatus(tail, st))
  {
    var rs := [x] + tail;
    assert rs[0] == x && rs[1..] == tail;
  }

  /**
   * The three status lists together hold every request exactly as often as
   * the fetched list does, because a status has only three values.
   */
  lemma {:induction false} StatusPartition(rs: seq<HelpRequest>)
    ensures multiset(WithStatus(rs, Pending)) + multiset(WithStatus(rs, Accepted))
            + multiset(WithStatus(rs, Resolved)) == multiset(rs)
  {
    if rs != [] {
      var x, tail := rs[0], rs[1..];
      assert rs == [x] + tail;
      StatusPartition(tail);
      WithStatusCons(x, tail, Pending);
      WithStatusCons(x, tail, Accepted);
      WithStatusCons(x, tail, Resolved);
      assert multiset(rs) == multiset{x} + multiset(tail);
    }
  }

  /** Hence the three list lengths add up to the number of requests. */
  lemma StatusCounts(rs: seq<HelpRequest>)
    ensures |WithStatus(rs, Pending)| + |WithStatus(rs, Accepted)| + |WithStatus(rs, Resolved)| == |rs|
  {
    StatusPartition(rs);
    var p, a, r := WithStatus(rs, Pending), WithStatus(rs, Accepted), WithStatus(rs, Resolved);
    assert |multiset(p) + multiset(a) + multiset(r)| == |multiset(rs)|;
  }

  /** No request is in two status lists. */
  lemma StatusListsDisjoint(rs: seq<HelpRequest>, s1: Status, s2: Status)
    requires s1 != s2
    ensures multiset(WithStatus(rs, s1)) !! multiset(WithStatus(rs, s2))
  {
    var a, b := WithStatus(rs, s1), WithStatus(rs, s2);
    forall r | r in multiset(a) ensures r !in multiset(b) {
      assert r in a;
    }
  }

  /** `r.id.toString()` for every request, in order. */
  function IdStrings(rs: seq<HelpRequest>): (ids: seq<string>)
    ensures |ids| == |rs|
    ensures forall i :: 0 <= i < |rs| ==> ids[i] == DecimalString(rs[i].id)
  {
    if rs == [] then [] else [DecimalString(rs[0].id)] + IdStrings(rs[1..])
  }
}
