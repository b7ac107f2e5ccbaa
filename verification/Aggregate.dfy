/** Folding the proxies' activity reports into one evidence value (internal/controller/squall/activity.go). */
module Aggregate {
  import opened Base
  import opened Phase

  /** One proxy replica's answer for one Model. */
  datatype Query = Query(
    address: string,
    ok: bool,
    noData: bool,
    inFlight: int,
    lastRequestAt: Instant,
    lastSuccessAt: Instant,
    failuresSinceSuccess: int
  )

  function Wanted(expected: seq<string>): set<string> {
    set a | a in expected
  }

  /** The last query result for each wanted address that has one. */
  function Answers(want: set<string>, queries: seq<Query>): (got: map<string, Query>)
    ensures got.Keys <= want
  {
    if queries == [] then map[]
    else
      var q := queries[|queries| - 1];
      var got := Answers(want, queries[..|queries| - 1]);
      if q.address in want then got[q.address := q] else got
  }

  lemma {:induction false} AnswersFacts(want: set<string>, queries: seq<Query>)
    ensures
      var got := Answers(want, queries);
      && (forall a :: a in got ==> got[a] in queries && got[a].address == a)
      && (forall q :: q in queries && q.address in want ==> q.address in got)
  {
    if queries != [] {
      var init := queries[..|queries| - 1];
      AnswersFacts(want, init);
      assert queries == init + [queries[|queries| - 1]];
    }
  }

  predicate Readable(q: Query, now: Instant) {
    q.ok && q.inFlight >= 0 && q.lastRequestAt <= now
  }

  /** Wanted addresses whose report has a key for the Model. */
  function Seen(got: map<string, Query>): set<string> {
    set a | a in got && !got[a].noData
  }

  function Charge(q: Query): nat {
    if q.failuresSinceSuccess > 0 then q.failuresSinceSuccess else 0
  }

  ghost function FailureSum(over: set<string>, got: map<string, Query>): nat
    requires over <= got.Keys
  {
    if over == {} then 0
    else
      var a :| a in over;
      Charge(got[a]) + FailureSum(over - {a}, got)
  }

  /** The sum does not depend on the order in which addresses are taken out. */
  lemma {:induction false} FailureSumTakes(over: set<string>, got: map<string, Query>, b: string)
    requires over <= got.Keys && b in over
    ensures FailureSum(over, got) == Charge(got[b]) + FailureSum(over - {b}, got)
    decreases |over|
  {
    var a :| a in over && FailureSum(over, got) == Charge(got[a]) + FailureSum(over - {a}, got);
    if a != b {
      FailureSumTakes(over - {a}, got, b);
      FailureSumTakes(over - {b}, got, a);
      assert over - {a} - {b} == over - {b} - {a};
    }
  }

  /** `m` is the latest of `at` over the addresses, or the zero time when none is later. */
  ghost predicate Latest(m: Instant, over: set<string>, at: map<string, Instant>)
    requires over <= at.Keys
  {
    && m >= ZERO_TIME
    && (forall a :: a in over ==> at[a] <= m)
    && (m == ZERO_TIME || exists a :: a in over && at[a] == m)
  }

  function RequestTimes(got: map<string, Query>): map<string, Instant> {
    map a | a in got :: got[a].lastRequestAt
  }

  function SuccessTimes(got: map<string, Query>): map<string, Instant> {
    map a | a in got :: got[a].lastSuccessAt
  }

  /** `ev` tallies the answers of the addresses in `seen`. */
  ghost predicate Tallies(ev: Evidence, seen: set<string>, got: map<string, Query>)
    requires seen <= got.Keys
  {
    && (ev.anyData <==> seen != {})
    && (ev.allIdle <==> forall a :: a in seen ==> got[a].inFlight == 0)
    && Latest(ev.newestLastRequestAt, seen, RequestTimes(got))
    && Latest(ev.newestLastSuccessAt, seen, SuccessTimes(got))
    && ev.failuresSinceSuccess == FailureSum(seen, got)
  }

  /** What the evidence for a set of addresses and their answers must say. */
  ghost predicate Describes(ev: Evidence, want: set<string>, got: map<string, Query>, now: Instant)
    requires got.Keys <= want
  {
    if want == {} || got.Keys != want || (exists a :: a in got && !Readable(got[a], now)) then
      ev == NO_EVIDENCE
    else
      ev.complete && Tallies(ev, Seen(got), got)
  }

  /** The description leaves no freedom. */
  lemma DescribedOnce(e1: Evidence, e2: Evidence, want: set<string>, got: map<string, Query>, now: Instant)
    requires got.Keys <= want
    requires Describes(e1, want, got, now) && Describes(e2, want, got, now)
    ensures e1 == e2
  {
  }

  lemma {:induction false} SubsetOfSameSize(a: set<string>, b: set<string>)
    requires a <= b
    ensures |a| == |b| <==> a == b
  {
    assert b == a + (b - a);
    assert |b| == |a| + |b - a|;
  }

  /** aggregateActivity: the addresses are visited in an arbitrary order, and the first unreadable one ends the loop. */
  method AggregateActivity(expected: seq<string>, queries: seq<Query>, now: Instant) returns (ev: Evidence)
    ensures Describes(ev, Wanted(expected), Answers(Wanted(expected), queries), now)
  {
    if |expected| == 0 {
      return NO_EVIDENCE;
    }
    assert expected[0] in Wanted(expected);
    var want: set<string> := {};
    for i := 0 to |expected|
      invariant want == Wanted(expected[..i])
    {
      want := want + {expected[i]};
    }
    assert expected[..|expected|] == expected;
    var got: map<string, Query> := map[];
    for i := 0 to |queries|
      invariant got == Answers(want, queries[..i])
    {
      assert queries[..i + 1][..i] == queries[..i];
      var q := queries[i];
      if q.address in want {
        got := got[q.address := q];
      }
    }
    assert queries[..|queries|] == queries;
    SubsetOfSameSize(got.Keys, want);
    if |got| != |want| {
      return NO_EVIDENCE;
    }
    ev := Fold(got, now);
  }

  method Fold(got: map<string, Query>, now: Instant) returns (ev: Evidence)
    requires got.Keys != {}
    ensures Describes(ev, got.Keys, got, now)
  {
    ev := Evidence(true, true, false, ZERO_TIME, ZERO_TIME, 0);
    var todo := got.Keys;
    ghost var seen: set<string> := {};
    assert Tallies(ev, seen, got);
    hide Tallies;
    while todo != {}
      invariant todo <= got.Keys
      invariant forall a :: a in got.Keys - todo ==> Readable(got[a], now)
      invariant seen == Seen(got) - todo
      invariant ev.complete && Tallies(ev, seen, got)
    {
      var addr :| addr in todo;
      var q := got[addr];
      if !q.ok || q.inFlight < 0 || q.lastRequestAt > now {
        return NO_EVIDENCE;
      }
      todo := todo - {addr};
      if !q.noData {
        ev := Count(ev, q, seen, got, addr);
        seen := seen + {addr};
      }
    }
    assert seen == Seen(got);
  }

  /** One turn of the loop over an address that has data. */
  method Count(ev: Evidence, q: Query, ghost seen: set<string>, ghost got: map<string, Query>, ghost addr: string)
    returns (r: Evidence)
    requires seen <= got.Keys && addr in got && addr !in seen && got[addr] == q
    requires Tallies(ev, seen, got)
    ensures Tallies(r, seen + {addr}, got) && r.complete == ev.complete
  {
    hide Latest, FailureSum;
    r := ev.(anyData := true);
    if q.inFlight != 0 {
      r := r.(allIdle := false);
    }
    if q.lastRequestAt > r.newestLastRequestAt {
      r := r.(newestLastRequestAt := q.lastRequestAt);
    }
    if q.lastSuccessAt > r.newestLastSuccessAt {
      r := r.(newestLastSuccessAt := q.lastSuccessAt);
    }
    if q.failuresSinceSuccess > 0 {
      r := r.(failuresSinceSuccess := r.failuresSinceSuccess + q.failuresSinceSuccess);
    }
    assert addr in seen + {addr};
    LatestWith(ev.newestLastRequestAt, seen, RequestTimes(got), addr);
    LatestWith(ev.newestLastSuccessAt, seen, SuccessTimes(got), addr);
    FailureSumTakes(seen + {addr}, got, addr);
    assert seen + {addr} - {addr} == seen;
  }

  lemma LatestWith(m: Instant, over: set<string>, at: map<string, Instant>, a: string)
    requires over <= at.Keys && a in at && Latest(m, over, at)
    ensures Latest(Max(m, at[a]), over + {a}, at)
  {
    if at[a] > m {
      assert a in over + {a} && at[a] == at[a];
    } else if m != ZERO_TIME {
      var b :| b in over && at[b] == m;
      assert b in over + {a};
    }
  }

  // ---------------------------------------------------------------- invariance

  ghost predicate DistinctAddresses(queries: seq<Query>) {
    forall i, j :: 0 <= i < j < |queries| ==> queries[i].address != queries[j].address
  }

  lemma OneQueryEach(queries: seq<Query>, x: Query, y: Query)
    requires DistinctAddresses(queries) && x in queries && y in queries && x.address == y.address
    ensures x == y
  {
    var i :| 0 <= i < |queries| && queries[i] == x;
    var j :| 0 <= j < |queries| && queries[j] == y;
    assert i == j;
  }

  lemma SameAnswer(want: set<string>, q1: seq<Query>, q2: seq<Query>, a: string)
    requires multiset(q1) == multiset(q2) && DistinctAddresses(q2)
    requires a in Answers(want, q1)
    ensures a in Answers(want, q2) && Answers(want, q1)[a] == Answers(want, q2)[a]
  {
    hide Answers, DistinctAddresses;
    AnswersFacts(want, q1);
    AnswersFacts(want, q2);
    var x := Answers(want, q1)[a];
    assert x in multiset(q1);
    OneQueryEach(q2, x, Answers(want, q2)[a]);
  }

  /** With one query per address the order of the results is irrelevant. */
  lemma AnswersIgnoreOrder(want: set<string>, q1: seq<Query>, q2: seq<Query>)
    requires multiset(q1) == multiset(q2)
    requires DistinctAddresses(q1) && DistinctAddresses(q2)
    ensures Answers(want, q1) == Answers(want, q2)
  {
    hide Answers, DistinctAddresses;
    forall a | a in Answers(want, q1)
      ensures a in Answers(want, q2) && Answers(want, q1)[a] == Answers(want, q2)[a]
    {
      SameAnswer(want, q1, q2, a);
    }
    forall a | a in Answers(want, q2)
      ensures a in Answers(want, q1)
    {
      SameAnswer(want, q2, q1, a);
    }
  }

  /** Results for addresses nobody asked about change nothing, wherever they stand. */
  lemma {:induction false} AnswersIgnoreStrangers(want: set<string>, front: seq<Query>, q: Query, back: seq<Query>)
    requires q.address !in want
    ensures Answers(want, front + [q] + back) == Answers(want, front + back)
  {
    var long := front + [q] + back;
    if back == [] {
      assert long[..|long| - 1] == front;
      assert front + back == front;
    } else {
      var init := back[..|back| - 1];
      AnswersIgnoreStrangers(want, front, q, init);
      assert long[..|long| - 1] == front + [q] + init;
      assert (front + back)[..|front + back| - 1] == front + init;
    }
  }

  /**
   The evidence is a function of the set of expected addresses and the set of results: it does not depend
   on the order of either list, on duplicates in the expected list, or on a stranger's result.
   */
  lemma EvidenceIgnoresOrder(x1: seq<string>, x2: seq<string>, q1: seq<Query>, q2: seq<Query>, stranger: Query,
                             now: Instant, e1: Evidence, e2: Evidence)
    requires Wanted(x1) == Wanted(x2) && stranger.address !in Wanted(x1)
    requires multiset(q1) == multiset(q2) && DistinctAddresses(q1) && DistinctAddresses(q2)
    requires Describes(e1, Wanted(x1), Answers(Wanted(x1), q1), now)
    requires Describes(e2, Wanted(x2), Answers(Wanted(x2), q2 + [stranger]), now)
    ensures e1 == e2
  {
    AnswersIgnoreOrder(Wanted(x1), q1, q2);
    AnswersIgnoreStrangers(Wanted(x1), q2, stranger, []);
    assert q2 + [stranger] + [] == q2 + [stranger] && q2 + [] == q2;
    DescribedOnce(e1, e2, Wanted(x1), Answers(Wanted(x1), q1), now);
  }

  /** The answer for a wanted address is the last result it has. */
  lemma {:induction false} AnswerIsLast(want: set<string>, queries: seq<Query>, j: nat)
    requires j < |queries| && queries[j].address in want
    requires forall k :: j < k < |queries| ==> queries[k].address != queries[j].address
    ensures queries[j].address in Answers(want, queries) && Answers(want, queries)[queries[j].address] == queries[j]
  {
    if j < |queries| - 1 {
      AnswerIsLast(want, queries[..|queries| - 1], j);
    }
  }

  /** Result `j` is the last one for address `a`, and readable. */
  ghost predicate AnsweredBy(queries: seq<Query>, j: int, a: string, now: Instant) {
    && 0 <= j < |queries|
    && queries[j].address == a
    && (forall k :: j < k < |queries| ==> queries[k].address != a)
    && queries[j].ok
    && queries[j].inFlight >= 0
    && queries[j].lastRequestAt <= now
  }

  /** That result shows a request open. */
  ghost predicate ShowsOpen(queries: seq<Query>, j: int, a: string, now: Instant) {
    AnsweredBy(queries, j, a, now) && !queries[j].noData && queries[j].inFlight != 0
  }

  lemma {:induction false} LastResult(want: set<string>, queries: seq<Query>, a: string) returns (j: nat)
    requires a in Answers(want, queries)
    ensures j < |queries| && queries[j].address == a && queries[j] == Answers(want, queries)[a]
    ensures forall k :: j < k < |queries| ==> queries[k].address != a
  {
    var last := |queries| - 1;
    if queries[last].address == a {
      j := last;
    } else {
      j := LastResult(want, queries[..last], a);
    }
  }

  lemma AnsweredIff(want: set<string>, queries: seq<Query>, a: string, now: Instant) returns (j: int)
    requires a in want
    ensures (exists k :: AnsweredBy(queries, k, a, now)) <==>
      a in Answers(want, queries) && Readable(Answers(want, queries)[a], now)
    ensures a in Answers(want, queries) && Readable(Answers(want, queries)[a], now) ==>
      AnsweredBy(queries, j, a, now) && queries[j] == Answers(want, queries)[a]
    ensures forall k :: AnsweredBy(queries, k, a, now) ==> k == j
  {
    j := 0;
    if a in Answers(want, queries) {
      j := LastResult(want, queries, a);
    }
    forall k | AnsweredBy(queries, k, a, now)
      ensures k == j && a in Answers(want, queries) && Answers(want, queries)[a] == queries[k]
    {
      AnswerIsLast(want, queries, k);
    }
    hide Answers;
    assert a in Answers(want, queries) && Readable(Answers(want, queries)[a], now) ==> AnsweredBy(queries, j, a, now);
  }

  /**
   When evidence is complete: some address is expected, and each expected one has a last result that is readable,
   counts no negative requests and is not from the future.
   */
  lemma CompleteIff(expected: seq<string>, queries: seq<Query>, now: Instant, ev: Evidence)
    requires Describes(ev, Wanted(expected), Answers(Wanted(expected), queries), now)
    ensures ev.complete <==>
      expected != [] && forall a :: a in expected ==> exists j :: AnsweredBy(queries, j, a, now)
  {
    var want := Wanted(expected);
    var got := Answers(want, queries);
    assert expected != [] ==> expected[0] in want;
    hide Answers, Tallies, AnsweredBy;
    forall a | a in expected
      ensures (exists j :: AnsweredBy(queries, j, a, now)) <==> a in got && Readable(got[a], now)
    {
      var j := AnsweredIff(want, queries, a, now);
    }
  }

  /** And then nothing is open exactly if none of these results shows an open request. */
  lemma AllIdleIff(expected: seq<string>, queries: seq<Query>, now: Instant, ev: Evidence)
    requires Describes(ev, Wanted(expected), Answers(Wanted(expected), queries), now) && ev.complete
    ensures ev.allIdle <==> !exists a, j :: a in expected && ShowsOpen(queries, j, a, now)
  {
    var want := Wanted(expected);
    var got := Answers(want, queries);
    hide Answers, Latest, FailureSum, AnsweredBy;
    forall a | a in expected
      ensures a in got && (a in Seen(got) && got[a].inFlight != 0 <==> exists j :: ShowsOpen(queries, j, a, now))
    {
      var j := AnsweredIff(want, queries, a, now);
      assert a in want && Readable(got[a], now);
      assert a in Seen(got) && got[a].inFlight != 0 ==> ShowsOpen(queries, j, a, now);
    }
    hide ShowsOpen;
  }

  /** Only a positive count of failures is charged. */
  lemma ChargeMeans(q: Query)
    ensures Charge(q) == Max(q.failuresSinceSuccess, 0)
  {
  }
}
