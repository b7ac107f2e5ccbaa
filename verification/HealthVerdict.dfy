/** An Unhealthy flip rests on enough requests that really failed, and on no recent success. */
module HealthVerdict {
  import opened Base
  import opened Phase
  import opened Reconcile
  import opened Aggregate
  import opened Tracker
  import opened Forward
  import opened Handler
  import opened IdleSleep
  import opened ControllerRuns

  /**
   What happens in a proxy, in order: a critical section of Begin or done, or the end of a request it accepted,
   whose verdict is a critical section of Success or Failure, or none.
   */
  datatype Entry =
    | Section(step: Step, now: Instant)
    | Judged(id: nat, model: string, q: RequestIn, out: Outcome, stamp: Instant, now: Instant)

  function StepOf(e: Entry): Option<Step> {
    match e
    case Section(step, _) => Some(step)
    case Judged(_, model, _, out, stamp, _) =>
      match out.verdict
      case Credited => Some(Succeed(model, stamp))
      case Charged => Some(Fail(model))
      case NoVerdict => None
  }

  function AfterEntry(p: Proxy, e: Entry): Proxy {
    if StepOf(e).Some? then After(p, StepOf(e).value, e.now) else p
  }

  /** The process that a history leaves behind. */
  function Play(h: seq<Entry>): Proxy {
    if h == [] then Proxy(map[], map[]) else AfterEntry(Play(h[..|h| - 1]), h[|h| - 1])
  }

  /** Entry `i` is possible where it stands: a request ends as Serve ends it, once, while its tracker holds it open. */
  ghost predicate GenuineAt(h: seq<Entry>, i: nat)
    requires i < |h|
  {
    match h[i]
    case Section(step, _) => !step.Succeed? && !step.Fail?
    case Judged(id, model, q, out, _, _) =>
      && Ends(q, out)
      && id in OpenIds(Play(h[..i]), model)
      && !HasEnded(h[..i], id)
  }

  /** The request has ended. */
  ghost predicate HasEnded(h: seq<Entry>, id: nat) {
    exists j :: 0 <= j < |h| && h[j].Judged? && h[j].id == id
  }

  /** A history of a proxy. */
  ghost predicate Genuine(h: seq<Entry>) {
    forall i :: 0 <= i < |h| ==> GenuineAt(h, i)
  }

  lemma GenuinePrefix(h: seq<Entry>)
    requires Genuine(h) && h != []
    ensures Genuine(h[..|h| - 1])
  {
    var init := h[..|h| - 1];
    forall i | 0 <= i < |init|
      ensures GenuineAt(init, i)
    {
      assert GenuineAt(h, i) && init[..i] == h[..i];
    }
  }

  lemma GenuineNext(h: seq<Entry>, e: Entry)
    requires Genuine(h) && GenuineAt(h + [e], |h|)
    ensures Genuine(h + [e])
  {
    var long := h + [e];
    forall i | 0 <= i < |long|
      ensures GenuineAt(long, i)
    {
      if i < |h| {
        assert GenuineAt(h, i) && long[..i] == h[..i];
      }
    }
  }

  /** Serving a request that the tracker holds open extends the proxy's history by that request's end. */
  method ServeAndRecord(id: nat, q: RequestIn, model: string, tracker: ActivityTracker, stamp: Instant, now: Instant,
                        ghost h: seq<Entry>)
    returns (out: Outcome)
    requires Genuine(h) && tracker.models == Play(h).models
    requires id in OpenIds(Play(h), model) && !HasEnded(h, id)
    modifies tracker
    ensures
      var long := h + [Judged(id, model, q, out, stamp, now)];
      Genuine(long) && tracker.models == Play(long).models
    ensures tracker.models ==
      if RealFailure(q, out) || Mischarged(q, out) then Tracker.Failed(old(tracker.models), model)
      else if FullyDelivered(q, out) then Tracker.Succeeded(old(tracker.models), model, stamp)
      else old(tracker.models)
  {
    out := Serve(q);
    ghost var e := Judged(id, model, q, out, stamp, now);
    assert (h + [e])[..|h|] == h;
    GenuineNext(h, e);
    hide AnswersOnce, StaysInBudget, Genuine, GenuineAt, Mischarged;
    if out.verdict.Credited? {
      tracker.Success(model, stamp);
    } else if out.verdict.Charged? {
      tracker.Failure(model);
    }
  }

  // ---------------------------------------------------------------- what the counters say

  function Counted(before: nat, e: Entry, model: string): nat {
    match StepOf(e)
    case Some(Fail(m)) => if m == model then before + 1 else before
    case Some(Succeed(m, _)) => if m == model then 0 else before
    case _ => before
  }

  /** Failures recorded for the Model since its last success. */
  function Streak(h: seq<Entry>, model: string): nat {
    if h == [] then 0 else Counted(Streak(h[..|h| - 1], model), h[|h| - 1], model)
  }

  lemma EntryNext(h: seq<Entry>, e: Entry, model: string)
    ensures (h + [e])[..|h|] == h
    ensures Play(h + [e]) == AfterEntry(Play(h), e)
    ensures Streak(h + [e], model) == Counted(Streak(h, model), e, model)
  {
    assert (h + [e])[..|h|] == h;
  }

  /** The stamp of the success recorded last, or the zero time. */
  function LastSuccess(h: seq<Entry>, model: string): Instant {
    if h == [] then ZERO_TIME
    else
      match StepOf(h[|h| - 1])
      case Some(Succeed(m, stamp)) => if m == model then stamp else LastSuccess(h[..|h| - 1], model)
      case _ => LastSuccess(h[..|h| - 1], model)
  }

  lemma {:induction false} RowIsStreak(h: seq<Entry>, model: string)
    ensures Row(Play(h).models, model).failuresSinceSuccess == Streak(h, model)
    ensures Row(Play(h).models, model).lastSuccessAt == LastSuccess(h, model)
  {
    if h != [] {
      RowIsStreak(h[..|h| - 1], model);
    }
  }

  /** The request failed: through the replica, or also, if `lost`, for want of a route whose error was lost. */
  ghost predicate FailedAt(e: Entry, model: string, lost: bool) {
    e.Judged? && e.model == model && (RealFailure(e.q, e.out) || (lost && Mischarged(e.q, e.out)))
  }

  /** The requests of a history that failed. */
  ghost function FailedIds(h: seq<Entry>, model: string, lost: bool): set<nat> {
    set i | 0 <= i < |h| && FailedAt(h[i], model, lost) :: h[i].id
  }

  lemma FailedIdsNext(h: seq<Entry>, model: string, lost: bool)
    requires Genuine(h) && h != []
    ensures
      var init, e := h[..|h| - 1], h[|h| - 1];
      if FailedAt(e, model, lost)
      then FailedIds(h, model, lost) == FailedIds(init, model, lost) + {e.id} && e.id !in FailedIds(init, model, lost)
      else FailedIds(h, model, lost) == FailedIds(init, model, lost)
  {
    hide RealFailure, Mischarged, Ends;
    var init, e := h[..|h| - 1], h[|h| - 1];
    assert GenuineAt(h, |h| - 1);
    forall id | id in FailedIds(init, model, lost)
      ensures id in FailedIds(h, model, lost) && (e.Judged? ==> id != e.id)
    {
      var i :| 0 <= i < |init| && FailedAt(init[i], model, lost) && init[i].id == id;
      assert h[i] == init[i];
    }
  }

  /** A streak is never longer than the requests that failed. */
  lemma {:induction false} StreakCountsRequests(h: seq<Entry>, model: string)
    requires Genuine(h)
    ensures Streak(h, model) <= |FailedIds(h, model, true)|
  {
    if h != [] {
      GenuinePrefix(h);
      StreakCountsRequests(h[..|h| - 1], model);
      FailedIdsNext(h, model, true);
      var e := h[|h| - 1];
      assert e.Judged? ==> Ends(e.q, e.out) by {
        assert GenuineAt(h, |h| - 1);
      }
      assert e.Section? ==> !e.step.Fail? by {
        assert GenuineAt(h, |h| - 1);
      }
      hide Genuine, FailedIds, AnswersOnce, StaysInBudget, RealFailure, Mischarged;
    }
  }

  // ---------------------------------------------------------------- a counter without real failures

  /** Accept request `n`, then end it this way. */
  function Trio(n: nat, model: string, q: RequestIn, out: Outcome, now: Instant): seq<Entry> {
    [Section(Stamp(n, model), now), Section(Accept(n), now), Judged(n, model, q, out, now, now)]
  }

  lemma NoRealFailure(q: RequestIn, out: Outcome)
    requires Ends(q, out) && Mischarged(q, out)
    ensures !RealFailure(q, out) && out.verdict.Charged?
  {
  }

  /** The row of `n` requests accepted at `now`, none done, all charged. */
  function ChargedRow(n: nat, now: Instant): Counters {
    Counters(n, if n == 0 then ZERO_TIME else now, ZERO_TIME, n)
  }

  /** The requests of a history are numbered below `n`, are open, and all failed for want of a route. */
  ghost predicate OnlyMischarged(h: seq<Entry>, model: string, n: nat, now: Instant) {
    && Genuine(h)
    && Streak(h, model) == n
    && NoneReal(h, n)
    && (forall id :: id in Play(h).requests ==> id < n)
    && Row(Play(h).models, model) == ChargedRow(n, now)
    && (n > 0 ==> model in Play(h).models)
  }

  lemma AcceptNext(h: seq<Entry>, model: string, n: nat, now: Instant)
    requires Genuine(h) && n !in Play(h).requests
    ensures
      var h2 := h + [Section(Stamp(n, model), now)] + [Section(Accept(n), now)];
      && Genuine(h2)
      && Streak(h2, model) == Streak(h, model)
      && Play(h2).requests == Play(h).requests[n := Request(model, now, Tracker.Open)]
      && Play(h2).models == Tracker.Accepted(Play(h).models, model, now)
      && n in OpenIds(Play(h2), model)
  {
    var e1, e2 := Section(Stamp(n, model), now), Section(Accept(n), now);
    GenuineNext(h, e1);
    GenuineNext(h + [e1], e2);
    hide Genuine, Play, Streak;
    EntryNext(h, e1, model);
    EntryNext(h + [e1], e2, model);
  }

  lemma EndNext(h: seq<Entry>, model: string, n: nat, e: Entry)
    requires Genuine(h) && e.Judged? && e.id == n && e.model == model
    requires n in OpenIds(Play(h), model) && !HasEnded(h, n)
    requires Ends(e.q, e.out) && e.out.verdict.Charged?
    ensures Genuine(h + [e])
    ensures Streak(h + [e], model) == Streak(h, model) + 1
    ensures Play(h + [e]).requests == Play(h).requests
    ensures Play(h + [e]).models == Tracker.Failed(Play(h).models, model)
  {
    EntryNext(h, e, model);
    GenuineNext(h, e);
    hide Genuine, GenuineAt, Play, Streak, Ends;
  }

  /** Every request that ended is numbered below `n` and did not fail through the replica. */
  ghost predicate NoneReal(h: seq<Entry>, n: nat) {
    forall i :: 0 <= i < |h| && h[i].Judged? ==> h[i].id < n && !RealFailure(h[i].q, h[i].out)
  }

  lemma NoneRealNext(h: seq<Entry>, model: string, n: nat, q: RequestIn, out: Outcome, now: Instant)
    requires NoneReal(h, n) && !RealFailure(q, out)
    ensures
      var t := Trio(n, model, q, out, now);
      && h + t == h + [t[0]] + [t[1]] + [t[2]]
      && !HasEnded(h + [t[0]] + [t[1]], n)
      && NoneReal(h + t, n + 1)
  {
    hide RealFailure;
  }

  lemma OneMoreMischarged(h: seq<Entry>, model: string, n: nat, q: RequestIn, out: Outcome, now: Instant)
    requires OnlyMischarged(h, model, n, now) && Ends(q, out) && Mischarged(q, out)
    ensures OnlyMischarged(h + Trio(n, model, q, out, now), model, n + 1, now)
  {
    NoRealFailure(q, out);
    NoneRealNext(h, model, n, q, out, now);
    hide Ends, Mischarged, Genuine, Play, Streak, NoneReal, HasEnded;
    var t := Trio(n, model, q, out, now);
    AcceptNext(h, model, n, now);
    EndNext(h + [t[0]] + [t[1]], model, n, t[2]);
  }

  /**
   The exemption's gap is all it takes: requests that end without a route and lose that error can bring the
   counter to any height although not one of them failed through the replica.
   */
  lemma {:induction false} MischargesSuffice(q: RequestIn, out: Outcome, model: string, n: nat, now: Instant)
    returns (h: seq<Entry>)
    requires Ends(q, out) && Mischarged(q, out)
    ensures OnlyMischarged(h, model, n, now) && FailedIds(h, model, false) == {}
  {
    if n == 0 {
      h := [];
    } else {
      var init := MischargesSuffice(q, out, model, n - 1, now);
      h := init + Trio(n - 1, model, q, out, now);
      OneMoreMischarged(init, model, n - 1, q, out, now);
    }
  }

  // ---------------------------------------------------------------- all proxies

  /** The requests that failed on these proxies, as (proxy, request). */
  ghost function FailedRequests(over: set<string>, hist: map<string, seq<Entry>>, model: string, lost: bool)
    : set<(string, nat)>
    requires over <= hist.Keys
  {
    set a, id | a in over && id in FailedIds(hist[a], model, lost) :: (a, id)
  }

  lemma {:induction false} PairsCount(a: string, ids: set<nat>, pairs: set<(string, nat)>)
    requires pairs == set id | id in ids :: (a, id)
    ensures |pairs| == |ids|
    decreases |ids|
  {
    if ids != {} {
      var id :| id in ids;
      PairsCount(a, ids - {id}, pairs - {(a, id)});
    }
  }

  lemma OneProxyMore(a: string, over: set<string>, hist: map<string, seq<Entry>>, model: string)
    requires a in over && over <= hist.Keys
    ensures |FailedRequests(over, hist, model, true)| ==
      |FailedRequests(over - {a}, hist, model, true)| + |FailedIds(hist[a], model, true)|
  {
    hide FailedIds;
    var mine := set id | id in FailedIds(hist[a], model, true) :: (a, id);
    PairsCount(a, FailedIds(hist[a], model, true), mine);
    var rest := FailedRequests(over - {a}, hist, model, true);
    assert FailedRequests(over, hist, model, true) == rest + mine;
    assert rest !! mine;
  }

  lemma {:induction false} SumBoundsRequests(over: set<string>, got: map<string, Query>, hist: map<string, seq<Entry>>,
                                             model: string)
    requires over <= got.Keys && over <= hist.Keys
    requires forall a :: a in over ==> Genuine(hist[a]) && got[a] == Report(Play(hist[a]), a, model)
    ensures FailureSum(over, got) <= |FailedRequests(over, hist, model, true)|
    decreases |over|
  {
    hide FailedRequests, Genuine;
    if over != {} {
      var a :| a in over;
      FailureSumTakes(over, got, a);
      SumBoundsRequests(over - {a}, got, hist, model);
      RowIsStreak(hist[a], model);
      StreakCountsRequests(hist[a], model);
      OneProxyMore(a, over, hist, model);
    }
  }

  lemma UnhealthyFlipReadsEvidence(s: Status, p: PassInput)
    requires Pass(s, p).action.unhealthy
    ensures UnhealthyDue(p.activity, Observe(p).ready, Prior(s, p).wakeStartedAt, p.spec.health, p.spec.idleTimeout,
                         p.now)
  {
    hide Prior;
  }

  /** Each expected proxy's answer is what its tracker reports after the history it had by then. */
  ghost predicate Reported(want: set<string>, got: map<string, Query>, hist: map<string, seq<Entry>>, model: string)
    requires got.Keys <= want
  {
    && want <= hist.Keys
    && (forall a :: a in want ==> Genuine(hist[a]))
    && (forall a :: a in got && got[a].ok ==> got[a] == Report(Play(hist[a]), a, model))
  }

  /** No request of these histories came with a script that makes the proxy lose the error it ends on. */
  ghost predicate NoErrorLost(want: set<string>, hist: map<string, seq<Entry>>)
    requires want <= hist.Keys
  {
    forall a, e :: a in want && e in hist[a] && e.Judged? ==> !LosesError(e.q)
  }

  /** Enough distinct requests failed, and no proxy's last recorded success is within `window` of `now`. */
  ghost predicate Failing(want: set<string>, hist: map<string, seq<Entry>>, model: string, threshold: int,
                          window: Duration, now: Instant)
    requires want <= hist.Keys
  {
    && |FailedRequests(want, hist, model, true)| >= threshold
    && (NoErrorLost(want, hist) ==> |FailedRequests(want, hist, model, false)| >= threshold)
    && (forall a :: a in want ==>
          LastSuccess(hist[a], model) == ZERO_TIME || now - LastSuccess(hist[a], model) > window)
  }

  lemma OnlyRealFailures(want: set<string>, hist: map<string, seq<Entry>>, model: string)
    requires want <= hist.Keys && NoErrorLost(want, hist)
    ensures FailedRequests(want, hist, model, true) == FailedRequests(want, hist, model, false)
  {
    forall a | a in want
      ensures FailedIds(hist[a], model, true) == FailedIds(hist[a], model, false)
    {
      assert forall i :: 0 <= i < |hist[a]| ==>
        (FailedAt(hist[a][i], model, true) <==> FailedAt(hist[a][i], model, false));
    }
  }

  /**
   When a pass flips a Model to 0 as unhealthy, the expected proxies accepted and served between them at least
   the threshold (three when unset) of distinct requests for the Model that failed through the replica, or that
   had no route and lost that error; where no script loses it, all of them failed through the replica. No
   proxy's last recorded success is within unhealthyAfter of now.
   */
  lemma UnhealthyFlipEarned(expected: seq<string>, queries: seq<Query>, hist: map<string, seq<Entry>>, model: string,
                            ev: Evidence, s: Status, p: PassInput)
    requires Reported(Wanted(expected), Answers(Wanted(expected), queries), hist, model)
    requires Describes(ev, Wanted(expected), Answers(Wanted(expected), queries), p.now)
    requires p.activity == Some(ev) && Pass(s, p).action.unhealthy
    ensures Failing(Wanted(expected), hist, model, Threshold(p.spec.health.failureThreshold),
                    p.spec.health.unhealthyAfter, p.now)
  {
    UnhealthyFlipReadsEvidence(s, p);
    hide Pass, Prior, Observe;
    EvidenceOfFailures(expected, queries, hist, model, ev, Observe(p).ready, Prior(s, p).wakeStartedAt,
                       p.spec.health, p.spec.idleTimeout, p.now);
  }

  lemma EvidenceOfFailures(expected: seq<string>, queries: seq<Query>, hist: map<string, seq<Entry>>, model: string,
                           ev: Evidence, ready: bool, wake: Option<Instant>, health: Health, idle: Duration,
                           now: Instant)
    requires Reported(Wanted(expected), Answers(Wanted(expected), queries), hist, model)
    requires Describes(ev, Wanted(expected), Answers(Wanted(expected), queries), now)
    requires UnhealthyDue(Some(ev), ready, wake, health, idle, now)
    ensures Failing(Wanted(expected), hist, model, Threshold(health.failureThreshold), health.unhealthyAfter, now)
  {
    hide Genuine, NoErrorLost, FailedIds, Play;
    var want := Wanted(expected);
    var got := Answers(want, queries);
    forall a | a in want
      ensures a in got && got[a] == Report(Play(hist[a]), a, model)
      ensures LastSuccess(hist[a], model) == ZERO_TIME || LastSuccess(hist[a], model) <= ev.newestLastSuccessAt
    {
      assert a in got && Readable(got[a], now);
      RowIsStreak(hist[a], model);
      if model in Play(hist[a]).models {
        assert a in Seen(got);
        assert SuccessTimes(got)[a] == LastSuccess(hist[a], model);
      }
    }
    SumBoundsRequests(Seen(got), got, hist, model);
    assert FailedRequests(Seen(got), hist, model, true) <= FailedRequests(want, hist, model, true);
    SubsetSize(FailedRequests(Seen(got), hist, model, true), FailedRequests(want, hist, model, true));
    if NoErrorLost(want, hist) {
      OnlyRealFailures(want, hist, model);
    }
  }

  lemma SubsetSize(a: set<(string, nat)>, b: set<(string, nat)>)
    requires a <= b
    ensures |a| <= |b|
  {
    assert b == a + (b - a);
  }

  // ---------------------------------------------------------------- a flip without real failures

  const ASLEEP := Snap(true, Asleep)
  const NO_ROUTE := Frame(RefreshTick, 0, ASLEEP, NoRoute, Alive, Snap(true, Ready))

  /** Held with no budget, and without a backend URL throughout. */
  const UNROUTED :=
    RequestIn(0, ASLEEP, true, true, true, 0, MINUTE, 0, SECOND, NO_ROUTE, [], NO_ROUTE, InFull)

  const UNROUTED_END :=
    Outcome([503], None, [Tried(NoRoute, Asleep), Tried(NoRoute, Ready)], true, 0, 0,
            Some(DeadlineReached(false)), true, Alive, Charged)

  lemma UnroutedIsMischarged()
    ensures Ends(UNROUTED, UNROUTED_END) && Mischarged(UNROUTED, UNROUTED_END)
  {
  }

  lemma OneProxyEvidence(a: string, q: Query, now: Instant, ev: Evidence)
    requires q.address == a && Readable(q, now) && !q.noData
    requires q.inFlight > 0 && q.lastRequestAt > ZERO_TIME && q.lastSuccessAt == ZERO_TIME && q.failuresSinceSuccess > 0
    requires ev == Evidence(true, false, true, q.lastRequestAt, ZERO_TIME, q.failuresSinceSuccess)
    ensures Answers(Wanted([a]), [q]) == map[a := q]
    ensures Describes(ev, Wanted([a]), map[a := q], now)
  {
    var got := map[a := q];
    assert [q][..0] == [] && Answers(Wanted([a]), []) == map[];
    assert Seen(got) == {a} && Wanted([a]) == {a};
    FailureSumTakes({a}, got, a);
    assert {a} - {a} == {};
  }

  /** A pass over an on-demand Model whose run is ready and was woken long before. */
  function SickPass(health: Health, wake: Instant, ev: Evidence): PassInput {
    var spec := SAMPLE_SPEC.(health := health);
    PassInput(spec, wake + health.unhealthyAfter + 1, Found(SAMPLE_RUN, None), Some(ev), None,
              true, true, ApplyError, true)
  }

  lemma SickPassFlips(health: Health, ev: Evidence, s: Status, p: PassInput)
    requires health.unhealthyAfter > 0 && p == SickPass(health, SECOND, ev)
    requires s == SAMPLE_STATUS.(wakeStartedAt := Some(SECOND))
    requires ev.complete && !ev.allIdle && ev.newestLastRequestAt == p.now && ev.newestLastSuccessAt == ZERO_TIME
    requires ev.failuresSinceSuccess >= Threshold(health.failureThreshold)
    ensures Pass(s, p).action.unhealthy
  {
    assert Prior(s, p).wakeStartedAt == Some(SECOND);
  }

  /**
   So a Model whose replica never failed can be flipped as unhealthy, whatever its threshold and window: with
   one proxy and as many requests without a route as the threshold asks for, every hypothesis of
   UnhealthyFlipEarned holds and no request failed through the replica.
   */
  lemma FlipWithoutRealFailure(health: Health, model: string, a: string)
    returns (hist: map<string, seq<Entry>>, queries: seq<Query>, ev: Evidence, s: Status, p: PassInput)
    requires health.unhealthyAfter > 0
    ensures Reported(Wanted([a]), Answers(Wanted([a]), queries), hist, model)
    ensures Describes(ev, Wanted([a]), Answers(Wanted([a]), queries), p.now)
    ensures p.activity == Some(ev) && p.spec.health == health && Pass(s, p).action.unhealthy
    ensures FailedRequests(Wanted([a]), hist, model, false) == {}
  {
    UnroutedIsMischarged();
    hide Ends, Mischarged, Pass, Genuine, Describes;
    var n := Threshold(health.failureThreshold);
    var now := SECOND + health.unhealthyAfter + 1;
    var h := MischargesSuffice(UNROUTED, UNROUTED_END, model, n, now);
    hist := map[a := h];
    var q := Report(Play(h), a, model);
    queries := [q];
    ev := Evidence(true, false, true, now, ZERO_TIME, n);
    s := SAMPLE_STATUS.(wakeStartedAt := Some(SECOND));
    p := SickPass(health, SECOND, ev);
    OneProxyEvidence(a, q, now, ev);
    SickPassFlips(health, ev, s, p);
    hide Play, FailedIds;
  }
}
