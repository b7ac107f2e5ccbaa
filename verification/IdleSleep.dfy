/**
 Idle sleep across proxies: any number of proxy processes accept and finish requests in any interleaving,
 their reports are collected in any order, and the idle branch fires only on Models that really were idle.
 */
module IdleSleep {
  import opened Base
  import opened Phase
  import opened Reconcile
  import opened Aggregate
  import opened Tracker
  import opened Release

  /** All proxy processes, by address, under one clock. */
  datatype System = System(clock: Instant, proxies: map<string, Proxy>)

  /** Time passes, then one process takes a step, starts afresh, or goes away. */
  datatype Move = Idle | Act(address: string, step: Step) | Start(address: string) | Vanish(address: string)

  function Moved(s: System, at: Instant, move: Move): System {
    var proxies := match move
      case Idle => s.proxies
      case Act(a, step) => if a in s.proxies then s.proxies[a := After(s.proxies[a], step, at)] else s.proxies
      case Start(a) => s.proxies[a := Proxy(map[], map[])]
      case Vanish(a) => s.proxies - {a};
    System(at, proxies)
  }

  predicate MovesTo(s: System, t: System, move: Move) {
    t == Moved(s, t.clock, move)
  }

  ghost predicate Next(s: System, t: System) {
    s.clock <= t.clock && exists m :: MovesTo(s, t, m)
  }

  ghost predicate IsBehaviour(b: seq<System>) {
    && |b| > 0
    && b[0].proxies == map[]
    && forall i :: 0 < i < |b| ==>
         Next(b[i - 1], b[i])
  }

  lemma {:induction false} ProxiesTruthful(b: seq<System>, i: nat, address: string)
    requires IsBehaviour(b) && i < |b| && address in b[i].proxies
    ensures TrackerInv(b[i].proxies[address], b[i].clock)
  {
    if i > 0 {
      var m :| MovesTo(b[i - 1], b[i], m);
      if m == Start(address) {
        InvInitially(b[i].clock);
      } else {
        ProxiesTruthful(b, i - 1, address);
        if m.Act? && m.address == address {
          InvKept(b[i - 1].proxies[address], m.step, b[i - 1].clock, b[i].clock);
        }
      }
    }
  }

  /** What queryActivity decodes from a proxy's report; a missing key is "no data". */
  function Report(p: Proxy, address: string, model: string): Query {
    if model in p.models then
      var c := p.models[model];
      Query(address, true, false, c.inFlight, c.lastRequestAt, c.lastSuccessAt, c.failuresSinceSuccess)
    else Query(address, true, true, 0, ZERO_TIME, ZERO_TIME, 0)
  }

  /** Each readable query result is the report its address gave at position `at[j]` of the behaviour. */
  ghost predicate Collected(b: seq<System>, model: string, queries: seq<Query>, at: seq<nat>) {
    && |at| == |queries|
    && forall j :: 0 <= j < |queries| && queries[j].ok ==>
         && at[j] < |b|
         && queries[j].address in b[at[j]].proxies
         && queries[j] == Report(b[at[j]].proxies[queries[j].address], queries[j].address, model)
  }

  /** The process has nothing open, and all it ever accepted ended more than `idle` before `now`. */
  ghost predicate IdleAt(p: Proxy, model: string, idle: Duration, now: Instant) {
    && OpenIds(p, model) == {}
    && forall id :: Accepts(p, id, model) ==> p.requests[id].progress.Closed? && now - p.requests[id].progress.at > idle
  }

  lemma IdleFlipReadsEvidence(s: Status, p: PassInput)
    requires IdleFlip(Pass(s, p).action)
    ensures SleepDue(p.activity, Prior(s, p).lastRequestAt, p.spec.idleTimeout, p.now)
  {
    hide Prior;
  }

  /**
   When a pass flips a Model to 0 as idle, every expected proxy had no open request for the Model when its
   report was taken, and every request that process had accepted ended more than idleTimeout before now.
   A proxy without a key for the Model never accepted one.
   */
  lemma IdleSleepIsSound(b: seq<System>, model: string, expected: seq<string>, queries: seq<Query>, at: seq<nat>,
                         ev: Evidence, s: Status, p: PassInput, a: string)
    returns (j: nat)
    requires IsBehaviour(b) && Collected(b, model, queries, at)
    requires Describes(ev, Wanted(expected), Answers(Wanted(expected), queries), p.now)
    requires p.activity == Some(ev) && IdleFlip(Pass(s, p).action)
    requires a in expected
    ensures j < |queries| && queries[j].ok && queries[j].address == a
    ensures at[j] < |b| && a in b[at[j]].proxies
    ensures IdleAt(b[at[j]].proxies[a], model, p.spec.idleTimeout, p.now)
  {
    IdleFlipReadsEvidence(s, p);
    hide Pass, Prior;
    j := ReportedIdle(b, model, expected, queries, at, ev, Prior(s, p).lastRequestAt, p.spec.idleTimeout, p.now, a);
  }

  lemma ReportedIdle(b: seq<System>, model: string, expected: seq<string>, queries: seq<Query>, at: seq<nat>,
                     ev: Evidence, durable: Option<Instant>, idle: Duration, now: Instant, a: string)
    returns (j: nat)
    requires IsBehaviour(b) && Collected(b, model, queries, at)
    requires Describes(ev, Wanted(expected), Answers(Wanted(expected), queries), now)
    requires SleepDue(Some(ev), durable, idle, now)
    requires a in expected
    ensures j < |queries| && queries[j].ok && queries[j].address == a
    ensures at[j] < |b| && a in b[at[j]].proxies
    ensures IdleAt(b[at[j]].proxies[a], model, idle, now)
  {
    var want := Wanted(expected);
    var got := Answers(want, queries);
    assert a in got;
    j := LastResult(want, queries, a);
    assert Readable(got[a], now);
    var p := b[at[j]].proxies[a];
    ProxiesTruthful(b, at[j], a);
    assert RowTrue(p, model);
    if model in p.models {
      assert a in Seen(got);
      assert RequestTimes(got)[a] == got[a].lastRequestAt <= ev.newestLastRequestAt;
    } else {
      assert OpenIds(p, model) == {} by {
        if id :| id in OpenIds(p, model) {
          assert Accepts(p, id, model);
        }
      }
    }
  }

  /**
   Proxies that have had nothing open and accepted nothing since `quiet` give evidence that is quiet, which
   is what bounded release asks of every pass.
   */
  lemma QuietProxiesQuietEvidence(b: seq<System>, model: string, expected: seq<string>, queries: seq<Query>,
                                  at: seq<nat>, ev: Evidence, quiet: Instant, now: Instant)
    requires IsBehaviour(b) && Collected(b, model, queries, at)
    requires Describes(ev, Wanted(expected), Answers(Wanted(expected), queries), now)
    requires quiet >= SECOND
    requires forall j :: 0 <= j < |queries| && queries[j].ok ==>
      var p := b[at[j]].proxies[queries[j].address];
      && OpenIds(p, model) == {}
      && (forall id :: Accepts(p, id, model) ==> EndedBy(p.requests[id], quiet))
    ensures QuietEvidence(ev, quiet)
  {
    var got := Answers(Wanted(expected), queries);
    if ev != NO_EVIDENCE {
      forall a | a in Seen(got)
        ensures got[a].inFlight == 0 && got[a].lastRequestAt <= quiet
      {
        var j := LastResult(Wanted(expected), queries, a);
        assert Readable(got[a], now);
        var p := b[at[j]].proxies[a];
        ProxiesTruthful(b, at[j], a);
        assert RowTrue(p, model);
      }
    }
  }

  /** What a move changes: the clock, and the one process it is about. */
  lemma MovesMean(s: System, at: Instant, a: string, step: Step)
    ensures Moved(s, at, Idle) == System(at, s.proxies)
    ensures a in s.proxies ==> Moved(s, at, Act(a, step)) == System(at, s.proxies[a := After(s.proxies[a], step, at)])
    ensures a !in s.proxies ==> Moved(s, at, Act(a, step)) == System(at, s.proxies)
    ensures Moved(s, at, Start(a)).proxies == s.proxies[a := Proxy(map[], map[])]
    ensures Moved(s, at, Vanish(a)).proxies == map b | b in s.proxies && b != a :: s.proxies[b]
  {
  }
}
