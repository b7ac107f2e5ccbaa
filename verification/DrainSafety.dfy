/**
 What a teardown's Stop can cut, stated against the proxies themselves, and what each pass of a teardown comes to,
 stated on the spec and the evidence it reads.
 */
module DrainSafety {
  import opened Base
  import opened Phase
  import opened Server
  import opened Aggregate
  import opened IdleSleep
  import Tracker
  import T = Teardown

  /** How long a deleted Model may drain: as its spec says, or two minutes where that is not positive. */
  function DrainLimit(spec: Spec): Duration {
    if spec.drainTimeout > 0 then spec.drainTimeout else 120 * SECOND
  }

  /** Every expected proxy answered, and none has a request open. */
  predicate Drained(activity: Option<Evidence>) {
    activity.Some? && activity.value.complete && activity.value.allIdle
  }

  /** The evidence the pass went by, if it had any, describes reports the proxies gave. */
  ghost predicate Reported(b: seq<System>, model: string, expected: seq<string>, queries: seq<Query>, at: seq<nat>,
                           activity: Option<Evidence>, now: Instant)
  {
    activity.Some? ==>
      && Collected(b, model, queries, at)
      && Describes(activity.value, Aggregate.Wanted(expected), Answers(Aggregate.Wanted(expected), queries), now)
  }

  /** A proxy that answered idle had nothing open when its report was taken. */
  lemma DrainedProxyHasNothingOpen(b: seq<System>, model: string, expected: seq<string>, queries: seq<Query>,
                                   at: seq<nat>, activity: Option<Evidence>, now: Instant, a: string)
    returns (j: nat)
    requires IsBehaviour(b) && Reported(b, model, expected, queries, at, activity, now)
    requires Drained(activity) && a in expected
    ensures j < |queries| && queries[j].ok && queries[j].address == a
    ensures j < |at| && at[j] < |b| && a in b[at[j]].proxies
    ensures Tracker.OpenIds(b[at[j]].proxies[a], model) == {}
  {
    var want := Aggregate.Wanted(expected);
    var got := Answers(want, queries);
    assert a in got;
    j := LastResult(want, queries, a);
    assert Readable(got[a], now);
    var p := b[at[j]].proxies[a];
    ProxiesTruthful(b, at[j], a);
    assert Tracker.RowTrue(p, model);
    if model in p.models {
      assert a in Seen(got);
    } else {
      assert forall id :: id in Tracker.OpenIds(p, model) ==> Tracker.Accepts(p, id, model);
    }
  }

  /**
   No Stop of a teardown cuts an open request before the deadline: over every history with crashes, lost replies
   and deaths, a Stop that hits live replicas no later than the deadline finds every expected proxy without an
   open request for the Model when its report was taken.
   */
  lemma DrainCutsNoRequest(ts: seq<T.Teardown>, ms: seq<T.Move>, i: nat, e: T.Effect,
                           b: seq<System>, model: string, expected: seq<string>, queries: seq<Query>, at: seq<nat>,
                           a: string)
    returns (j: nat)
    requires T.IsHistory(ts, ms) && i < |ms| && ts[i + 1].log == ts[i].log + [e]
    requires e.Stopped? && e.hit.Some? && !e.hit.value.terminal && e.hit.value.replicas > 0
    requires e.now - ts[0].deletedAt <= DrainLimit(ts[0].spec)
    requires IsBehaviour(b) && Reported(b, model, expected, queries, at, e.activity, e.now)
    requires a in expected
    ensures j < |queries| && queries[j].ok && queries[j].address == a
    ensures j < |at| && at[j] < |b| && a in b[at[j]].proxies
    ensures Tracker.OpenIds(b[at[j]].proxies[a], model) == {}
  {
    T.TeardownIsSafe(ts, ms, i, e);
    assert Drained(e.activity) by {
      hide T.IsHistory, IsBehaviour, Reported;
    }
    j := DrainedProxyHasNothingOpen(b, model, expected, queries, at, e.activity, e.now, a);
  }

  // ---------------------------------------------------------------- what a pass comes to

  /** The pass gets as far as reading the run, with Draining on record. */
  predicate GetsToRead(t: T.Teardown, x: T.Outcomes) {
    t.finalizer && (t.draining || x.writeOk) && x.readOk
  }

  /** Nothing is up, time is up, or the proxies have drained. */
  predicate MayEnd(t: T.Teardown, x: T.Outcomes)
    requires t.name in t.server.services
  {
    || t.server.services[t.name].replicas == 0
    || x.now - t.deletedAt > DrainLimit(t.spec)
    || Drained(x.activity)
  }

  /** A pass stops a live run if and only if it reads it and may end it, and the Stop arrives. */
  lemma PassStopsIff(t: T.Teardown, x: T.Outcomes)
    requires t.point == T.Resting && Live(t.server, t.name)
    ensures !Live(T.Pass(t, x).server, t.name) <==> GetsToRead(t, x) && MayEnd(t, x) && x.stopArrives
    ensures t.name in T.Pass(t, x).server.services && T.Pass(t, x).finalizer == t.finalizer
  {
    T.PassEnds(t, x);
    hide T.Pass;
  }

  /** It deletes a dead one if and only if it reads it and may end it, and the Delete arrives. */
  lemma PassDeletesIff(t: T.Teardown, x: T.Outcomes)
    requires t.point == T.Resting && t.name in t.server.services && t.server.services[t.name].terminal
    ensures t.name !in T.Pass(t, x).server.services <==> GetsToRead(t, x) && MayEnd(t, x) && x.deleteArrives
  {
    T.PassEnds(t, x);
    hide T.Pass;
  }

  /** The finalizer goes if and only if no live run is read, a dead one may end, and every reply arrives. */
  lemma PassUnfinalizesIff(t: T.Teardown, x: T.Outcomes)
    requires t.point == T.Resting && t.finalizer
    ensures !T.Pass(t, x).finalizer <==>
      && GetsToRead(t, x)
      && !Live(t.server, t.name)
      && (t.name in t.server.services ==> MayEnd(t, x))
      && x.deleteArrives && x.deleteReplies && x.updateOk
    ensures T.Pass(t, x).draining <==> t.draining || x.writeOk
  {
    T.PassEnds(t, x);
    hide T.Pass;
  }
}
