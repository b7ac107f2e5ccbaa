/**
 A proxy's activity tracker (internal/proxy/activity.go), and one proxy process as a machine whose steps are
 the tracker's critical sections. Begin and Success read the clock before they take the lock, so their stamp
 is read in a step of its own.
 */
module Tracker {
  import opened Base

  datatype Counters = Counters(inFlight: int, lastRequestAt: Instant, lastSuccessAt: Instant, failuresSinceSuccess: int)

  type Models = map<string, Counters>

  function Row(models: Models, model: string): Counters {
    if model in models then models[model] else Counters(0, ZERO_TIME, ZERO_TIME, 0)
  }

  function Accepted(models: Models, model: string, stamp: Instant): Models {
    var c := Row(models, model);
    models[model := c.(inFlight := c.inFlight + 1, lastRequestAt := stamp)]
  }

  function Completed(models: Models, model: string, now: Instant): Models {
    var c := Row(models, model);
    models[model := c.(inFlight := c.inFlight - 1, lastRequestAt := now)]
  }

  function Succeeded(models: Models, model: string, stamp: Instant): Models {
    models[model := Row(models, model).(lastSuccessAt := stamp, failuresSinceSuccess := 0)]
  }

  function Failed(models: Models, model: string): Models {
    var c := Row(models, model);
    models[model := c.(failuresSinceSuccess := c.failuresSinceSuccess + 1)]
  }

  class ActivityTracker {
    var models: Models

    constructor ()
      ensures models == map[]
    {
      models := map[];
    }

    method Insert(model: string)
      modifies this
      ensures models == old(models)[model := Row(old(models), model)]
    {
      if model !in models {
        models := models[model := Counters(0, ZERO_TIME, ZERO_TIME, 0)];
      }
    }

    /** The locked part of Begin; `stamp` was read before. The result is the caller's done func. */
    method Begin(model: string, stamp: Instant) returns (done: DoneFunc)
      modifies this
      ensures models == Accepted(old(models), model, stamp)
      ensures fresh(done) && !done.called && done.model == model && done.tracker == this
    {
      Insert(model);
      var c := models[model];
      models := models[model := c.(inFlight := c.inFlight + 1, lastRequestAt := stamp)];
      done := new DoneFunc(model, this);
    }

    method Success(model: string, stamp: Instant)
      modifies this
      ensures models == Succeeded(old(models), model, stamp)
    {
      Insert(model);
      models := models[model := models[model].(lastSuccessAt := stamp, failuresSinceSuccess := 0)];
    }

    method Failure(model: string)
      modifies this
      ensures models == Failed(old(models), model)
    {
      Insert(model);
      var c := models[model];
      models := models[model := c.(failuresSinceSuccess := c.failuresSinceSuccess + 1)];
    }
  }

  /** The closure Begin returns: its effect happens on the first call only. */
  class DoneFunc {
    const model: string
    const tracker: ActivityTracker
    var called: bool

    constructor (model: string, tracker: ActivityTracker)
      ensures this.model == model && this.tracker == tracker && !called
    {
      this.model := model;
      this.tracker := tracker;
      called := false;
    }

    method Call(now: Instant)
      modifies this, tracker
      ensures called
      ensures tracker.models == if old(called) then old(tracker.models) else Completed(old(tracker.models), model, now)
    {
      if !called {
        called := true;
        var c := Row(tracker.models, model);
        tracker.models := tracker.models[model := c.(inFlight := c.inFlight - 1, lastRequestAt := now)];
      }
    }
  }

  // ---------------------------------------------------------------- one proxy process

  /** Stamped: the clock is read, the lock not yet taken, the request not yet accepted. */
  datatype Progress = Stamped | Open | Closed(at: Instant)

  datatype Request = Request(model: string, stamp: Instant, progress: Progress)

  /** A tracker together with every request its process ever saw. */
  datatype Proxy = Proxy(models: Models, requests: map<nat, Request>)

  datatype Step =
    | Stamp(id: nat, model: string)
    | Accept(id: nat)
    | Done(id: nat)
    | Succeed(model: string, stamp: Instant)
    | Fail(model: string)

  /** The effect of one critical section (or clock read) at instant `now`; a step that cannot happen changes nothing. */
  function After(p: Proxy, step: Step, now: Instant): Proxy {
    match step
    case Stamp(id, model) =>
      if id in p.requests then p
      else p.(requests := p.requests[id := Request(model, now, Stamped)])
    case Accept(id) =>
      if id !in p.requests || !p.requests[id].progress.Stamped? then p
      else
        var r := p.requests[id];
        Proxy(Accepted(p.models, r.model, r.stamp), p.requests[id := r.(progress := Open)])
    case Done(id) =>
      if id !in p.requests || !p.requests[id].progress.Open? then p
      else
        var r := p.requests[id];
        Proxy(Completed(p.models, r.model, now), p.requests[id := r.(progress := Closed(now))])
    case Succeed(model, stamp) => p.(models := Succeeded(p.models, model, stamp))
    case Fail(model) => p.(models := Failed(p.models, model))
  }

  /** Accepted requests for `model` that are not done. */
  function OpenIds(p: Proxy, model: string): set<nat> {
    set id | id in p.requests && p.requests[id].model == model && p.requests[id].progress.Open?
  }

  predicate Accepts(p: Proxy, id: nat, model: string) {
    id in p.requests && p.requests[id].model == model && !p.requests[id].progress.Stamped?
  }

  /** `r` was accepted and completed no later than `t`. */
  predicate EndedBy(r: Request, t: Instant) {
    r.progress.Closed? && r.stamp <= r.progress.at <= t
  }

  ghost predicate RequestsDated(p: Proxy, now: Instant) {
    forall id :: id in p.requests ==>
      p.requests[id].stamp <= now && (p.requests[id].progress.Closed? ==> EndedBy(p.requests[id], now))
  }

  /** What the tracker says about one Model is true of the requests. */
  ghost predicate RowTrue(p: Proxy, model: string) {
    && (model !in p.models ==> forall id :: !Accepts(p, id, model))
    && Row(p.models, model).inFlight == |OpenIds(p, model)|
    && (Row(p.models, model).inFlight == 0 ==> LastIsLatest(p, model))
  }

  /** lastRequestAt is the latest accept or completion instant of an accepted Model, and everything has ended. */
  ghost predicate LastIsLatest(p: Proxy, model: string) {
    var last := Row(p.models, model).lastRequestAt;
    && (forall id :: Accepts(p, id, model) ==> EndedBy(p.requests[id], last))
    && if exists id :: Accepts(p, id, model)
       then exists id :: Accepts(p, id, model) && p.requests[id].progress == Closed(last)
       else last == ZERO_TIME
  }

  ghost predicate TrackerInv(p: Proxy, now: Instant) {
    RequestsDated(p, now) && forall model :: RowTrue(p, model)
  }

  lemma InvInitially(now: Instant)
    ensures TrackerInv(Proxy(map[], map[]), now)
  {
    var p := Proxy(map[], map[]);
    forall model ensures RowTrue(p, model) {
      assert OpenIds(p, model) == {};
    }
  }

  /** Every critical section keeps the tracker truthful, in whatever order requests interleave. */
  lemma InvKept(p: Proxy, step: Step, now: Instant, later: Instant)
    requires TrackerInv(p, now) && now <= later
    ensures TrackerInv(After(p, step, later), later)
  {
    var q := After(p, step, later);
    forall model ensures RowTrue(q, model) {
      assert RowTrue(p, model);
      RowKept(p, step, now, later, model);
    }
  }

  lemma RowKept(p: Proxy, step: Step, now: Instant, later: Instant, model: string)
    requires RequestsDated(p, now) && now <= later && RowTrue(p, model)
    ensures RowTrue(After(p, step, later), model)
  {
    var q := After(p, step, later);
    if q == p {
      return;
    }
    hide RowTrue;
    match step {
      case Accept(id) => RowAfterAccept(p, id, later, model);
      case Done(id) => RowAfterDone(p, id, now, later, model);
      case Stamp(id, _) => SameForOthers(p, q, model, id);
      case Succeed(_, _) => SameForOthers(p, q, model, 0);
      case Fail(_) => SameForOthers(p, q, model, 0);
    }
  }

  lemma RowAfterAccept(p: Proxy, id: nat, later: Instant, model: string)
    requires RowTrue(p, model) && id in p.requests && p.requests[id].progress.Stamped?
    ensures RowTrue(After(p, Accept(id), later), model)
  {
    var q := After(p, Accept(id), later);
    if p.requests[id].model == model {
      assert OpenIds(q, model) == OpenIds(p, model) + {id};
    } else {
      SameForOthers(p, q, model, id);
    }
  }

  lemma RowAfterDone(p: Proxy, id: nat, now: Instant, later: Instant, model: string)
    requires RequestsDated(p, now) && now <= later
    requires RowTrue(p, model) && id in p.requests && p.requests[id].progress.Open?
    ensures RowTrue(After(p, Done(id), later), model)
  {
    var q := After(p, Done(id), later);
    if p.requests[id].model == model {
      assert OpenIds(q, model) == OpenIds(p, model) - {id};
      if Row(q.models, model).inFlight == 0 {
        NoneOpen(q, model, later);
        assert Accepts(q, id, model) && q.requests[id].progress == Closed(later);
      }
    } else {
      SameForOthers(p, q, model, id);
    }
  }

  /** With nothing open, every accepted request has ended. */
  lemma NoneOpen(q: Proxy, model: string, now: Instant)
    requires RequestsDated(q, now)
    requires |OpenIds(q, model)| == 0
    ensures forall id :: Accepts(q, id, model) ==> EndedBy(q.requests[id], now)
  {
    forall id | Accepts(q, id, model)
      ensures EndedBy(q.requests[id], now)
    {
      assert id !in OpenIds(q, model);
    }
  }

  /** A step that touches neither the Model's accepted requests nor its request counters keeps its row true. */
  lemma SameForOthers(p: Proxy, q: Proxy, model: string, id: nat)
    requires RowTrue(p, model)
    requires forall i :: i != id ==>
      (i in p.requests <==> i in q.requests) && (i in p.requests ==> p.requests[i] == q.requests[i])
    requires Accepts(p, id, model) <==> Accepts(q, id, model)
    requires Accepts(p, id, model) ==> p.requests[id] == q.requests[id]
    requires model in p.models ==> model in q.models
    requires Row(p.models, model).inFlight == Row(q.models, model).inFlight
    requires Row(p.models, model).lastRequestAt == Row(q.models, model).lastRequestAt
    ensures RowTrue(q, model)
  {
    assert OpenIds(p, model) == OpenIds(q, model);
    assert forall i :: Accepts(p, i, model) <==> Accepts(q, i, model);
    assert forall i :: Accepts(p, i, model) ==> p.requests[i] == q.requests[i];
  }

  /**
   What each step leaves in the Model's row: an accept counts one and dates the row by its stamp, a completion takes
   one off and dates it by now, a success is stamped and ends the streak of failures, a failure lengthens it; and
   no step touches another Model's row.
   */
  lemma StepWritesRow(p: Proxy, step: Step, now: Instant)
    ensures
      var q := After(p, step, now);
      match step
      case Stamp(id, model) =>
        && q.models == p.models
        && q.requests == if id in p.requests then p.requests else p.requests[id := Request(model, now, Stamped)]
      case Accept(id) =>
        if id in p.requests && p.requests[id].progress.Stamped? then
          && q.requests == p.requests[id := p.requests[id].(progress := Open)] &&
          var model, before := p.requests[id].model, Row(p.models, p.requests[id].model);
          var row := Row(q.models, model);
          && row.inFlight == before.inFlight + 1
          && row.lastRequestAt == p.requests[id].stamp
          && row.lastSuccessAt == before.lastSuccessAt
          && row.failuresSinceSuccess == before.failuresSinceSuccess
          && OthersKept(p.models, q.models, model)
        else q == p
      case Done(id) =>
        if id in p.requests && p.requests[id].progress.Open? then
          && q.requests == p.requests[id := p.requests[id].(progress := Closed(now))] &&
          var model, before := p.requests[id].model, Row(p.models, p.requests[id].model);
          var row := Row(q.models, model);
          && row.inFlight == before.inFlight - 1
          && row.lastRequestAt == now
          && row.lastSuccessAt == before.lastSuccessAt
          && row.failuresSinceSuccess == before.failuresSinceSuccess
          && OthersKept(p.models, q.models, model)
        else q == p
      case Succeed(model, stamp) =>
        var before, row := Row(p.models, model), Row(q.models, model);
        && row.inFlight == before.inFlight
        && row.lastRequestAt == before.lastRequestAt
        && row.lastSuccessAt == stamp
        && row.failuresSinceSuccess == 0
        && OthersKept(p.models, q.models, model)
      case Fail(model) =>
        var before, row := Row(p.models, model), Row(q.models, model);
        && row.inFlight == before.inFlight
        && row.lastRequestAt == before.lastRequestAt
        && row.lastSuccessAt == before.lastSuccessAt
        && row.failuresSinceSuccess == before.failuresSinceSuccess + 1
        && OthersKept(p.models, q.models, model)
  {
  }

  ghost predicate OthersKept(before: Models, after: Models, model: string) {
    && model in after
    && forall m :: m != model ==> (m in before <==> m in after) && (m in before ==> before[m] == after[m])
  }
}
