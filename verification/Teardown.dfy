/**
 Drain-first teardown of a deleted Model (internal/controller/squall/finalizer.go). A pass is a sequence of
 single calls; the controller may crash between any two of them, a call may reach the server without its
 reply arriving, and the run may die at any time.
 */
module Teardown {
  import opened Base
  import opened Phase
  import opened Server

  const DEFAULT_DRAIN_TIMEOUT := 120 * SECOND

  function DrainTimeout(spec: Spec): Duration {
    if spec.drainTimeout <= 0 then DEFAULT_DRAIN_TIMEOUT else spec.drainTimeout
  }

  predicate DrainEvidenceClean(activity: Option<Evidence>) {
    activity.Some? && activity.value.complete && activity.value.allIdle
  }

  /** How far the current pass has come. */
  datatype Point =
    | Resting
    | Started(now: Instant)
    | DrainingStored(now: Instant)
    | RunRead(now: Instant, seen: Option<Service>)
    | MustStop(now: Instant, live: Service, activity: Option<Evidence>)
    | MustDelete(seen: Option<Service>)
    | MustUnfinalize

  /** Calls with an effect, as they reached the API server or dstack, with what they hit. */
  datatype Effect =
    | Stopped(now: Instant, hit: Option<Service>, activity: Option<Evidence>)
    | Deleted(seen: Option<Service>, ack: Ack)
    | Unfinalized

  datatype Teardown = Teardown(
    spec: Spec,
    name: string,
    deletedAt: Instant,
    draining: bool,
    finalizer: bool,
    server: State,
    point: Point,
    log: seq<Effect>
  )

  /** One call of a pass, or a fault. `arrives`: the call takes effect; `replies`: the controller learns of it. */
  datatype Move =
    | Begin(now: Instant)
    | WriteDraining(ok: bool)
    | ReadRun(ok: bool)
    | Gate(activity: Option<Evidence>)
    | StopRun(arrives: bool)
    | DeleteRun(arrives: bool, replies: bool)
    | RemoveFinalizer(ok: bool)
    | Crash
    | RunDies

  predicate PastDeadline(t: Teardown, now: Instant) {
    now - t.deletedAt > DrainTimeout(t.spec)
  }

  function Held(t: Teardown): Option<Service> {
    if t.name in t.server.services then Some(t.server.services[t.name]) else None
  }

  function AfterBegin(t: Teardown, now: Instant): Teardown {
    if t.point.Resting? && t.finalizer then t.(point := Started(now)) else t
  }

  function AfterWrite(t: Teardown, ok: bool): Teardown {
    if !t.point.Started? then t
    else if t.draining || ok then t.(draining := true, point := DrainingStored(t.point.now))
    else t.(point := Resting)
  }

  function AfterRead(t: Teardown, ok: bool): Teardown {
    if !t.point.DrainingStored? then t
    else if ok then t.(point := RunRead(t.point.now, Held(t)))
    else t.(point := Resting)
  }

  function AfterGate(t: Teardown, activity: Option<Evidence>): Teardown {
    if !t.point.RunRead? then t
    else
      var seen := t.point.seen;
      if seen.None? then t.(point := MustDelete(None))
      else if seen.value.replicas > 0 && !PastDeadline(t, t.point.now) && !DrainEvidenceClean(activity) then
        t.(point := Resting)
      else if !seen.value.terminal then t.(point := MustStop(t.point.now, seen.value, activity))
      else t.(point := MustDelete(seen))
  }

  function AfterStop(t: Teardown, arrives: bool): Teardown {
    if !t.point.MustStop? then t
    else if !arrives then t.(point := Resting)
    else t.(server := Stop(t.server, t.name).0, point := Resting,
            log := t.log + [Stopped(t.point.now, Held(t), t.point.activity)])
  }

  function AfterDelete(t: Teardown, arrives: bool, replies: bool): Teardown {
    if !t.point.MustDelete? then t
    else if !arrives then t.(point := Resting)
    else
      var (server, ack) := Delete(t.server, t.name);
      t.(server := server, log := t.log + [Deleted(t.point.seen, ack)],
         point := if replies && !ack.ErrDeleteActiveRun? then MustUnfinalize else Resting)
  }

  function AfterUpdate(t: Teardown, ok: bool): Teardown {
    if !t.point.MustUnfinalize? then t
    else if !ok then t.(point := Resting)
    else t.(finalizer := false, point := Resting, log := t.log + [Unfinalized])
  }

  /** The effect of a move; a move the current pass is not at changes nothing. */
  function After(t: Teardown, m: Move): Teardown {
    match m
    case Begin(now) => AfterBegin(t, now)
    case WriteDraining(ok) => AfterWrite(t, ok)
    case ReadRun(ok) => AfterRead(t, ok)
    case Gate(activity) => AfterGate(t, activity)
    case StopRun(arrives) => AfterStop(t, arrives)
    case DeleteRun(arrives, replies) => AfterDelete(t, arrives, replies)
    case RemoveFinalizer(ok) => AfterUpdate(t, ok)
    case Crash => t.(point := Resting)
    case RunDies => t.(server := Terminate(t.server, t.name))
  }

  ghost predicate IsHistory(ts: seq<Teardown>, ms: seq<Move>) {
    && |ts| == |ms| + 1
    && ts[0].point == Resting
    && ts[0].finalizer
    && ts[0].log == []
    && forall i :: 0 <= i < |ms| ==> ts[i + 1] == After(ts[i], ms[i])
  }

  /** A Stop that hit live replicas had clean evidence or came after the deadline. */
  predicate StopAllowed(t: Teardown, e: Effect) {
    e.Stopped? && e.hit.Some? && !e.hit.value.terminal && e.hit.value.replicas > 0 ==>
      PastDeadline(t, e.now) || DrainEvidenceClean(e.activity)
  }

  predicate DeleteAllowed(e: Effect) {
    e.Deleted? ==> (e.seen.None? || e.seen.value.terminal) && e.ack != ErrDeleteActiveRun
  }

  /** Between the read and the call only a death can have happened. */
  predicate StillAsSeen(t: Teardown, seen: Option<Service>) {
    Held(t) == seen || (seen.Some? && Held(t) == Some(seen.value.(terminal := true)))
  }

  ghost predicate Inv(t: Teardown) {
    && (forall e :: e in t.log ==> (e.Stopped? ==> t.draining) && StopAllowed(t, e) && DeleteAllowed(e))
    && (t.finalizer || Held(t).None?)
    && (Unfinalized in t.log <==> !t.finalizer)
    && match t.point
       case Resting => true
       case Started(_) => true
       case DrainingStored(_) => t.draining
       case RunRead(_, seen) => t.draining && StillAsSeen(t, seen)
       case MustStop(now, seen, activity) =>
         && t.draining
         && StillAsSeen(t, Some(seen))
         && (seen.replicas > 0 ==> PastDeadline(t, now) || DrainEvidenceClean(activity))
       case MustDelete(seen) =>
         t.draining && StillAsSeen(t, seen) && (seen.None? || seen.value.terminal)
       case MustUnfinalize => t.draining && Held(t).None?
  }

  lemma InvKept(t: Teardown, m: Move)
    requires Inv(t)
    ensures Inv(After(t, m))
  {
    var u := After(t, m);
    assert u.log == t.log || (|u.log| == |t.log| + 1 && u.log == t.log + [u.log[|t.log|]]);
    assert forall e :: e in u.log ==> e in t.log || e == u.log[|u.log| - 1];
    assert u.spec == t.spec && u.deletedAt == t.deletedAt && u.name == t.name;
  }

  lemma {:induction false} InvThroughout(ts: seq<Teardown>, ms: seq<Move>, i: nat)
    requires IsHistory(ts, ms) && i <= |ms|
    ensures Inv(ts[i])
  {
    if i > 0 {
      InvThroughout(ts, ms, i - 1);
      InvKept(ts[i - 1], ms[i - 1]);
    }
  }

  lemma {:induction false} DrainingStays(ts: seq<Teardown>, ms: seq<Move>, i: nat, j: nat)
    requires IsHistory(ts, ms) && i <= j <= |ms|
    ensures ts[i].log <= ts[j].log
    ensures ts[i].draining ==> ts[j].draining
    ensures ts[j].spec == ts[i].spec && ts[j].deletedAt == ts[i].deletedAt
  {
    if i < j {
      DrainingStays(ts, ms, i, j - 1);
    }
  }

  /**
   Safety of every teardown: at the moment of its i-th step, a Stop finds Draining stored, never cuts live
   replicas before the deadline on unclean evidence, no Delete goes to a run just seen active (so none is
   ever refused), and once the finalizer is gone the server holds no run under the name.
   */
  lemma TeardownIsSafe(ts: seq<Teardown>, ms: seq<Move>, i: nat, e: Effect)
    requires IsHistory(ts, ms) && i < |ms|
    requires ts[i + 1].log == ts[i].log + [e]
    ensures e.Stopped? ==> ts[i].draining && StopAllowed(ts[0], e)
    ensures e.Deleted? ==> DeleteAllowed(e)
    ensures e.Unfinalized? ==> Held(ts[i]).None?
    ensures forall j :: i < j <= |ms| && e.Unfinalized? ==> !ts[j].finalizer && Held(ts[j]).None?
  {
    InvThroughout(ts, ms, i);
    InvThroughout(ts, ms, i + 1);
    DrainingStays(ts, ms, 0, i + 1);
    assert e in ts[i + 1].log;
    forall j | i < j <= |ms| && e.Unfinalized?
      ensures !ts[j].finalizer && Held(ts[j]).None?
    {
      DrainingStays(ts, ms, i + 1, j);
      InvThroughout(ts, ms, j);
      assert e in ts[j].log;
    }
  }

  // ---------------------------------------------------------------- whole passes

  /** How the calls of one pass turn out. */
  datatype Outcomes = Outcomes(
    now: Instant,
    writeOk: bool,
    readOk: bool,
    activity: Option<Evidence>,
    stopArrives: bool,
    deleteArrives: bool,
    deleteReplies: bool,
    updateOk: bool
  )

  function ReadPart(t: Teardown, x: Outcomes): Teardown {
    AfterRead(AfterWrite(AfterBegin(t, x.now), x.writeOk), x.readOk)
  }

  function ActPart(t: Teardown, x: Outcomes): Teardown {
    var t1 := AfterStop(AfterGate(t, x.activity), x.stopArrives);
    AfterUpdate(AfterDelete(t1, x.deleteArrives, x.deleteReplies), x.updateOk)
  }

  /** A pass without a crash, as seven moves. */
  function Pass(t: Teardown, x: Outcomes): Teardown {
    ActPart(ReadPart(t, x), x)
  }

  predicate Reads(t: Teardown, x: Outcomes) {
    t.finalizer && (t.draining || x.writeOk) && x.readOk
  }

  predicate Waits(t: Teardown, x: Outcomes) {
    Held(t).Some? && Held(t).value.replicas > 0 && !PastDeadline(t, x.now) && !DrainEvidenceClean(x.activity)
  }

  predicate Stops(t: Teardown, x: Outcomes) {
    Reads(t, x) && !Waits(t, x) && Live(t.server, t.name)
  }

  predicate Deletes(t: Teardown, x: Outcomes) {
    Reads(t, x) && !Waits(t, x) && !Live(t.server, t.name)
  }

  lemma ReadPartEnds(t: Teardown, x: Outcomes)
    requires t.point == Resting
    ensures ReadPart(t, x) ==
      t.(draining := t.draining || (t.finalizer && x.writeOk),
         point := if Reads(t, x) then RunRead(x.now, Held(t)) else Resting)
  {
  }

  lemma ActPartEnds(t: Teardown, x: Outcomes)
    requires t.point == Resting || t.point == RunRead(x.now, Held(t))
    ensures
      var u := ActPart(t, x);
      var acts := t.point.RunRead? && !Waits(t, x);
      var live := Live(t.server, t.name);
      && u.point == Resting && u.draining == t.draining
      && u.spec == t.spec && u.name == t.name && u.deletedAt == t.deletedAt
      && u.server == (if acts && live && x.stopArrives then Stop(t.server, t.name).0
                      else if acts && !live && x.deleteArrives then Delete(t.server, t.name).0
                      else t.server)
      && u.finalizer == (t.finalizer && !(acts && !live && x.deleteArrives && x.deleteReplies && x.updateOk))
  {
    var t1 := AfterGate(t, x.activity);
    if !t.point.RunRead? || Waits(t, x) {
      assert t1 == t.(point := Resting);
    } else if Live(t.server, t.name) {
      assert t1 == t.(point := MustStop(x.now, Held(t).value, x.activity));
      hide Stop;
    } else {
      assert t1 == t.(point := MustDelete(Held(t)));
      DeleteEnds(t1, x);
      hide AfterDelete, AfterUpdate;
    }
  }

  lemma DeleteEnds(t: Teardown, x: Outcomes)
    requires t.point.MustDelete? && !Live(t.server, t.name)
    ensures
      var u := AfterUpdate(AfterDelete(t, x.deleteArrives, x.deleteReplies), x.updateOk);
      && u.(log := t.log) == t.(point := Resting,
              server := if x.deleteArrives then Delete(t.server, t.name).0 else t.server,
              finalizer := t.finalizer && !(x.deleteArrives && x.deleteReplies && x.updateOk))
  {
  }

  /** What a pass comes to. */
  lemma PassEnds(t: Teardown, x: Outcomes)
    requires t.point == Resting
    ensures
      var u := Pass(t, x);
      && u.point == Resting
      && u.spec == t.spec && u.name == t.name && u.deletedAt == t.deletedAt
      && u.draining == (t.draining || (t.finalizer && x.writeOk))
      && u.server == (if Stops(t, x) && x.stopArrives then Stop(t.server, t.name).0
                      else if Deletes(t, x) && x.deleteArrives then Delete(t.server, t.name).0
                      else t.server)
      && u.finalizer == (t.finalizer && !(Deletes(t, x) && x.deleteArrives && x.deleteReplies && x.updateOk))
  {
    ReadPartEnds(t, x);
    ActPartEnds(ReadPart(t, x), x);
  }

  predicate ErrorFree(x: Outcomes) {
    x.writeOk && x.readOk && x.stopArrives && x.deleteArrives && x.deleteReplies && x.updateOk
  }

  /** Two error-free passes after the deadline finish a teardown, even if the run dies between them. */
  lemma TwoPassesFinish(t: Teardown, x1: Outcomes, died: bool, x2: Outcomes)
    requires t.point == Resting && t.finalizer
    requires ErrorFree(x1) && PastDeadline(t, x1.now)
    requires ErrorFree(x2) && PastDeadline(t, x2.now)
    ensures
      var mid := Pass(t, x1);
      var end := Pass(if died then After(mid, RunDies) else mid, x2);
      !end.finalizer && Held(end).None? && end.draining
  {
    hide Pass;
    PassEnds(t, x1);
    var mid := Pass(t, x1);
    PassEnds(if died then After(mid, RunDies) else mid, x2);
  }

  /** The Model being deleted, as the API server holds it. */
  class DeletingModel {
    var draining: bool
    var finalizer: bool

    /** reconcileDelete against a live server object. */
    method ReconcileDelete(spec: Spec, name: string, deletedAt: Instant, server: MockServer, x: Outcomes)
      modifies this, server
      ensures
        var was := Teardown(spec, name, deletedAt, old(draining), old(finalizer), old(server.Abs()), Resting, []);
        (draining, finalizer, server.Abs()) == (Pass(was, x).draining, Pass(was, x).finalizer, Pass(was, x).server)
    {
      hide Pass;
      PassEnds(Teardown(spec, name, deletedAt, draining, finalizer, server.Abs(), Resting, []), x);
      if !finalizer {
        return;
      }
      if !draining {
        if !x.writeOk {
          return;
        }
        draining := true;
      }
      if !x.readOk {
        return;
      }
      var run := server.GetRun(name);
      if run.Some? {
        var pastDeadline := x.now - deletedAt > DrainTimeout(spec);
        if run.value.replicas > 0 && !pastDeadline {
          if !DrainEvidenceClean(x.activity) {
            return;
          }
        }
      }
      if run.Some? && !run.value.terminal {
        if x.stopArrives {
          var _ := server.StopRun(name);
        }
        return;
      }
      if !x.deleteArrives {
        return;
      }
      var ack := server.DeleteRun(name);
      if ack.ErrDeleteActiveRun? || !x.deleteReplies {
        return;
      }
      if x.updateOk {
        finalizer := false;
      }
    }
  }
}
