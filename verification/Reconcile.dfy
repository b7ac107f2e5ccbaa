/**
 One Reconcile pass over a Model that is not being deleted and carries its finalizer
 (internal/controller/squall/model_controller.go). `Pass` is the value-level meaning of a pass;
 `Reconciler.Reconcile` performs it step by step on an in-memory copy of the Model, as the source does.
 */
module Reconcile {
  import opened Base
  import opened Dstack
  import opened Phase

  /** What the dstack `Get` at the start of a pass answered. */
  datatype Got = Unreadable | NotFound | Found(run: Run, diagnosis: Option<Failure>)

  datatype ApplyReply = Accepted(runId: RunId) | CannotOverride | ApplyError

  /** Everything one pass reads from outside the Model's status. `stamp` is the parsed demand annotation. */
  datatype PassInput = PassInput(
    spec: Spec,
    now: Instant,
    got: Got,
    activity: Option<Evidence>,
    stamp: Option<Instant>,
    priceOk: bool,
    envOk: bool,
    reply: ApplyReply,
    patched: bool
  )

  /** The status the API server holds afterwards, whether this pass wrote it, and what it did to the run. */
  datatype PassResult = PassResult(stored: Status, wrote: bool, action: Action, applied: bool)

  predicate HasDemand(stamp: Option<Instant>, idleTimeout: Duration, now: Instant) {
    stamp.Some? && now - stamp.value < idleTimeout
  }

  predicate FreshSuccess(activity: Option<Evidence>, now: Instant, window: Duration) {
    && activity.Some?
    && activity.value.complete
    && activity.value.newestLastSuccessAt != ZERO_TIME
    && now - activity.value.newestLastSuccessAt <= window
  }

  /** Folds a dead run into "no live run, and here is why". */
  function Observe(p: PassInput): Observed {
    match p.got
    case Found(run, diagnosis) =>
      if run.terminal then
        var failure := if diagnosis.Some? then diagnosis.value
                       else Failure(run.runId, ProvisioningFailed, "terminated");
        Observed(None, Some(failure), false, None)
      else if run.replicas == 0 then Observed(Some(run), None, false, None)
      else Observed(Some(run), None,
                    run.probesReady || FreshSuccess(p.activity, p.now, p.spec.idleTimeout), p.activity)
    case _ => Observed(None, None, false, None)
  }

  function Demand(p: PassInput): bool {
    HasDemand(p.stamp, p.spec.idleTimeout, p.now)
  }

  predicate Later(t: Instant, than: Option<Instant>) {
    than.None? || t > than.value
  }

  /** The run is up and nobody can say whether it is idle. */
  predicate Blind(o: Observed) {
    && o.run.Some?
    && o.run.value.replicas > 0
    && !(o.activity.Some? && o.activity.value.complete)
  }

  function AdoptRun(s: Status, o: Observed): Status {
    if o.run.Some? then s.(runId := Some(o.run.value.runId)) else s
  }

  /** updateActivityStatus: the durable idle anchor and the uncontrolled clock. */
  function NoteActivity(s: Status, o: Observed, demand: bool, now: Instant): Status {
    var s1 := if && o.activity.Some? && o.activity.value.anyData
                 && o.activity.value.newestLastRequestAt != ZERO_TIME
                 && Later(o.activity.value.newestLastRequestAt, s.lastRequestAt)
              then s.(lastRequestAt := Some(o.activity.value.newestLastRequestAt)) else s;
    var s2 := if s1.wakeStartedAt.Some? && Later(s1.wakeStartedAt.value, s1.lastRequestAt)
              then s1.(lastRequestAt := s1.wakeStartedAt) else s1;
    if !Blind(o) || demand then s2.(uncontrolledSince := None)
    else if s2.uncontrolledSince.None? then s2.(uncontrolledSince := Some(now))
    else s2
  }

  /** Two failures give the Provisioning condition the same message. */
  predicate SameMessage(f: Failure, g: Failure) {
    f.runId == g.runId && f.detail == g.detail
  }

  /** reportProvisioningCondition for a failure: the same message keeps its timestamp, another one restarts it. */
  function NoteFailure(s: Status, f: Failure, now: Instant): Status {
    var since := match s.provisioning
      case Some(Failed(_, g, at)) => if SameMessage(f, g) then at else now
      case _ => now;
    s.(provisioning := Some(Failed(f.reason, f, since)))
  }

  function NoteProvisioning(s: Status, failure: Option<Failure>, phase: ModelPhase, now: Instant): Status {
    if failure.Some? then NoteFailure(s, failure.value, now)
    else if phase == Ready then s.(provisioning := Some(Provisioned))
    else s
  }

  /** Journals an accepted Apply. */
  function NoteApply(s: Status, a: Action, runId: RunId, now: Instant): Status {
    var s1 := s.(runId := Some(runId));
    if a.replicas == 0 then s1.(wakeStartedAt := None, uncontrolledSince := None)
    else if s1.wakeStartedAt.None? then s1.(wakeStartedAt := Some(now))
    else s1
  }

  /** A status as the API server keeps it: every time cut to a whole second. */
  function Persist(s: Status): Status {
    s.(wakeStartedAt := StoredTime(s.wakeStartedAt),
       lastRequestAt := StoredTime(s.lastRequestAt),
       uncontrolledSince := StoredTime(s.uncontrolledSince),
       provisioning := match s.provisioning
                       case Some(Failed(r, f, since)) => Some(Failed(r, f, WholeSecond(since)))
                       case other => other)
  }

  /** The status handed to Decide. */
  function Prior(s: Status, p: PassInput): Status {
    var o := Observe(p);
    NoteProvisioning(NoteActivity(AdoptRun(s, o), o, Demand(p), p.now), o.failure, Unset, p.now)
  }

  /** Decide, after the two wake-time vetoes of checkSchedulable. */
  function Verdict(s: Status, p: PassInput): (ModelPhase, Action) {
    var (phase, action) := Decide(Observe(p), Prior(s, p), p.spec, Demand(p), p.now);
    if action.apply && action.replicas > 0 && !(p.priceOk && ValidSpec(p.spec))
    then (s.phase, action.(apply := false))
    else (phase, action)
  }

  function Finish(s: Status, p: PassInput, kept: Status, phase: ModelPhase, a: Action, applied: bool): PassResult {
    var s1 := NoteProvisioning(kept, Observe(p).failure, phase, p.now).(phase := phase);
    PassResult(if p.patched then Persist(s1) else s, p.patched, a, applied)
  }

  /** One pass from stored status `s`. */
  function Pass(s: Status, p: PassInput): PassResult {
    if p.got.Unreadable? then PassResult(s, false, NO_ACTION, false)
    else
      var (phase, a) := Verdict(s, p);
      if !a.apply then Finish(s, p, Prior(s, p), phase, a, false)
      else if a.replicas > 0 && !p.envOk then PassResult(s, false, a, false)
      else match p.reply
        case ApplyError => PassResult(s, false, a, false)
        case CannotOverride =>
          PassResult(if p.patched then Persist(Prior(s, p)) else s, p.patched, a, false)
        case Accepted(id) => Finish(s, p, NoteApply(Prior(s, p), a, id, p.now), phase, a, true)
  }

  /** The copy of a Model a pass works on. */
  class ModelObject {
    var status: Status

    constructor (s: Status)
      ensures status == s
    {
      status := s;
    }

    method UpdateActivityStatus(o: Observed, demand: bool, now: Instant)
      modifies this
      ensures status == NoteActivity(old(status), o, demand, now)
    {
      if o.activity.Some? {
        var newest := o.activity.value.newestLastRequestAt;
        if o.activity.value.anyData && newest != ZERO_TIME && Later(newest, status.lastRequestAt) {
          status := status.(lastRequestAt := Some(newest));
        }
      }
      if status.wakeStartedAt.Some? && Later(status.wakeStartedAt.value, status.lastRequestAt) {
        status := status.(lastRequestAt := status.wakeStartedAt);
      }
      if o.run.None? || o.run.value.replicas == 0 || (o.activity.Some? && o.activity.value.complete) {
        status := status.(uncontrolledSince := None);
        return;
      }
      if demand {
        status := status.(uncontrolledSince := None);
        return;
      }
      if status.uncontrolledSince.None? {
        status := status.(uncontrolledSince := Some(now));
      }
    }

    method ReportProvisioningCondition(failure: Option<Failure>, phase: ModelPhase, now: Instant)
      modifies this
      ensures status == NoteProvisioning(old(status), failure, phase, now)
    {
      if failure.None? {
        if phase == Ready {
          status := status.(provisioning := Some(Provisioned));
        }
        return;
      }
      var f := failure.value;
      // Removing the condition makes the next set restamp it.
      if status.provisioning.Some? && status.provisioning.value.Failed?
         && !SameMessage(f, status.provisioning.value.failure) {
        status := status.(provisioning := None);
      }
      // Setting a condition restamps it only when its status flips.
      var since := now;
      if status.provisioning.Some? && status.provisioning.value.Failed? {
        since := status.provisioning.value.since;
      }
      status := status.(provisioning := Some(Failed(f.reason, f, since)));
    }

    /** Everything a pass notes down before it decides. */
    method RecordObservation(p: PassInput)
      modifies this
      ensures status == Prior(old(status), p)
    {
      var observed := Observe(p);
      if observed.run.Some? {
        status := status.(runId := Some(observed.run.value.runId));
      }
      UpdateActivityStatus(observed, Demand(p), p.now);
      if observed.failure.Some? {
        ReportProvisioningCondition(observed.failure, Unset, p.now);
      }
    }

    method DecideOrVeto(p: PassInput, ghost read: Status) returns (phase: ModelPhase, action: Action)
      requires status == Prior(read, p)
      ensures (phase, action) == Verdict(read, p)
    {
      var decided := Decide(Observe(p), status, p.spec, Demand(p), p.now);
      phase, action := decided.0, decided.1;
      if action.apply && action.replicas > 0 {
        if !p.priceOk || !ValidSpec(p.spec) {
          action := action.(apply := false);
          phase := status.phase;
        }
      }
    }

    method Journal(action: Action, runId: RunId, now: Instant)
      modifies this
      ensures status == NoteApply(old(status), action, runId, now)
    {
      status := status.(runId := Some(runId));
      if action.replicas > 0 && status.wakeStartedAt.None? {
        status := status.(wakeStartedAt := Some(now));
      }
      if action.replicas == 0 {
        status := status.(wakeStartedAt := None, uncontrolledSince := None);
      }
    }
  }

  /** The controller, with the status the API server holds for one Model. */
  class Reconciler {
    var stored: Status

    method Reconcile(p: PassInput) returns (action: Action, applied: bool, wrote: bool)
      modifies this
      ensures PassResult(stored, wrote, action, applied) == Pass(old(stored), p)
    {
      action, applied, wrote := NO_ACTION, false, false;
      if p.got.Unreadable? {
        return;
      }
      var model := new ModelObject(stored);
      model.RecordObservation(p);
      var phase;
      phase, action := model.DecideOrVeto(p, stored);
      if action.apply {
        if (action.replicas > 0 && !p.envOk) || p.reply.ApplyError? {
          return;
        }
        if p.reply.CannotOverride? {
          wrote := p.patched;
          if p.patched {
            stored := Persist(model.status);
          }
          return;
        }
        applied := true;
        model.Journal(action, p.reply.runId, p.now);
      }
      model.ReportProvisioningCondition(Observe(p).failure, phase, p.now);
      model.status := model.status.(phase := phase);
      wrote := p.patched;
      if p.patched {
        stored := Persist(model.status);
      }
    }
  }
}
