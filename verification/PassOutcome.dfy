/**
 What a Reconcile pass does and stores, stated on what it reads: when it wakes a Model, when it flips one that is
 up and why, and what every field of the stored status is afterwards.
 */
module PassOutcome {
  import opened Base
  import opened Dstack
  import opened Phase
  import opened Reconcile
  import opened Release

  // ---------------------------------------------------------------- what a pass reads

  predicate NoLiveRun(p: PassInput) {
    p.got.NotFound? || (p.got.Found? && p.got.run.terminal)
  }

  predicate LiveAtZero(p: PassInput) {
    p.got.Found? && !p.got.run.terminal && p.got.run.replicas == 0
  }

  predicate DemandIsFresh(p: PassInput) {
    p.stamp.Some? && p.now - p.stamp.value < p.spec.idleTimeout
  }

  predicate Wanted(p: PassInput) {
    p.spec.minReplicas == 1 || DemandIsFresh(p)
  }

  predicate MayProvision(p: PassInput) {
    p.priceOk && ValidSpec(p.spec)
  }

  /** A failure for want of capacity, credit or rate, recorded less than a minute ago. */
  predicate Pacing(reason: Reason, since: Instant, now: Instant) {
    reason in {NoCapacity, InsufficientCredit, BackendRateLimited} && since != 0 && now < since + 60 * SECOND
  }

  /** What the dead run that the pass sees is put down to. */
  function Blame(p: PassInput): Failure
    requires p.got.Found?
  {
    if p.got.diagnosis.Some? then p.got.diagnosis.value else Failure(p.got.run.runId, ProvisioningFailed, "terminated")
  }

  /** When that was first recorded: before, if the record names the same run and text, else now. */
  function BlamedSince(s: Status, p: PassInput): Instant
    requires p.got.Found?
  {
    match s.provisioning
    case Some(Failed(_, g, since)) =>
      if g.runId == Blame(p).runId && g.detail == Blame(p).detail then since else p.now
    case _ => p.now
  }

  /** A new run would come too soon after the failure that the pass sees, or else that is on record. */
  predicate HeldBack(s: Status, p: PassInput) {
    if p.got.Found? then Pacing(Blame(p).reason, BlamedSince(s, p), p.now)
    else match s.provisioning
      case Some(Failed(reason, _, since)) => Pacing(reason, since, p.now)
      case _ => false
  }

  predicate Measured(p: PassInput) {
    p.activity.Some? && p.activity.value.complete
  }

  predicate IsReady(p: PassInput) {
    && p.got.Found?
    && (p.got.run.probesReady ||
        (Measured(p) && p.activity.value.newestLastSuccessAt != 0
         && p.now - p.activity.value.newestLastSuccessAt <= p.spec.idleTimeout))
  }

  /** The later of two times, where there is one. */
  function Later2(a: Option<Instant>, b: Option<Instant>): Option<Instant> {
    if a.None? then b else if b.None? then a else Some(Max(a.value, b.value))
  }

  predicate LongAgo(t: Option<Instant>, window: Duration, now: Instant) {
    t.Some? && t.value != 0 && now - t.value > window
  }

  // ---------------------------------------------------------------- four reasons to flip

  /** The wake on record never became ready within provisioningTimeout. */
  predicate Overdue(s: Status, p: PassInput) {
    !IsReady(p) && p.spec.provisioningTimeout > 0 && LongAgo(s.wakeStartedAt, p.spec.provisioningTimeout, p.now)
  }

  /** Every proxy is idle, and the last use any of them knows of, or else that is on record, is over idleTimeout ago. */
  predicate LongIdle(s: Status, p: PassInput) {
    && Measured(p)
    && p.activity.value.allIdle
    && if p.activity.value.anyData || p.activity.value.newestLastRequestAt != 0
       then p.now - p.activity.value.newestLastRequestAt > p.spec.idleTimeout
       else LongAgo(Later2(s.lastRequestAt, s.wakeStartedAt), p.spec.idleTimeout, p.now)
  }

  /** Requests keep coming, enough of them failed, and nothing succeeded within unhealthyAfter of now or the wake. */
  predicate Sick(s: Status, p: PassInput) {
    && IsReady(p)
    && Measured(p)
    && var ev, health := p.activity.value, p.spec.health;
    && health.unhealthyAfter > 0
    && p.now - ev.newestLastRequestAt <= p.spec.idleTimeout
    && ev.failuresSinceSuccess >= (if health.failureThreshold > 0 then health.failureThreshold else 3)
    && LongAgo(Later2(s.wakeStartedAt, Some(ev.newestLastSuccessAt)), health.unhealthyAfter, p.now)
  }

  /** Nobody can tell whether the run is used, nobody asks for it, and that has been so for the whole timeout. */
  predicate LongBlind(s: Status, p: PassInput) {
    && !Measured(p)
    && !DemandIsFresh(p)
    && UncontrolledTimeout(p.spec) > 0
    && LongAgo(s.uncontrolledSince, UncontrolledTimeout(p.spec), p.now)
  }

  // ---------------------------------------------------------------- the parameters of a spec

  /** An explicit positive timeout, at most a day; else four idle windows and 15 minutes, at most two hours. */
  lemma TimeoutMeans(spec: Spec)
    ensures
      var t, explicit := UncontrolledTimeout(spec), spec.uncontrolledTimeout;
      if explicit.Some? && explicit.value > 0 then
        t <= explicit.value && t <= 24 * HOUR && (t == explicit.value || t == 24 * HOUR)
      else
        && t <= 4 * spec.idleTimeout + 15 * MINUTE
        && t <= 2 * HOUR
        && (t == 4 * spec.idleTimeout + 15 * MINUTE || t == 2 * HOUR)
  {
  }

  lemma ValidSpecIff(spec: Spec)
    ensures ValidSpec(spec) <==>
      && spec.hasBackends
      && spec.idleTimeout >= MINUTE
      && spec.provisioningTimeout > 0
      && spec.holdTimeout <= spec.provisioningTimeout
      && (spec.uncontrolledTimeout.Some? ==> 0 < spec.uncontrolledTimeout.value <= 24 * HOUR)
      && (spec.hardStop > 0 ==> spec.hardStop >= HOUR && spec.hardStop >= UncontrolledTimeout(spec))
  {
  }

  // ---------------------------------------------------------------- what is due

  /** The Model has no live replicas, is wanted, may be provisioned, and no failure holds a new run back. */
  predicate WakeDue(s: Status, p: PassInput) {
    (LiveAtZero(p) || (NoLiveRun(p) && !HeldBack(s, p))) && Wanted(p) && MayProvision(p)
  }

  predicate FlipDue(s: Status, p: PassInput) {
    Up(p) && (Overdue(s, p) || (p.spec.minReplicas == 0 && (LongIdle(s, p) || Sick(s, p) || LongBlind(s, p))))
  }

  /** What Decide is told about a failure. */
  lemma PriorFailure(s: Status, p: PassInput)
    ensures p.got.Found? && p.got.run.terminal ==>
      Prior(s, p).provisioning == Some(Failed(Blame(p).reason, Blame(p), BlamedSince(s, p)))
    ensures !(p.got.Found? && p.got.run.terminal) ==> Prior(s, p).provisioning == s.provisioning
  {
  }

  /** The newest request the pass hears of from a proxy that knows the Model. */
  function HeardOf(p: PassInput): Option<Instant> {
    if Up(p) && p.activity.Some? && p.activity.value.anyData && p.activity.value.newestLastRequestAt != 0
    then Some(p.activity.value.newestLastRequestAt) else None
  }

  /** Replicas are up, nobody can tell whether they are used, and nobody asks for them. */
  predicate Unseen(p: PassInput) {
    Up(p) && !Measured(p) && !DemandIsFresh(p)
  }

  /** The last use on record or heard of, the wake counting as one. */
  function LastUse(s: Status, p: PassInput): Option<Instant> {
    Later2(Later2(HeardOf(p), s.lastRequestAt), s.wakeStartedAt)
  }

  /** What Decide is told about the Model's use. */
  lemma PriorUse(s: Status, p: PassInput)
    ensures Prior(s, p).wakeStartedAt == s.wakeStartedAt && Prior(s, p).phase == s.phase
    ensures Prior(s, p).lastRequestAt == LastUse(s, p)
    ensures Prior(s, p).uncontrolledSince ==
      if Unseen(p) then Some(if s.uncontrolledSince.Some? then s.uncontrolledSince.value else p.now) else None
    ensures Prior(s, p).runId ==
      if p.got.Found? && !p.got.run.terminal then Some(p.got.run.runId) else s.runId
  {
  }

  lemma ReadyMeans(p: PassInput)
    requires Up(p)
    ensures Observe(p) == Observed(Some(p.got.run), None, IsReady(p), p.activity)
    ensures Demand(p) == DemandIsFresh(p)
  {
  }

  lemma DueMeans(s: Status, p: PassInput)
    requires Up(p)
    ensures
      var prior, ready := Prior(s, p), Observe(p).ready;
      && (ProvisioningDue(prior.wakeStartedAt, ready, p.spec.provisioningTimeout, p.now) <==> Overdue(s, p))
      && (SleepDue(p.activity, prior.lastRequestAt, p.spec.idleTimeout, p.now) <==> LongIdle(s, p))
      && (UnhealthyDue(p.activity, ready, prior.wakeStartedAt, p.spec.health, p.spec.idleTimeout, p.now) <==>
            Sick(s, p))
      && (!LongIdle(s, p) && !Sick(s, p) ==>
            (UncontrolledDue(prior.uncontrolledSince, UncontrolledTimeout(p.spec), Demand(p), p.now) <==>
              LongBlind(s, p)))
  {
    PriorUse(s, p);
    ReadyMeans(p);
    hide Prior, Observe, UncontrolledTimeout;
  }

  /** Marks on an action that flips a run which is up. */
  lemma FlipVerdict(s: Status, p: PassInput)
    requires Up(p)
    ensures
      var a := Verdict(s, p).1;
      var onDemand := !Overdue(s, p) && p.spec.minReplicas == 0;
      && (a.apply <==> FlipDue(s, p))
      && (a.apply ==> a.replicas == 0 && a.current == Some(p.got.run))
      && (a.provisioningTimedOut <==> Overdue(s, p))
      && (IdleFlip(a) <==> onDemand && LongIdle(s, p))
      && (a.unhealthy <==> onDemand && !LongIdle(s, p) && Sick(s, p))
      && (a.uncontrolled <==> onDemand && !LongIdle(s, p) && !Sick(s, p) && LongBlind(s, p))
  {
    DueMeans(s, p);
    ReadyMeans(p);
    hide Overdue, LongIdle, Sick, LongBlind, ProvisioningDue, SleepDue, UnhealthyDue, UncontrolledDue;
    hide Prior, UncontrolledTimeout, ValidSpec;
  }

  lemma WakeVerdict(s: Status, p: PassInput)
    requires !Up(p) && !p.got.Unreadable?
    ensures
      var a := Verdict(s, p).1;
      && (a.apply <==> WakeDue(s, p))
      && (a.apply ==> a.replicas == 1 && a.current == if LiveAtZero(p) then Some(p.got.run) else None)
      && !a.provisioningTimedOut && !a.unhealthy && !a.uncontrolled
  {
    PriorFailure(s, p);
    hide Prior, ValidSpec;
  }

  // ---------------------------------------------------------------- wakes and flips

  /** How a pass ends, in terms of what it asks for. */
  lemma PassMeans(s: Status, p: PassInput)
    requires !p.got.Unreadable?
    ensures Pass(s, p).action == Verdict(s, p).1
    ensures
      var a := Verdict(s, p).1;
      && (Pass(s, p).applied <==> a.apply && (a.replicas > 0 ==> p.envOk) && p.reply.Accepted?)
      && (Pass(s, p).wrote <==> p.patched && (a.apply ==> (a.replicas > 0 ==> p.envOk) && !p.reply.ApplyError?))
  {
    hide Verdict, Prior;
  }

  /**
   A pass wakes the Model if and only if the server shows it without live replicas, it is wanted, it may be
   provisioned, its env resolves and the server accepts, and, where there is no live run to flip, no failure
   holds a new one back. A sleeping run is flipped in place; otherwise a new one is asked for.
   */
  lemma WakesIff(s: Status, p: PassInput)
    ensures Wakes(s, p) <==> WakeDue(s, p) && p.envOk && p.reply.Accepted?
    ensures Wakes(s, p) ==>
      && Pass(s, p).action.replicas == 1
      && Pass(s, p).action.current == if LiveAtZero(p) then Some(p.got.run) else None
  {
    if !p.got.Unreadable? {
      PassMeans(s, p);
      if Up(p) {
        FlipVerdict(s, p);
      } else {
        WakeVerdict(s, p);
      }
      hide Verdict, Pass, HeldBack, MayProvision, Overdue, LongIdle, Sick, LongBlind;
    }
  }

  /** The four reasons in their order: each is given only when no earlier one holds. */
  lemma FlipReasons(s: Status, p: PassInput)
    ensures
      var a := Pass(s, p).action;
      var onDemand := Up(p) && !Overdue(s, p) && p.spec.minReplicas == 0;
      && (a.provisioningTimedOut <==> Up(p) && Overdue(s, p))
      && (IdleFlip(a) <==> onDemand && LongIdle(s, p))
      && (a.unhealthy <==> onDemand && !LongIdle(s, p) && Sick(s, p))
      && (a.uncontrolled <==> onDemand && !LongIdle(s, p) && !Sick(s, p) && LongBlind(s, p))
  {
    if !p.got.Unreadable? {
      PassMeans(s, p);
      if Up(p) {
        FlipVerdict(s, p);
      } else {
        WakeVerdict(s, p);
      }
      hide Verdict, Pass, Overdue, LongIdle, Sick, LongBlind, HeldBack;
    }
  }

  /** A pass flips a run to 0 if and only if it is up, one of the four reasons holds, and the server accepts. */
  lemma FlipsIff(s: Status, p: PassInput)
    ensures Flips(s, p) <==> FlipDue(s, p) && p.reply.Accepted?
    ensures Flips(s, p) ==> Pass(s, p).action.current == Some(p.got.run)
  {
    if !p.got.Unreadable? {
      PassMeans(s, p);
      if Up(p) {
        FlipVerdict(s, p);
      } else {
        WakeVerdict(s, p);
      }
      hide Verdict, Pass, Overdue, LongIdle, Sick, LongBlind, HeldBack;
    }
  }

  /** A pinned Model is flipped by the provisioning deadline and by nothing else. */
  lemma PinnedFlipsIff(s: Status, p: PassInput)
    requires p.spec.minReplicas != 0
    ensures Flips(s, p) <==> Up(p) && Overdue(s, p) && p.reply.Accepted?
  {
    FlipsIff(s, p);
    hide Overdue, Pass;
  }

  // ---------------------------------------------------------------- what is stored

  /** When a pass writes status: it read the server, and whatever Apply it asked for came to an answer. */
  lemma WritesIff(s: Status, p: PassInput)
    ensures Pass(s, p).wrote <==>
      && !p.got.Unreadable?
      && p.patched
      && (WakeDue(s, p) ==> p.envOk)
      && (WakeDue(s, p) || FlipDue(s, p) ==> !p.reply.ApplyError?)
    ensures !Pass(s, p).wrote ==> Pass(s, p).stored == s
  {
    if !p.got.Unreadable? {
      PassMeans(s, p);
      if Up(p) {
        FlipVerdict(s, p);
      } else {
        WakeVerdict(s, p);
      }
    }
    assert !Pass(s, p).wrote ==> Pass(s, p).stored == s by {
      hide Verdict, Prior;
    }
    hide Verdict, Pass, Overdue, LongIdle, Sick, LongBlind, HeldBack, MayProvision;
  }

  /** The status a writing pass stores, before the phase and the Provisioning condition. */
  lemma StoredIs(s: Status, p: PassInput)
    requires Pass(s, p).wrote
    ensures
      var prior := Prior(s, p);
      var kept := if Pass(s, p).applied then NoteApply(prior, Verdict(s, p).1, p.reply.runId, p.now) else prior;
      && Pass(s, p).stored.runId == kept.runId
      && Pass(s, p).stored.wakeStartedAt == StoredTime(kept.wakeStartedAt)
      && Pass(s, p).stored.lastRequestAt == StoredTime(kept.lastRequestAt)
      && Pass(s, p).stored.uncontrolledSince == StoredTime(kept.uncontrolledSince)
  {
    hide Verdict, Prior, NoteApply;
  }

  /** A time as the API server keeps it. */
  function Cut(t: Option<Instant>): Option<Instant> {
    if t.None? then None else Some(t.value - t.value % SECOND)
  }

  /**
   What a writing pass stores: the id of the run it applied or saw; the time of a wake until a flip clears it;
   the last use it knows of; and since when nobody can tell, which being told, demand or a flip clears.
   */
  lemma StoresTimes(s: Status, p: PassInput)
    requires Pass(s, p).wrote
    ensures Pass(s, p).stored.runId ==
      if Wakes(s, p) || Flips(s, p) then Some(p.reply.runId)
      else if p.got.Found? && !p.got.run.terminal then Some(p.got.run.runId)
      else s.runId
    ensures Pass(s, p).stored.wakeStartedAt ==
      if Flips(s, p) then None
      else if Wakes(s, p) && s.wakeStartedAt.None? then Cut(Some(p.now))
      else Cut(s.wakeStartedAt)
    ensures Pass(s, p).stored.lastRequestAt == Cut(LastUse(s, p))
    ensures Pass(s, p).stored.uncontrolledSince ==
      if Flips(s, p) || !Unseen(p) then None
      else Cut(Some(if s.uncontrolledSince.Some? then s.uncontrolledSince.value else p.now))
  {
    StoredIs(s, p);
    PriorUse(s, p);
    assert !p.got.Unreadable?;
    PassMeans(s, p);
    hide Verdict, Pass, Prior, LastUse, Unseen;
  }

  /** The Apply the pass asked for was refused as an override. */
  predicate Refused(s: Status, p: PassInput) {
    p.reply.CannotOverride? && ((WakeDue(s, p) && p.envOk) || FlipDue(s, p))
  }

  /** The phase of a Model with replicas up. */
  function UpPhase(s: Status, p: PassInput): ModelPhase {
    if Overdue(s, p) then Dead
    else if FlipDue(s, p) then Asleep
    else if IsReady(p) then Ready
    else if s.phase == Recreating then Recreating
    else Waking
  }

  /** The phase of a Model without: a wake that may not be provisioned leaves it as it was. */
  function DownPhase(s: Status, p: PassInput): ModelPhase {
    var died := NoLiveRun(p) && s.runId.Some?;
    if !Wanted(p) then (if died then Dead else Asleep)
    else if !MayProvision(p) && !(NoLiveRun(p) && HeldBack(s, p)) then s.phase
    else if died then Recreating
    else Waking
  }

  lemma UpVerdictPhase(s: Status, p: PassInput)
    requires Up(p)
    ensures Verdict(s, p).0 == UpPhase(s, p)
    ensures Verdict(s, p).1.alarm <==> Overdue(s, p)
    ensures Verdict(s, p).1.throttledUntil.None?
  {
    DueMeans(s, p);
    ReadyMeans(p);
    PriorUse(s, p);
    hide Overdue, LongIdle, Sick, LongBlind, ProvisioningDue, SleepDue, UnhealthyDue, UncontrolledDue;
    hide Prior, UncontrolledTimeout, ValidSpec, IsReady;
  }

  lemma DownVerdictPhase(s: Status, p: PassInput)
    requires !Up(p) && !p.got.Unreadable?
    ensures Verdict(s, p).0 == DownPhase(s, p)
    ensures Verdict(s, p).1.alarm <==> NoLiveRun(p) && s.runId.Some? && !(Wanted(p) && HeldBack(s, p))
    ensures Verdict(s, p).1.throttledUntil.Some? <==> NoLiveRun(p) && Wanted(p) && HeldBack(s, p)
  {
    PriorFailure(s, p);
    PriorUse(s, p);
    hide Prior, ValidSpec;
  }

  lemma StoredPhaseIs(s: Status, p: PassInput)
    requires Pass(s, p).wrote
    ensures
      var a := Verdict(s, p).1;
      if a.apply && p.reply.CannotOverride? then
        && Pass(s, p).stored.phase == Prior(s, p).phase
        && Pass(s, p).stored.provisioning == Persist(Prior(s, p)).provisioning
      else
        && Pass(s, p).stored.phase == Verdict(s, p).0
        && (Observe(p).failure.None? ==>
              Pass(s, p).stored.provisioning ==
                if Verdict(s, p).0 == Ready then Some(Provisioned) else Persist(Prior(s, p)).provisioning)
        && (Observe(p).failure.Some? ==>
              Pass(s, p).stored.provisioning ==
                Persist(NoteFailure(Prior(s, p), Observe(p).failure.value, p.now)).provisioning)
  {
    hide Verdict, Prior;
  }

  /** The phase a writing pass stores; a refused override leaves it as it was. */
  lemma StoresPhase(s: Status, p: PassInput)
    requires Pass(s, p).wrote
    ensures Pass(s, p).stored.phase ==
      if Refused(s, p) then s.phase else if Up(p) then UpPhase(s, p) else DownPhase(s, p)
  {
    assert !p.got.Unreadable?;
    StoredPhaseIs(s, p);
    PriorUse(s, p);
    PassMeans(s, p);
    if Up(p) {
      UpVerdictPhase(s, p);
      FlipVerdict(s, p);
    } else {
      DownVerdictPhase(s, p);
      WakeVerdict(s, p);
    }
    hide Verdict, Pass, Prior, UpPhase, DownPhase, Overdue, LongIdle, Sick, LongBlind, HeldBack, MayProvision;
  }

  function CutCondition(c: Option<Condition>): Option<Condition> {
    match c
    case Some(Failed(reason, f, since)) => Some(Failed(reason, f, since - since % SECOND))
    case _ => c
  }

  /**
   The Provisioning condition a writing pass stores: the failure of the dead run it sees, dated from the first
   time that was recorded; cleared when the Model is Ready; else as it was.
   */
  lemma StoresCondition(s: Status, p: PassInput)
    requires Pass(s, p).wrote
    ensures Pass(s, p).stored.provisioning ==
      if p.got.Found? && p.got.run.terminal then
        CutCondition(Some(Failed(Blame(p).reason, Blame(p), BlamedSince(s, p))))
      else if Pass(s, p).stored.phase == Ready && !Refused(s, p) then Some(Provisioned)
      else CutCondition(s.provisioning)
  {
    assert !p.got.Unreadable?;
    StoredPhaseIs(s, p);
    PriorFailure(s, p);
    PassMeans(s, p);
    if Up(p) {
      FlipVerdict(s, p);
    } else {
      WakeVerdict(s, p);
    }
    hide Verdict, Pass, Prior, Overdue, LongIdle, Sick, LongBlind, HeldBack, MayProvision;
  }

  /** An alarm is raised for a wake that timed out, and for a run that is gone unless its replacement is held back. */
  lemma AlarmIff(s: Status, p: PassInput)
    ensures Pass(s, p).action.alarm <==>
      || (Up(p) && Overdue(s, p))
      || (NoLiveRun(p) && s.runId.Some? && !(Wanted(p) && HeldBack(s, p)))
  {
    if !p.got.Unreadable? {
      PassMeans(s, p);
      if Up(p) {
        UpVerdictPhase(s, p);
      } else {
        DownVerdictPhase(s, p);
      }
      hide Verdict, Pass, Overdue, HeldBack;
    }
  }
}
