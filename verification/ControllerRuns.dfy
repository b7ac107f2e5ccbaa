/**
 What holds over whole runs of Reconcile passes: every uncontrolled flip is earned, and a
 new run after a failure is paced.
 */
module ControllerRuns {
  import opened Base
  import opened Dstack
  import opened Phase
  import opened Reconcile

  /** `st[i]` is the stored status pass `i` starts from. */
  ghost predicate IsRun(st: seq<Status>, ps: seq<PassInput>) {
    && |st| == |ps| + 1
    && forall i :: 0 <= i < |ps| ==> st[i + 1] == Pass(st[i], ps[i]).stored
  }

  ghost predicate Wrote(st: seq<Status>, ps: seq<PassInput>, i: nat)
    requires |st| == |ps| + 1 && i < |ps|
  {
    Pass(st[i], ps[i]).wrote
  }

  // ---------------------------------------------------------------- uncontrolled flips

  /** The pass saw replicas up, no complete evidence, and no demand. */
  predicate Unmeasured(p: PassInput) {
    !p.got.Unreadable? && Blind(Observe(p)) && !Demand(p)
  }

  /** Pass `j` started the uncontrolled clock, and no pass that wrote status since had reason to stop it. */
  ghost predicate ClockSince(st: seq<Status>, ps: seq<PassInput>, j: nat, i: nat)
    requires |st| == |ps| + 1
  {
    && j < i <= |ps|
    && Wrote(st, ps, j)
    && forall k :: j <= k < i && Wrote(st, ps, k) ==> Unmeasured(ps[k])
  }

  /** What one pass does to the uncontrolled clock it finds in the stored status. */
  lemma PassAndClock(s: Status, p: PassInput)
    ensures !Pass(s, p).wrote ==> Pass(s, p).stored == s
    ensures Pass(s, p).wrote && Pass(s, p).stored.uncontrolledSince.Some? ==>
      && Unmeasured(p)
      && Pass(s, p).stored.uncontrolledSince.value ==
           WholeSecond(if s.uncontrolledSince.Some? then s.uncontrolledSince.value else p.now)
  {
  }

  lemma {:induction false} UncontrolledClock(st: seq<Status>, ps: seq<PassInput>, i: nat) returns (j: nat)
    requires IsRun(st, ps) && i <= |ps|
    requires st[0].uncontrolledSince.None?
    ensures st[i].uncontrolledSince.Some? ==>
      ClockSince(st, ps, j, i) && st[i].uncontrolledSince.value == WholeSecond(ps[j].now)
  {
    hide Pass;
    j := 0;
    if i > 0 {
      j := UncontrolledClock(st, ps, i - 1);
      PassAndClock(st[i - 1], ps[i - 1]);
      if st[i].uncontrolledSince.Some? && st[i - 1].uncontrolledSince.None? {
        j := i - 1;
      }
    }
  }

  lemma FlipReadsClock(s: Status, p: PassInput)
    requires Pass(s, p).action.uncontrolled
    ensures Unmeasured(p)
    ensures s.uncontrolledSince.Some? && p.now - s.uncontrolledSince.value > UncontrolledTimeout(p.spec)
  {
  }

  /**
   An Uncontrolled flip is always earned: a status-writing pass more than the uncontrolled timeout older
   (counted from the whole second it was stored at) started the clock, and every status-writing pass from
   it to the flip saw replicas up, no complete evidence and no demand.
   */
  lemma UncontrolledFlipEarned(st: seq<Status>, ps: seq<PassInput>, i: nat) returns (j: nat)
    requires IsRun(st, ps) && i < |ps|
    requires st[0].uncontrolledSince.None?
    requires Pass(st[i], ps[i]).action.uncontrolled
    ensures ClockSince(st, ps, j, i) && Unmeasured(ps[i])
    ensures ps[i].now - ps[j].now > UncontrolledTimeout(ps[i].spec) - ps[j].now % SECOND
  {
    hide Pass;
    FlipReadsClock(st[i], ps[i]);
    j := UncontrolledClock(st, ps, i);
  }

  /** Nothing but the uncontrolled clock decides what the pass does with the run. */
  predicate LeftToClock(s: Status, p: PassInput) {
    && Unmeasured(p)
    && p.spec.minReplicas == 0
    && UncontrolledTimeout(p.spec) > 0
    && !ProvisioningDue(s.wakeStartedAt, Observe(p).ready, p.spec.provisioningTimeout, p.now)
  }

  /** Pass `j` started the clock, and no status-writing pass since had reason to stop it or flipped the run. */
  ghost predicate ClockRuns(st: seq<Status>, ps: seq<PassInput>, j: nat, i: nat)
    requires |st| == |ps| + 1
  {
    && ClockSince(st, ps, j, i)
    && st[j].uncontrolledSince.None?
    && ps[j].now >= SECOND
    && forall k :: j <= k < i && Wrote(st, ps, k) ==> !Pass(st[k], ps[k]).applied
  }

  lemma PassKeepsClock(s: Status, p: PassInput)
    requires Unmeasured(p) && !Pass(s, p).applied
    ensures Pass(s, p).wrote ==>
      Pass(s, p).stored.uncontrolledSince ==
        Some(WholeSecond(if s.uncontrolledSince.Some? then s.uncontrolledSince.value else p.now))
  {
  }

  lemma {:induction false} ClockStands(st: seq<Status>, ps: seq<PassInput>, j: nat, i: nat)
    requires IsRun(st, ps) && ClockRuns(st, ps, j, i)
    ensures st[i].uncontrolledSince == Some(WholeSecond(ps[j].now))
    decreases i
  {
    hide Pass;
    PassAndClock(st[i - 1], ps[i - 1]);
    if j < i - 1 {
      ClockStands(st, ps, j, i - 1);
    }
    if Wrote(st, ps, i - 1) {
      PassKeepsClock(st[i - 1], ps[i - 1]);
    }
  }

  lemma FlipIffClockOver(s: Status, p: PassInput)
    requires s.uncontrolledSince.Some? && s.uncontrolledSince.value != ZERO_TIME
    ensures Pass(s, p).action.uncontrolled <==>
      LeftToClock(s, p) && p.now - s.uncontrolledSince.value > UncontrolledTimeout(p.spec)
  {
    assert Prior(s, p).wakeStartedAt == s.wakeStartedAt;
  }

  /**
   Exactly when the flip comes: while the clock started by pass `j` runs, pass `i` flips as uncontrolled if and
   only if nothing else decides and the timeout has passed since the whole second of pass `j`.
   */
  lemma UncontrolledFlipIff(st: seq<Status>, ps: seq<PassInput>, j: nat, i: nat)
    requires IsRun(st, ps) && i < |ps| && ClockRuns(st, ps, j, i)
    ensures Pass(st[i], ps[i]).action.uncontrolled <==>
      LeftToClock(st[i], ps[i]) && ps[i].now - WholeSecond(ps[j].now) > UncontrolledTimeout(ps[i].spec)
  {
    hide Pass;
    ClockStands(st, ps, j, i);
    FlipIffClockOver(st[i], ps[i]);
  }

  /** The flip comes before the full timeout exactly in the part of a second that storing the clock cut off. */
  lemma EarlyFlipIff(st: seq<Status>, ps: seq<PassInput>, j: nat, i: nat)
    requires IsRun(st, ps) && i < |ps| && ClockRuns(st, ps, j, i) && LeftToClock(st[i], ps[i])
    ensures
      var timeout, waited := UncontrolledTimeout(ps[i].spec), ps[i].now - ps[j].now;
      Pass(st[i], ps[i]).action.uncontrolled && waited <= timeout <==>
        timeout - ps[j].now % SECOND < waited <= timeout
  {
    hide Pass;
    UncontrolledFlipIff(st, ps, j, i);
  }

  /** The pass starts the clock. */
  predicate StartsClock(s: Status, p: PassInput) {
    LeftToClock(s, p) && s.uncontrolledSince.None? && p.patched && p.now >= SECOND
  }

  /** The next pass, at `t` and seeing the same, flips although the timeout is not over. */
  predicate FlipsEarlyAt(s: Status, p: PassInput, t: Instant) {
    p.now < t <= p.now + UncontrolledTimeout(p.spec) && Pass(Pass(s, p).stored, p.(now := t)).action.uncontrolled
  }

  /** The provisioning deadline of the run the pass saw takes it at `t`, before the clock can. */
  predicate TimesOut(s: Status, p: PassInput, t: Instant) {
    ProvisioningDue(StoredTime(s.wakeStartedAt), Observe(p).ready, p.spec.provisioningTimeout, t)
  }

  /** A pass that starts the clock does nothing else; what comes next the clock decides, or the deadline. */
  lemma ClockStarted(s: Status, p: PassInput, t: Instant)
    requires StartsClock(s, p) && t > p.now
    ensures Pass(s, p).stored.uncontrolledSince == Some(WholeSecond(p.now)) && WholeSecond(p.now) != ZERO_TIME
    ensures LeftToClock(Pass(s, p).stored, p.(now := t)) <==> !TimesOut(s, p, t)
  {
    var prior, stored := Prior(s, p), Pass(s, p).stored;
    assert prior.uncontrolledSince == Some(p.now) && prior.wakeStartedAt == s.wakeStartedAt;
    assert !Verdict(s, p).1.apply;
    assert Observe(p.(now := t)).ready == Observe(p).ready;
  }

  /** The first instant after the pass at which a clock started by it, as stored, is over. */
  function ClockOver(p: PassInput): Instant {
    p.now + Max(UncontrolledTimeout(p.spec) - p.now % SECOND, 0) + 1
  }

  /**
   Known when the clock starts: a flip before the full timeout is possible if and only if the pass does not
   fall on a whole second, and no provisioning deadline takes the run before the stored clock is over.
   */
  lemma EarlyFlipPossibleIff(s: Status, p: PassInput)
    requires StartsClock(s, p)
    ensures (exists t :: FlipsEarlyAt(s, p, t)) <==> p.now % SECOND != 0 && !TimesOut(s, p, ClockOver(p))
  {
    hide Pass;
    var timeout := UncontrolledTimeout(p.spec);
    forall t | p.now < t
      ensures FlipsEarlyAt(s, p, t) <==> ClockOver(p) <= t <= p.now + timeout && !TimesOut(s, p, t)
    {
      ClockStarted(s, p, t);
      FlipIffClockOver(Pass(s, p).stored, p.(now := t));
    }
    if p.now % SECOND != 0 && !TimesOut(s, p, ClockOver(p)) {
      assert FlipsEarlyAt(s, p, ClockOver(p));
    }
  }

  const SAMPLE_RUN :=
    Run("ns-m", 1, 1, 1, false, true, map[], "", None, 0, SECOND)
  const SAMPLE_SPEC :=
    Spec(0, true, MINUTE, None, HOUR, MINUTE, 0, 0, Health(0, 0))
  const SAMPLE_STATUS :=
    Status(Ready, Some(1), None, None, None, None)

  /** One such run: a clock started one nanosecond before a whole second is nearly a second short. */
  lemma UncontrolledFlipCanComeEarly(p0: PassInput, p1: PassInput)
    requires p0 == PassInput(SAMPLE_SPEC, 2 * SECOND - 1, Found(SAMPLE_RUN, None), None, None,
                             true, true, Accepted(1), true)
    requires p1 == p0.(now := SECOND + UncontrolledTimeout(SAMPLE_SPEC) + 1)
    ensures
      var s1 := Pass(SAMPLE_STATUS, p0).stored;
      var r := Pass(s1, p1);
      r.action.uncontrolled && r.applied && p1.now - p0.now <= UncontrolledTimeout(SAMPLE_SPEC)
  {
    var o := Observe(p0);
    assert o == Observed(Some(SAMPLE_RUN), None, true, None);
    assert WholeSecond(p0.now) == SECOND;
    assert Pass(SAMPLE_STATUS, p0).stored.uncontrolledSince == Some(SECOND);
  }

  // ---------------------------------------------------------------- provisioning pacing

  /** The pass saw a dead run whose failure carries this message. */
  predicate Saw(p: PassInput, f: Failure) {
    Observe(p).failure.Some? && SameMessage(Observe(p).failure.value, f)
  }

  predicate OnRecord(s: Status, f: Failure) {
    && s.provisioning.Some?
    && s.provisioning.value.Failed?
    && SameMessage(s.provisioning.value.failure, f)
  }

  predicate Records(s: Status, f: Failure, since: Instant) {
    OnRecord(s, f) && s.provisioning.value.since == since
  }

  /** Pass `j` was the first to record `f`, and its time has stood in the status ever since. */
  ghost predicate RecordedAt(st: seq<Status>, ps: seq<PassInput>, f: Failure, j: nat, i: nat)
    requires |st| == |ps| + 1
  {
    && j < i <= |ps|
    && Wrote(st, ps, j)
    && Saw(ps[j], f)
    && !OnRecord(st[j], f)
    && forall k :: j < k <= i ==> Records(st[k], f, WholeSecond(ps[j].now))
  }

  lemma PriorAndFailure(s: Status, p: PassInput, f: Failure)
    requires OnRecord(Prior(s, p), f)
    ensures
      var since := Prior(s, p).provisioning.value.since;
      if OnRecord(s, f) then since == s.provisioning.value.since else Saw(p, f) && since == p.now
  {
  }

  lemma EndKeepsFailure(s: Status, p: PassInput, f: Failure)
    requires Pass(s, p).wrote && OnRecord(Pass(s, p).stored, f)
    ensures OnRecord(Prior(s, p), f)
    ensures Records(Pass(s, p).stored, f, WholeSecond(Prior(s, p).provisioning.value.since))
  {
    hide Decide;
  }

  /** A pass leaves the recorded failure alone, keeps its time, or records a new failure as of now. */
  lemma PassAndFailure(s: Status, p: PassInput, f: Failure)
    requires OnRecord(Pass(s, p).stored, f)
    ensures OnRecord(s, f) ==>
      var since := s.provisioning.value.since;
      Pass(s, p).stored.provisioning.value.since == if Pass(s, p).wrote then WholeSecond(since) else since
    ensures !OnRecord(s, f) ==>
      Pass(s, p).wrote && Saw(p, f) && Records(Pass(s, p).stored, f, WholeSecond(p.now))
  {
    hide Pass, Prior;
    if Pass(s, p).wrote {
      EndKeepsFailure(s, p, f);
      PriorAndFailure(s, p, f);
    } else {
      PassAndClock(s, p);
    }
  }

  lemma {:induction false} FailureRecorded(st: seq<Status>, ps: seq<PassInput>, f: Failure, i: nat) returns (j: nat)
    requires IsRun(st, ps) && i <= |ps|
    requires st[0].provisioning.None?
    ensures OnRecord(st[i], f) ==> RecordedAt(st, ps, f, j, i)
  {
    hide Pass;
    j := 0;
    if i > 0 {
      j := FailureRecorded(st, ps, f, i - 1);
      if OnRecord(st[i], f) {
        PassAndFailure(st[i - 1], ps[i - 1], f);
        if !OnRecord(st[i - 1], f) {
          j := i - 1;
        }
      }
    }
  }

  /** The pass made dstack mint a new run. */
  predicate Mints(s: Status, p: PassInput) {
    var r := Pass(s, p);
    r.applied && r.action.replicas > 0 && r.action.current.None?
  }

  /**
   Provisioning is paced: when a pass mints a run while the failure it acts on (the one it sees, or the one
   on record when the server shows no run) is a capacity, credit or rate-limit failure, that failure was
   recorded by an earlier pass, its recorded time never moved, and the backoff since then is over.
   */
  lemma MintIsPaced(st: seq<Status>, ps: seq<PassInput>, i: nat) returns (j: nat)
    requires IsRun(st, ps) && i < |ps|
    requires st[0].provisioning.None?
    requires forall k :: 0 <= k < |ps| ==> ps[k].now >= SECOND
    requires Mints(st[i], ps[i])
    ensures
      var prior := Prior(st[i], ps[i]).provisioning;
      prior.Some? && prior.value.Failed? && Backs(prior.value.reason) ==>
        && RecordedAt(st, ps, prior.value.failure, j, i)
        && ps[i].now >= WholeSecond(ps[j].now) + PROVISIONING_RETRY_BACKOFF
        && (Observe(ps[i]).failure.Some? ==> Saw(ps[i], prior.value.failure))
  {
    var prior := Prior(st[i], ps[i]).provisioning;
    j := 0;
    if prior.Some? && prior.value.Failed? && Backs(prior.value.reason) {
      var f := prior.value.failure;
      var since := prior.value.since;
      assert ps[i].now >= since + PROVISIONING_RETRY_BACKOFF || since == ZERO_TIME;
      j := FailureRecorded(st, ps, f, i);
      assert Records(st[i], f, since);
    }
  }

  /** A failure of another run restarts the backoff window. */
  lemma OtherRunRestartsBackoff(s: Status, p: PassInput, f: Failure, since: Instant)
    requires Records(s, f, since)
    requires Observe(p).failure.Some? && Observe(p).failure.value.runId != f.runId
    requires Pass(s, p).wrote
    ensures Records(Pass(s, p).stored, Observe(p).failure.value, WholeSecond(p.now))
    ensures Backs(Observe(p).failure.value.reason) && p.now >= SECOND ==> !Mints(s, p)
  {
    var g := Observe(p).failure.value;
    assert Observe(p).run.None?;
    assert Prior(s, p).provisioning == Some(Failed(g.reason, g, p.now));
  }

  /** Pacing never abandons a wanted Model: once the window is over the next readable pass asks for a run. */
  lemma RetryFollows(s: Status, p: PassInput)
    requires !p.got.Unreadable? && Observe(p).run.None?
    requires p.spec.minReplicas == 1 || Demand(p)
    requires p.priceOk && ValidSpec(p.spec)
    requires Observe(p).failure.Some? ==> OnRecord(s, Observe(p).failure.value)
    requires s.provisioning.Some? && s.provisioning.value.Failed? ==>
      p.now >= s.provisioning.value.since + PROVISIONING_RETRY_BACKOFF
    ensures Verdict(s, p).1.apply && Verdict(s, p).1.replicas == 1 && Verdict(s, p).1.current.None?
    ensures p.envOk && p.reply.Accepted? ==> Mints(s, p)
  {
  }
}
