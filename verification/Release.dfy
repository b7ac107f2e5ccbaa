/**
 Bounded release: an on-demand Model that nobody has used or asked for since `quiet` is given back within
 a fixed time whatever mix of complete and missing evidence the passes gather, and is then left alone.
 */
module Release {
  import opened Base
  import opened Phase
  import opened Reconcile
  import opened ControllerRuns

  predicate Up(p: PassInput) {
    p.got.Found? && !p.got.run.terminal && p.got.run.replicas > 0
  }

  predicate Flips(s: Status, p: PassInput) {
    var r := Pass(s, p);
    r.applied && r.action.replicas == 0
  }

  predicate Wakes(s: Status, p: PassInput) {
    var r := Pass(s, p);
    r.applied && r.action.replicas > 0
  }

  /** Evidence that is missing, or shows nothing open and nothing accepted after `quiet`. */
  predicate QuietEvidence(ev: Evidence, quiet: Instant) {
    ev == NO_EVIDENCE || (ev.complete && ev.allIdle && ev.newestLastRequestAt <= quiet)
  }

  /** Nothing was open or accepted, and no demand stamped, after `quiet`. */
  predicate Quiet(p: PassInput, quiet: Instant) {
    && (p.stamp.Some? ==> p.stamp.value <= quiet)
    && (p.activity.Some? ==> QuietEvidence(p.activity.value, quiet))
  }

  /** The pass sends an Apply: a wake needs its env resolved first. */
  predicate Sends(s: Status, p: PassInput) {
    var a := Verdict(s, p).1;
    a.apply && (a.replicas == 0 || p.envOk)
  }

  /** dstack is readable, accepts what Apply the pass sends, and the status write lands. */
  predicate Lands(s: Status, p: PassInput) {
    !p.got.Unreadable? && p.patched && (Sends(s, p) ==> p.reply.Accepted?)
  }

  /**
   The next pass comes: in time after one that saw the run up or woke it, which is when Reconcile asks to be
   called again, and whenever it may otherwise.
   */
  predicate Follows(s: Status, p: PassInput, next: PassInput, gap: Duration) {
    p.now < next.now && (Up(p) || Wakes(s, p) ==> next.now <= p.now + gap)
  }

  /** Passes after `quiet` of one on-demand Model with a valid spec. */
  ghost predicate QuietRun(st: seq<Status>, ps: seq<PassInput>, spec: Spec, quiet: Instant, gap: Duration) {
    && IsRun(st, ps)
    && ValidSpec(spec)
    && spec.minReplicas == 0
    && quiet >= SECOND
    && (forall i :: 0 <= i < |ps| ==> ps[i].spec == spec && Quiet(ps[i], quiet) && Lands(st[i], ps[i]))
    && |ps| > 0
    && gap >= 0
    && quiet < ps[0].now
    && (Up(ps[0]) ==> ps[0].now <= quiet + gap)
    && forall i :: 0 < i < |ps| ==> Follows(st[i - 1], ps[i - 1], ps[i], gap)
  }

  /** Everything the status remembers of the last use is at most `anchor`, and its clock is in the past. */
  predicate AnchoredBy(s: Status, anchor: Instant, now: Instant) {
    && (s.wakeStartedAt.Some? ==> SECOND <= s.wakeStartedAt.value <= anchor)
    && (s.lastRequestAt.Some? ==> s.lastRequestAt.value <= anchor)
    && (s.uncontrolledSince.Some? ==> SECOND <= s.uncontrolledSince.value <= now)
  }

  predicate Released(s: Status, p: PassInput) {
    !Up(p) || Flips(s, p)
  }

  lemma QuietLater(p: PassInput, quiet: Instant, later: Instant)
    requires Quiet(p, quiet) && quiet <= later
    ensures Quiet(p, later)
  {
  }

  lemma WholeSecondKeepsFloor(t: Instant)
    requires t >= SECOND
    ensures SECOND <= WholeSecond(t) <= t
  {
  }

  lemma PriorAnchored(s: Status, p: PassInput, anchor: Instant)
    requires Quiet(p, anchor) && SECOND <= p.now
    requires AnchoredBy(s, anchor, p.now)
    ensures AnchoredBy(Prior(s, p), anchor, p.now)
    ensures Prior(s, p).wakeStartedAt == s.wakeStartedAt
  {
    var o := Observe(p);
    assert o.activity.None? || o.activity == p.activity;
    var s1 := AdoptRun(s, o);
    var s2 := NoteActivity(s1, o, Demand(p), p.now);
    assert AnchoredBy(s2, anchor, p.now) by {
      hide Observe;
    }
  }

  lemma PersistAnchored(s: Status, anchor: Instant, now: Instant)
    requires AnchoredBy(s, anchor, now)
    ensures AnchoredBy(Persist(s), anchor, now)
  {
    if s.uncontrolledSince.Some? {
      WholeSecondKeepsFloor(s.uncontrolledSince.value);
    }
    if s.wakeStartedAt.Some? {
      WholeSecondKeepsFloor(s.wakeStartedAt.value);
    }
  }

  /** The end of a pass keeps the status anchored, whatever it decided, if it only wakes before `anchor`. */
  lemma FinishAnchored(s: Status, p: PassInput, prior: Status, phase: ModelPhase, a: Action, anchor: Instant)
    requires p.patched && (a.apply ==> p.reply.Accepted?) && p.now >= SECOND
    requires AnchoredBy(prior, anchor, p.now)
    requires a.apply && a.replicas > 0 ==> p.now <= anchor
    ensures
      var kept := if a.apply then NoteApply(prior, a, p.reply.runId, p.now) else prior;
      var stored := Finish(s, p, kept, phase, a, a.apply).stored;
      && AnchoredBy(stored, anchor, p.now)
      && (prior.wakeStartedAt.Some? && !(a.apply && a.replicas == 0) ==> stored.wakeStartedAt.Some?)
      && (a.apply && a.replicas > 0 ==> stored.wakeStartedAt.Some?)
      && (!a.apply && prior.uncontrolledSince.Some? ==>
            stored.uncontrolledSince == Some(WholeSecond(prior.uncontrolledSince.value)))
  {
    var kept := if a.apply then NoteApply(prior, a, p.reply.runId, p.now) else prior;
    assert AnchoredBy(kept, anchor, p.now);
    var s1 := NoteProvisioning(kept, Observe(p).failure, phase, p.now).(phase := phase);
    assert s1 == kept.(provisioning := s1.provisioning, phase := phase);
    PersistAnchored(s1, anchor, p.now);
  }

  lemma WakeNeedsDemand(s: Status, p: PassInput)
    requires p.spec.minReplicas == 0
    ensures Verdict(s, p).1.apply && Verdict(s, p).1.replicas > 0 ==> Demand(p)
  {
  }

  /** How a pass that lands ends, in terms of its verdict. */
  lemma LandedPass(s: Status, p: PassInput, phase: ModelPhase, a: Action)
    requires Lands(s, p) && (phase, a) == Verdict(s, p)
    ensures a.apply && !Sends(s, p) ==> Pass(s, p) == PassResult(s, false, a, false)
    ensures Sends(s, p) ==>
      Pass(s, p) == Finish(s, p, NoteApply(Prior(s, p), a, p.reply.runId, p.now), phase, a, true)
    ensures !a.apply ==> Pass(s, p) == Finish(s, p, Prior(s, p), phase, a, false)
  {
  }

  /** A pass that sees the run up past the idle timeout and prescribes nothing was blind, and in time. */
  lemma NoVerdict(s: Status, p: PassInput, anchor: Instant)
    requires Up(p) && ValidSpec(p.spec) && p.spec.minReplicas == 0 && Quiet(p, anchor) && SECOND <= p.now
    requires AnchoredBy(s, anchor, p.now) && s.wakeStartedAt.Some?
    requires p.now > anchor + p.spec.idleTimeout && !Verdict(s, p).1.apply
    ensures Blind(Observe(p))
    ensures Prior(s, p).uncontrolledSince ==
      Some(if s.uncontrolledSince.Some? then s.uncontrolledSince.value else p.now)
    ensures p.now - Prior(s, p).uncontrolledSince.value <= UncontrolledTimeout(p.spec)
  {
    var o := Observe(p);
    var prior := Prior(s, p);
    assert SleepDue(o.activity, prior.lastRequestAt, p.spec.idleTimeout, p.now) || Blind(o);
  }

  /** A pass that sees the run up and does not flip it keeps the anchor, and past the idle timeout its clock runs. */
  lemma StaysUp(s: Status, p: PassInput, anchor: Instant)
    requires Lands(s, p) && ValidSpec(p.spec) && p.spec.minReplicas == 0
    requires Quiet(p, anchor) && anchor >= SECOND && p.now >= SECOND
    requires AnchoredBy(s, anchor, p.now) && s.wakeStartedAt.Some?
    requires !Released(s, p)
    ensures AnchoredBy(Pass(s, p).stored, anchor, p.now)
    ensures Pass(s, p).stored.wakeStartedAt.Some?
    ensures p.now > anchor + p.spec.idleTimeout ==>
      && Blind(Observe(p))
      && Pass(s, p).stored.uncontrolledSince.Some?
      && (s.uncontrolledSince.Some? ==>
            && Pass(s, p).stored.uncontrolledSince.value <= s.uncontrolledSince.value
            && p.now - s.uncontrolledSince.value <= UncontrolledTimeout(p.spec))
  {
    var (phase, a) := Verdict(s, p);
    LandedPass(s, p, phase, a);
    UpNeverWakes(s, p);
    PriorAnchored(s, p, anchor);
    if !a.apply || Sends(s, p) {
      FinishAnchored(s, p, Prior(s, p), phase, a, anchor);
    }
    if p.now > anchor + p.spec.idleTimeout {
      NoVerdict(s, p, anchor);
    }
  }

  lemma UpNeverWakes(s: Status, p: PassInput)
    requires Up(p)
    ensures Verdict(s, p).1.apply ==> Verdict(s, p).1.replicas == 0
  {
  }

  /** With the uncontrolled clock running since `latest` or longer, release comes within one timeout and one gap. */
  lemma {:induction false} ReleasedOnceBlind(st: seq<Status>, ps: seq<PassInput>, spec: Spec, quiet: Instant,
                                             gap: Duration, anchor: Instant, latest: Instant, i: nat)
    returns (k: nat)
    requires QuietRun(st, ps, spec, quiet, gap) && i < |ps|
    requires anchor >= quiet && AnchoredBy(st[i], anchor, ps[i].now) && st[i].wakeStartedAt.Some?
    requires ps[i].now > anchor + spec.idleTimeout
    requires st[i].uncontrolledSince.Some? && st[i].uncontrolledSince.value <= latest
    requires ps[i].now <= latest + UncontrolledTimeout(spec) + gap
    requires ps[|ps| - 1].now > latest + UncontrolledTimeout(spec)
    ensures i <= k < |ps| && Released(st[k], ps[k])
    ensures ps[k].now <= latest + UncontrolledTimeout(spec) + gap
    decreases |ps| - i
  {
    hide Pass, Lands, Quiet;
    if Released(st[i], ps[i]) {
      k := i;
    } else {
      QuietLater(ps[i], quiet, anchor);
      StaysUp(st[i], ps[i], anchor);
      k := ReleasedOnceBlind(st, ps, spec, quiet, gap, anchor, latest, i + 1);
    }
  }

  /** From a pass no later than one gap after the idle timeout, the run is released in time. */
  lemma {:induction false} ReleasedFrom(st: seq<Status>, ps: seq<PassInput>, spec: Spec, quiet: Instant, gap: Duration,
                                        anchor: Instant, i: nat) returns (k: nat)
    requires QuietRun(st, ps, spec, quiet, gap) && i < |ps|
    requires anchor >= quiet && AnchoredBy(st[i], anchor, ps[i].now) && st[i].wakeStartedAt.Some?
    requires ps[i].now <= anchor + spec.idleTimeout + gap
    requires ps[|ps| - 1].now > anchor + spec.idleTimeout + UncontrolledTimeout(spec) + gap
    ensures i <= k < |ps| && Released(st[k], ps[k])
    ensures ps[k].now <= anchor + spec.idleTimeout + UncontrolledTimeout(spec) + 2 * gap
    decreases |ps| - i
  {
    hide Pass, Lands, Quiet;
    assert UncontrolledTimeout(spec) > 0;
    Increasing(ps, 0, i);
    if Released(st[i], ps[i]) {
      k := i;
    } else {
      QuietLater(ps[i], quiet, anchor);
      StaysUp(st[i], ps[i], anchor);
      if ps[i].now > anchor + spec.idleTimeout {
        k := ReleasedOnceBlind(st, ps, spec, quiet, gap, anchor, anchor + spec.idleTimeout + gap, i + 1);
      } else {
        k := ReleasedFrom(st, ps, spec, quiet, gap, anchor, i + 1);
      }
    }
  }

  /**
   A run whose wake is on record at `quiet` is flipped to 0, or seen at 0 or gone, no later than
   idleTimeout + the uncontrolled timeout + two pass gaps after `quiet`, or by the first pass there is.
   */
  lemma ReleasedInTime(st: seq<Status>, ps: seq<PassInput>, spec: Spec, quiet: Instant, gap: Duration) returns (k: nat)
    requires QuietRun(st, ps, spec, quiet, gap)
    requires st[0].wakeStartedAt.Some? && AnchoredBy(st[0], quiet, ps[0].now)
    requires ps[|ps| - 1].now > quiet + spec.idleTimeout + UncontrolledTimeout(spec) + gap
    ensures k < |ps| && Released(st[k], ps[k])
    ensures ps[k].now <= quiet + spec.idleTimeout + UncontrolledTimeout(spec) + 2 * gap || (k == 0 && !Up(ps[0]))
  {
    k := 0;
    if Up(ps[0]) {
      k := ReleasedFrom(st, ps, spec, quiet, gap, quiet, 0);
    }
  }

  /** Once the last demand stamp has expired no pass wakes the Model. */
  lemma NoWakeWithoutDemand(st: seq<Status>, ps: seq<PassInput>, spec: Spec, quiet: Instant, gap: Duration, i: nat)
    requires QuietRun(st, ps, spec, quiet, gap) && i < |ps|
    requires ps[i].now >= quiet + spec.idleTimeout
    ensures !Wakes(st[i], ps[i])
  {
    assert !Demand(ps[i]);
  }

  /** Replicas come up only through an Apply of this controller; runs may die at any time. */
  ghost predicate OnlySquallWakes(st: seq<Status>, ps: seq<PassInput>)
    requires |st| == |ps| + 1
  {
    forall i :: 0 < i < |ps| && Up(ps[i]) ==>
      (Up(ps[i - 1]) && !Flips(st[i - 1], ps[i - 1])) || Wakes(st[i - 1], ps[i - 1])
  }

  /** A residual wake inside the demand window is journalled, so the status stays anchored by the window's end. */
  lemma {:induction false} AnchoredThroughout(st: seq<Status>, ps: seq<PassInput>, spec: Spec, quiet: Instant,
                                              gap: Duration, i: nat)
    requires QuietRun(st, ps, spec, quiet, gap) && OnlySquallWakes(st, ps) && i < |ps|
    requires AnchoredBy(st[0], quiet, ps[0].now) && (Up(ps[0]) ==> st[0].wakeStartedAt.Some?)
    ensures AnchoredBy(st[i], quiet + spec.idleTimeout, ps[i].now)
    ensures Up(ps[i]) ==> st[i].wakeStartedAt.Some?
  {
    hide Pass, Lands, Quiet;
    if i > 0 {
      AnchoredThroughout(st, ps, spec, quiet, gap, i - 1);
      Increasing(ps, 0, i - 1);
      AnchorKept(st[i - 1], ps[i - 1], quiet);
    }
  }

  lemma AnchorKept(s: Status, p: PassInput, quiet: Instant)
    requires Lands(s, p) && ValidSpec(p.spec) && p.spec.minReplicas == 0
    requires Quiet(p, quiet) && SECOND <= quiet < p.now
    requires AnchoredBy(s, quiet + p.spec.idleTimeout, p.now)
    ensures AnchoredBy(Pass(s, p).stored, quiet + p.spec.idleTimeout, p.now)
    ensures s.wakeStartedAt.Some? && !Flips(s, p) ==> Pass(s, p).stored.wakeStartedAt.Some?
    ensures Wakes(s, p) ==> Pass(s, p).stored.wakeStartedAt.Some?
  {
    var anchor := quiet + p.spec.idleTimeout;
    PriorAnchored(s, p, anchor);
    WakeNeedsDemand(s, p);
    var (phase, a) := Verdict(s, p);
    LandedPass(s, p, phase, a);
    if !a.apply || Sends(s, p) {
      FinishAnchored(s, p, Prior(s, p), phase, a, anchor);
    }
  }

  lemma {:induction false} FirstPassAfter(ps: seq<PassInput>, t: Instant, i: nat) returns (f: nat)
    requires i < |ps| && ps[i].now > t
    ensures f <= i && t < ps[f].now && (f > 0 ==> ps[f - 1].now <= t)
  {
    if i == 0 || ps[i - 1].now <= t {
      f := i;
    } else {
      f := FirstPassAfter(ps, t, i - 1);
    }
  }

  /** After the demand window, being up now means having been up and unflipped at every pass since. */
  lemma {:induction false} UpSince(st: seq<Status>, ps: seq<PassInput>, spec: Spec, quiet: Instant, gap: Duration,
                                   f: nat, k: nat, i: nat)
    requires QuietRun(st, ps, spec, quiet, gap) && OnlySquallWakes(st, ps)
    requires f <= k < i < |ps| && ps[f].now >= quiet + spec.idleTimeout
    requires Up(ps[i])
    ensures !Released(st[k], ps[k])
    decreases i
  {
    hide Pass, Lands, Quiet;
    Increasing(ps, f, i - 1);
    NoWakeWithoutDemand(st, ps, spec, quiet, gap, i - 1);
    if k < i - 1 {
      UpSince(st, ps, spec, quiet, gap, f, k, i - 1);
    }
  }

  lemma {:induction false} Increasing(ps: seq<PassInput>, i: nat, j: nat)
    requires i <= j < |ps|
    requires forall m :: 0 < m < |ps| ==> ps[m - 1].now < ps[m].now
    ensures ps[i].now <= ps[j].now
    ensures i < j ==> ps[i].now < ps[j].now
  {
    if i < j {
      Increasing(ps, i, j - 1);
    }
  }

  /**
   Residual demand may wake the Model once more before its stamp expires, but from
   2 * idleTimeout + the uncontrolled timeout + two pass gaps after `quiet` on, no pass sees it up.
   */
  lemma StaysReleased(st: seq<Status>, ps: seq<PassInput>, spec: Spec, quiet: Instant, gap: Duration, i: nat)
    requires QuietRun(st, ps, spec, quiet, gap) && OnlySquallWakes(st, ps) && i < |ps|
    requires AnchoredBy(st[0], quiet, ps[0].now) && (Up(ps[0]) ==> st[0].wakeStartedAt.Some?)
    requires ps[i].now > quiet + 2 * spec.idleTimeout + UncontrolledTimeout(spec) + 2 * gap
    ensures !Up(ps[i])
  {
    hide Pass, Lands, Quiet;
    if Up(ps[i]) {
      var anchor := quiet + spec.idleTimeout;
      var f := FirstPassAfter(ps, anchor, i);
      if f < i {
        UpSince(st, ps, spec, quiet, gap, f, f, i);
      }
      assert f > 0 ==> Follows(st[f - 1], ps[f - 1], ps[f], gap);
      assert ps[f].now <= anchor + gap;
      AnchoredThroughout(st, ps, spec, quiet, gap, f);
      Increasing(ps, i, |ps| - 1);
      var k := ReleasedFrom(st, ps, spec, quiet, gap, anchor, f);
      if k >= i {
        Increasing(ps, i, k);
      } else {
        UpSince(st, ps, spec, quiet, gap, f, k, i);
      }
    }
  }
}
