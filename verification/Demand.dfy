/**
 Coalesced demand stamps (internal/proxy/demand.go, patcher.go) as the controller reads them
 (hasDemand): while a request is held, its stamp does not expire.
 */
module Demand {
  import opened Base
  import opened Phase
  import opened Reconcile
  import opened Handler

  /** Whether Signal leaves the API server alone: a patch succeeded less than a cooldown ago. */
  predicate Suppressed(lastSuccess: Option<Instant>, cooldown: Duration, now: Instant) {
    lastSuccess.Some? && now - lastSuccess.value < cooldown
  }

  class DemandCoalescer {
    const cooldown: Duration
    var lastSuccess: map<string, Instant>

    ghost function Last(model: string): Option<Instant>
      reads this
    {
      if model in lastSuccess then Some(lastSuccess[model]) else None
    }

    constructor (cooldown: Duration)
      ensures this.cooldown == cooldown && lastSuccess == map[]
    {
      this.cooldown := cooldown;
      lastSuccess := map[];
    }

    /** Signal under the per-Model lock; `ok`: a patch, if sent, succeeds. A failed one does not arm the cooldown. */
    method Signal(model: string, now: Instant, ok: bool) returns (stamped: bool)
      modifies this
      ensures Last(model) == AfterTick(Begin(old(Last(model))), cooldown, Tick(now, ok)).last
      ensures stamped <==> !Suppressed(old(Last(model)), cooldown, now) && ok
      ensures forall m :: m != model ==> Last(m) == old(Last(m))
    {
      if model in lastSuccess && now - lastSuccess[model] < cooldown {
        return false;
      }
      if !ok {
        return false;
      }
      lastSuccess := lastSuccess[model := now];
      stamped := true;
    }
  }

  // ---------------------------------------------------------------- a held request's signals

  /** One Signal call for the Model on one proxy: when, and whether a patch would succeed. */
  datatype Tick = Tick(now: Instant, ok: bool)

  /** The last two successful stamps, and the failed patches of the hold since the last. */
  datatype Stamps = Stamps(last: Option<Instant>, previous: Option<Instant>, failed: nat)

  function AfterTick(d: Stamps, cooldown: Duration, t: Tick): Stamps {
    if Suppressed(d.last, cooldown, t.now) then d
    else if t.ok then Stamps(Some(t.now), d.last, 0)
    else d.(failed := d.failed + 1)
  }

  function AfterTicks(d0: Stamps, ticks: seq<Tick>, cooldown: Duration): Stamps {
    if ticks == [] then d0
    else AfterTick(AfterTicks(d0, ticks[..|ticks| - 1], cooldown), cooldown, ticks[|ticks| - 1])
  }

  /** What a hold is up against: a cooldown, ticks at most `gap` apart, patches that take up to `latency`. */
  datatype Pace = Pace(cooldown: Duration, gap: Duration, latency: Duration)

  /** The time a patch takes is part of the tick, and so of the gap. */
  predicate ValidPace(c: Pace) {
    c.cooldown >= 0 && c.gap > 0 && 0 <= c.latency <= c.gap
  }

  /** The coalescer outlives holds: `before` is its last success when this one begins, however long ago. */
  function Begin(before: Option<Instant>): Stamps {
    Stamps(before, None, 0)
  }

  /** The Signal calls for the Model since a hold began, with never more than `k` failed patches in a row. */
  ghost predicate HeldTicks(before: Option<Instant>, ticks: seq<Tick>, c: Pace, k: nat) {
    && ticks != []
    && (before.Some? ==> before.value <= ticks[0].now)
    && (forall i :: 0 < i < |ticks| ==> ticks[i - 1].now <= ticks[i].now <= ticks[i - 1].now + c.gap)
    && (forall i :: 0 <= i <= |ticks| ==> AfterTicks(Begin(before), ticks[..i], c.cooldown).failed <= k)
  }

  function LastTick(ticks: seq<Tick>): Instant
    requires ticks != []
  {
    ticks[|ticks| - 1].now
  }

  /** Made so long before the hold that the coalescer does not let it stand for the first tick's. */
  predicate Stale(stamp: Instant, start: Instant, c: Pace) {
    start - stamp > c.cooldown
  }

  lemma HeldPrefix(before: Option<Instant>, ticks: seq<Tick>, c: Pace, k: nat)
    requires HeldTicks(before, ticks, c, k) && |ticks| > 1
    ensures HeldTicks(before, ticks[..|ticks| - 1], c, k)
  {
    var init := ticks[..|ticks| - 1];
    forall i | 0 <= i <= |init|
      ensures AfterTicks(Begin(before), init[..i], c.cooldown).failed <= k
    {
      assert init[..i] == ticks[..i];
    }
  }

  lemma Scale(a: nat, b: nat, gap: Duration)
    requires a <= b && gap >= 0
    ensures a * gap <= b * gap
    ensures (a + 1) * gap == a * gap + gap
  {
  }

  /** How long a tick can be suppressed after a success. */
  function Lull(c: Pace): Duration {
    Max(c.cooldown - 1, 0)
  }

  /**
   A success lags the latest tick by at most a lull and one gap per failed patch; one made before the hold and
   stale by its first tick, by the age it had then and one gap per failed patch after the first.
   */
  predicate LastRecent(d: Stamps, start: Instant, now: Instant, c: Pace) {
    d.last.Some? ==>
      if Stale(d.last.value, start, c)
      then d.failed > 0 && now - start <= (d.failed - 1) * c.gap
      else now - d.last.value <= Lull(c) + d.failed * c.gap
  }

  /** How far the last success can be ahead of the one before it. */
  predicate PreviousRecent(d: Stamps, start: Instant, c: Pace, k: nat) {
    d.previous.Some? ==>
      && d.last.Some?
      && if Stale(d.previous.value, start, c) then d.last.value - start <= k * c.gap
         else d.last.value - d.previous.value <= Lull(c) + (k + 1) * c.gap
  }

  predicate Recent(d: Stamps, start: Instant, now: Instant, c: Pace, k: nat) {
    LastRecent(d, start, now, c) && PreviousRecent(d, start, c, k) && d.failed <= k
  }

  lemma FirstTickRecent(before: Option<Instant>, t: Tick, c: Pace, k: nat)
    requires ValidPace(c) && (before.Some? ==> before.value <= t.now)
    requires AfterTick(Begin(before), c.cooldown, t).failed <= k
    ensures Recent(AfterTick(Begin(before), c.cooldown, t), t.now, t.now, c, k)
  {
    Scale(1, k + 1, c.gap);
    Scale(0, k, c.gap);
  }

  lemma NextTickRecent(d: Stamps, start: Instant, now: Instant, t: Tick, c: Pace, k: nat)
    requires ValidPace(c) && Recent(d, start, now, c, k)
    requires start <= now <= t.now <= now + c.gap
    requires AfterTick(d, c.cooldown, t).failed <= k
    ensures Recent(AfterTick(d, c.cooldown, t), start, t.now, c, k)
  {
    Scale(d.failed, k, c.gap);
    Scale(k, k + 1, c.gap);
    if d.failed > 0 {
      Scale(d.failed - 1, d.failed, c.gap);
    }
  }

  /** Whatever earlier holds left in the coalescer, in every hold both stamps are that recent. */
  lemma {:induction false} SuccessIsRecent(before: Option<Instant>, ticks: seq<Tick>, c: Pace, k: nat)
    requires HeldTicks(before, ticks, c, k) && ValidPace(c)
    ensures ticks[0].now <= LastTick(ticks)
    ensures Recent(AfterTicks(Begin(before), ticks, c.cooldown), ticks[0].now, LastTick(ticks), c, k)
  {
    hide Recent, AfterTick;
    assert ticks[..|ticks|] == ticks;
    var init, t := ticks[..|ticks| - 1], ticks[|ticks| - 1];
    if |ticks| == 1 {
      assert init == [];
      FirstTickRecent(before, t, c, k);
    } else {
      HeldPrefix(before, ticks, c, k);
      SuccessIsRecent(before, init, c, k);
      NextTickRecent(AfterTicks(Begin(before), init, c.cooldown), ticks[0].now, LastTick(init), t, c, k);
    }
  }

  /** The stamp the controller can read at `x`: the last one, or the one before while the last patch is in flight. */
  predicate Visible(d: Stamps, x: Instant, latency: Duration, stamp: Instant) {
    || d.last == Some(stamp)
    || (d.previous == Some(stamp) && d.last.Some? && x < d.last.value + latency)
  }

  /** A moment of a hold and the stamp the controller reads then. */
  datatype Moment = Moment(before: Option<Instant>, ticks: seq<Tick>, x: Instant, stamp: Instant)

  ghost predicate Occurs(h: Moment, c: Pace, k: nat) {
    && h.ticks != []
    && HeldTicks(h.before, h.ticks, c, k)
    && LastTick(h.ticks) <= h.x <= LastTick(h.ticks) + c.gap
    && Visible(AfterTicks(Begin(h.before), h.ticks, c.cooldown), h.x, c.latency, h.stamp)
  }

  /** The demand stamp, as the controller reads it, has not expired. */
  predicate Wanted(h: Moment, idleTimeout: Duration) {
    HasDemand(Some(WholeSecond(h.stamp)), idleTimeout, h.x)
  }

  /**
   The oldest a stamp of the hold gets: made just before a whole second, it suppresses every tick of the lull,
   then `k` patches in a row fail, and the next is as late and as long in flight as can be.
   */
  function WorstAge(c: Pace, k: nat): Duration {
    (k + 1) * c.gap + Lull(c) + Max(c.latency - 1, 0) + SECOND - 1
  }

  /** How long after the hold's first tick a stamp that is stale by then can be what the controller reads. */
  function Outlasts(c: Pace, k: nat): Duration {
    k * c.gap + Max(c.latency - 1, 0)
  }

  /** A stale stamp is read at all: a patch may fail, or take time. */
  predicate StaleRead(c: Pace, k: nat) {
    k > 0 || c.latency > 0
  }

  /** At every moment of every hold the stamp that the controller reads is no older than that. */
  lemma DemandOutlivesHold(h: Moment, c: Pace, k: nat)
    requires ValidPace(c) && Occurs(h, c, k)
    ensures
      var start := h.ticks[0].now;
      if Stale(h.stamp, start, c) then StaleRead(c, k) && h.x <= start + Outlasts(c, k)
      else h.x - WholeSecond(h.stamp) <= WorstAge(c, k)
  {
    SuccessIsRecent(h.before, h.ticks, c, k);
    var d := AfterTicks(Begin(h.before), h.ticks, c.cooldown);
    Scale(d.failed, k, c.gap);
    Scale(k, k + 1, c.gap);
    if d.failed > 0 {
      Scale(d.failed - 1, d.failed, c.gap);
    }
    hide AfterTicks, HeldTicks;
  }

  // ---------------------------------------------------------------- the worst holds

  /** Ticks a gap apart from `start` on, of which the first `k` patches fail. */
  function LateTicks(start: Instant, gap: Duration, k: nat, n: nat): seq<Tick> {
    seq(n, i requires 0 <= i => Tick(start + i * gap, i == k))
  }

  lemma OneTickMore(d0: Stamps, ticks: seq<Tick>, t: Tick, cooldown: Duration)
    ensures AfterTicks(d0, ticks + [t], cooldown) == AfterTick(AfterTicks(d0, ticks, cooldown), cooldown, t)
  {
    assert (ticks + [t])[..|ticks|] == ticks;
  }

  /** Such ticks, after `front` has left the stamp `s` standing and no tick is suppressed any more. */
  lemma {:induction false} RunOfFailures(d0: Stamps, front: seq<Tick>, c: Pace, s: Instant, start: Instant, k: nat,
                                         n: nat)
    requires ValidPace(c) && start - s >= c.cooldown && n <= k + 1
    requires AfterTicks(d0, front, c.cooldown) == Stamps(Some(s), None, 0)
    ensures AfterTicks(d0, front + LateTicks(start, c.gap, k, n), c.cooldown) ==
      if n <= k then Stamps(Some(s), None, n) else Stamps(Some(start + k * c.gap), Some(s), 0)
  {
    hide AfterTicks;
    var ticks := front + LateTicks(start, c.gap, k, n);
    if n == 0 {
      assert ticks == front;
    } else {
      RunOfFailures(d0, front, c, s, start, k, n - 1);
      var init, t := front + LateTicks(start, c.gap, k, n - 1), Tick(start + (n - 1) * c.gap, n - 1 == k);
      assert ticks == init + [t];
      OneTickMore(d0, init, t, c.cooldown);
      Scale(0, n - 1, c.gap);
    }
  }

  /** `front` is a hold's first tick, or nothing, and leaves the stamp `s` standing. */
  ghost predicate Leads(before: Option<Instant>, front: seq<Tick>, c: Pace, s: Instant, start: Instant) {
    && |front| <= 1
    && AfterTicks(Begin(before), front, c.cooldown) == Stamps(Some(s), None, 0)
    && start - s >= c.cooldown
    && (before.Some? ==> before.value <= if front == [] then start else front[0].now)
    && (front != [] ==> start == front[0].now + c.gap)
  }

  lemma LateTicksHeld(before: Option<Instant>, front: seq<Tick>, c: Pace, s: Instant, start: Instant, k: nat, n: nat)
    requires ValidPace(c) && Leads(before, front, c, s, start) && n <= k + 1 && |front| + n > 0
    ensures HeldTicks(before, front + LateTicks(start, c.gap, k, n), c, k)
  {
    var ticks := front + LateTicks(start, c.gap, k, n);
    forall i | 0 <= i <= |ticks|
      ensures AfterTicks(Begin(before), ticks[..i], c.cooldown).failed <= k
    {
      if i < |front| {
        assert ticks[..i] == [];
      } else {
        assert ticks[..i] == front + LateTicks(start, c.gap, k, i - |front|);
        RunOfFailures(Begin(before), front, c, s, start, k, i - |front|);
      }
    }
    hide AfterTicks;
    LateTicksInStep(start, c.gap, k, n);
  }

  lemma LateTicksInStep(start: Instant, gap: Duration, k: nat, n: nat)
    requires gap >= 0
    ensures n > 0 ==> LateTicks(start, gap, k, n)[0].now == start
    ensures forall i :: 0 < i < n ==>
      LateTicks(start, gap, k, n)[i].now == LateTicks(start, gap, k, n)[i - 1].now + gap
  {
    forall i | 0 < i < n
      ensures LateTicks(start, gap, k, n)[i].now == LateTicks(start, gap, k, n)[i - 1].now + gap
    {
      Scale(i - 1, i, gap);
    }
  }

  /** The last moment at which the controller reads `s`: before the next tick, or while its patch is in flight. */
  lemma LateMoment(before: Option<Instant>, front: seq<Tick>, c: Pace, s: Instant, start: Instant, k: nat)
    returns (h: Moment)
    requires ValidPace(c) && Leads(before, front, c, s, start) && (front == [] ==> StaleRead(c, k))
    ensures Occurs(h, c, k)
    ensures h.before == before && h.stamp == s && h.x == start + Outlasts(c, k)
    ensures h.ticks[0].now == if front == [] then start else front[0].now
  {
    var n := if c.latency > 0 then k + 1 else k;
    var ticks := front + LateTicks(start, c.gap, k, n);
    h := Moment(before, ticks, start + Outlasts(c, k), s);
    LateTicksHeld(before, front, c, s, start, k, n);
    RunOfFailures(Begin(before), front, c, s, start, k, n);
    if k > 0 {
      Scale(k - 1, k, c.gap);
    }
    hide AfterTicks, HeldTicks;
  }

  const UNLUCKY := 2 * SECOND - 1

  /** The worst age is reached, by a hold that begins on no stamp, or on one less than a cooldown old. */
  lemma WorstMoment(c: Pace, k: nat) returns (h: Moment)
    requires ValidPace(c)
    ensures Occurs(h, c, k) && h.x - WholeSecond(h.stamp) == WorstAge(c, k)
    ensures h.before.Some? ==> h.ticks[0].now - h.before.value < c.cooldown
  {
    var before := if c.cooldown == 0 then None else Some(UNLUCKY);
    var front := [Tick(UNLUCKY + Lull(c), c.cooldown == 0)];
    assert front[..0] == [] && AfterTicks(Begin(before), [], c.cooldown) == Begin(before);
    assert AfterTicks(Begin(before), front, c.cooldown) == AfterTick(Begin(before), c.cooldown, front[0]);
    assert Leads(before, front, c, UNLUCKY, UNLUCKY + Lull(c) + c.gap);
    h := LateMoment(before, front, c, UNLUCKY, UNLUCKY + Lull(c) + c.gap, k);
    Scale(k, k + 1, c.gap);
    hide Occurs, Leads;
  }

  /** Any stale stamp is read for as long as Outlasts says. */
  lemma StaleMoment(c: Pace, k: nat, before: Instant, start: Instant) returns (h: Moment)
    requires ValidPace(c) && StaleRead(c, k) && Stale(before, start, c)
    ensures Occurs(h, c, k) && h.before == Some(before) && h.ticks[0].now == start
    ensures h.stamp == before && h.x == start + Outlasts(c, k)
  {
    assert Leads(Some(before), [], c, before, start);
    h := LateMoment(Some(before), [], c, before, start, k);
  }

  // ---------------------------------------------------------------- when demand never lapses

  /** The hold begins on no stamp, or on one at most `age` old. */
  predicate BeginsWithin(h: Moment, age: Duration)
    requires h.ticks != []
  {
    h.before.Some? ==> h.ticks[0].now - h.before.value <= age
  }

  /**
   Every moment of every hold at this pace that begins on no stamp or one at most `age` old, with at most `k`
   failed patches in a row, finds whatever stamp there is unexpired.
   */
  ghost predicate NeverLapses(c: Pace, k: nat, age: Duration, idleTimeout: Duration) {
    forall h :: Occurs(h, c, k) && BeginsWithin(h, age) ==> Wanted(h, idleTimeout)
  }

  lemma {:induction false} StampsInHold(h: Moment, c: Pace, k: nat)
    requires ValidPace(c) && Occurs(h, c, k) && Stale(h.stamp, h.ticks[0].now, c)
    ensures h.before == Some(h.stamp)
  {
    StaleIsBefore(h.before, h.ticks, c, k);
    hide AfterTicks;
  }

  lemma {:induction false} StaleIsBefore(before: Option<Instant>, ticks: seq<Tick>, c: Pace, k: nat)
    requires ValidPace(c) && HeldTicks(before, ticks, c, k)
    ensures
      var d := AfterTicks(Begin(before), ticks, c.cooldown);
      && (d.last.Some? ==> d.last == before || d.last.value >= ticks[0].now)
      && (d.previous.Some? ==> d.previous == before || d.previous.value >= ticks[0].now)
  {
    var init := ticks[..|ticks| - 1];
    if |ticks| == 1 {
      assert init == [];
    } else {
      HeldPrefix(before, ticks, c, k);
      StaleIsBefore(before, init, c, k);
      SuccessIsRecent(before, ticks, c, k);
    }
  }

  /** The exact condition on what a hold begins with, for stamps up to any age from the cooldown on. */
  lemma DemandHeldIff(c: Pace, k: nat, age: Duration, idleTimeout: Duration)
    requires ValidPace(c) && age >= c.cooldown
    ensures NeverLapses(c, k, age, idleTimeout) <==>
      && WorstAge(c, k) < idleTimeout
      && (StaleRead(c, k) && age > c.cooldown ==> age + Outlasts(c, k) + SECOND - 1 < idleTimeout)
  {
    hide HeldTicks, AfterTicks, Visible, WorstAge, Outlasts, StaleRead;
    var stale := StaleRead(c, k) && age > c.cooldown;
    if WorstAge(c, k) < idleTimeout && (stale ==> age + Outlasts(c, k) + SECOND - 1 < idleTimeout) {
      forall h | Occurs(h, c, k) && BeginsWithin(h, age)
        ensures Wanted(h, idleTimeout)
      {
        DemandOutlivesHold(h, c, k);
        if Stale(h.stamp, h.ticks[0].now, c) {
          StampsInHold(h, c, k);
        }
      }
    } else if WorstAge(c, k) >= idleTimeout {
      var h := WorstMoment(c, k);
      assert BeginsWithin(h, age) && !Wanted(h, idleTimeout);
    } else {
      var h := StaleMoment(c, k, UNLUCKY, UNLUCKY + age);
      assert BeginsWithin(h, age) && !Wanted(h, idleTimeout);
    }
  }

  /** For one stamp and one hold's beginning: the stale stamp covers the hold until the first success, or not. */
  lemma StaleStampHeldIff(c: Pace, k: nat, before: Instant, start: Instant, idleTimeout: Duration)
    requires ValidPace(c) && Stale(before, start, c)
    ensures
      (forall h :: Occurs(h, c, k) && h.ticks[0].now == start && h.stamp == before ==> Wanted(h, idleTimeout)) <==>
        (StaleRead(c, k) ==> start + Outlasts(c, k) - WholeSecond(before) < idleTimeout)
  {
    hide HeldTicks, AfterTicks, Visible, Outlasts, StaleRead;
    if StaleRead(c, k) ==> start + Outlasts(c, k) - WholeSecond(before) < idleTimeout {
      forall h | Occurs(h, c, k) && h.ticks[0].now == start && h.stamp == before
        ensures Wanted(h, idleTimeout)
      {
        DemandOutlivesHold(h, c, k);
      }
    } else {
      var h := StaleMoment(c, k, before, start);
      assert !Wanted(h, idleTimeout);
    }
  }

  /** The stamp a hold begins on, if any, is alive at its first tick. */
  predicate BeginsAlive(h: Moment, idleTimeout: Duration)
    requires h.ticks != []
  {
    h.before.Some? ==> HasDemand(Some(WholeSecond(h.before.value)), idleTimeout, h.ticks[0].now)
  }

  /**
   Against every stamp that is alive when the hold begins no failure at all is proof: demand never lapses if and
   only if no patch fails or takes time, and the cadence alone keeps the hold's own stamps.
   */
  lemma LiveStampHeldIff(c: Pace, k: nat, idleTimeout: Duration)
    requires ValidPace(c) && idleTimeout > c.cooldown + SECOND
    ensures
      (forall h :: Occurs(h, c, k) && BeginsAlive(h, idleTimeout) ==> Wanted(h, idleTimeout)) <==>
        WorstAge(c, k) < idleTimeout && k == 0 && c.latency <= 1
  {
    Scale(0, k, c.gap);
    if k > 0 {
      Scale(1, k, c.gap);
    }
    hide HeldTicks, AfterTicks, Visible, WorstAge;
    if WorstAge(c, k) >= idleTimeout {
      var h := WorstMoment(c, k);
      assert BeginsAlive(h, idleTimeout) && !Wanted(h, idleTimeout);
    } else if k > 0 || c.latency > 1 {
      var h := StaleMoment(c, k, SECOND, SECOND + idleTimeout - 1);
      assert BeginsAlive(h, idleTimeout) && !Wanted(h, idleTimeout);
    } else {
      forall h | Occurs(h, c, k) && BeginsAlive(h, idleTimeout)
        ensures Wanted(h, idleTimeout)
      {
        DemandOutlivesHold(h, c, k);
        if Stale(h.stamp, h.ticks[0].now, c) {
          StampsInHold(h, c, k);
        }
      }
    }
  }

  // ---------------------------------------------------------------- the proxy's own pace

  const DEFAULT_COOLDOWN := 5 * SECOND

  /** The proxy's cadence and default cooldown, with patches that take up to `latency` on top of the cadence. */
  function ProxyPace(idleTimeout: Duration, ceiling: Duration, latency: Duration): Pace {
    Pace(DEFAULT_COOLDOWN, RefreshInterval(idleTimeout, ceiling) + latency, latency)
  }

  /** A hold that begins on no stamp, or on one that still suppresses its first tick. */
  ghost predicate FreshHoldsLast(spec: Spec, ceiling: Duration, latency: Duration, k: nat) {
    NeverLapses(ProxyPace(spec.idleTimeout, ceiling, latency), k, DEFAULT_COOLDOWN, spec.idleTimeout)
  }

  /** How many failures, how slow and how seldom, such a hold survives at the proxy's pace. */
  lemma FailuresSurvivedIff(spec: Spec, ceiling: Duration, latency: Duration, k: nat)
    requires ValidSpec(spec) && latency >= 0
    ensures FreshHoldsLast(spec, ceiling, latency, k) <==>
      var gap := RefreshInterval(spec.idleTimeout, ceiling) + latency;
      (k + 1) * gap + Max(latency - 1, 0) + 6 * SECOND - 2 < spec.idleTimeout
  {
    DemandHeldIff(ProxyPace(spec.idleTimeout, ceiling, latency), k, DEFAULT_COOLDOWN, spec.idleTimeout);
  }

  /** With patches that take no time such a hold survives eight in a row, whatever the idleTimeout of a valid spec. */
  lemma EightFailuresSurvived(spec: Spec, ceiling: Duration, k: nat)
    requires ValidSpec(spec) && k <= 8
    ensures FreshHoldsLast(spec, ceiling, 0, k)
  {
    var gap := RefreshInterval(spec.idleTimeout, ceiling);
    Scale(k + 1, 9, gap);
    FailuresSurvivedIff(spec, ceiling, 0, k);
  }

  /** With patches that take any time at all it does not at the one-minute floor. */
  lemma EightSlowFailuresCanLapse(spec: Spec, latency: Duration)
    requires ValidSpec(spec) && spec.idleTimeout == MIN_IDLE_TIMEOUT && latency > 0
    ensures !FreshHoldsLast(spec, 0, latency, 8)
  {
    FailuresSurvivedIff(spec, 0, latency, 8);
  }

  /**
   Nine quick failures are survived if and only if the operator's ceiling cuts the cadence short enough; the
   tenth of idleTimeout alone, meant to leave that margin, never does.
   */
  lemma NineFailuresSurvivedIff(spec: Spec, ceiling: Duration)
    requires ValidSpec(spec)
    ensures FreshHoldsLast(spec, ceiling, 0, 9) <==>
      0 < ceiling && 10 * ceiling < spec.idleTimeout - 6 * SECOND + 2
  {
    FailuresSurvivedIff(spec, ceiling, 0, 9);
  }

  /**
   One failure is enough when the hold begins on an older stamp: at the one-minute floor, a stamp 55 seconds old
   is alive at the first tick, whose patch fails, and expired 5 seconds later, before the next.
   */
  lemma OneFailureCanLapse(c: Pace) returns (h: Moment)
    requires c == ProxyPace(MIN_IDLE_TIMEOUT, 0, 0)
    ensures Occurs(h, c, 1) && |h.ticks| == 1 && BeginsAlive(h, MIN_IDLE_TIMEOUT)
    ensures h.ticks[0].now - h.stamp == 55 * SECOND && h.x == h.ticks[0].now + 5 * SECOND
    ensures !Wanted(h, MIN_IDLE_TIMEOUT)
  {
    var t := Tick(56 * SECOND, false);
    h := Moment(Some(SECOND), [t], 61 * SECOND, SECOND);
    assert [t][..0] == [] && [t][..1] == [t];
    assert AfterTicks(Begin(h.before), [], c.cooldown) == Begin(h.before);
    assert AfterTicks(Begin(h.before), [t], c.cooldown) == Stamps(Some(SECOND), None, 1);
  }
}
