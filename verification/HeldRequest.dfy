/**
 What a hold waits for (internal/proxy/hold.go, handler.go), stated on its script of events and the clock: it ends
 at the first snapshot that no longer blocks unless a commit, the deadline or the end of the context comes first,
 and a request whose Model becomes Ready in time gets the answer.
 */
module HeldRequest {
  import opened Base
  import opened Phase
  import opened Forward
  import opened Handler

  /** How late the first `n` turns of the wait were, together. */
  function Elapsed(script: seq<Frame>, n: nat): nat
    requires n <= |script|
  {
    if n == 0 then 0 else Elapsed(script, n - 1) + script[n - 1].late
  }

  /** The time after the first tick and `n` turns. */
  function TimeAt(q: RequestIn, n: nat): Instant
    requires n <= |q.script|
  {
    q.arrived + q.first.late + Elapsed(q.script, n)
  }

  /** The caller was there and the ceiling not hit at the first tick and for `n` turns. */
  predicate AliveAt(q: RequestIn, n: nat)
    requires n <= |q.script|
  {
    q.first.context.Alive? && forall i :: 0 <= i < n ==> q.script[i].context.Alive?
  }

  predicate CommitAt(q: RequestIn, n: nat)
    requires n <= |q.script|
  {
    q.replayable && Commits(FrameAt(q, n).upstream, FrameAt(q, n).during.phase)
  }

  /** After `n` turns there is no more waiting: an attempt committed, or context, time or script are at their end. */
  predicate NoMoreWaiting(q: RequestIn, deadline: Instant, n: nat)
    requires n <= |q.script|
  {
    CommitAt(q, n) || !AliveAt(q, n) || deadline <= TimeAt(q, n) || n == |q.script|
  }

  /** The hold waited through turn `m`: the snapshot before it blocked, and nothing cut the waiting short. */
  predicate WaitsThrough(q: RequestIn, deadline: Instant, m: nat)
    requires m < |q.script|
  {
    Blocking(FrameAt(q, m).next) && !NoMoreWaiting(q, deadline, m) && !BrokenOff(q, m)
  }

  /** The hold stands as `w` after `w.used` whole turns. */
  ghost predicate Stands(q: RequestIn, w: Holding) {
    && w.used <= |q.script|
    && w.now == TimeAt(q, w.used)
    && (w.context.Alive? <==> AliveAt(q, w.used))
    && w.snap == FrameAt(q, w.used).next
    && (w.committed <==> CommitAt(q, w.used))
  }

  /**
   `w` is where the hold ends: it waited through every turn before the last; the last was broken off, or a whole
   turn after which the snapshot no longer blocks, or one after which there is no more waiting.
   */
  ghost predicate EndsAt(q: RequestIn, deadline: Instant, w: Holding) {
    && w.used <= |q.script|
    && w.now == TimeAt(q, w.used)
    && (w.context.Alive? <==> AliveAt(q, w.used))
    && w.snap == FrameAt(q, w.used).next
    && if w.used > 0 && BrokenOff(q, w.used - 1) then
         && (forall m :: 0 <= m < w.used - 1 ==> WaitsThrough(q, deadline, m))
         && Blocking(FrameAt(q, w.used - 1).next)
         && !NoMoreWaiting(q, deadline, w.used - 1)
         && w.timedOut
         && !w.committed
       else
         && (forall m :: 0 <= m < w.used ==> WaitsThrough(q, deadline, m))
         && (w.committed <==> CommitAt(q, w.used))
         && (w.timedOut <==> Blocking(w.snap))
         && (w.timedOut ==> NoMoreWaiting(q, deadline, w.used))
  }

  lemma TurnTaken(q: RequestIn, w: Holding)
    requires Stands(q, w) && w.used < |q.script|
    ensures
      var next := NextTurn(q, w, q.script[w.used]);
      Stands(q, next) && (next.timedOut <==> BrokenOff(q, w.used))
  {
  }

  lemma {:induction false} HoldFromEnds(q: RequestIn, deadline: Instant, w: Holding)
    requires Stands(q, w) && Blocking(w.snap) && !w.timedOut
    requires forall m :: 0 <= m < w.used ==> WaitsThrough(q, deadline, m)
    ensures EndsAt(q, deadline, HoldFrom(q, deadline, w))
    decreases |q.script| - w.used
  {
    assert w.used > 0 ==> WaitsThrough(q, deadline, w.used - 1);
    if !NoMoreWaiting(q, deadline, w.used) {
      TurnTaken(q, w);
      var next := NextTurn(q, w, q.script[w.used]);
      if !next.timedOut && Blocking(next.snap) {
        HoldFromEnds(q, deadline, next);
      }
      hide NextTurn, TimeAt, AliveAt, CommitAt, Blocking;
    }
  }

  /** What the script and the clock make of every hold. */
  lemma HoldEnds(q: RequestIn, deadline: Instant)
    ensures EndsAt(q, deadline, HoldEnd(q, deadline))
  {
    assert Stands(q, FirstTurn(q));
    if Blocking(q.first.next) {
      HoldFromEnds(q, deadline, FirstTurn(q));
    }
  }

  /** Every snapshot read before the end of the hold blocks. */
  lemma SnapshotsBlockBeforeEnd(q: RequestIn, deadline: Instant, m: nat)
    requires m < HoldEnd(q, deadline).used
    ensures m < |q.script| && Blocking(FrameAt(q, m).next)
  {
    HoldEnds(q, deadline);
    var w := HoldEnd(q, deadline);
    assert m < w.used - 1 ==> WaitsThrough(q, deadline, m);
    assert !BrokenOff(q, w.used - 1) ==> WaitsThrough(q, deadline, m);
    hide HoldEnd;
  }

  /** After `m` turns waited through, the snapshot no longer blocks. */
  ghost predicate UnblockedAt(q: RequestIn, deadline: Instant, m: nat) {
    && m <= |q.script|
    && (forall k :: 0 <= k < m ==> WaitsThrough(q, deadline, k))
    && !Blocking(FrameAt(q, m).next)
  }

  /** A hold returns without timeout if and only if some snapshot unblocks it, and then the first that does. */
  lemma HoldReturnsFirstUnblocked(q: RequestIn, deadline: Instant, m: nat)
    requires UnblockedAt(q, deadline, m)
    ensures
      var w := HoldEnd(q, deadline);
      && w.used == m
      && !w.timedOut
      && w.snap == FrameAt(q, m).next
      && w.now == TimeAt(q, m)
      && (w.committed <==> CommitAt(q, m))
      && (w.context.Alive? <==> AliveAt(q, m))
  {
    HoldEnds(q, deadline);
    var w := HoldEnd(q, deadline);
    hide HoldEnd, NoMoreWaiting, TimeAt, AliveAt, CommitAt, Blocking;
    assert m > 0 ==> WaitsThrough(q, deadline, m - 1);
    assert w.used < m ==> WaitsThrough(q, deadline, w.used);
    assert 0 < w.used < m ==> WaitsThrough(q, deadline, w.used - 1);
    if w.used > m {
      SnapshotsBlockBeforeEnd(q, deadline, m);
    }
  }

  lemma TimedOutIff(q: RequestIn, deadline: Instant)
    ensures !HoldEnd(q, deadline).timedOut <==> exists m :: UnblockedAt(q, deadline, m)
  {
    HoldEnds(q, deadline);
    var w := HoldEnd(q, deadline);
    if !w.timedOut {
      assert UnblockedAt(q, deadline, w.used);
    }
    if m :| UnblockedAt(q, deadline, m) {
      HoldReturnsFirstUnblocked(q, deadline, m);
    }
  }

  /**
   A held request whose Model becomes Ready before anything breaks off its wait, and whose next attempt is
   answered, gets that answer and no status of the proxy's own (an upstream 403 alone becomes a 502).
   */
  lemma HeldRequestIsServed(q: RequestIn, m: nat, r: Outcome)
    requires Ends(q, r) && Holds(q)
    requires UnblockedAt(q, q.arrived + q.holdTimeout, m) && !CommitAt(q, m) && AliveAt(q, m)
    requires FrameAt(q, m).next == Snap(true, Ready) && Deliverable(q.direct.upstream, Ready)
    ensures r.statuses == [if q.direct.upstream.status == 403 then 502 else q.direct.upstream.status]
    ensures q.direct.upstream.status != 403 ==> r.delivered == Some(Tried(q.direct.upstream, Ready))
  {
    HoldReturnsFirstUnblocked(q, Deadline(q), m);
    CommitsOnlyDeliverable(q.direct.upstream, Ready);
    hide HoldEnd, StaysInBudget, Judges, UnblockedAt, CommitAt, AliveAt;
  }

  /** And one whose attempt commits while it waits gets that attempt's answer. */
  lemma CommitWhileHoldingIsServed(q: RequestIn, r: Outcome)
    requires Ends(q, r) && Holds(q) && HoldEnd(q, Deadline(q)).committed
    ensures
      var n := HoldEnd(q, Deadline(q)).used;
      && n <= |q.script|
      && CommitAt(q, n)
      && r.statuses == [if FrameAt(q, n).upstream.status == 403 then 502 else FrameAt(q, n).upstream.status]
      && (FrameAt(q, n).upstream.status != 403 ==> r.delivered == Some(AttemptAt(q, n)))
  {
    HoldEnds(q, Deadline(q));
    hide HoldEnd, StaysInBudget, Judges, WaitsThrough, NoMoreWaiting;
  }

  /** And one whose Model is Ready before its route is gets the answer of the first retry that commits in time. */
  lemma RetriedRequestIsServed(q: RequestIn, r: Outcome, k: nat)
    requires Ends(q, r) && Holds(q) && q.replayable
    requires
      var w := HoldEnd(q, Deadline(q));
      var start, was := w.now + q.direct.late, Worse(w.context, q.direct.context);
      && !w.committed && !w.context.CeilingHit? && w.snap == Snap(true, Ready)
      && !Commits(q.direct.upstream, Ready)
      && RetriesFail(q, w.used, start, Deadline(q), was, k)
      && RetryDue(q, w.used, start, Deadline(q), was, k)
      && Serving(q.script[w.used + k].during)
      && RetryCommits(q, w.used, k)
    ensures
      var f := q.script[HoldEnd(q, Deadline(q)).used + k];
      r.statuses == [if f.upstream.status == 403 then 502 else f.upstream.status]
  {
    var w := HoldEnd(q, Deadline(q));
    var start, was := w.now + q.direct.late, Worse(w.context, q.direct.context);
    var n := |r.tried| - AttemptsBy(q, w) - 1;
    CommitsOnce(q, w.used, start, Deadline(q), was, n, r.gaveUp, k);
    hide HoldEnd, StaysInBudget, Judges, RetryEnds, RetriesFail, RetryDue;
  }

  /** Which requests are held: for a Model that is down or on its way up, may be scheduled, and has a slot free. */
  lemma HoldsIff(q: RequestIn)
    ensures Holds(q) <==>
      && q.bodyStatus == 0
      && q.snap.hasCR
      && q.snap.phase in {Asleep, Waking, Recreating, Dead}
      && q.schedulable
      && q.slot
  {
  }

  /**
   The verdict by what happened: an answer that reached the client in full credits the replica if its status is a
   2xx and charges it if not; one that was cut off, or that was not handed over, leaves none; a forward that got no
   answer charges it while the caller is there and the ceiling not hit, if the last attempt had a route; and a
   request that was not forwarded leaves none.
   */
  lemma VerdictMeans(q: RequestIn, r: Outcome)
    requires Ends(q, r)
    ensures r.delivered.Some? ==>
      var status := r.delivered.value.upstream.status;
      && (r.verdict == Credited <==> q.delivery.InFull? && 200 <= status <= 299)
      && (r.verdict == Charged <==> q.delivery.InFull? && !(200 <= status <= 299))
    ensures r.delivered.None? ==> r.verdict != Credited
    ensures LastCommits(r.tried) && r.delivered.None? ==> r.verdict == NoVerdict
    ensures AllRetry(r.tried) && r.forwardDecided && r.tried != [] && !r.tried[|r.tried| - 1].upstream.NoRoute? ==>
      (r.verdict == Charged <==> r.context.Alive?)
    ensures AllRetry(r.tried) && (!r.forwardDecided || !r.context.Alive?) ==> r.verdict == NoVerdict
  {
    hide StaysInBudget, TakesItsWay, LosesError;
  }
}
