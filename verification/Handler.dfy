/**
 One request through the proxy (internal/proxy/handler.go, hold.go): hold, retry, commit, and the health
 verdict it leaves behind. Everything the proxy reads while serving it comes from a script of frames, so a
 statement about Serve is a statement about every upstream behaviour and every phase history.
 */
module Handler {
  import opened Base
  import opened Phase
  import opened Forward

  /** The informer cache's answer; an absent Model reads as the zero snapshot. */
  datatype Snap = Snap(hasCR: bool, phase: ModelPhase)

  datatype Context = Alive | CallerGone | CeilingHit

  /** What ends one wait of the hold loop. */
  datatype Select = ContextDone | DeadlinePassed | Notified | RefreshTick

  /** One turn: what woke the loop and how late, the phase the attempt reads, what it meets, the cache's next answer. */
  datatype Frame = Frame(select: Select, late: nat, during: Snap, upstream: Upstream, context: Context, next: Snap)

  datatype Tried = Tried(upstream: Upstream, phase: ModelPhase)

  /** How streaming a committed answer to the client went. */
  datatype Delivery = InFull | CallerDropped | CeilingCut

  datatype RequestIn = RequestIn(
    bodyStatus: int,
    snap: Snap,
    schedulable: bool,
    replayable: bool,
    slot: bool,
    holdTimeout: Duration,
    idleTimeout: Duration,
    ceiling: Duration,
    arrived: Instant,
    first: Frame,
    script: seq<Frame>,
    direct: Frame,
    delivery: Delivery
  )

  datatype Verdict = NoVerdict | Credited | Charged

  /** Why retryForward gave up. `noRoute` is about the last retry; a retry that never ran has no route to miss. */
  datatype GaveUp = DeadlineReached(noRoute: bool) | ContextEnded | StoppedServing

  /**
   What became of a request: the statuses written to the client, the upstream answer handed over, every
   attempt made, the retries after a hold with the time they had, and the health verdict left behind.
   */
  datatype Outcome = Outcome(
    statuses: seq<int>,
    delivered: Option<Tried>,
    tried: seq<Tried>,
    held: bool,
    retries: nat,
    budget: Duration,
    gaveUp: Option<GaveUp>,
    forwardDecided: bool,
    context: Context,
    verdict: Verdict
  )

  const FRACTION := 10
  const FLOOR := SECOND / 2

  /** refreshIntervalFor */
  function RefreshInterval(idleTimeout: Duration, ceiling: Duration): (r: Duration)
    ensures idleTimeout > 0 ==> r > 0
    ensures idleTimeout >= FRACTION * FLOOR ==> FRACTION * r <= idleTimeout
    ensures ceiling > 0 ==> r <= ceiling
    ensures idleTimeout > 0 && r != ceiling ==> r >= SECOND / 2 && r >= idleTimeout / 10
    ensures idleTimeout > 0 && r != ceiling ==> r == SECOND / 2 || r == idleTimeout / 10
    ensures idleTimeout <= 0 ==> r == ceiling
    ensures idleTimeout > 0 && r == ceiling ==> ceiling <= Max(SECOND / 2, idleTimeout / 10)
  {
    if idleTimeout <= 0 then ceiling
    else
      var interval := if idleTimeout / FRACTION < FLOOR then FLOOR else idleTimeout / FRACTION;
      if ceiling > 0 && interval > ceiling then ceiling else interval
  }

  function Worse(c: Context, d: Context): Context {
    if c.Alive? then d else c
  }

  /** None of these attempts got an answer worth committing. */
  predicate AllRetry(tried: seq<Tried>) {
    forall i :: 0 <= i < |tried| ==> !Commits(tried[i].upstream, tried[i].phase)
  }

  /** Only the last of these attempts was committed. */
  predicate LastCommits(tried: seq<Tried>) {
    && tried != []
    && Commits(tried[|tried| - 1].upstream, tried[|tried| - 1].phase)
    && AllRetry(tried[..|tried| - 1])
  }

  /** The last of these attempts found no backend URL. */
  predicate NoRouteLast(tried: seq<Tried>) {
    tried != [] && tried[|tried| - 1].upstream.NoRoute?
  }

  predicate Blocking(s: Snap) {
    DecideRequest(s.phase, s.hasCR, 0).block
  }

  predicate Serving(s: Snap) {
    DecideRequest(s.phase, s.hasCR, 0).immediateStatus == 0
  }

  /** A hold after `used` frames of the script. */
  datatype Holding = Holding(used: nat, now: Instant, context: Context, snap: Snap, committed: bool, timedOut: bool)

  function FirstTurn(q: RequestIn): Holding {
    Holding(0, q.arrived + q.first.late, q.first.context, q.first.next,
            q.replayable && Commits(q.first.upstream, q.first.during.phase), false)
  }

  function NextTurn(q: RequestIn, w: Holding, f: Frame): Holding {
    Holding(w.used + 1, w.now + f.late, Worse(w.context, f.context), f.next,
            q.replayable && Commits(f.upstream, f.during.phase), f.select.ContextDone? || f.select.DeadlinePassed?)
  }

  /** Where the hold loop ends from `w`. */
  function HoldFrom(q: RequestIn, deadline: Instant, w: Holding): Holding
    decreases |q.script| - w.used
  {
    if w.committed || !w.context.Alive? || deadline <= w.now || w.used >= |q.script| then w.(timedOut := true)
    else
      var next := NextTurn(q, w, q.script[w.used]);
      if next.timedOut then next.(committed := false)
      else if !Blocking(next.snap) then next
      else HoldFrom(q, deadline, next)
  }

  /** One turn of that. */
  lemma HoldTurn(q: RequestIn, deadline: Instant, w: Holding)
    requires w.used <= |q.script|
    ensures HoldFrom(q, deadline, w) ==
      if w.committed || !w.context.Alive? || deadline <= w.now || w.used == |q.script| then w.(timedOut := true)
      else
        var next := NextTurn(q, w, q.script[w.used]);
        if next.timedOut then next.(committed := false)
        else if !Blocking(next.snap) then next
        else HoldFrom(q, deadline, next)
  {
  }

  /** What the script makes of a hold until `deadline`. */
  function HoldEnd(q: RequestIn, deadline: Instant): Holding {
    if Blocking(q.first.next) then HoldFrom(q, deadline, FirstTurn(q)) else FirstTurn(q)
  }

  /** The frame read last after `n` turns. */
  function FrameAt(q: RequestIn, n: nat): Frame
    requires n <= |q.script|
  {
    if n == 0 then q.first else q.script[n - 1]
  }

  /** Turn `n` is one in which the wait is broken off: the context ends, or the deadline's timer fires. */
  predicate BrokenOff(q: RequestIn, n: nat)
    requires n < |q.script|
  {
    q.script[n].select.ContextDone? || q.script[n].select.DeadlinePassed?
  }

  /** What the attempt made with that frame met, and under which phase. */
  function AttemptAt(q: RequestIn, n: nat): Tried
    requires n <= |q.script|
  {
    Tried(FrameAt(q, n).upstream, FrameAt(q, n).during.phase)
  }

  /** `tried` are the attempts of the first tick and the turns after it. */
  predicate AttemptsOf(q: RequestIn, tried: seq<Tried>) {
    |tried| <= |q.script| + 1 && forall i :: 0 <= i < |tried| ==> tried[i] == AttemptAt(q, i)
  }

  lemma OneMoreAttempt(q: RequestIn, tried: seq<Tried>)
    requires AttemptsOf(q, tried) && |tried| <= |q.script|
    ensures AttemptsOf(q, tried + [AttemptAt(q, |tried|)])
  {
  }

  /** How many attempts a hold that ended as `w` has made. */
  function AttemptsBy(q: RequestIn, w: Holding): nat
    requires w.used <= |q.script|
  {
    if !q.replayable then 0 else if w.used > 0 && BrokenOff(q, w.used - 1) then w.used else w.used + 1
  }

  /**
   Await with the handler's tick: block until the cache no longer says so, the deadline passes, the context
   ends, or an attempt commits. A return without timeout carries a snapshot that no longer blocks.
   */
  method Hold(q: RequestIn, deadline: Instant) returns (w: Holding, tried: seq<Tried>)
    ensures w == HoldEnd(q, deadline)
    ensures if w.committed then LastCommits(tried) else AllRetry(tried)
    ensures !w.timedOut ==> !Blocking(w.snap)
    ensures w.used <= |q.script| && w.now >= q.arrived
    ensures AttemptsOf(q, tried) && |tried| == AttemptsBy(q, w)
    ensures w.committed ==> |tried| == w.used + 1
  {
    w := Holding(0, q.arrived + q.first.late, q.first.context, q.first.next, false, false);
    tried := [];
    if q.replayable {
      tried := [Tried(q.first.upstream, q.first.during.phase)];
      w := w.(committed := Commits(q.first.upstream, q.first.during.phase));
    }
    if Blocking(w.snap) {
      w, tried := WaitOn(q, deadline, w, tried);
    }
  }

  /** The select loop of Await, from `was` on. */
  method WaitOn(q: RequestIn, deadline: Instant, was: Holding, before: seq<Tried>)
    returns (w: Holding, tried: seq<Tried>)
    requires was.used == 0 && !was.timedOut && was.now >= q.arrived && (was.committed ==> q.replayable)
    requires if was.committed then LastCommits(before) else AllRetry(before)
    requires AttemptsOf(q, before) && |before| == if q.replayable then 1 else 0
    ensures w == HoldFrom(q, deadline, was)
    ensures if w.committed then LastCommits(tried) else AllRetry(tried)
    ensures !w.timedOut ==> !Blocking(w.snap)
    ensures w.used <= |q.script| && w.now >= q.arrived
    ensures AttemptsOf(q, tried) && |tried| == AttemptsBy(q, w)
    ensures w.committed ==> |tried| == w.used + 1
  {
    w, tried := was, before;
    hide Commits, AllRetry, LastCommits, AttemptsOf, Blocking, HoldFrom;
    while true
      invariant w.used <= |q.script| && w.now >= q.arrived && !w.timedOut && (w.committed ==> q.replayable)
      invariant if w.committed then LastCommits(tried) else AllRetry(tried)
      invariant HoldFrom(q, deadline, w) == HoldFrom(q, deadline, was)
      invariant w.used > 0 ==> !BrokenOff(q, w.used - 1)
      invariant AttemptsOf(q, tried) && |tried| == if q.replayable then w.used + 1 else 0
      decreases |q.script| - w.used
    {
      HoldTurn(q, deadline, w);
      // Committing cancels the hold; a cancelled or expired context ends it too.
      if w.committed || !w.context.Alive? || deadline - w.now <= 0 || w.used == |q.script| {
        return w.(timedOut := true), tried;
      }
      var f := q.script[w.used];
      w := w.(used := w.used + 1, now := w.now + f.late, context := Worse(w.context, f.context), snap := f.next);
      if f.select.ContextDone? || f.select.DeadlinePassed? {
        return w.(timedOut := true), tried;
      }
      if q.replayable {
        OneMoreTried(tried, Tried(f.upstream, f.during.phase));
        OneMoreAttempt(q, tried);
        tried := tried + [Tried(f.upstream, f.during.phase)];
        w := w.(committed := Commits(f.upstream, f.during.phase));
      }
      if !Blocking(w.snap) {
        return;
      }
    }
  }

  /** n waits of r each. */
  ghost function Waits(n: nat, r: Duration): Duration {
    if n == 0 then 0 else Waits(n - 1, r) + r
  }

  lemma {:induction false} WaitsIsProduct(n: nat, r: Duration)
    ensures Waits(n, r) == n * r
  {
    if n > 0 {
      WaitsIsProduct(n - 1, r);
      assert n * r == (n - 1) * r + r;
    }
  }

  /** The hold's own cadence, or a second where that is not positive. */
  function RetryInterval(q: RequestIn): (interval: Duration)
    ensures interval > 0
    ensures q.idleTimeout > 0 || q.ceiling > 0 ==> interval == RefreshInterval(q.idleTimeout, q.ceiling)
    ensures q.idleTimeout <= 0 && q.ceiling <= 0 ==> interval == SECOND
  {
    var r := RefreshInterval(q.idleTimeout, q.ceiling);
    if r <= 0 then SECOND else r
  }

  /** Every retry but the last slept a whole interval inside the budget. */
  ghost predicate WithinBudget(retries: nat, interval: Duration, budget: Duration) {
    retries == 0 || (retries - 1) * interval < budget
  }

  /** How long one retry waits: the interval, or what is left if that is less. */
  function Wait(refresh: Duration, remaining: Duration): (r: Duration)
    ensures r <= refresh && r <= remaining && (r == refresh || r == remaining)
  {
    if refresh > remaining then remaining else refresh
  }

  /** The time after `n` retries: each waits an interval, or what is left before the deadline, and then some. */
  function RetryTime(q: RequestIn, from: nat, start: Instant, deadline: Instant, n: nat): Instant
    requires from + n <= |q.script|
  {
    if n == 0 then start
    else
      var before := RetryTime(q, from, start, deadline, n - 1);
      before + Wait(RetryInterval(q), deadline - before) + q.script[from + n - 1].late
  }

  predicate RetryAlive(q: RequestIn, from: nat, was: Context, n: nat)
    requires from + n <= |q.script|
  {
    was.Alive? && forall i :: from <= i < from + n ==> q.script[i].context.Alive?
  }

  /** Retry `n` comes about: there is time left, the context is alive, and the wait is not cut short. */
  predicate RetryDue(q: RequestIn, from: nat, start: Instant, deadline: Instant, was: Context, n: nat) {
    && from + n < |q.script|
    && RetryTime(q, from, start, deadline, n) < deadline
    && RetryAlive(q, from, was, n)
    && !q.script[from + n].select.ContextDone?
  }

  predicate RetryCommits(q: RequestIn, from: nat, n: nat)
    requires from + n < |q.script|
  {
    Commits(q.script[from + n].upstream, q.script[from + n].during.phase)
  }

  /** The first `n` retries come about, find the Model serving, and fail. */
  ghost predicate RetriesFail(q: RequestIn, from: nat, start: Instant, deadline: Instant, was: Context, n: nat) {
    && from + n <= |q.script|
    && forall k :: 0 <= k < n ==>
         RetryDue(q, from, start, deadline, was, k) && Serving(q.script[from + k].during) && !RetryCommits(q, from, k)
  }

  /** Retry `n` comes about after `n` failures and finds that the Model has stopped serving. */
  ghost predicate StopsAt(q: RequestIn, from: nat, start: Instant, deadline: Instant, was: Context, n: nat) {
    && RetriesFail(q, from, start, deadline, was, n)
    && RetryDue(q, from, start, deadline, was, n)
    && !Serving(q.script[from + n].during)
  }

  /** The script makes retryForward give up because the Model stopped serving. */
  ghost predicate RetryStops(q: RequestIn, from: nat, start: Instant, deadline: Instant, was: Context) {
    exists n :: StopsAt(q, from, start, deadline, was, n)
  }

  /** What ended the retries, after `n` attempts: a commit, the deadline, the end of the context, or the Model. */
  ghost predicate RetryEnds(q: RequestIn, from: nat, start: Instant, deadline: Instant, was: Context,
                            n: nat, why: Option<GaveUp>)
  {
    match why
    case None =>
      && n > 0
      && RetriesFail(q, from, start, deadline, was, n - 1)
      && RetryDue(q, from, start, deadline, was, n - 1)
      && Serving(q.script[from + n - 1].during)
      && RetryCommits(q, from, n - 1)
    case Some(DeadlineReached(_)) =>
      RetriesFail(q, from, start, deadline, was, n) && deadline <= RetryTime(q, from, start, deadline, n)
    case Some(StoppedServing) => StopsAt(q, from, start, deadline, was, n)
    case Some(ContextEnded) =>
      && RetriesFail(q, from, start, deadline, was, n)
      && RetryTime(q, from, start, deadline, n) < deadline
      && !RetryDue(q, from, start, deadline, was, n)
  }

  /** The retries stand after `n` failures. */
  ghost predicate RetriesStand(q: RequestIn, from: nat, start: Instant, deadline: Instant, was: Context,
                               n: nat, now: Instant, context: Context)
  {
    && RetriesFail(q, from, start, deadline, was, n)
    && now == RetryTime(q, from, start, deadline, n)
    && (context.Alive? <==> RetryAlive(q, from, was, n))
  }

  /** One turn from there: the ways to end, or one failure more. */
  lemma RetryTurn(q: RequestIn, from: nat, start: Instant, deadline: Instant, was: Context,
                  n: nat, now: Instant, context: Context, noRoute: bool)
    requires RetriesStand(q, from, start, deadline, was, n, now, context)
    ensures from + n <= |q.script|
    ensures
      var i := from + n;
      if deadline <= now then RetryEnds(q, from, start, deadline, was, n, Some(DeadlineReached(noRoute)))
      else if !context.Alive? || i == |q.script| || q.script[i].select.ContextDone? then
        RetryEnds(q, from, start, deadline, was, n, Some(ContextEnded))
      else if !Serving(q.script[i].during) then RetryEnds(q, from, start, deadline, was, n, Some(StoppedServing))
      else if Commits(q.script[i].upstream, q.script[i].during.phase) then
        RetryEnds(q, from, start, deadline, was, n + 1, None)
      else
        RetriesStand(q, from, start, deadline, was, n + 1,
                     now + Wait(RetryInterval(q), deadline - now) + q.script[i].late,
                     Worse(context, q.script[i].context))
  {
    hide RetryInterval, Commits, Serving;
  }

  lemma EarlierFails(q: RequestIn, from: nat, start: Instant, deadline: Instant, was: Context, n: nat, k: nat)
    requires RetriesFail(q, from, start, deadline, was, n) && k < n
    ensures RetryDue(q, from, start, deadline, was, k)
    ensures Serving(q.script[from + k].during) && !RetryCommits(q, from, k)
  {
  }

  /** If the retries stop for the Model at `k`, they end nowhere else. */
  lemma StopsOnce(q: RequestIn, from: nat, start: Instant, deadline: Instant, was: Context,
                  n: nat, why: Option<GaveUp>, k: nat)
    requires RetryEnds(q, from, start, deadline, was, n, why) && StopsAt(q, from, start, deadline, was, k)
    ensures why == Some(StoppedServing) && n == k
  {
    hide RetryAlive, RetryInterval, Serving, Commits, RetryTime;
    var m := if why.None? then n - 1 else n;
    if m < k {
      EarlierFails(q, from, start, deadline, was, k, m);
    }
  }

  /** And if retry `k` commits, they end there. */
  lemma CommitsOnce(q: RequestIn, from: nat, start: Instant, deadline: Instant, was: Context,
                    n: nat, why: Option<GaveUp>, k: nat)
    requires RetryEnds(q, from, start, deadline, was, n, why)
    requires RetriesFail(q, from, start, deadline, was, k) && RetryDue(q, from, start, deadline, was, k)
    requires Serving(q.script[from + k].during) && RetryCommits(q, from, k)
    ensures why.None? && n == k + 1
  {
    hide RetryAlive, RetryInterval, Serving, Commits, RetryTime;
    var m := if why.None? then n - 1 else n;
    if m < k {
      EarlierFails(q, from, start, deadline, was, k, m);
    }
    if k < m {
      EarlierFails(q, from, start, deadline, was, m, k);
    }
  }

  /** The ways to end exclude each other, whenever they come. */
  lemma StoppedIff(q: RequestIn, from: nat, start: Instant, deadline: Instant, was: Context,
                   n: nat, why: Option<GaveUp>)
    requires RetryEnds(q, from, start, deadline, was, n, why)
    ensures why == Some(StoppedServing) <==> RetryStops(q, from, start, deadline, was)
    ensures n == 0 && why.Some? && why.value.DeadlineReached? <==> deadline <= start
  {
    hide RetryAlive, RetryInterval, Serving, Commits;
    if k: nat :| StopsAt(q, from, start, deadline, was, k) {
      StopsOnce(q, from, start, deadline, was, n, why, k);
    }
    assert !RetryDue(q, from, start, deadline, was, 0) || start < deadline;
  }

  /** `tried` are the attempts made with the frames from `from` on. */
  predicate RetriesOf(q: RequestIn, from: nat, tried: seq<Tried>) {
    && from + |tried| <= |q.script|
    && forall i :: 0 <= i < |tried| ==> tried[i] == Tried(q.script[from + i].upstream, q.script[from + i].during.phase)
  }

  /** retryForward, from the frame `from` on: the last attempt commits, or none does and `why` says what ended it. */
  method RetryForward(q: RequestIn, from: nat, start: Instant, deadline: Instant, was: Context)
    returns (tried: seq<Tried>, why: Option<GaveUp>, retries: nat, context: Context)
    requires from <= |q.script|
    ensures if why.None? then LastCommits(tried) else AllRetry(tried)
    ensures why.Some? && why.value.DeadlineReached? ==>
      (why.value.noRoute <==> NoRouteLast(tried)) && |tried| == retries
    ensures RetryEnds(q, from, start, deadline, was, |tried|, why)
    ensures why == Some(StoppedServing) <==> RetryStops(q, from, start, deadline, was)
    ensures why == Some(ContextEnded) ==> !context.Alive?
    ensures |tried| <= retries && WithinBudget(retries, RetryInterval(q), deadline - start)
    ensures RetriesOf(q, from, tried)
    ensures deadline <= start <==> retries == 0 && why.Some? && why.value.DeadlineReached?
    ensures deadline <= start ==> why == Some(DeadlineReached(false)) && context == was
  {
    var refresh := RetryInterval(q);
    tried, why, retries, context := [], None, 0, was;
    var now, i, noRoute, open := start, from, false, true;
    assert refresh > 0;
    assert AllRetry(tried) && !NoRouteLast(tried) && Waits(0, refresh) == 0;
    assert RetriesStand(q, from, start, deadline, was, 0, now, context);
    hide RetryInterval, RefreshInterval, WithinBudget, Waits, RetryStops, RetryEnds, RetriesStand;
    hide DecideRequest, Commits, AllRetry, LastCommits, NoRouteLast;
    while open
      invariant from <= i <= |q.script|
      invariant |tried| <= retries == i - from && RetriesOf(q, from, tried)
      invariant open || (why.Some? && why.value.DeadlineReached?) ==> |tried| == retries
      invariant if open || why.Some? then AllRetry(tried) else LastCommits(tried)
      invariant noRoute <==> NoRouteLast(tried)
      invariant why.Some? && why.value.DeadlineReached? ==> why.value.noRoute == noRoute
      invariant why == Some(ContextEnded) ==> !context.Alive?
      invariant open ==> RetriesStand(q, from, start, deadline, was, |tried|, now, context)
      invariant !open ==> RetryEnds(q, from, start, deadline, was, |tried|, why)
      invariant open ==> now >= start + Waits(retries, refresh) || now >= deadline
      invariant retries == 0 || Waits(retries - 1, refresh) < deadline - start
      invariant retries == 0 && (open || (why.Some? && why.value.DeadlineReached?)) ==> context == was && !noRoute
      invariant open ==> why.None?
      decreases |q.script| - i, open
    {
      RetryTurn(q, from, start, deadline, was, |tried|, now, context, noRoute);
      var remaining := deadline - now;
      if remaining <= 0 {
        why, open := Some(DeadlineReached(noRoute)), false;
      } else if !context.Alive? || i == |q.script| || q.script[i].select.ContextDone? {
        // Past its end the script has nothing but a caller that leaves.
        why, open, context := Some(ContextEnded), false, Worse(context, CallerGone);
      } else {
        var f := q.script[i];
        i := i + 1;
        now := now + Wait(refresh, remaining) + f.late;
        context := Worse(context, f.context);
        WaitsNext(retries, refresh);
        retries := retries + 1;
        var stopped;
        tried, noRoute, open, stopped := RetryOnce(tried, noRoute, f);
        if stopped {
          why := Some(StoppedServing);
        }
      }
    }
    StoppedIff(q, from, start, deadline, was, |tried|, why);
    BudgetFits(retries, refresh, deadline - start);
  }

  /** One turn after its wait: give up if the Model stopped serving, else try again under the phase read now. */
  method RetryOnce(tried: seq<Tried>, was: bool, f: Frame)
    returns (more: seq<Tried>, noRoute: bool, open: bool, stopped: bool)
    requires AllRetry(tried) && (was <==> NoRouteLast(tried))
    ensures noRoute <==> NoRouteLast(more)
    ensures if open || stopped then AllRetry(more) else LastCommits(more)
    ensures if stopped then !open && more == tried else more == tried + [Tried(f.upstream, f.during.phase)]
    ensures stopped <==> !Serving(f.during)
    ensures !stopped ==> (open <==> !Commits(f.upstream, f.during.phase))
  {
    stopped := !Serving(f.during);
    if stopped {
      return tried, was, false, true;
    }
    OneMoreTried(tried, Tried(f.upstream, f.during.phase));
    hide AllRetry, LastCommits, NoRouteLast;
    more := tried + [Tried(f.upstream, f.during.phase)];
    noRoute := f.upstream.NoRoute?;
    open := !Commits(f.upstream, f.during.phase);
  }

  lemma WaitsNext(n: nat, r: Duration)
    ensures Waits(n + 1, r) == Waits(n, r) + r
  {
  }

  lemma OneMoreTried(tried: seq<Tried>, t: Tried)
    requires AllRetry(tried)
    ensures if Commits(t.upstream, t.phase) then LastCommits(tried + [t]) else AllRetry(tried + [t])
    ensures NoRouteLast(tried + [t]) <==> t.upstream.NoRoute?
  {
    assert (tried + [t])[..|tried|] == tried;
  }

  lemma BudgetFits(retries: nat, interval: Duration, budget: Duration)
    requires retries == 0 || Waits(retries - 1, interval) < budget
    ensures WithinBudget(retries, interval, budget)
  {
    if retries > 0 {
      WaitsIsProduct(retries - 1, interval);
    }
  }

  predicate Is2xx(status: int) {
    200 <= status < 300
  }

  /** The answer reached the client in full. */
  predicate FullyDelivered(q: RequestIn, out: Outcome) {
    out.delivered.Some? && out.delivered.value.upstream.Answered? && q.delivery.InFull?
  }

  /** A request decided Forward that got no answer although the caller stayed and the request ceiling was not hit. */
  predicate Unanswered(out: Outcome) {
    out.forwardDecided && AllRetry(out.tried) && out.context.Alive?
  }

  /** A failure of the replica's: another fully delivered answer than a 2xx, or none although there was a route. */
  predicate RealFailure(q: RequestIn, out: Outcome) {
    || (FullyDelivered(q, out) && !Is2xx(out.delivered.value.upstream.status))
    || (Unanswered(out) && !NoRouteLast(out.tried))
  }

  /**
   The script makes retryForward lose the error of the last attempt: the deadline has passed when it starts, so
   it makes no attempt of its own, or it gives up because the Model stopped serving.
   */
  ghost predicate ForgetsRoute(q: RequestIn, from: nat, start: Instant, deadline: Instant, was: Context) {
    deadline <= start || RetryStops(q, from, start, deadline, was)
  }

  /** A committed answer is handed over as it came, except that 403, an auth fault of squall's own, becomes a 502. */
  predicate HandsOver(out: Outcome) {
    LastCommits(out.tried) ==>
      var t := out.tried[|out.tried| - 1];
      if t.upstream.status == 403 then out.statuses == [502] && out.delivered.None?
      else out.statuses == [t.upstream.status] && out.delivered == Some(t)
  }

  /** commit: hand a committed answer to the client and judge the replica by it. */
  method Commit(q: RequestIn, out: Outcome) returns (r: Outcome)
    requires out.statuses == [] && out.delivered.None? && out.verdict.NoVerdict? && LastCommits(out.tried)
    ensures r == out.(statuses := r.statuses, delivered := r.delivered, verdict := r.verdict)
    ensures |r.statuses| == 1
    ensures r.delivered.Some? ==>
      r.delivered.value == out.tried[|out.tried| - 1] && r.statuses == [r.delivered.value.upstream.status]
    ensures r.verdict.Credited? <==> FullyDelivered(q, r) && Is2xx(r.delivered.value.upstream.status)
    ensures r.verdict.Charged? <==> FullyDelivered(q, r) && !Is2xx(r.delivered.value.upstream.status)
    ensures HandsOver(r)
  {
    var t := out.tried[|out.tried| - 1];
    if t.upstream.status == 403 {
      return out.(statuses := [DecideRequest(Ready, true, 403).immediateStatus]);
    }
    r := out.(statuses := [t.upstream.status], delivered := Some(t));
    if !q.delivery.InFull? {
      return;
    }
    if Is2xx(t.upstream.status) {
      r := r.(verdict := Credited);
    } else {
      r := r.(verdict := Charged);
    }
  }

  /** After `before` attempts and one more that failed, the retries ended as the script makes them end. */
  ghost predicate RetriesFollow(q: RequestIn, from: nat, start: Instant, deadline: Instant, was: Context, before: nat,
                                r: Outcome)
  {
    && |r.tried| > before
    && RetryEnds(q, from, start, deadline, was, |r.tried| - before - 1, r.gaveUp)
    && RetriesOf(q, from, r.tried[before + 1..])
    && (r.gaveUp.None? <==> LastCommits(r.tried))
  }

  /** A request about to be forwarded: nothing is written or judged yet, and no attempt so far has committed. */
  predicate Unsettled(out: Outcome) {
    && out.statuses == [] && out.delivered.None? && out.verdict.NoVerdict?
    && out.gaveUp.None? && out.retries == 0 && AllRetry(out.tried) && !out.forwardDecided
  }

  /** How the attempts of the Forward branch go: one, and retries if that failed after a hold. */
  ghost predicate AttemptsGo(q: RequestIn, out: Outcome, snap: Snap, used: nat, now: Instant, deadline: Instant,
                             r: Outcome)
  {
    var t, start := Tried(q.direct.upstream, snap.phase), now + q.direct.late;
    var was := Worse(out.context, q.direct.context);
    && out.tried + [t] <= r.tried
    && (LastCommits(r.tried) || AllRetry(r.tried))
    && WithinBudget(r.retries, RetryInterval(q), r.budget)
    && r.budget <= Max(0, deadline - now)
    && if Commits(t.upstream, t.phase) then
         r.tried == out.tried + [t] && LastCommits(r.tried) && r.gaveUp.None? && r.retries == 0 && r.context == was
       else if out.held && q.replayable then
         && RetriesFollow(q, used, start, deadline, was, |out.tried|, r)
         && (r.gaveUp == Some(ContextEnded) ==> !r.context.Alive?)
         && (r.gaveUp.Some? && r.gaveUp.value.DeadlineReached? ==>
               (r.gaveUp.value.noRoute <==> r.tried != out.tried + [t] && NoRouteLast(r.tried)))
         && (ForgetsRoute(q, used, start, deadline, was) <==>
               (r.gaveUp.Some? && r.gaveUp.value.DeadlineReached? && r.tried == out.tried + [t])
               || r.gaveUp == Some(StoppedServing))
         && (deadline <= start ==> r.tried == out.tried + [t] && r.context == was)
       else r.tried == out.tried + [t] && AllRetry(r.tried) && r.gaveUp.None? && r.retries == 0 && r.context == was
  }

  lemma RetriesJoin(q: RequestIn, from: nat, start: Instant, deadline: Instant, was: Context, first: seq<Tried>,
                    more: seq<Tried>, r: Outcome)
    requires first != [] && AllRetry(first) && r.tried == first + more && RetriesOf(q, from, more)
    requires RetryEnds(q, from, start, deadline, was, |more|, r.gaveUp)
    requires if r.gaveUp.None? then LastCommits(more) else AllRetry(more)
    ensures RetriesFollow(q, from, start, deadline, was, |first| - 1, r)
    ensures LastCommits(r.tried) <==> r.gaveUp.None?
    ensures r.gaveUp.Some? ==> AllRetry(r.tried)
    ensures NoRouteLast(more) <==> more != [] && NoRouteLast(r.tried)
  {
    JoinTried(first, more);
    hide RetryEnds;
  }

  /** The attempts of the Forward branch. */
  method TryForward(q: RequestIn, out: Outcome, snap: Snap, used: nat, now: Instant, deadline: Instant)
    returns (r: Outcome, committed: bool)
    requires Unsettled(out) && used <= |q.script|
    ensures AttemptsGo(q, out, snap, used, now, deadline, r)
    ensures committed <==> LastCommits(r.tried)
    ensures r == out.(tried := r.tried, forwardDecided := true, retries := r.retries, budget := r.budget,
                      gaveUp := r.gaveUp, context := r.context)
  {
    var t := Tried(q.direct.upstream, snap.phase);
    r := out.(tried := out.tried + [t], forwardDecided := true, budget := 0);
    r := r.(context := Worse(out.context, q.direct.context));
    OneMoreTried(out.tried, t);
    committed := Commits(t.upstream, t.phase);
    assert AllRetry(r.tried) ==> !LastCommits(r.tried);
    hide RetryInterval, Commits, RetryEnds;
    if !committed && out.held && q.replayable {
      var after := now + q.direct.late;
      var more, why, retries, context := RetryForward(q, used, after, deadline, r.context);
      var first := r.tried;
      r := r.(tried := first + more, retries := retries, budget := Max(0, deadline - after));
      r := r.(gaveUp := why, context := context);
      RetriesJoin(q, used, after, deadline, Worse(out.context, q.direct.context), first, more, r);
      hide AllRetry, LastCommits, NoRouteLast, RetryStops, RetriesFollow, RetriesOf;
      committed := why.None?;
    }
  }

  /** How the Forward branch settles a request: its attempts, the one status or none, and the verdict. */
  ghost predicate ForwardEnds(q: RequestIn, out: Outcome, snap: Snap, used: nat, now: Instant, deadline: Instant,
                              r: Outcome)
  {
    && AttemptsGo(q, out, snap, used, now, deadline, r)
    && r.held == out.held
    && r.forwardDecided
    && |r.statuses| <= 1
    && (r.statuses == [] ==> r.context.CallerGone?)
    && (r.delivered.Some? ==> LastCommits(r.tried) && r.delivered.value == r.tried[|r.tried| - 1]
                              && r.statuses == [r.delivered.value.upstream.status])
    && HandsOver(r)
    && (AllRetry(r.tried) && r.statuses != [] ==> r.statuses == [503])
    && (r.verdict.Credited? <==> FullyDelivered(q, r) && Is2xx(r.delivered.value.upstream.status))
    && (r.verdict.Charged? <==>
          || RealFailure(q, r)
          || (Unanswered(r) && out.held && q.replayable &&
              ForgetsRoute(q, used, now + q.direct.late, deadline, Worse(out.context, q.direct.context))))
  }

  /** The Forward branch of ServeHTTP, after any hold. `out.tried` are the attempts made while holding. */
  method ForwardNow(q: RequestIn, out: Outcome, snap: Snap, used: nat, now: Instant, deadline: Instant)
    returns (r: Outcome)
    requires Unsettled(out) && used <= |q.script|
    ensures ForwardEnds(q, out, snap, used, now, deadline, r)
  {
    var committed;
    r, committed := TryForward(q, out, snap, used, now, deadline);
    hide ForgetsRoute, RetryEnds, RetryInterval, WithinBudget;
    if committed {
      r := Commit(q, r);
    } else if r.context.CallerGone? {
      // There is nobody left to answer.
    } else if r.context.CeilingHit? {
      r := r.(statuses := [503]);
    } else {
      var ownConfig := if r.gaveUp.Some? then r.gaveUp.value == DeadlineReached(true) else q.direct.upstream.NoRoute?;
      if !ownConfig {
        r := r.(verdict := Charged);
      }
      r := r.(statuses := [503]);
    }
  }

  lemma JoinTried(a: seq<Tried>, b: seq<Tried>)
    requires AllRetry(a)
    ensures AllRetry(b) ==> AllRetry(a + b)
    ensures LastCommits(b) ==> LastCommits(a + b)
  {
    if LastCommits(b) {
      var ab := a + b;
      assert ab[..|ab| - 1] == a + b[..|b| - 1];
    }
  }

  const FRESH := Outcome([], None, [], false, 0, 0, None, false, Alive, NoVerdict)

  // ---------------------------------------------------------------- what a request comes to

  /** The request is held. */
  predicate Holds(q: RequestIn) {
    q.bodyStatus == 0 && Blocking(q.snap) && q.schedulable && q.slot
  }

  function Deadline(q: RequestIn): Instant {
    q.arrived + q.holdTimeout
  }

  /** The script makes the retries after this request's hold lose the error of its last attempt. */
  ghost predicate LosesError(q: RequestIn) {
    && Holds(q)
    && q.replayable
    && var w := HoldEnd(q, Deadline(q));
    && ForgetsRoute(q, w.used, w.now + q.direct.late, Deadline(q), Worse(w.context, q.direct.context))
  }

  /** Charged although every sign is that the proxy had no route to the replica. */
  ghost predicate Mischarged(q: RequestIn, out: Outcome) {
    Unanswered(out) && NoRouteLast(out.tried) && LosesError(q)
  }

  /**
   At most one status is written, and none only to a caller that left. The only upstream answer handed over is
   the last attempt's, never a 502, a 503 or dstack's own not-found, and a plain 404 only from an attempt under
   a phase the proxy would not hold on; any other status is the proxy's own 404 or 503.
   */
  predicate AnswersOnce(q: RequestIn, r: Outcome) {
    && |r.statuses| <= 1
    && (r.statuses == [] ==> r.context.CallerGone?)
    && (r.delivered.Some? ==>
          && LastCommits(r.tried)
          && r.delivered.value == r.tried[|r.tried| - 1]
          && Deliverable(r.delivered.value.upstream, r.delivered.value.phase)
          && r.statuses == [r.delivered.value.upstream.status])
    && HandsOver(r)
    && (AllRetry(r.tried) && q.bodyStatus == 0 ==>
          r.statuses == [] || r.statuses == [503] || (r.statuses == [404] && !r.forwardDecided))
    && (q.bodyStatus != 0 ==> r == FRESH.(statuses := [q.bodyStatus]))
  }

  /** One attempt without a hold, and retries after a hold only within what is left of its budget. */
  ghost predicate StaysInBudget(q: RequestIn, r: Outcome) {
    && (r.held <==> Holds(q))
    && (q.bodyStatus == 0 && DecideRequest(q.snap.phase, q.snap.hasCR, 0).forward ==>
          r.forwardDecided && r.tried == [Tried(q.direct.upstream, q.snap.phase)])
    && (!r.held ==> |r.tried| <= 1 && r.retries == 0)
    && WithinBudget(r.retries, RetryInterval(q), r.budget)
    && r.budget <= Max(0, q.holdTimeout)
    && (r.retries > 0 ==> r.budget <= Max(0, Deadline(q) - HoldEnd(q, Deadline(q)).now))
  }

  /**
   The replica is credited exactly for a fully delivered 2xx and charged exactly for its own failures, except
   that a request with no route to it is charged too if and only if its script loses that error.
   */
  ghost predicate Judges(q: RequestIn, r: Outcome) {
    && (r.verdict.Credited? <==> FullyDelivered(q, r) && Is2xx(r.delivered.value.upstream.status))
    && (r.verdict.Charged? <==> RealFailure(q, r) || Mischarged(q, r))
  }

  /** What follows a hold that ended as `w`: its own commit, the wait contract, a Model that is gone, or a forward. */
  ghost predicate FollowsHold(q: RequestIn, w: Holding, r: Outcome) {
    if w.committed then
      && LastCommits(r.tried)
      && !r.forwardDecided
      && w.used <= |q.script|
      && r.tried[|r.tried| - 1] == AttemptAt(q, w.used)
    else if w.context.CeilingHit? || Blocking(w.snap) then
      r.statuses == [503] && AllRetry(r.tried) && !r.forwardDecided
    else if !Serving(w.snap) then r.statuses == [404] && AllRetry(r.tried) && !r.forwardDecided
    else
      && r.forwardDecided
      && r.held
      && (Commits(q.direct.upstream, w.snap.phase) ==>
            LastCommits(r.tried) && r.tried[|r.tried| - 1] == Tried(q.direct.upstream, w.snap.phase))
      && w.used <= |q.script|
      && (!Commits(q.direct.upstream, w.snap.phase) ==>
            if q.replayable then
              RetriesFollow(q, w.used, w.now + q.direct.late, Deadline(q), Worse(w.context, q.direct.context),
                            AttemptsBy(q, w), r)
            else AllRetry(r.tried))
  }

  /** Which way a request with a readable body goes. */
  ghost predicate TakesItsWay(q: RequestIn, r: Outcome) {
    q.bodyStatus == 0 ==>
      if Holds(q) then FollowsHold(q, HoldEnd(q, Deadline(q)), r)
      else if Blocking(q.snap) then r.statuses == [503] && r.tried == [] && !r.forwardDecided
      else if !Serving(q.snap) then r.statuses == [404] && r.tried == [] && !r.forwardDecided
      else r.forwardDecided && r.tried == [Tried(q.direct.upstream, q.snap.phase)]
  }

  /** How Serve ends a request. */
  ghost predicate Ends(q: RequestIn, r: Outcome) {
    AnswersOnce(q, r) && StaysInBudget(q, r) && Judges(q, r) && TakesItsWay(q, r)
  }

  /** With no budget left after the first turn, and no route throughout. */
  predicate NeverRouted(q: RequestIn) {
    && Holds(q) && q.replayable && q.holdTimeout <= 0 && q.first.next == Snap(true, Ready)
    && q.first.upstream.NoRoute? && q.direct.upstream.NoRoute? && q.first.context.Alive? && q.direct.context.Alive?
  }

  /** ServeHTTP for one request. The last clause shows scripts that lose the error. */
  method Serve(q: RequestIn) returns (r: Outcome)
    ensures Ends(q, r)
    ensures NeverRouted(q) ==> Mischarged(q, r) && forall t :: t in r.tried ==> t.upstream.NoRoute?
  {
    assert WithinBudget(0, RetryInterval(q), 0);
    hide HoldEnd, ForgetsRoute, RetryInterval, WithinBudget;
    r := FRESH;
    if q.bodyStatus != 0 {
      return r.(statuses := [q.bodyStatus]);
    }
    var action := DecideRequest(q.snap.phase, q.snap.hasCR, 0);
    if action.block && q.snap.hasCR && !q.schedulable {
      return r.(statuses := [503]);
    }
    if action.block && !q.slot {
      return r.(statuses := [action.deadlineStatus]);
    }
    if action.block {
      r := ServeHeld(q);
    } else if action.forward {
      r := ServeNow(q);
    } else {
      r := r.(statuses := [action.immediateStatus]);
    }
  }

  /** An answer that was handed over may be handed over. */
  lemma ForwardAnswersOnce(q: RequestIn, out: Outcome, snap: Snap, used: nat, now: Instant, deadline: Instant,
                           r: Outcome)
    requires ForwardEnds(q, out, snap, used, now, deadline, r) && q.bodyStatus == 0
    ensures AnswersOnce(q, r)
  {
    if r.delivered.Some? {
      CommitsOnlyDeliverable(r.delivered.value.upstream, r.delivered.value.phase);
    }
    hide AttemptsGo, HandsOver, ForgetsRoute, Commits, Deliverable;
  }

  /** The branch that forwards without a hold. */
  method ServeNow(q: RequestIn) returns (r: Outcome)
    requires q.bodyStatus == 0 && !Blocking(q.snap) && Serving(q.snap)
    ensures Ends(q, r)
  {
    r := ForwardNow(q, FRESH, q.snap, 0, q.arrived, q.arrived);
    ForwardAnswersOnce(q, FRESH, q.snap, 0, q.arrived, q.arrived, r);
    hide HoldEnd, ForgetsRoute, RetryInterval, AnswersOnce, HandsOver, Commits, RetriesFollow;
  }

  /** The branch that holds. */
  method ServeHeld(q: RequestIn) returns (r: Outcome)
    requires Holds(q)
    ensures Ends(q, r)
    ensures NeverRouted(q) ==> Mischarged(q, r) && forall t :: t in r.tried ==> t.upstream.NoRoute?
  {
    var w, tried := Hold(q, Deadline(q));
    assert NeverRouted(q) ==> w == FirstTurn(q) && tried == [Tried(NoRoute, q.first.during.phase)] && !w.committed;
    assert w.committed ==> tried[|tried| - 1] == AttemptAt(q, w.used);
    hide HoldEnd, Ends, AttemptsOf;
    r := AfterHold(q, w, tried);
  }

  /** No time was left when the hold ended, and the attempt after it found no route. */
  predicate EndsSpent(q: RequestIn, w: Holding) {
    && !w.committed && w.context.Alive? && w.snap == Snap(true, Ready) && Deadline(q) <= w.now && q.replayable
    && q.direct.upstream.NoRoute? && q.direct.context.Alive?
  }

  /** What follows the hold. */
  method AfterHold(q: RequestIn, w: Holding, tried: seq<Tried>) returns (r: Outcome)
    requires Holds(q) && w == HoldEnd(q, Deadline(q)) && w.used <= |q.script| && w.now >= q.arrived
    requires |tried| == AttemptsBy(q, w)
    requires if w.committed then LastCommits(tried) && tried[|tried| - 1] == AttemptAt(q, w.used) else AllRetry(tried)
    ensures Ends(q, r)
    ensures EndsSpent(q, w) ==> Mischarged(q, r) && r.tried == tried + [Tried(NoRoute, Ready)]
  {
    hide HoldEnd, ForgetsRoute, RetryInterval, AttemptAt;
    r := FRESH.(held := true, tried := tried, context := w.context);
    if w.committed {
      r := Commit(q, r);
      CommitsOnlyDeliverable(tried[|tried| - 1].upstream, tried[|tried| - 1].phase);
      hide Commits, Deliverable;
      return;
    }
    if w.context.CeilingHit? {
      return r.(statuses := [503]);
    }
    var action := DecideRequest(w.snap.phase, w.snap.hasCR, 0);
    if action.block {
      return r.(statuses := [action.deadlineStatus]);
    }
    if !action.forward {
      return r.(statuses := [action.immediateStatus]);
    }
    r := ForwardAfterHold(q, w, tried);
  }

  /** The request as it stands after its hold. */
  function Held(w: Holding, tried: seq<Tried>): Outcome {
    FRESH.(held := true, tried := tried, context := w.context)
  }

  lemma HeldForwardJudged(q: RequestIn, w: Holding, tried: seq<Tried>, r: Outcome)
    requires Holds(q) && w == HoldEnd(q, Deadline(q))
    requires ForwardEnds(q, Held(w, tried), w.snap, w.used, w.now, Deadline(q), r)
    ensures Judges(q, r)
  {
    hide HoldEnd, ForgetsRoute, AttemptsGo, HandsOver, Commits, Blocking;
  }

  lemma HeldForwardInBudget(q: RequestIn, w: Holding, tried: seq<Tried>, r: Outcome)
    requires Holds(q) && w == HoldEnd(q, Deadline(q)) && w.now >= q.arrived
    requires ForwardEnds(q, Held(w, tried), w.snap, w.used, w.now, Deadline(q), r)
    ensures StaysInBudget(q, r)
  {
    hide HoldEnd, ForgetsRoute, HandsOver, Commits, RetriesFollow, RetryInterval, WithinBudget, RealFailure, Unanswered;
  }

  lemma HeldForwardGoesOn(q: RequestIn, w: Holding, tried: seq<Tried>, r: Outcome)
    requires Holds(q) && w == HoldEnd(q, Deadline(q)) && w.used <= |q.script| && |tried| == AttemptsBy(q, w)
    requires !w.committed && !w.context.CeilingHit? && !Blocking(w.snap) && Serving(w.snap)
    requires ForwardEnds(q, Held(w, tried), w.snap, w.used, w.now, Deadline(q), r)
    ensures TakesItsWay(q, r)
    ensures EndsSpent(q, w) ==> Mischarged(q, r) && r.tried == tried + [Tried(NoRoute, Ready)]
  {
    assert q.direct.upstream.NoRoute? ==> !Commits(q.direct.upstream, w.snap.phase);
    hide HoldEnd, RetryStops, HandsOver, Commits, RetriesFollow, RetryInterval, WithinBudget, AttemptsBy;
  }

  /** The forward after a hold that left the Model serving. */
  method ForwardAfterHold(q: RequestIn, w: Holding, tried: seq<Tried>) returns (r: Outcome)
    requires Holds(q) && w == HoldEnd(q, Deadline(q)) && w.used <= |q.script| && w.now >= q.arrived
    requires |tried| == AttemptsBy(q, w)
    requires !w.committed && AllRetry(tried) && !w.context.CeilingHit? && !Blocking(w.snap) && Serving(w.snap)
    ensures Ends(q, r)
    ensures EndsSpent(q, w) ==> Mischarged(q, r) && r.tried == tried + [Tried(NoRoute, Ready)]
  {
    r := ForwardNow(q, Held(w, tried), w.snap, w.used, w.now, Deadline(q));
    hide HoldEnd, ForwardEnds, AnswersOnce, StaysInBudget, Judges, TakesItsWay;
    ForwardAnswersOnce(q, Held(w, tried), w.snap, w.used, w.now, Deadline(q), r);
    HeldForwardInBudget(q, w, tried, r);
    HeldForwardJudged(q, w, tried, r);
    HeldForwardGoesOn(q, w, tried, r);
  }

  // ---------------------------------------------------------------- the limit on held requests

  function PendingFor(pending: map<string, int>, model: string): int {
    if model in pending then pending[model] else 0
  }

  function Acquired(pending: map<string, int>, limit: int, model: string): (bool, map<string, int>) {
    if limit <= 0 then (true, pending)
    else if PendingFor(pending, model) >= limit then (false, pending)
    else (true, pending[model := PendingFor(pending, model) + 1])
  }

  function ReleasedSlot(pending: map<string, int>, limit: int, model: string): map<string, int> {
    if limit <= 0 then pending else pending[model := PendingFor(pending, model) - 1]
  }

  /** acquirePending and releasePending. */
  class PendingGate {
    const limit: int
    var pending: map<string, int>

    constructor (limit: int)
      ensures this.limit == limit && pending == map[]
    {
      this.limit := limit;
      pending := map[];
    }

    method Acquire(model: string) returns (ok: bool)
      modifies this
      ensures (ok, pending) == Acquired(old(pending), limit, model)
    {
      if limit <= 0 {
        return true;
      }
      if model !in pending {
        if 0 >= limit {
          return false;
        }
        pending := pending[model := 1];
        return true;
      }
      if pending[model] >= limit {
        return false;
      }
      pending := pending[model := pending[model] + 1];
      ok := true;
    }

    method Release(model: string)
      modifies this
      ensures pending == ReleasedSlot(old(pending), limit, model)
    {
      if limit > 0 {
        pending := pending[model := PendingFor(pending, model) - 1];
      }
    }
  }

  /** A request asks for a slot, or gives back the one it holds. */
  datatype SlotStep = Ask(id: nat, model: string) | GiveBack(id: nat)

  /** The gate together with the requests it admitted. */
  datatype Gate = Gate(pending: map<string, int>, holding: map<nat, string>)

  function AfterSlot(g: Gate, limit: int, step: SlotStep): Gate {
    match step
    case Ask(id, model) =>
      var (ok, pending) := Acquired(g.pending, limit, model);
      if id in g.holding then g
      else if ok then Gate(pending, g.holding[id := model]) else g
    case GiveBack(id) =>
      if id !in g.holding then g
      else Gate(ReleasedSlot(g.pending, limit, g.holding[id]), g.holding - {id})
  }

  function AfterSlots(limit: int, steps: seq<SlotStep>): Gate {
    if steps == [] then Gate(map[], map[])
    else AfterSlot(AfterSlots(limit, steps[..|steps| - 1]), limit, steps[|steps| - 1])
  }

  function HoldersOf(g: Gate, model: string): set<nat> {
    set id | id in g.holding && g.holding[id] == model
  }

  lemma HoldersWith(g: Gate, h: Gate, id: nat, m: string, model: string)
    requires id !in g.holding && h.holding == g.holding[id := m]
    ensures HoldersOf(h, model) == if m == model then HoldersOf(g, model) + {id} else HoldersOf(g, model)
    ensures id !in HoldersOf(g, model)
  {
  }

  lemma HoldersWithout(g: Gate, h: Gate, id: nat, model: string)
    requires id in g.holding && h.holding == g.holding - {id}
    ensures HoldersOf(h, model) == HoldersOf(g, model) - {id}
    ensures id in HoldersOf(g, model) <==> g.holding[id] == model
  {
  }

  lemma SlotStepCounts(g: Gate, limit: int, step: SlotStep, model: string)
    requires limit > 0 && PendingFor(g.pending, model) == |HoldersOf(g, model)| <= limit
    ensures
      var h := AfterSlot(g, limit, step);
      PendingFor(h.pending, model) == |HoldersOf(h, model)| <= limit
  {
    hide HoldersOf;
    var h := AfterSlot(g, limit, step);
    if h != g {
      match step {
        case Ask(id, m) => HoldersWith(g, h, id, m, model);
        case GiveBack(id) => HoldersWithout(g, h, id, model);
      }
    }
  }

  /** A request is refused a slot if and only if there is a limit and that many requests hold one for the Model. */
  lemma RefusedIffFull(limit: int, steps: seq<SlotStep>, id: nat, model: string)
    requires id !in AfterSlots(limit, steps).holding
    ensures
      var g := AfterSlots(limit, steps);
      var h := AfterSlot(g, limit, Ask(id, model));
      && (id !in h.holding <==> limit > 0 && |HoldersOf(g, model)| == limit)
      && (id in h.holding ==> h.holding == g.holding[id := model])
  {
    if limit > 0 {
      HeldNeverExceedsLimit(limit, steps, model);
    }
    hide HoldersOf, AfterSlots;
  }

  /** In every interleaving of holds the counter is the number of requests held for the Model, within the limit. */
  lemma {:induction false} HeldNeverExceedsLimit(limit: int, steps: seq<SlotStep>, model: string)
    requires limit > 0
    ensures
      var g := AfterSlots(limit, steps);
      PendingFor(g.pending, model) == |HoldersOf(g, model)| <= limit
  {
    if steps == [] {
      assert HoldersOf(AfterSlots(limit, steps), model) == {};
    } else {
      HeldNeverExceedsLimit(limit, steps[..|steps| - 1], model);
      SlotStepCounts(AfterSlots(limit, steps[..|steps| - 1]), limit, steps[|steps| - 1], model);
    }
  }
}
