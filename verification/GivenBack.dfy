/**
 Bounded release from end to end: proxies, controller and dstack server together. The controller's passes read
 the server and the proxies, and are the only ones to apply under the Model's run name; runs may die, be stopped
 or be deleted at any time, and other names are used freely. Nothing about evidence, acceptance of Applies or
 who wakes the run is assumed: it follows from the parts.
 */
module GivenBack {
  import opened Base
  import opened Phase
  import opened Reconcile
  import opened ControllerRuns
  import opened Release
  import PassOutcome
  import opened Server
  import opened ServerRuns
  import opened SleepFlip
  import opened Aggregate
  import opened IdleSleep
  import Tracker

  /** Where a pass met the rest: its read and its Apply in the server's history, and the reports it collected. */
  datatype Visit = Visit(read: nat, apply: nat, expected: seq<string>, queries: seq<Query>, at: seq<nat>)

  /** One behaviour of the whole: proxies `b`, server `ss` under events `es`, and passes `ps` over statuses `st`. */
  datatype World = World(
    model: string,
    name: string,
    userKey: string,
    b: seq<System>,
    ss: seq<State>,
    es: seq<Event>,
    xs: seq<Input>,
    st: seq<Status>,
    ps: seq<PassInput>,
    vs: seq<Visit>
  )

  predicate UpAt(s: State, name: string) {
    Live(s, name) && s.services[name].replicas > 0
  }

  /** What Get answers for a run the server holds, or does not. */
  predicate Sees(got: Got, s: State, name: string) {
    match got
    case Unreadable => false
    case NotFound => name !in s.services
    case Found(run, _) => name in s.services && ReadFrom(run, name, s.services[name])
  }

  function ReplyOf(r: Reply): ApplyReply {
    match r
    case Ok(service) => ApplyReply.Accepted(service.runId)
    case CannotOverride => ApplyReply.CannotOverride
    case _ => ApplyError
  }

  predicate AppliesTo(e: Event, name: string) {
    e.DoApply? && e.req.name == name
  }

  predicate Shaped(w: World) {
    |w.ss| == |w.es| + 1 && |w.xs| == |w.es| && |w.st| == |w.ps| + 1 && |w.vs| == |w.ps|
  }

  /** Pass `i` gathered its evidence from reports the proxies gave after `quiet`, or none. */
  ghost predicate Gathers(w: World, i: nat, quiet: Instant)
    requires Shaped(w) && i < |w.ps|
  {
    var p, v := w.ps[i], w.vs[i];
    p.activity.Some? ==>
      && Collected(w.b, w.model, v.queries, v.at)
      && Describes(p.activity.value, Wanted(v.expected), Answers(Wanted(v.expected), v.queries), p.now)
      && forall j :: 0 <= j < |v.queries| && v.queries[j].ok ==> w.b[v.at[j]].clock > quiet
  }

  /** The Apply a pass sends is event `v.apply`, computed from its verdict, and its reply is the server's. */
  ghost predicate Acts(w: World, i: nat)
    requires Shaped(w) && i < |w.ps|
  {
    var p, v := w.ps[i], w.vs[i];
    Sends(w.st[i], p) ==>
      && v.read <= v.apply < |w.es|
      && w.es[v.apply].DoApply?
      && w.es[v.apply].req == ToRequest(w.name, w.xs[v.apply], w.userKey)
      && w.xs[v.apply].action == Verdict(w.st[i], p).1
      && p.reply == ReplyOf(Apply(w.ss[v.apply], w.es[v.apply].req, w.es[v.apply].now).1)
  }

  /** Passes come one after the other. */
  ghost predicate InTurn(w: World, i: nat, j: nat)
    requires Shaped(w) && i < j < |w.ps|
  {
    w.vs[i].read <= w.vs[j].read && (Sends(w.st[i], w.ps[i]) ==> w.vs[i].apply < w.vs[j].read)
  }

  /** Event `m` is the Apply of pass `i`. */
  ghost predicate AppliedBy(w: World, m: nat, i: nat)
    requires Shaped(w)
  {
    i < |w.ps| && Sends(w.st[i], w.ps[i]) && w.vs[i].apply == m
  }

  /** Pass `i` reads the server, acts on it and hears from the proxies. */
  ghost predicate Meets(w: World, i: nat, quiet: Instant)
    requires Shaped(w) && i < |w.ps|
  {
    && w.vs[i].read <= |w.es|
    && Sees(w.ps[i].got, w.ss[w.vs[i].read], w.name)
    && Acts(w, i)
    && Gathers(w, i, quiet)
  }

  /** The parts work together. What was applied before the first of these passes is squall's too, but not theirs. */
  ghost predicate Joined(w: World, quiet: Instant) {
    && Shaped(w)
    && IsBehaviour(w.b)
    && SquallHistory(w.ss, w.es, w.xs, w.userKey)
    && IsRun(w.st, w.ps)
    && (forall i :: 0 <= i < |w.ps| ==> Meets(w, i, quiet))
    && (forall i, j :: 0 <= i < j < |w.ps| ==> InTurn(w, i, j))
    && (forall m :: 0 <= m < |w.es| && AppliesTo(w.es[m], w.name) ==>
          (forall i :: 0 <= i < |w.vs| ==> m < w.vs[i].read) || exists i :: AppliedBy(w, m, i))
  }

  /** After `quiet`, every request a proxy has ever accepted for the Model had ended by then. */
  ghost predicate NobodyAsks(w: World, quiet: Instant) {
    forall n, a, id :: 0 <= n < |w.b| && w.b[n].clock > quiet && a in w.b[n].proxies
                       && Tracker.Accepts(w.b[n].proxies[a], id, w.model) ==>
      Tracker.EndedBy(w.b[n].proxies[a].requests[id], quiet)
  }

  /** Status writes land, no demand is stamped after `quiet`, and passes follow each other as Reconcile asks. */
  ghost predicate Paced(w: World, spec: Spec, quiet: Instant, gap: Duration) {
    && Shaped(w)
    && ValidSpec(spec)
    && spec.minReplicas == 0
    && quiet >= SECOND
    && |w.ps| > 0
    && gap >= 0
    && quiet < w.ps[0].now
    && (Up(w.ps[0]) ==> w.ps[0].now <= quiet + gap)
    && (forall i :: 0 < i < |w.ps| ==> Follows(w.st[i - 1], w.ps[i - 1], w.ps[i], gap))
    && forall i :: 0 <= i < |w.ps| ==>
         w.ps[i].spec == spec && w.ps[i].patched && (w.ps[i].stamp.Some? ==> w.ps[i].stamp.value <= quiet)
  }

  lemma PassMeets(w: World, quiet: Instant, i: nat)
    requires Joined(w, quiet) && i < |w.ps|
    ensures Shaped(w) && Meets(w, i, quiet)
    ensures i + 1 < |w.ps| ==> InTurn(w, i, i + 1)
  {
  }

  // ---------------------------------------------------------------- the server between two passes

  /** No Apply under `name` among the events from `m` to `n`. */
  ghost predicate Undisturbed(es: seq<Event>, name: string, m: nat, n: nat) {
    n <= |es| && forall k :: m <= k < n ==> !AppliesTo(es[k], name)
  }

  /** Without an Apply a run only dies: one alive at the end is the one there was, unchanged. */
  lemma {:induction false} AliveMeansUnchanged(ss: seq<State>, es: seq<Event>, name: string, m: nat, n: nat)
    requires ServerRuns.IsHistory(ss, es) && m <= n && Undisturbed(es, name, m, n)
    requires Live(ss[n], name)
    ensures Live(ss[m], name) && ss[m].services[name] == ss[n].services[name]
    decreases n
  {
    if m < n {
      assert !AppliesTo(es[n - 1], name);
      AliveMeansUnchanged(ss, es, name, m, n - 1);
    }
  }

  /** The pass whose Apply event `m` is; `m` comes after pass `i` has read, so it is pass `i` or a later one. */
  lemma ApplierOf(w: World, quiet: Instant, m: nat, i: nat) returns (k: nat)
    requires Joined(w, quiet) && i < |w.ps|
    requires w.vs[i].read <= m < |w.es| && AppliesTo(w.es[m], w.name)
    ensures AppliedBy(w, m, k)
    ensures i <= k
    ensures k > i ==> m >= w.vs[i + 1].read && (Sends(w.st[i], w.ps[i]) ==> m > w.vs[i].apply)
  {
    hide Sends, Gathers, Sees, SquallHistory, IsRun, IsBehaviour;
    k :| AppliedBy(w, m, k);
    assert Meets(w, k, quiet);
    assert k < i ==> InTurn(w, k, i);
    assert k > i ==> InTurn(w, i, k);
    assert k > i + 1 ==> InTurn(w, i + 1, k);
  }

  /** Where the server stands undisturbed from, once pass `i` has read it and sent what it sends. */
  function LeavesAt(w: World, i: nat): nat
    requires Shaped(w) && i < |w.ps|
  {
    if Sends(w.st[i], w.ps[i]) then w.vs[i].apply + 1 else w.vs[i].read
  }

  /** Between a pass's read and its Apply nobody applies under the name. */
  lemma AloneUntilApply(w: World, quiet: Instant, i: nat)
    requires Joined(w, quiet) && i < |w.ps| && Sends(w.st[i], w.ps[i])
    ensures Undisturbed(w.es, w.name, w.vs[i].read, w.vs[i].apply)
  {
    hide Joined, Sends, Gathers, Sees;
    PassMeets(w, quiet, i);
    forall m | w.vs[i].read <= m < w.vs[i].apply
      ensures !AppliesTo(w.es[m], w.name)
    {
      if AppliesTo(w.es[m], w.name) {
        var k := ApplierOf(w, quiet, m, i);
      }
    }
  }

  /** Nor between that and the next pass's read. */
  lemma AloneUntilNext(w: World, quiet: Instant, i: nat)
    requires Joined(w, quiet) && i + 1 < |w.ps|
    ensures LeavesAt(w, i) <= w.vs[i + 1].read && Undisturbed(w.es, w.name, LeavesAt(w, i), w.vs[i + 1].read)
  {
    hide Joined, Sends, Gathers, Sees;
    PassMeets(w, quiet, i);
    PassMeets(w, quiet, i + 1);
    forall m | LeavesAt(w, i) <= m < w.vs[i + 1].read
      ensures !AppliesTo(w.es[m], w.name)
    {
      if AppliesTo(w.es[m], w.name) {
        var k := ApplierOf(w, quiet, m, i);
      }
    }
  }

  // ---------------------------------------------------------------- every Apply is accepted

  /** An Apply is computed from the run the pass saw: a flip of one that is up, a wake of one at 0, or a fresh run. */
  lemma VerdictFits(s: Status, p: PassInput)
    requires !p.got.Unreadable? && Verdict(s, p).1.apply
    ensures
      var a := Verdict(s, p).1;
      if p.got.Found? && !p.got.run.terminal
      then a.current == Some(p.got.run) && (p.got.run.replicas > 0 ==> a.replicas == 0)
      else a.current.None? && a.replicas == 1
  {
    hide Prior;
  }

  lemma NotRefused(w: World, quiet: Instant, i: nat)
    requires Joined(w, quiet) && i < |w.ps| && Sends(w.st[i], w.ps[i])
    ensures Meets(w, i, quiet)
    ensures Judge(w.ss[w.vs[i].apply], w.es[w.vs[i].apply].req).None?
  {
    hide Verdict, Gathers;
    var p, n := w.ps[i], w.vs[i].apply;
    assert Meets(w, i, quiet);
    if Live(w.ss[n], w.name) {
      AloneUntilApply(w, quiet, i);
      AliveMeansUnchanged(w.ss, w.es, w.name, w.vs[i].read, n);
      VerdictFits(w.st[i], p);
      var v := w.ss[n].services[w.name];
      if v.replicas > 0 {
        StoredConfigsEcho(w.ss, w.es, w.xs, w.userKey, n, w.name);
        SleepReproducesIff(w.xs[n], w.name, v, w.userKey);
      }
    }
  }

  /** What an Apply of the controller leaves: the replicas it asked for. */
  lemma SentIsAccepted(w: World, quiet: Instant, i: nat)
    requires Joined(w, quiet) && i < |w.ps| && Sends(w.st[i], w.ps[i])
    ensures Meets(w, i, quiet)
    ensures
      var n := w.vs[i].apply;
      && w.ps[i].reply.Accepted?
      && Live(w.ss[n + 1], w.name)
      && w.ss[n + 1].services[w.name].replicas == Verdict(w.st[i], w.ps[i]).1.replicas
  {
    NotRefused(w, quiet, i);
    assert Meets(w, i, quiet);
    hide Joined, Verdict, Judge, Gathers, Sees, Submitted;
    assert w.ss[w.vs[i].apply + 1] == Step(w.ss[w.vs[i].apply], w.es[w.vs[i].apply]) by {
      assert Joined(w, quiet);
    }
  }

  lemma PassSends(s: Status, p: PassInput)
    requires !p.got.Unreadable?
    ensures Pass(s, p).action == Verdict(s, p).1
    ensures Pass(s, p).applied <==> Sends(s, p) && p.reply.Accepted?
  {
    hide Verdict, Prior;
  }

  // ---------------------------------------------------------------- demand brings replicas up

  /**
   A wanted Model comes up: when a pass reads the server with no replicas up under the name, the Model is wanted
   and may be provisioned, its env resolves and no failure holds a new run back, the server has replicas up under
   the name right after the pass's Apply.
   */
  lemma WantedComesUp(w: World, quiet: Instant, i: nat) returns (n: nat)
    requires Joined(w, quiet) && i < |w.ps| && w.vs[i].read <= |w.es|
    requires !UpAt(w.ss[w.vs[i].read], w.name)
    requires PassOutcome.Wanted(w.ps[i]) && PassOutcome.MayProvision(w.ps[i]) && w.ps[i].envOk
    requires !Live(w.ss[w.vs[i].read], w.name) ==> !PassOutcome.HeldBack(w.st[i], w.ps[i])
    ensures w.vs[i].read < n < |w.ss| && UpAt(w.ss[n], w.name)
    ensures Wakes(w.st[i], w.ps[i])
  {
    var s, p := w.st[i], w.ps[i];
    UpIffSeen(w, quiet, i);
    assert PassOutcome.WakeDue(s, p) by {
      hide Joined, Acts, Gathers, PassOutcome.HeldBack, PassOutcome.MayProvision;
    }
    PassOutcome.WakeVerdict(s, p);
    SentIsAccepted(w, quiet, i);
    PassSends(s, p);
    n := w.vs[i].apply + 1;
    hide Joined, Pass, Verdict, Gathers, PassOutcome.HeldBack, PassOutcome.MayProvision;
  }

  // ---------------------------------------------------------------- the hypotheses of bounded release

  lemma EvidenceIsQuiet(w: World, quiet: Instant, i: nat)
    requires Joined(w, quiet) && NobodyAsks(w, quiet) && quiet >= SECOND && i < |w.ps|
    requires w.ps[i].activity.Some?
    ensures QuietEvidence(w.ps[i].activity.value, quiet)
  {
    var p, v := w.ps[i], w.vs[i];
    assert Meets(w, i, quiet) && IsBehaviour(w.b);
    hide Joined, Describes, QuietEvidence, Acts, Sees;
    forall j | 0 <= j < |v.queries| && v.queries[j].ok
      ensures
        var x := w.b[v.at[j]].proxies[v.queries[j].address];
        && Tracker.OpenIds(x, w.model) == {}
        && forall id :: Tracker.Accepts(x, id, w.model) ==> Tracker.EndedBy(x.requests[id], quiet)
    {
      var x := w.b[v.at[j]].proxies[v.queries[j].address];
      assert forall id :: id in Tracker.OpenIds(x, w.model) ==> Tracker.Accepts(x, id, w.model);
    }
    QuietProxiesQuietEvidence(w.b, w.model, v.expected, v.queries, v.at, p.activity.value, quiet, p.now);
  }

  lemma PassesAreQuiet(w: World, spec: Spec, quiet: Instant, gap: Duration)
    requires Joined(w, quiet) && NobodyAsks(w, quiet) && Paced(w, spec, quiet, gap)
    ensures QuietRun(w.st, w.ps, spec, quiet, gap)
  {
    hide Sends, Gathers, Acts, NobodyAsks, QuietEvidence;
    forall i | 0 <= i < |w.ps|
      ensures Quiet(w.ps[i], quiet) && Lands(w.st[i], w.ps[i])
    {
      assert Meets(w, i, quiet);
      if w.ps[i].activity.Some? {
        EvidenceIsQuiet(w, quiet, i);
      }
      if Sends(w.st[i], w.ps[i]) {
        SentIsAccepted(w, quiet, i);
      }
    }
  }

  lemma UpIffSeen(w: World, quiet: Instant, i: nat)
    requires Joined(w, quiet) && i < |w.ps|
    ensures Meets(w, i, quiet)
    ensures Up(w.ps[i]) <==> UpAt(w.ss[w.vs[i].read], w.name)
    ensures !w.ps[i].got.Unreadable?
  {
    assert Meets(w, i, quiet);
    hide Acts, Gathers;
  }

  /** Replicas that are up at a pass were up at the pass before and left so, or woken by it. */
  lemma UpOnlyThroughPass(w: World, quiet: Instant, i: nat)
    requires Joined(w, quiet) && i + 1 < |w.ps| && Up(w.ps[i + 1])
    ensures (Up(w.ps[i]) && !Flips(w.st[i], w.ps[i])) || Wakes(w.st[i], w.ps[i])
  {
    AloneUntilNext(w, quiet, i);
    UpIffSeen(w, quiet, i);
    UpIffSeen(w, quiet, i + 1);
    PassSends(w.st[i], w.ps[i]);
    AliveMeansUnchanged(w.ss, w.es, w.name, LeavesAt(w, i), w.vs[i + 1].read);
    if Sends(w.st[i], w.ps[i]) {
      SentIsAccepted(w, quiet, i);
    }
    hide Pass, Verdict, Joined;
  }

  lemma PassesAreTheOnlyWakers(w: World, quiet: Instant)
    requires Joined(w, quiet)
    ensures OnlySquallWakes(w.st, w.ps)
  {
    assert Shaped(w);
    hide Joined, Up, Flips, Wakes;
    forall i | 0 < i < |w.ps| && Up(w.ps[i])
      ensures (Up(w.ps[i - 1]) && !Flips(w.st[i - 1], w.ps[i - 1])) || Wakes(w.st[i - 1], w.ps[i - 1])
    {
      UpOnlyThroughPass(w, quiet, i - 1);
    }
  }

  // ---------------------------------------------------------------- the theorems

  /** At `quiet` nothing on record is later, and a run that is up has its wake on record. */
  ghost predicate StartsAnchored(w: World, quiet: Instant) {
    && |w.st| > 0 && |w.ps| > 0
    && AnchoredBy(w.st[0], quiet, w.ps[0].now)
    && (Up(w.ps[0]) ==> w.st[0].wakeStartedAt.Some?)
  }

  /**
   When the proxies have nothing open and accept nothing after `quiet`, the server shows no replicas under the
   Model's name at some point of a pass no later than idleTimeout + the uncontrolled timeout + two gaps, or when
   the first pass reads it.
   */
  lemma ServerSeesRelease(w: World, spec: Spec, quiet: Instant, gap: Duration) returns (k: nat, n: nat)
    requires Joined(w, quiet) && NobodyAsks(w, quiet) && Paced(w, spec, quiet, gap) && StartsAnchored(w, quiet)
    requires w.ps[|w.ps| - 1].now > quiet + spec.idleTimeout + UncontrolledTimeout(spec) + gap
    ensures k < |w.ps|
    ensures w.ps[k].now <= quiet + spec.idleTimeout + UncontrolledTimeout(spec) + 2 * gap || (k == 0 && !Up(w.ps[0]))
    ensures w.vs[k].read <= n < |w.ss| && !UpAt(w.ss[n], w.name)
  {
    PassesAreQuiet(w, spec, quiet, gap);
    k := 0;
    if Up(w.ps[0]) {
      k := ReleasedInTime(w.st, w.ps, spec, quiet, gap);
    }
    n := w.vs[k].read;
    UpIffSeen(w, quiet, k);
    if Up(w.ps[k]) {
      PassSends(w.st[k], w.ps[k]);
      SentIsAccepted(w, quiet, k);
      assert Meets(w, k, quiet);
      n := w.vs[k].apply + 1;
    }
    hide Pass, Verdict, Joined;
  }

  lemma OnlyApplyBringsUp(s: State, e: Event, name: string)
    requires !UpAt(s, name) && !AppliesTo(e, name)
    ensures !UpAt(Step(s, e), name)
  {
  }

  /** Once the demand window is over, replicas that are down under the name stay down in every later server state. */
  lemma {:induction false} StaysDown(w: World, spec: Spec, quiet: Instant, gap: Duration, i: nat, n: nat)
    requires Joined(w, quiet) && QuietRun(w.st, w.ps, spec, quiet, gap) && i < |w.ps|
    requires w.ps[i].now >= quiet + spec.idleTimeout
    requires w.vs[i].read <= n < |w.ss| && !UpAt(w.ss[w.vs[i].read], w.name)
    ensures !UpAt(w.ss[n], w.name)
    decreases n
  {
    hide QuietRun, Meets, InTurn, UpAt, FromSquall, Sends;
    if w.vs[i].read < n {
      StaysDown(w, spec, quiet, gap, i, n - 1);
      assert w.ss[n] == Step(w.ss[n - 1], w.es[n - 1]);
      hide Joined, Step;
      if AppliesTo(w.es[n - 1], w.name) {
        var k := ApplierOf(w, quiet, n - 1, i);
        WakesNothing(w, spec, quiet, gap, i, k);
      } else {
        OnlyApplyBringsUp(w.ss[n - 1], w.es[n - 1], w.name);
      }
    }
  }

  /** An Apply after the window is no wake. */
  lemma WakesNothing(w: World, spec: Spec, quiet: Instant, gap: Duration, i: nat, k: nat)
    requires Joined(w, quiet) && QuietRun(w.st, w.ps, spec, quiet, gap)
    requires i <= k < |w.ps| && Sends(w.st[k], w.ps[k])
    requires w.ps[i].now >= quiet + spec.idleTimeout
    ensures w.vs[k].apply < |w.es| && !UpAt(w.ss[w.vs[k].apply + 1], w.name)
  {
    assert Meets(w, k, quiet);
    UpIffSeen(w, quiet, k);
    SentIsAccepted(w, quiet, k);
    PassSends(w.st[k], w.ps[k]);
    hide Pass, Verdict, Joined;
    Increasing(w.ps, i, k);
    NoWakeWithoutDemand(w.st, w.ps, spec, quiet, gap, k);
    hide QuietRun;
  }

  /**
   The GPU is given back for good: from the first pass later than 2 * idleTimeout + the uncontrolled timeout +
   two gaps after `quiet`, no state of the server ever again has replicas up under the Model's name.
   */
  lemma GivenBackForGood(w: World, spec: Spec, quiet: Instant, gap: Duration, i: nat, n: nat)
    requires Joined(w, quiet) && NobodyAsks(w, quiet) && Paced(w, spec, quiet, gap) && StartsAnchored(w, quiet)
    requires i < |w.ps| && w.ps[i].now > quiet + 2 * spec.idleTimeout + UncontrolledTimeout(spec) + 2 * gap
    requires w.vs[i].read <= n < |w.ss|
    ensures !UpAt(w.ss[n], w.name)
  {
    hide QuietRun, OnlySquallWakes, UpAt, Up;
    PassesAreQuiet(w, spec, quiet, gap);
    PassesAreTheOnlyWakers(w, quiet);
    StaysReleased(w.st, w.ps, spec, quiet, gap, i);
    UpIffSeen(w, quiet, i);
    StaysDown(w, spec, quiet, gap, i, n);
  }

  // ---------------------------------------------------------------- the hypotheses can be met

  const WAKE := Input(SAMPLE_SPEC, NO_ACTION.(apply := true, replicas := 1), map[], "uid", "key", "image", false)

  /** A pass over SAMPLE_SPEC that sees `v` under the name and hears from no proxy. */
  function BlindPass(now: Instant, v: Service, reply: ApplyReply): PassInput {
    PassInput(SAMPLE_SPEC, now, Found(Decode("ns-m", v).(probesReady := true), None), None, None,
              true, true, reply, true)
  }

  const WOKEN := SAMPLE_STATUS.(wakeStartedAt := Some(SECOND))

  lemma BlindFirst(v: Service, p: PassInput)
    requires !v.terminal && v.replicas == 1 && p == BlindPass(HOUR + SECOND, v, ApplyError)
    ensures !Verdict(WOKEN, p).1.apply && Up(p)
    ensures
      var st := Pass(WOKEN, p).stored;
      st.uncontrolledSince == Some(HOUR + SECOND) && st.wakeStartedAt == Some(SECOND)
  {
    assert WholeSecond(HOUR + SECOND) == HOUR + SECOND && WholeSecond(SECOND) == SECOND;
  }

  lemma BlindSecond(st: Status, v: Service, p: PassInput)
    requires st.uncontrolledSince == Some(HOUR + SECOND) && st.wakeStartedAt == Some(SECOND)
    requires !v.terminal && v.replicas == 1 && p == BlindPass(2 * HOUR + SECOND, v, ApplyReply.Accepted(v.runId))
    ensures
      var a := Verdict(st, p).1;
      a.apply && a.replicas == 0 && a.current == Some(p.got.run) && Sends(st, p)
  {
  }

  lemma BlindThird(st: Status, v: Service, p: PassInput)
    requires !v.terminal && v.replicas == 0 && p == BlindPass(3 * HOUR + SECOND, v, ApplyError)
    ensures !Verdict(st, p).1.apply && !Up(p)
  {
  }

  const EMPTY := State(map[], 1)
  const WAKE_REQUEST := ToRequest("ns-m", WAKE, "")
  const WITH_RUN := Apply(EMPTY, WAKE_REQUEST, SECOND).0

  function SleepRequest(sleep: Input): Request {
    ToRequest("ns-m", sleep, "")
  }

  function Slept(sleep: Input): State {
    Apply(WITH_RUN, SleepRequest(sleep), 2 * HOUR).0
  }

  /** A wake and then a sleep computed from a read of the woken run. */
  lemma WakeThenSleep(sleep: Input)
    requires "ns-m" in WITH_RUN.services
    requires sleep.action.replicas == 0 && sleep.action.current.Some?
    requires ReadFrom(sleep.action.current.value, "ns-m", WITH_RUN.services["ns-m"])
    ensures SquallHistory([EMPTY, WITH_RUN, Slept(sleep)],
                          [DoApply(WAKE_REQUEST, SECOND), DoApply(SleepRequest(sleep), 2 * HOUR)], [WAKE, sleep], "")
    ensures Apply(WITH_RUN, SleepRequest(sleep), 2 * HOUR).1.Ok?
    ensures Live(Slept(sleep), "ns-m") && Slept(sleep).services["ns-m"].replicas == 0
    ensures Apply(WITH_RUN, SleepRequest(sleep), 2 * HOUR).1.service.runId == WITH_RUN.services["ns-m"].runId
  {
    var ss := [EMPTY, WITH_RUN, Slept(sleep)];
    var v := WITH_RUN.services["ns-m"];
    SleepReproducesIff(sleep, "ns-m", v, "");
    assert AnchorHeld(ss[1], "ns-m", AnchorOf(v));
    assert FromSquall(ss, 0, DoApply(WAKE_REQUEST, SECOND), WAKE, "");
    assert FromSquall(ss, 1, DoApply(SleepRequest(sleep), 2 * HOUR), sleep, "") by {
      assert ReadFrom(sleep.action.current.value, "ns-m", ss[1].services["ns-m"]);
    }
  }

  /** Three passes that hear from no proxy, of which the second alone sends something, join up. */
  lemma BlindPassesJoin(w: World)
    requires w.b == [System(0, map[])] && Shaped(w) && |w.es| == 2 && |w.ps| == 3
    requires w.vs == [Visit(1, 1, [], [], []), Visit(1, 1, [], [], []), Visit(2, 2, [], [], [])]
    requires SquallHistory(w.ss, w.es, w.xs, w.userKey) && IsRun(w.st, w.ps)
    requires Sees(w.ps[0].got, w.ss[1], w.name) && Sees(w.ps[1].got, w.ss[1], w.name)
    requires Sees(w.ps[2].got, w.ss[2], w.name)
    requires w.ps[0].activity.None? && w.ps[1].activity.None? && w.ps[2].activity.None?
    requires !Sends(w.st[0], w.ps[0]) && Sends(w.st[1], w.ps[1]) && !Sends(w.st[2], w.ps[2]) && Acts(w, 1)
    ensures Joined(w, SECOND) && NobodyAsks(w, SECOND)
  {
    hide SquallHistory, IsRun, Sees, Sends;
    assert Meets(w, 0, SECOND) && Meets(w, 1, SECOND) && Meets(w, 2, SECOND);
    assert AppliedBy(w, 1, 1);
  }

  lemma BlindPassesPaced(w: World)
    requires Shaped(w) && |w.ps| == 3 && w.st[0] == WOKEN
    requires forall i :: 0 <= i < 3 ==>
      w.ps[i].spec == SAMPLE_SPEC && w.ps[i].patched && w.ps[i].stamp.None? && w.ps[i].now == (i + 1) * HOUR + SECOND
    ensures Paced(w, SAMPLE_SPEC, SECOND, HOUR) && StartsAnchored(w, SECOND)
  {
    hide Wakes, Up;
  }

  lemma WithRun()
    ensures Live(WITH_RUN, "ns-m") && WITH_RUN.services["ns-m"].replicas == 1
  {
  }

  /**
   The hypotheses of both theorems can be met: a run woken before is read by three passes an hour apart that hear
   from no proxy; the second flips it as uncontrolled, and the third comes after every deadline.
   */
  lemma WorldWithRunUp() returns (w: World)
    ensures Joined(w, SECOND) && NobodyAsks(w, SECOND) && Paced(w, SAMPLE_SPEC, SECOND, HOUR)
    ensures StartsAnchored(w, SECOND) && Up(w.ps[0]) && |w.ps| == 3
    ensures w.ps[2].now > SECOND + 2 * SAMPLE_SPEC.idleTimeout + UncontrolledTimeout(SAMPLE_SPEC) + 2 * HOUR
  {
    hide Verdict, Pass, SquallHistory, Joined, NobodyAsks, Paced, StartsAnchored, Apply, Slept, WITH_RUN;
    WithRun();
    var v1 := WITH_RUN.services["ns-m"];
    var p0 := BlindPass(HOUR + SECOND, v1, ApplyError);
    var p1 := BlindPass(2 * HOUR + SECOND, v1, ApplyReply.Accepted(v1.runId));
    var st1 := Pass(WOKEN, p0).stored;
    BlindFirst(v1, p0);
    BlindSecond(st1, v1, p1);
    var sleep := WAKE.(action := Verdict(st1, p1).1);
    WakeThenSleep(sleep);
    var s2 := Slept(sleep);
    var p2 := BlindPass(3 * HOUR + SECOND, s2.services["ns-m"], ApplyError);
    var st2 := Pass(st1, p1).stored;
    BlindThird(st2, s2.services["ns-m"], p2);
    w := World("m", "ns-m", "", [System(0, map[])], [EMPTY, WITH_RUN, s2],
               [DoApply(WAKE_REQUEST, SECOND), DoApply(SleepRequest(sleep), 2 * HOUR)], [WAKE, sleep],
               [WOKEN, st1, st2, Pass(st2, p2).stored], [p0, p1, p2],
               [Visit(1, 1, [], [], []), Visit(1, 1, [], [], []), Visit(2, 2, [], [], [])]);
    BlindPassesJoin(w);
    BlindPassesPaced(w);
  }
}
