/**
 What squall sends with an Apply (applyEnvFor, applyDurationsFor, runSpec) and reads back (decodeRun): a sleep
 flip reproduces the stored configuration, so the server never takes it for an override.
 */
module SleepFlip {
  import opened Base
  import opened Dstack
  import opened Phase
  import opened Server
  import opened ServerRuns

  const MODEL_UID_KEY := "SQUALL_MODEL_UID"

  // ---------------------------------------------------------------- wire durations

  /** dstackSecondsPtr: an absent duration stays absent, and zero is sent as an explicit zero. */
  function EncodeIdle(d: Option<Duration>): Option<int> {
    match d
    case None => None
    case Some(v) => Some((if v < 0 then 0 else v) / SECOND)
  }

  /** wireSecondsPtr */
  function DecodeIdle(v: Option<int>): Option<Duration> {
    match v
    case None => None
    case Some(s) => Some(s * SECOND)
  }

  /** dstackDuration: nothing is sent for a duration that is not positive. */
  function EncodeMax(d: Duration): Option<int> {
    if d <= 0 then None else Some(d / SECOND)
  }

  /** wireSeconds */
  function DecodeMax(v: Option<int>): Duration {
    match v
    case None => 0
    case Some(s) => s * SECOND
  }

  // ---------------------------------------------------------------- requests

  /** What one Apply is computed from. `legacy` is a squall that did not yet send idle_duration. */
  datatype Input = Input(
    spec: Spec,
    action: Action,
    resolvedEnv: Env,
    uid: string,
    ensuredKey: string,
    rest: string,
    legacy: bool
  )

  /** The run a client decodes from what the server stores; whether its probes pass is another matter. */
  function Decode(name: string, v: Service): Run {
    Run(name, v.runId, v.deploymentNum, v.replicas, v.terminal, false, v.config.env, v.config.sshKeyPub,
        DecodeIdle(v.config.idle), DecodeMax(v.config.max), v.submittedAt)
  }

  predicate ReadFrom(run: Run, name: string, v: Service) {
    run.(probesReady := false) == Decode(name, v)
  }

  /** applyEnvFor */
  function EnvAndKey(x: Input): (Env, string) {
    if x.action.replicas > 0 then
      (x.resolvedEnv[MODEL_UID_KEY := x.uid],
       if x.ensuredKey == "" && x.action.current.Some? then x.action.current.value.sshKeyPub else x.ensuredKey)
    else if x.action.current.Some? then (x.action.current.value.env, x.action.current.value.sshKeyPub)
    else (map[MODEL_UID_KEY := x.uid], "")
  }

  /** applyDurationsFor */
  function Durations(x: Input): (Option<Duration>, Duration) {
    if x.action.replicas == 0 && x.action.current.Some? then
      (x.action.current.value.idleDuration, x.action.current.value.maxDuration)
    else (if x.legacy then None else Some(0), if x.spec.minReplicas == 0 then x.spec.hardStop else 0)
  }

  /** The configuration the server stores for an Apply; an empty key means the calling user's own. */
  function Submitted(x: Input, userKey: string): Config {
    var (env, key) := EnvAndKey(x);
    var (idle, max) := Durations(x);
    Config(EncodeIdle(idle), EncodeMax(max), env, if key == "" then userKey else key, x.rest)
  }

  function ToRequest(name: string, x: Input, userKey: string): Request {
    var anchor := match x.action.current
      case None => None
      case Some(run) => Some(Anchor(run.runId, run.deploymentNum));
    Request(name, x.action.replicas, anchor, false, Submitted(x, userKey))
  }

  // ---------------------------------------------------------------- reproduction

  /** A configuration that survives being read and sent back. */
  predicate Echoes(c: Config, userKey: string) {
    && (c.idle.Some? ==> c.idle.value >= 0)
    && (c.max.Some? ==> c.max.value > 0)
    && (c.sshKeyPub == "" ==> userKey == "")
  }

  predicate IsSleep(x: Input, name: string, v: Service) {
    x.action.replicas == 0 && x.action.current.Some? && ReadFrom(x.action.current.value, name, v)
  }

  /**
   A sleep flip computed from a read of `v` submits exactly the stored idle duration (absent and zero kept
   apart), max duration, env and SSH key, if and only if the stored configuration has no negative idle
   duration, no zero or negative max duration, and no empty key that the server would fill in.
   */
  lemma SleepReproducesIff(x: Input, name: string, v: Service, userKey: string)
    requires IsSleep(x, name, v)
    ensures Submitted(x, userKey) == v.config.(rest := x.rest) <==> Echoes(v.config, userKey)
  {
    var c := v.config;
    if c.idle.Some? {
      assert EncodeIdle(DecodeIdle(c.idle)) == c.idle <==> c.idle.value >= 0;
    }
    if c.max.Some? {
      assert EncodeMax(DecodeMax(c.max)) == c.max <==> c.max.value > 0;
    }
  }

  /** The Apply at position `i` is squall's: a wake of a valid spec, or a sleep computed from an earlier read. */
  ghost predicate FromSquall(ss: seq<State>, i: nat, e: Event, x: Input, userKey: string)
    requires i < |ss|
  {
    e.DoApply? ==>
      && e.req == ToRequest(e.req.name, x, userKey)
      && (x.action.replicas > 0 ==> ValidSpec(x.spec))
      && (x.action.replicas == 0 ==> x.action.current.Some?)
      && (x.action.current.Some? ==>
            exists k :: 0 <= k <= i && e.req.name in ss[k].services
                        && ReadFrom(x.action.current.value, e.req.name, ss[k].services[e.req.name]))
  }

  ghost predicate SquallHistory(ss: seq<State>, es: seq<Event>, xs: seq<Input>, userKey: string) {
    && IsHistory(ss, es)
    && |xs| == |es|
    && forall i :: 0 <= i < |es| ==> FromSquall(ss, i, es[i], xs[i], userKey)
  }

  /** Everything squall ever gets stored survives being read and sent back. */
  lemma {:induction false} StoredConfigsEcho(ss: seq<State>, es: seq<Event>, xs: seq<Input>, userKey: string, i: nat,
                                             name: string)
    requires SquallHistory(ss, es, xs, userKey) && i <= |es| && name in ss[i].services
    ensures Echoes(ss[i].services[name].config, userKey)
    decreases i
  {
    if i > 0 {
      var e, x := es[i - 1], xs[i - 1];
      if e.DoApply? && e.req.name == name && Apply(ss[i - 1], e.req, e.now).1.Ok? {
        assert FromSquall(ss, i - 1, e, x, userKey);
        assert ss[i].services[name].config == Submitted(x, userKey);
        if x.action.replicas == 0 {
          var k :| 0 <= k <= i - 1 && name in ss[k].services
                   && ReadFrom(x.action.current.value, name, ss[k].services[name]);
          StoredConfigsEcho(ss, es, xs, userKey, k, name);
          SleepReproducesIff(x, name, ss[k].services[name], userKey);
        }
      } else {
        StoredConfigsEcho(ss, es, xs, userKey, i - 1, name);
      }
    }
  }

  /**
   A sleep flip is never an override. Computed from any earlier read, it is accepted exactly when the run it
   was computed from is still current; what it then stores is the old configuration with the spec's part.
   */
  lemma SleepNeverOverrides(ss: seq<State>, es: seq<Event>, xs: seq<Input>, userKey: string,
                            name: string, x: Input, k: nat, i: nat, now: Instant)
    requires SquallHistory(ss, es, xs, userKey) && k <= i <= |es|
    requires Live(ss[k], name) && Live(ss[i], name)
    requires IsSleep(x, name, ss[k].services[name])
    ensures
      var v := ss[i].services[name];
      var reply := Apply(ss[i], ToRequest(name, x, userKey), now).1;
      if AnchorOf(v) == AnchorOf(ss[k].services[name])
      then reply == Ok(v.(deploymentNum := v.deploymentNum + 1, replicas := 0, config := v.config.(rest := x.rest)))
      else reply == ResourceChanged
  {
    var v := ss[i].services[name];
    if AnchorOf(v) == AnchorOf(ss[k].services[name]) {
      VersionFixesRun(ss, es, name, k, i);
      StoredConfigsEcho(ss, es, xs, userKey, i, name);
      SleepReproducesIff(x, name, v, userKey);
    }
  }

  /**
   A server that compares the whole configuration takes a sleep flip for an override in exactly one case:
   the Model's spec was edited since the run was last applied, because that part alone is not echoed.
   */
  lemma OnlySpecEditsOverride(ss: seq<State>, es: seq<Event>, xs: seq<Input>, userKey: string,
                              name: string, x: Input, k: nat, i: nat)
    requires SquallHistory(ss, es, xs, userKey) && k <= i <= |es|
    requires Live(ss[k], name) && Live(ss[i], name)
    requires AnchorOf(ss[i].services[name]) == AnchorOf(ss[k].services[name])
    requires IsSleep(x, name, ss[k].services[name])
    ensures Submitted(x, userKey) == ss[i].services[name].config <==> x.rest == ss[i].services[name].config.rest
  {
    var v := ss[i].services[name];
    VersionFixesRun(ss, es, name, k, i);
    StoredConfigsEcho(ss, es, xs, userKey, i, name);
    SleepReproducesIff(x, name, v, userKey);
    assert v.config.(rest := x.rest) == v.config <==> x.rest == v.config.rest;
  }

  // ---------------------------------------------------------------- wakes

  /** Which SSH key a wake goes with: squall's own, or else the sleeping run's, or else the calling user's. */
  function WakeKey(x: Input, userKey: string): string {
    if x.ensuredKey != "" then x.ensuredKey
    else if x.action.current.Some? && x.action.current.value.sshKeyPub != "" then x.action.current.value.sshKeyPub
    else userKey
  }

  /**
   What the server holds after an accepted wake: the resolved env key for key and value for value, with the
   Model's uid on top and nothing else; the right SSH key; an explicit idle duration of 0; the hard stop of an
   on-demand Model, in whole seconds, and none for a pinned one; the spec's part; and the replicas asked for.
   */
  lemma WakeStores(s: State, name: string, x: Input, userKey: string, now: Instant)
    requires x.action.replicas > 0 && !x.legacy
    requires Apply(s, ToRequest(name, x, userKey), now).1.Ok?
    ensures Live(Apply(s, ToRequest(name, x, userKey), now).0, name)
    ensures
      var v := Apply(s, ToRequest(name, x, userKey), now).0.services[name];
      && v.replicas == x.action.replicas
      && (forall k :: k != "SQUALL_MODEL_UID" ==>
            && (k in v.config.env <==> k in x.resolvedEnv)
            && (k in x.resolvedEnv ==> v.config.env[k] == x.resolvedEnv[k]))
      && "SQUALL_MODEL_UID" in v.config.env
      && v.config.env["SQUALL_MODEL_UID"] == x.uid
      && v.config.sshKeyPub == WakeKey(x, userKey)
      && v.config.idle == Some(0)
      && v.config.max ==
           (if x.spec.minReplicas == 0 && x.spec.hardStop > 0 then Some(x.spec.hardStop / SECOND) else None)
      && v.config.rest == x.rest
  {
  }

  /** A wake of a sleeping run keeps the run and raises its deployment number; one with nothing live begins a run. */
  lemma WakeKeepsOrBegins(s: State, name: string, x: Input, userKey: string, now: Instant)
    requires x.action.replicas > 0 && Apply(s, ToRequest(name, x, userKey), now).1.Ok?
    ensures
      var v := Apply(s, ToRequest(name, x, userKey), now).0.services[name];
      if Live(s, name) then
        && v.runId == s.services[name].runId
        && v.deploymentNum == s.services[name].deploymentNum + 1
        && v.submittedAt == s.services[name].submittedAt
        && x.action.current.Some?
        && x.action.current.value.runId == v.runId
      else v.runId == s.nextId && v.deploymentNum == 1 && v.submittedAt == now
  {
  }

  /** An Apply of 0 replicas without a run to put to sleep, which Decide never asks for, would bear the uid alone. */
  lemma SleepOfNothing(x: Input, userKey: string)
    requires x.action.replicas == 0 && x.action.current.None? && !x.legacy
    ensures Submitted(x, userKey).env == map["SQUALL_MODEL_UID" := x.uid]
    ensures Submitted(x, userKey).sshKeyPub == userKey && Submitted(x, userKey).idle == Some(0)
  {
  }
}
