/**
 Which runs a Stop can hit while one controller wakes, sleeps and recovers refused overrides, Models come
 and go, runs die, and the reaper sweeps beside it.
 */
module StopSafety {
  import opened Base
  import opened Server
  import opened SleepFlip
  import opened Reaper

  /** The controller between two of its calls on behalf of the Model with this uid. */
  datatype Ctl =
    | CtlIdle
    | CtlRead(uid: string, name: string, seen: Option<Service>)
    | CtlRefused(name: string)

  /** The reaper between two of its calls. */
  datatype Reap =
    | ReapIdle
    | ReapModels(models: seq<ModelRecord>)
    | ReapRuns(models: seq<ModelRecord>, runs: seq<Listed>, now: Instant, grace: Duration)

  /** A Stop and what it hit; `sweep` is the Model list of the sweep that sent it, if a sweep did. */
  datatype Hit = Hit(name: string, service: Option<Service>, sweep: Option<seq<ModelRecord>>)

  /** `models` is keyed by uid; `used` holds every uid ever given out. */
  datatype Sys = Sys(
    server: State,
    models: map<string, ModelRecord>,
    used: set<string>,
    ctl: Ctl,
    reap: Reap,
    hits: seq<Hit>
  )

  datatype Move =
    | CreateModel(namespace: string, name: string, uid: string)
    | RemoveModel(uid: string)
    | RecordName(uid: string)
    | Read(uid: string)
    | SendApply(x: Input, userKey: string, refused: bool, now: Instant)
    | StopRefused
    | ListModels(models: seq<ModelRecord>)
    | ListRuns(runs: seq<Listed>, now: Instant, grace: Duration)
    | StopOrphan(i: nat)
    | EndSweep
    | Crash
    | Dies(name: string)

  function Held(s: State, name: string): Option<Service> {
    if name in s.services then Some(s.services[name]) else None
  }

  /** `x` is what an Apply for the Model is computed from after reading `seen`: the live run, or nothing live. */
  predicate ComputedFrom(x: Input, uid: string, name: string, seen: Option<Service>) {
    && x.uid == uid
    && if seen.Some? && !seen.value.terminal
       then x.action.current.Some? && ReadFrom(x.action.current.value, name, seen.value)
       else x.action.current.None? && x.action.replicas > 0
  }

  /** Such an Apply bears the Model's uid if it wakes, and keeps the run's env if it puts it to sleep. */
  lemma SquallStampsOrKeeps(x: Input, uid: string, name: string, seen: Option<Service>, userKey: string)
    requires ComputedFrom(x, uid, name, seen)
    ensures
      var env := ToRequest(name, x, userKey).config.env;
      if x.action.replicas > 0 then MODEL_UID_KEY in env && env[MODEL_UID_KEY] == uid
      else seen.Some? && env == seen.value.config.env
  {
  }

  predicate Enabled(s: Sys, m: Move) {
    match m
    case CreateModel(_, _, uid) => uid !in s.used
    case RemoveModel(uid) => true
    case RecordName(uid) => uid in s.models
    case Read(uid) => s.ctl.CtlIdle? && uid in s.models
    case SendApply(x, _, _, _) => s.ctl.CtlRead? && ComputedFrom(x, s.ctl.uid, s.ctl.name, s.ctl.seen)
    case StopRefused => s.ctl.CtlRefused?
    case ListModels(models) =>
      && s.reap.ReapIdle?
      && (forall uid :: uid in s.models ==> UidListed(models, uid))
      && (forall i :: 0 <= i < |models| ==> models[i].uid in s.models && models[i] == s.models[models[i].uid])
    case ListRuns(runs, _, _) =>
      s.reap.ReapModels? && forall i :: 0 <= i < |runs| ==> Held(s.server, runs[i].name) == Some(runs[i].service)
    case StopOrphan(i) =>
      s.reap.ReapRuns? && i < |s.reap.runs| && Orphan(s.reap.models, s.reap.runs[i], s.reap.now, s.reap.grace)
    case EndSweep => true
    case Crash => true
    case Dies(_) => true
  }

  /** The server may refuse any Apply to a live run as an override; recovery stops it only from a sleeping read. */
  function Sent(s: Sys, x: Input, userKey: string, refused: bool, now: Instant): Sys
    requires s.ctl.CtlRead?
  {
    var (server, reply) := Apply(s.server, ToRequest(s.ctl.name, x, userKey), now);
    var override := (refused && Live(s.server, s.ctl.name)) || reply.CannotOverride?;
    if override then
      s.(ctl := if x.action.replicas > 0 && x.action.current.Some? && x.action.current.value.replicas == 0
                then CtlRefused(s.ctl.name) else CtlIdle)
    else s.(server := server, ctl := CtlIdle)
  }

  function After(s: Sys, m: Move): Sys
    requires Enabled(s, m)
  {
    match m
    case CreateModel(namespace, name, uid) =>
      s.(models := s.models[uid := ModelRecord(namespace, name, uid, "")], used := s.used + {uid})
    case RemoveModel(uid) => s.(models := s.models - {uid})
    case RecordName(uid) =>
      s.(models := s.models[uid := s.models[uid].(recorded := RunNameFor(s.models[uid]))])
    case Read(uid) =>
      var name := RunNameFor(s.models[uid]);
      s.(ctl := CtlRead(uid, name, Held(s.server, name)))
    case SendApply(x, userKey, refused, now) => Sent(s, x, userKey, refused, now)
    case StopRefused =>
      s.(server := Stop(s.server, s.ctl.name).0, ctl := CtlIdle,
         hits := s.hits + [Hit(s.ctl.name, Held(s.server, s.ctl.name), None)])
    case ListModels(models) => s.(reap := ReapModels(models))
    case ListRuns(runs, now, grace) => s.(reap := ReapRuns(s.reap.models, runs, now, grace))
    case StopOrphan(i) =>
      var name := s.reap.runs[i].name;
      s.(server := Stop(s.server, name).0, hits := s.hits + [Hit(name, Held(s.server, name), Some(s.reap.models))])
    case EndSweep => s.(reap := ReapIdle)
    case Crash => s.(ctl := CtlIdle, reap := ReapIdle)
    case Dies(name) => s.(server := Terminate(s.server, name))
  }

  /** A Stop that cuts live replicas comes from a sweep whose Model list knows neither the run's name nor its stamp. */
  predicate Justified(h: Hit) {
    h.service.Some? && !h.service.value.terminal && h.service.value.replicas > 0 ==>
      && h.sweep.Some?
      && !Owned(h.sweep.value, h.name)
      && !UidListed(h.sweep.value, StampOf(h.service.value))
  }

  // ---------------------------------------------------------------- invariant

  ghost predicate ModelsInv(s: Sys) {
    forall uid :: uid in s.models ==> s.models[uid].uid == uid && uid in s.used
  }

  /** The listed Models are still filed where the list says, and a uid not listed then may only be younger. */
  ghost predicate ListInv(s: Sys, models: seq<ModelRecord>) {
    forall i :: 0 <= i < |models| ==>
      && models[i].uid in s.used
      && (models[i].uid in s.models ==> RunNameFor(s.models[models[i].uid]) in RunNamesFor(models[i]))
  }

  /** Nobody but the controller changes a run's configuration or brings replicas up. */
  ghost predicate CtlInv(s: Sys) {
    match s.ctl
    case CtlIdle => true
    case CtlRead(uid, name, seen) =>
      && uid in s.used
      && (uid in s.models ==> name in RunNamesFor(s.models[uid]))
      && (Live(s.server, name) ==> seen == Held(s.server, name))
      && (seen.Some? ==> name in s.server.services && s.server.services[name].config == seen.value.config)
    case CtlRefused(name) => Live(s.server, name) ==> s.server.services[name].replicas == 0
  }

  /** A Model in the list writes only under the names the list gives it. */
  ghost predicate ReadInv(s: Sys, models: seq<ModelRecord>) {
    s.ctl.CtlRead? ==>
      forall i :: 0 <= i < |models| && models[i].uid == s.ctl.uid ==> s.ctl.name in RunNamesFor(models[i])
  }

  ghost predicate OrphansInv(s: Sys) {
    s.reap.ReapRuns? ==>
      forall i ::
        0 <= i < |s.reap.runs| && Orphan(s.reap.models, s.reap.runs[i], s.reap.now, s.reap.grace) ==>
        Foreign(s.server, s.reap.models, s.reap.runs[i].name)
  }

  predicate Foreign(server: State, models: seq<ModelRecord>, name: string) {
    && !Owned(models, name)
    && (name in server.services ==> !UidListed(models, StampOf(server.services[name])))
  }

  ghost predicate Inv(s: Sys) {
    && ModelsInv(s)
    && CtlInv(s)
    && (!s.reap.ReapIdle? ==> ListInv(s, s.reap.models) && ReadInv(s, s.reap.models))
    && OrphansInv(s)
    && forall h :: h in s.hits ==> Justified(h)
  }

  lemma RecordedNameIsKept(m: ModelRecord)
    ensures RunNameFor(m.(recorded := RunNameFor(m))) == RunNameFor(m)
    ensures RunNamesFor(m) <= RunNamesFor(m.(recorded := RunNameFor(m)))
    ensures RunNameFor(m) in RunNamesFor(m)
  {
  }

  lemma ForeignAfterApply(s: Sys, x: Input, userKey: string, refused: bool, now: Instant,
                          models: seq<ModelRecord>, name: string)
    requires s.ctl.CtlRead? && ComputedFrom(x, s.ctl.uid, s.ctl.name, s.ctl.seen)
    requires CtlInv(s) && ReadInv(s, models) && Foreign(s.server, models, name)
    ensures Foreign(Sent(s, x, userKey, refused, now).server, models, name)
  {
    SquallStampsOrKeeps(x, s.ctl.uid, s.ctl.name, s.ctl.seen, userKey);
    hide Submitted;
  }

  lemma CtlInvKept(s: Sys, m: Move)
    requires ModelsInv(s) && CtlInv(s) && Enabled(s, m)
    ensures ModelsInv(After(s, m)) && CtlInv(After(s, m))
  {
    if m.RecordName? || m.Read? {
      RecordedNameIsKept(s.models[m.uid]);
    }
  }

  lemma ListInvKept(s: Sys, m: Move)
    requires ModelsInv(s) && CtlInv(s) && Enabled(s, m)
    requires !s.reap.ReapIdle? ==> ListInv(s, s.reap.models) && ReadInv(s, s.reap.models)
    ensures
      var t := After(s, m);
      !t.reap.ReapIdle? ==> ListInv(t, t.reap.models) && ReadInv(t, t.reap.models)
  {
    if m.RecordName? || m.Read? {
      RecordedNameIsKept(s.models[m.uid]);
    }
    if m.ListModels? {
      forall i | 0 <= i < |m.models|
        ensures RunNameFor(m.models[i]) in RunNamesFor(m.models[i])
      {
        RecordedNameIsKept(m.models[i]);
      }
    }
  }

  lemma OrphansInvKept(s: Sys, m: Move)
    requires Inv(s) && Enabled(s, m)
    ensures OrphansInv(After(s, m))
  {
    var t := After(s, m);
    if t.reap.ReapRuns? {
      forall i | 0 <= i < |t.reap.runs| && Orphan(t.reap.models, t.reap.runs[i], t.reap.now, t.reap.grace)
        ensures Foreign(t.server, t.reap.models, t.reap.runs[i].name)
      {
        var name := t.reap.runs[i].name;
        if m.ListRuns? {
          assert Held(s.server, name) == Some(t.reap.runs[i].service);
        } else {
          assert Foreign(s.server, s.reap.models, name);
          if m.SendApply? {
            ForeignAfterApply(s, m.x, m.userKey, m.refused, m.now, s.reap.models, name);
          }
        }
      }
    }
  }

  lemma HitsKept(s: Sys, m: Move)
    requires Inv(s) && Enabled(s, m)
    ensures forall h :: h in After(s, m).hits ==> Justified(h)
  {
    if m.StopOrphan? {
      assert Foreign(s.server, s.reap.models, s.reap.runs[m.i].name);
    }
  }

  ghost predicate IsHistory(ss: seq<Sys>, ms: seq<Move>) {
    && |ss| == |ms| + 1
    && ss[0].ctl.CtlIdle? && ss[0].reap.ReapIdle? && ss[0].hits == []
    && ModelsInv(ss[0])
    && forall i :: 0 <= i < |ms| ==> Enabled(ss[i], ms[i]) && ss[i + 1] == After(ss[i], ms[i])
  }

  lemma {:induction false} InvThroughout(ss: seq<Sys>, ms: seq<Move>, i: nat)
    requires IsHistory(ss, ms) && i <= |ms|
    ensures Inv(ss[i])
  {
    if i > 0 {
      InvThroughout(ss, ms, i - 1);
      CtlInvKept(ss[i - 1], ms[i - 1]);
      ListInvKept(ss[i - 1], ms[i - 1]);
      OrphansInvKept(ss[i - 1], ms[i - 1]);
      HitsKept(ss[i - 1], ms[i - 1]);
    }
  }

  /**
   No Model loses live replicas to a Stop while it is on the sweep's list: whatever the interleaving, a Stop
   that hits replicas that are up comes from a sweep, and no Model in that sweep's list owns the run's name
   or the uid it is stamped with at that moment. Recovering a refused override never cuts replicas.
   */
  lemma StopsSpareListedModels(ss: seq<Sys>, ms: seq<Move>, i: nat, h: Hit)
    requires IsHistory(ss, ms) && i <= |ms| && h in ss[i].hits
    ensures Justified(h)
  {
    InvThroughout(ss, ms, i);
  }

  /**
   A wake that the server refuses as an override is not given up: the run it cannot flip is stopped, and the next
   wake computed from a read of it begins a new run.
   */
  lemma RefusedWakeRecovers(s: Sys, x: Input, y: Input, userKey: string, now: Instant, later: Instant)
    requires Inv(s) && Enabled(s, SendApply(x, userKey, true, now)) && Live(s.server, s.ctl.name)
    requires x.action.replicas > 0 && s.ctl.seen.Some? && s.ctl.seen.value.replicas == 0
    requires s.ctl.uid in s.models && RunNameFor(s.models[s.ctl.uid]) == s.ctl.name
    requires y.uid == s.ctl.uid && y.action.replicas > 0 && y.action.current.None?
    ensures
      var s1 := After(s, SendApply(x, userKey, true, now));
      && Enabled(s1, StopRefused)
      && var s2 := After(s1, StopRefused);
      && Enabled(s2, Read(s.ctl.uid))
      && var s3 := After(s2, Read(s.ctl.uid));
      && Enabled(s3, SendApply(y, userKey, false, later))
      && var s4 := After(s3, SendApply(y, userKey, false, later));
      && Live(s4.server, s.ctl.name)
      && s4.server.services[s.ctl.name].replicas == y.action.replicas
      && s4.server.services[s.ctl.name].runId == s.server.nextId
  {
    hide Submitted;
  }
}
