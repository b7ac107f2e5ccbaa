/**
 The orphan reaper (internal/controller/squall/reaper.go, runname.go, ownership.go): which
 runs one sweep stops.
 */
module Reaper {
  import opened Base
  import opened Server
  import opened SleepFlip

  const DEFAULT_REAP_GRACE := 5 * MINUTE

  /** A Model as the API server lists it; `recorded` is status.runName, "" when not yet written. */
  datatype ModelRecord = ModelRecord(namespace: string, name: string, uid: string, recorded: string)

  function DstackRunName(m: ModelRecord): string {
    if m.namespace == "" then m.name else m.namespace + "-" + m.name
  }

  function RunNameFor(m: ModelRecord): string {
    if m.recorded != "" then m.recorded else DstackRunName(m)
  }

  function RunNamesFor(m: ModelRecord): set<string> {
    if m.recorded != "" then {DstackRunName(m), m.recorded} else {DstackRunName(m)}
  }

  datatype Listed = Listed(name: string, service: Service)

  /** The Model UID a run carries, "" when it carries none. */
  function StampOf(v: Service): string {
    if MODEL_UID_KEY in v.config.env then v.config.env[MODEL_UID_KEY] else ""
  }

  predicate Owned(models: seq<ModelRecord>, name: string) {
    exists i :: 0 <= i < |models| && name in RunNamesFor(models[i])
  }

  predicate UidListed(models: seq<ModelRecord>, uid: string) {
    exists i :: 0 <= i < |models| && models[i].uid == uid
  }

  function Grace(grace: Duration): Duration {
    if grace <= 0 then DEFAULT_REAP_GRACE else grace
  }

  /** Provably squall's, provably nobody's: unowned, not terminal, old enough, stamped with a UID no Model has. */
  predicate Orphan(models: seq<ModelRecord>, run: Listed, now: Instant, grace: Duration) {
    && !Owned(models, run.name)
    && !run.service.terminal
    && now - run.service.submittedAt >= Grace(grace)
    && StampOf(run.service) != ""
    && !UidListed(models, StampOf(run.service))
  }

  /** Positions before `k` of orphans whose Stop fails, or does not. */
  function Reached(models: seq<ModelRecord>, runs: seq<Listed>, now: Instant, grace: Duration, fails: seq<bool>,
                   fail: bool, k: nat): set<nat>
    requires k <= |fails| == |runs|
  {
    set i: nat | i < k && Orphan(models, runs[i], now, grace) && fails[i] == fail
  }

  lemma ReachedNext(models: seq<ModelRecord>, runs: seq<Listed>, now: Instant, grace: Duration, fails: seq<bool>,
                    fail: bool, k: nat)
    requires k < |fails| == |runs|
    ensures
      var before := Reached(models, runs, now, grace, fails, fail, k);
      var after := Reached(models, runs, now, grace, fails, fail, k + 1);
      if Orphan(models, runs[k], now, grace) && fails[k] == fail
      then
        && after == before + {k}
        && |after| == |before| + 1
        && NamesAt(runs, after) == NamesAt(runs, before) + {runs[k].name}
      else after == before
  {
    hide Orphan;
    var before := Reached(models, runs, now, grace, fails, fail, k);
    var after := Reached(models, runs, now, grace, fails, fail, k + 1);
    if Orphan(models, runs[k], now, grace) && fails[k] == fail {
      assert after == before + {k};
      NamesAtOneMore(runs, before, k);
    } else {
      assert after == before;
    }
  }

  lemma NamesAtOneMore(runs: seq<Listed>, at: set<nat>, k: nat)
    requires k < |runs| && forall i :: i in at ==> i < |runs|
    ensures NamesAt(runs, at + {k}) == NamesAt(runs, at) + {runs[k].name}
  {
    var names := NamesAt(runs, at + {k});
    assert runs[k].name in names by {
      assert k in at + {k};
    }
    forall n | n in NamesAt(runs, at)
      ensures n in names
    {
      var i :| i in at && runs[i].name == n;
      assert i in at + {k};
    }
  }

  function StopAll(s: State, names: set<string>): State {
    s.(services := map n | n in s.services ::
      if n in names then s.services[n].(terminal := true, replicas := 0) else s.services[n])
  }

  lemma StopOneMore(s: State, names: set<string>, name: string)
    ensures Stop(StopAll(s, names), name).0 == StopAll(s, names + {name})
  {
  }

  function NamesAt(runs: seq<Listed>, at: set<nat>): set<string>
    requires forall i :: i in at ==> i < |runs|
  {
    set i | i in at :: runs[i].name
  }

  /**
   One pass: it stops exactly the orphans, carries on past failed Stops, counts both, and does nothing at
   all when either list could not be read.
   */
  method Sweep(models: Option<seq<ModelRecord>>, runs: Option<seq<Listed>>, now: Instant, grace: Duration,
               server: MockServer, fails: seq<bool>)
    returns (reaped: nat, errors: nat)
    requires runs.Some? ==> |fails| == |runs.value|
    modifies server
    ensures models.None? || runs.None? ==> server.Abs() == old(server.Abs()) && reaped == 0
    ensures models.Some? && runs.Some? ==>
      var good := Reached(models.value, runs.value, now, grace, fails, false, |fails|);
      && server.Abs() == StopAll(old(server.Abs()), NamesAt(runs.value, good))
      && reaped == |good|
      && errors == |Reached(models.value, runs.value, now, grace, fails, true, |fails|)|
  {
    reaped, errors := 0, 0;
    if models.None? || runs.None? {
      return;
    }
    var owned, liveUIDs := Index(models.value);
    reaped, errors := SweepRuns(models.value, owned, liveUIDs, runs.value, now, grace, server, fails);
  }

  method SweepRuns(ghost models: seq<ModelRecord>, owned: set<string>, liveUIDs: set<string>, runs: seq<Listed>,
                   now: Instant, grace: Duration, server: MockServer, fails: seq<bool>)
    returns (reaped: nat, errors: nat)
    requires |fails| == |runs|
    requires forall n :: n in owned <==> Owned(models, n)
    requires forall u :: u in liveUIDs <==> UidListed(models, u)
    modifies server
    ensures
      var good := Reached(models, runs, now, grace, fails, false, |fails|);
      && server.Abs() == StopAll(old(server.Abs()), NamesAt(runs, good))
      && reaped == |good|
      && errors == |Reached(models, runs, now, grace, fails, true, |fails|)|
  {
    reaped, errors := 0, 0;
    assert server.Abs() == StopAll(old(server.Abs()), {});
    for i := 0 to |runs|
      invariant reaped == |Reached(models, runs, now, grace, fails, false, i)|
      invariant errors == |Reached(models, runs, now, grace, fails, true, i)|
      invariant server.Abs() ==
        StopAll(old(server.Abs()), NamesAt(runs, Reached(models, runs, now, grace, fails, false, i)))
    {
      ReachedNext(models, runs, now, grace, fails, false, i);
      ReachedNext(models, runs, now, grace, fails, true, i);
      hide Reached, NamesAt, StopAll;
      var run := runs[i];
      if run.name in owned || run.service.terminal || now - run.service.submittedAt < Grace(grace) {
        continue;
      }
      var marked := StampOf(run.service);
      if marked == "" || marked in liveUIDs {
        continue;
      }
      if fails[i] {
        errors := errors + 1;
        continue;
      }
      StopOneMore(old(server.Abs()), NamesAt(runs, Reached(models, runs, now, grace, fails, false, i)), run.name);
      var _ := server.StopRun(run.name);
      reaped := reaped + 1;
    }
  }

  /** The two lookup tables of a sweep. */
  method Index(models: seq<ModelRecord>) returns (owned: set<string>, liveUIDs: set<string>)
    ensures forall n :: n in owned <==> Owned(models, n)
    ensures forall u :: u in liveUIDs <==> UidListed(models, u)
  {
    owned, liveUIDs := {}, {};
    assert forall n :: !Owned(models[..0], n);
    assert forall u :: !UidListed(models[..0], u);
    hide Owned, UidListed;
    for i := 0 to |models|
      invariant forall n :: n in owned <==> Owned(models[..i], n)
      invariant forall u :: u in liveUIDs <==> UidListed(models[..i], u)
    {
      owned := owned + RunNamesFor(models[i]);
      liveUIDs := liveUIDs + {models[i].uid};
      OwnedSnoc(models[..i], models[i]);
      assert models[..i + 1] == models[..i] + [models[i]];
    }
    assert models[..|models|] == models;
  }

  lemma OwnedSnoc(models: seq<ModelRecord>, m: ModelRecord)
    ensures forall n :: Owned(models + [m], n) <==> Owned(models, n) || n in RunNamesFor(m)
    ensures forall u :: UidListed(models + [m], u) <==> UidListed(models, u) || u == m.uid
  {
    var long := models + [m];
    forall n
      ensures Owned(long, n) <==> Owned(models, n) || n in RunNamesFor(m)
    {
      if Owned(models, n) {
        var i :| 0 <= i < |models| && n in RunNamesFor(models[i]);
        assert long[i] == models[i];
      }
      if n in RunNamesFor(m) {
        assert long[|models|] == m;
      }
    }
    forall u
      ensures UidListed(long, u) <==> UidListed(models, u) || u == m.uid
    {
      if UidListed(models, u) {
        var i :| 0 <= i < |models| && models[i].uid == u;
        assert long[i] == models[i];
      }
      if u == m.uid {
        assert long[|models|] == m;
      }
    }
  }

  /**
   Which runs a sweep stops, in the records' own terms: not under a Model's computed or recorded name, not over,
   at least the grace old (five minutes where none is set), and stamped with a uid that no Model has.
   */
  lemma OrphanIff(models: seq<ModelRecord>, run: Listed, now: Instant, grace: Duration)
    ensures Orphan(models, run, now, grace) <==>
      && (forall i :: 0 <= i < |models| ==>
            && (models[i].recorded != "" ==> run.name != models[i].recorded)
            && run.name != if models[i].namespace == "" then models[i].name
                           else models[i].namespace + "-" + models[i].name)
      && !run.service.terminal
      && now - run.service.submittedAt >= (if grace > 0 then grace else 5 * MINUTE)
      && "SQUALL_MODEL_UID" in run.service.config.env
      && run.service.config.env["SQUALL_MODEL_UID"] != ""
      && (forall i :: 0 <= i < |models| ==> models[i].uid != run.service.config.env["SQUALL_MODEL_UID"])
  {
  }

  /** A Model acts under the name on record, and under the computed one until there is one. */
  lemma RunNameMeans(m: ModelRecord)
    ensures m.recorded != "" ==> RunNameFor(m) == m.recorded
    ensures m.recorded == "" && m.namespace == "" ==> RunNameFor(m) == m.name
    ensures m.recorded == "" && m.namespace != "" ==> RunNameFor(m) == m.namespace + "-" + m.name
  {
  }
}
