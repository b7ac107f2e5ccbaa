/** Compare-and-swap and run identity over every interleaving of clients, deaths, stops and deletes. */
module ServerRuns {
  import opened Base
  import opened Dstack
  import opened Server

  datatype Event =
    | DoApply(req: Request, now: Instant)
    | DoStop(name: string)
    | DoDelete(name: string)
    | Die(name: string)

  function Step(s: State, e: Event): State {
    match e
    case DoApply(req, now) => Apply(s, req, now).0
    case DoStop(name) => Stop(s, name).0
    case DoDelete(name) => Delete(s, name).0
    case Die(name) => Terminate(s, name)
  }

  /** `ss[i]` is the server before event `i`; every anchor sent was read from an earlier state. */
  ghost predicate IsHistory(ss: seq<State>, es: seq<Event>) {
    && |ss| == |es| + 1
    && ss[0].services == map[]
    && (forall i :: 0 <= i < |es| ==> ss[i + 1] == Step(ss[i], es[i]))
    && (forall i :: 0 <= i < |es| && es[i].DoApply? && es[i].req.current.Some? ==>
          exists k :: 0 <= k <= i && AnchorHeld(ss[k], es[i].req.name, es[i].req.current.value))
  }

  /** Event `i` is an Apply that succeeded. */
  ghost predicate Applied(ss: seq<State>, es: seq<Event>, i: nat)
    requires |ss| == |es| + 1 && i < |es|
  {
    es[i].DoApply? && Apply(ss[i], es[i].req, es[i].now).1.Ok?
  }

  ghost function AppliedRun(ss: seq<State>, es: seq<Event>, i: nat): Service
    requires |ss| == |es| + 1 && i < |es| && Applied(ss, es, i)
  {
    Apply(ss[i], es[i].req, es[i].now).1.service
  }

  /** Run `id` has existed, under `name`, and its deployment number has reached `num`. */
  ghost predicate Past(s: State, name: string, id: RunId, num: nat) {
    && id < s.nextId
    && forall n :: n in s.services && s.services[n].runId == id ==> n == name && s.services[n].deploymentNum >= num
  }

  ghost predicate IdsMinted(s: State) {
    forall n :: n in s.services ==> s.services[n].runId < s.nextId
  }

  ghost predicate IdsDistinct(s: State) {
    forall m, n :: m in s.services && n in s.services && s.services[m].runId == s.services[n].runId ==> m == n
  }

  lemma StepKeeps(s: State, e: Event)
    requires IdsMinted(s) && IdsDistinct(s)
    ensures IdsMinted(Step(s, e)) && IdsDistinct(Step(s, e))
  {
  }

  lemma PastKept(s: State, e: Event, name: string, id: RunId, num: nat)
    requires Past(s, name, id, num)
    ensures Past(Step(s, e), name, id, num)
  {
  }

  lemma {:induction false} Sound(ss: seq<State>, es: seq<Event>, i: nat)
    requires IsHistory(ss, es) && i <= |es|
    ensures IdsMinted(ss[i]) && IdsDistinct(ss[i])
  {
    if i > 0 {
      Sound(ss, es, i - 1);
      StepKeeps(ss[i - 1], es[i - 1]);
    }
  }

  lemma {:induction false} PastStays(ss: seq<State>, es: seq<Event>, name: string, id: RunId, num: nat, i: nat, j: nat)
    requires IsHistory(ss, es) && i <= j <= |es|
    requires Past(ss[i], name, id, num)
    ensures Past(ss[j], name, id, num)
  {
    if i < j {
      PastStays(ss, es, name, id, num, i, j - 1);
      PastKept(ss[j - 1], es[j - 1], name, id, num);
    }
  }

  /** A live run keeps its identity: only death or delete can end it. */
  lemma IdentityChangesOnlyAfterDeath(s: State, e: Event, name: string)
    requires Live(s, name)
    ensures name in Step(s, e).services && Step(s, e).services[name].runId == s.services[name].runId
  {
  }

  /** Successful Applies of one run carry strictly increasing deployment numbers, and one name only. */
  lemma DeploymentNumbersIncrease(ss: seq<State>, es: seq<Event>, i: nat, j: nat)
    requires IsHistory(ss, es) && i < j < |es|
    requires Applied(ss, es, i) && Applied(ss, es, j)
    requires AppliedRun(ss, es, i).runId == AppliedRun(ss, es, j).runId
    ensures es[i].req.name == es[j].req.name
    ensures AppliedRun(ss, es, i).deploymentNum < AppliedRun(ss, es, j).deploymentNum
  {
    var v := AppliedRun(ss, es, i);
    Sound(ss, es, i + 1);
    assert ss[i + 1].services[es[i].req.name] == v;
    assert Past(ss[i + 1], es[i].req.name, v.runId, v.deploymentNum);
    PastStays(ss, es, es[i].req.name, v.runId, v.deploymentNum, i + 1, j);
    Sound(ss, es, j);
  }

  /** Run ids are never reused: once a name stops holding an id, nothing ever holds it again. */
  lemma {:induction false} RunIdsNeverReturn(ss: seq<State>, es: seq<Event>, name: string, id: RunId, i: nat, j: nat,
                                             m: string)
    requires IsHistory(ss, es) && i < j <= |es|
    requires name in ss[i].services && ss[i].services[name].runId == id
    requires !(name in ss[i + 1].services && ss[i + 1].services[name].runId == id)
    ensures m in ss[j].services ==> ss[j].services[m].runId != id
  {
    Sound(ss, es, i);
    Gone(ss[i], es[i], name, id);
    GoneStays(ss, es, id, i + 1, j);
  }

  ghost predicate Retired(s: State, id: RunId) {
    id < s.nextId && forall n :: n in s.services ==> s.services[n].runId != id
  }

  lemma Gone(s: State, e: Event, name: string, id: RunId)
    requires IdsMinted(s) && IdsDistinct(s)
    requires name in s.services && s.services[name].runId == id
    requires !(name in Step(s, e).services && Step(s, e).services[name].runId == id)
    ensures Retired(Step(s, e), id)
  {
  }

  lemma {:induction false} GoneStays(ss: seq<State>, es: seq<Event>, id: RunId, i: nat, j: nat)
    requires IsHistory(ss, es) && i <= j <= |es| && Retired(ss[i], id)
    ensures Retired(ss[j], id)
  {
    if i < j {
      GoneStays(ss, es, id, i, j - 1);
    }
  }

  /** The run under `name` was alive at every state in (i, j]. */
  ghost predicate AliveBetween(ss: seq<State>, name: string, i: nat, j: nat)
    requires j < |ss|
  {
    forall k :: i < k <= j ==> Live(ss[k], name)
  }

  lemma {:induction false} SameRunWhileAlive(ss: seq<State>, es: seq<Event>, name: string, i: nat, j: nat)
    requires IsHistory(ss, es) && i < j <= |es| && AliveBetween(ss, name, i, j)
    ensures ss[j].services[name].runId == ss[i + 1].services[name].runId
    ensures ss[j].services[name].deploymentNum >= ss[i + 1].services[name].deploymentNum
  {
    if i + 1 < j {
      SameRunWhileAlive(ss, es, name, i, j - 1);
      IdentityChangesOnlyAfterDeath(ss[j - 1], es[j - 1], name);
    }
  }

  /**
   Of all Applies computed from one observed state (a run and deployment number, or no run), at most one
   succeeds until the run it left behind dies or is deleted.
   */
  lemma OneApplyPerObservation(ss: seq<State>, es: seq<Event>, i: nat, j: nat)
    requires IsHistory(ss, es) && i < j < |es|
    requires Applied(ss, es, i) && Applied(ss, es, j)
    requires es[i].req.name == es[j].req.name && es[i].req.current == es[j].req.current
    ensures !AliveBetween(ss, es[i].req.name, i, j)
  {
    var name := es[i].req.name;
    if AliveBetween(ss, name, i, j) {
      SameRunWhileAlive(ss, es, name, i, j);
      assert Live(ss[j], name);
      var a := es[j].req.current.value;
      assert a == AnchorOf(ss[j].services[name]);
      var k :| 0 <= k <= i && AnchorHeld(ss[k], name, a);
      Sound(ss, es, k);
      assert Past(ss[k], name, a.runId, 0);
      PastStays(ss, es, name, a.runId, 0, k, i);
    }
  }

  /** While a run lives, its deployment number determines everything about it. */
  lemma {:induction false} VersionFixesRun(ss: seq<State>, es: seq<Event>, name: string, i: nat, j: nat)
    requires IsHistory(ss, es) && i <= j <= |es|
    requires Live(ss[i], name) && Live(ss[j], name)
    requires AnchorOf(ss[i].services[name]) == AnchorOf(ss[j].services[name])
    ensures ss[i].services[name] == ss[j].services[name]
  {
    if i < j {
      var v := ss[i].services[name];
      Sound(ss, es, i);
      assert Past(ss[i], name, v.runId, v.deploymentNum);
      PastStays(ss, es, name, v.runId, v.deploymentNum, i, j - 1);
      Sound(ss, es, j - 1);
      VersionFixesRun(ss, es, name, i, j - 1);
    }
  }

  /** Event `i` succeeded as a wake computed from a read, at state `k`, of a live run with no replicas. */
  ghost predicate WakeFromSleep(ss: seq<State>, es: seq<Event>, k: nat, i: nat)
    requires |ss| == |es| + 1 && i < |es|
  {
    && k <= i
    && Applied(ss, es, i)
    && es[i].req.replicas > 0
    && Live(ss[k], es[i].req.name)
    && ss[k].services[es[i].req.name].replicas == 0
    && es[i].req.current == Some(AnchorOf(ss[k].services[es[i].req.name]))
  }

  lemma {:induction false} ReplicasDropOnlyBySleep(ss: seq<State>, es: seq<Event>, name: string, i: nat, j: nat)
    returns (m: nat)
    requires IsHistory(ss, es) && i < j <= |es| && AliveBetween(ss, name, i, j)
    requires ss[i + 1].services[name].replicas > 0 && ss[j].services[name].replicas == 0
    ensures i < m < j && Applied(ss, es, m) && es[m].req.name == name && es[m].req.replicas == 0
  {
    if ss[j - 1].services[name].replicas == 0 {
      m := ReplicasDropOnlyBySleep(ss, es, name, i, j - 1);
    } else {
      m := j - 1;
    }
  }

  /**
   One sleeping episode gets one effective wake: between two successful wakes, each computed from a read of
   a sleeping run, the run died or was deleted, or a sleep succeeded.
   */
  lemma OneWakePerSleep(ss: seq<State>, es: seq<Event>, k1: nat, i: nat, k2: nat, j: nat) returns (m: nat)
    requires IsHistory(ss, es) && i < j < |es|
    requires WakeFromSleep(ss, es, k1, i) && WakeFromSleep(ss, es, k2, j)
    requires es[i].req.name == es[j].req.name
    requires AliveBetween(ss, es[i].req.name, i, j)
    ensures i < m < j && Applied(ss, es, m) && es[m].req.name == es[i].req.name && es[m].req.replicas == 0
  {
    var name := es[i].req.name;
    assert Live(ss[j], name);
    VersionFixesRun(ss, es, name, k2, j);
    m := ReplicasDropOnlyBySleep(ss, es, name, i, j);
  }
}
