/**
 The wake clock over whole runs of passes: what a stored wake time stands for, and exactly when the provisioning
 deadline takes a run.
 */
module WakeClock {
  import opened Base
  import opened Phase
  import opened Reconcile
  import opened ControllerRuns
  import opened Release
  import opened PassOutcome

  /** Pass `j` woke the Model from rest, and no status-writing pass since has put it to sleep. */
  ghost predicate AwakeSince(st: seq<Status>, ps: seq<PassInput>, j: nat, i: nat)
    requires |st| == |ps| + 1
  {
    && j < i <= |ps|
    && Wrote(st, ps, j)
    && Wakes(st[j], ps[j])
    && st[j].wakeStartedAt.None?
    && forall k :: j < k < i && Wrote(st, ps, k) ==> !Flips(st[k], ps[k])
  }

  /** What one pass does to the wake time it finds stored. */
  lemma PassAndWakeTime(s: Status, p: PassInput)
    ensures !Pass(s, p).wrote ==> Pass(s, p).stored == s
    ensures Pass(s, p).wrote ==>
      Pass(s, p).stored.wakeStartedAt ==
        if Flips(s, p) then None
        else if s.wakeStartedAt.Some? then Some(WholeSecond(s.wakeStartedAt.value))
        else if Wakes(s, p) then Some(WholeSecond(p.now))
        else None
  {
    WritesIff(s, p);
    if Pass(s, p).wrote {
      StoresTimes(s, p);
    }
    hide Pass, WakeDue, FlipDue;
  }

  /** A stored wake time is the whole second of a wake after which no sleep was stored; later wakes left it alone. */
  lemma {:induction false} WakeTimeIsFirstWake(st: seq<Status>, ps: seq<PassInput>, i: nat) returns (j: nat)
    requires IsRun(st, ps) && i <= |ps|
    requires st[0].wakeStartedAt.None?
    ensures st[i].wakeStartedAt.Some? ==>
      AwakeSince(st, ps, j, i) && st[i].wakeStartedAt.value == WholeSecond(ps[j].now)
  {
    hide Pass, Flips, Wakes;
    j := 0;
    if i > 0 {
      j := WakeTimeIsFirstWake(st, ps, i - 1);
      PassAndWakeTime(st[i - 1], ps[i - 1]);
      if st[i].wakeStartedAt.Some? && st[i - 1].wakeStartedAt.None? {
        j := i - 1;
      }
    }
  }

  /** And as long as no sleep is stored it stands. */
  lemma {:induction false} WakeTimeStands(st: seq<Status>, ps: seq<PassInput>, j: nat, i: nat)
    requires IsRun(st, ps) && AwakeSince(st, ps, j, i)
    ensures st[i].wakeStartedAt == Some(WholeSecond(ps[j].now))
    decreases i
  {
    hide Pass;
    PassAndWakeTime(st[i - 1], ps[i - 1]);
    if j < i - 1 {
      WakeTimeStands(st, ps, j, i - 1);
    } else {
      assert !Flips(st[j], ps[j]);
    }
    hide Flips, Wakes;
  }

  /**
   A provisioning flip is always earned: a pass that woke the Model is more than provisioningTimeout older, counted
   from the whole second it was stored at, no sleep was stored since, and the run is up and not ready.
   */
  lemma ProvisioningFlipEarned(st: seq<Status>, ps: seq<PassInput>, i: nat) returns (j: nat)
    requires IsRun(st, ps) && i < |ps| && st[0].wakeStartedAt.None?
    requires Pass(st[i], ps[i]).action.provisioningTimedOut
    ensures AwakeSince(st, ps, j, i) && Up(ps[i]) && !IsReady(ps[i])
    ensures ps[i].now - ps[j].now > ps[i].spec.provisioningTimeout - ps[j].now % SECOND
  {
    FlipReasons(st[i], ps[i]);
    j := WakeTimeIsFirstWake(st, ps, i);
    hide Pass, IsReady, IsRun, AwakeSince;
  }

  /** And it always comes: while the Model is awake since pass `j`, pass `i` flips it for that reason exactly then. */
  lemma ProvisioningFlipIff(st: seq<Status>, ps: seq<PassInput>, j: nat, i: nat)
    requires IsRun(st, ps) && i < |ps| && AwakeSince(st, ps, j, i) && ps[j].now >= SECOND
    ensures Pass(st[i], ps[i]).action.provisioningTimedOut <==>
      && Up(ps[i])
      && !IsReady(ps[i])
      && ps[i].spec.provisioningTimeout > 0
      && ps[i].now - WholeSecond(ps[j].now) > ps[i].spec.provisioningTimeout
  {
    FlipReasons(st[i], ps[i]);
    WakeTimeStands(st, ps, j, i);
    hide Pass, IsReady, IsRun, AwakeSince;
  }

  /** A wake after a sleep gets its whole time: the deadline never counts from a wake before the sleep. */
  lemma EachWakeGetsItsTime(st: seq<Status>, ps: seq<PassInput>, k: nat, i: nat) returns (j: nat)
    requires IsRun(st, ps) && k < i < |ps| && st[0].wakeStartedAt.None?
    requires Wrote(st, ps, k) && Flips(st[k], ps[k])
    requires Pass(st[i], ps[i]).action.provisioningTimedOut
    ensures k < j < i && Wakes(st[j], ps[j])
    ensures ps[i].now - ps[j].now > ps[i].spec.provisioningTimeout - ps[j].now % SECOND
  {
    j := ProvisioningFlipEarned(st, ps, i);
    assert !(Wakes(st[j], ps[j]) && Flips(st[j], ps[j]));
    hide Pass, Wrote;
  }
}
