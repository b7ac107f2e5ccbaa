# Squall's wake and sleep protocol, modelled and proved

Squall rents a GPU when requests for a Model arrive and gives it back when they stop. Three kinds of actor
decide that together:

- **Proxies** count requests, stamp demand on the Model, hold callers while the Model wakes and judge the replica.
- **The controller** reads the stamp, the proxies' reports and the dstack run, and flips replicas between 0 and 1.
- **The dstack server** accepts an Apply under a whole-run compare-and-swap, refuses to override an active run and
  refuses to delete one.

The project models these as Dafny classes and loops where the source changes state, and as functions and step
machines where a claim is about whole runs. Each class method is proved equal to the function that the whole-run
theorems are about.

| file | part of the system |
|---|---|
| `Base`, `Dstack` | instants, whole-second storage, runs and failures |
| `Phase`, `Reconcile` | the controller's decision, and one Reconcile pass with everything it carries forward |
| `PassOutcome` | exactly when a pass wakes or flips a Model and what it stores, on what it reads |
| `ControllerRuns`, `WakeClock`, `Release` | runs of passes: earned flips, paced provisioning, the wake clock, bounded release |
| `Tracker`, `Aggregate`, `IdleSleep` | the proxies' request counters, their aggregation, and idle sleep across proxies |
| `Server`, `ServerRuns`, `SleepFlip` | dstack's rules, run identity under any interleaving, what a sleep Apply sends |
| `Teardown`, `DrainSafety`, `Reaper`, `StopSafety` | deletion with crashes at any point, the orphan sweep, what a Stop can hit |
| `Forward`, `Handler`, `HeldRequest`, `HealthVerdict` | one proxied request, what a hold waits for, the held-request limit, what a health verdict rests on |
| `CacheNotify`, `Demand` | subscribe and notify, demand stamps during a hold |
| `GivenBack` | proxies, controller and server joined: demand brings replicas up, and bounded release from end to end |
| `Tunnel`, `ShellJoin` | SSH tunnel reference counts, shell quoting |

Modelling decisions:

- Time is an unbounded integer of nanoseconds and Go's zero time is 0. Status times and the demand stamp are cut to
  whole seconds when stored, as the API server and the RFC 3339 annotation do.
- Whatever the program reads from outside (HTTP, Kubernetes, SSH, clocks) is an input of the modelled operation, so a
  theorem over all inputs is a theorem over everything those calls can answer.
- A pass reads the status the previous pass stored. A failed status write leaves the old one in place.
- Run ids are sequence numbers. The Provisioning condition's message is the pair of run id and detail text.

Where the code does less than its comments or documentation say, the model follows the code, a lemma shows the input,
and another gives the exact condition:

- **Uncontrolled timeout.** The clock is stored in whole seconds, so a flip can come up to a second early
  (`UncontrolledFlipCanComeEarly`). `UncontrolledFlipIff` says exactly when the flip comes, `EarlyFlipIff` when it is
  early, and `EarlyFlipPossibleIff` that this can happen if and only if the clock does not start on a whole second and
  no provisioning deadline comes first.
- **Missing backend URL.** internal/proxy/handler.go:438-446 says it is not to be charged to the replica. It is, exactly
  when the script of the request makes the retry loop lose that error: the hold's deadline has passed when the loop
  starts, or the Model stops serving first (`LosesError`, in the contract of `Handler.Serve`). Such requests
  alone can bring the failure count to any height (`MischargesSuffice`) and have a healthy replica flipped as unhealthy
  (`FlipWithoutRealFailure`).
- **Refresh cadence.** A tenth of idleTimeout is meant to leave a margin of nine missed refreshes
  (internal/proxy/handler.go:169-189). What it leaves depends on the stamp a hold begins on. `DemandHeldIff` gives the
  exact margin for every cooldown, gap, patch time, number of failures and age of that stamp. For a hold that begins on
  no stamp or one at most a cooldown old, with patches that take no time, eight failures in a row are always survived,
  and nine if and only if the operator's ceiling is below a tenth of what idleTimeout leaves after six seconds
  (`NineFailuresSurvivedIff`); any patch time lets eight lapse at the one-minute floor (`EightSlowFailuresCanLapse`). For
  a hold that begins on an older stamp, still alive, a single failure can be too much (`OneFailureCanLapse`), and over
  all live stamps no failure is survived (`LiveStampHeldIff`).
- **Subscribe.** Await reads the cache before it subscribes, so a write that lands in between is announced to nobody and
  waits for the refresh tick (`GapIsReachable`); `BehindIffGap` shows that this is the only way to fall behind.
- **Tunnel release and retire.** Each decides on a count of zero and closes in a later operation. A stream that starts in
  between is cut (`ReleaseRaceIsReachable`, `RetireRaceIsReachable`; internal/proxy/sshbackend.go:131-134 names the
  second and leaves the close to that stream's own release, but the close is already under way). `ClosesUnderStreamIff`
  shows that nothing else in release or retire cuts one.
- **Sleep flips.** Env, key and durations are echoed, the rest of the configuration is rebuilt from the spec. A server that
  compared the whole configuration would refuse a sleep flip exactly after a spec edit (`OnlySpecEditsOverride`).

## Model

| member | source | states |
|---|---|---|
| GivenBack.GivenBackForGood | internal/controller/squall/model_controller.go:153-499 | Proxies, passes and server together: when every request the proxies accepted had ended by `quiet`, no demand is stamped later, dstack reads and status writes succeed, and a pass follows within a gap after one that saw the run up or woke it, then from the first pass later than quiet + 2·idleTimeout + uncontrolled timeout + 2 gaps, no server state ever again has replicas up under the Model's name, whatever evidence is missing and whatever dies, is stopped or is deleted |
| GivenBack.ServerSeesRelease | internal/controller/squall/phase.go:179-301 | In the same setting the server shows no replicas under the name at some point of a pass no later than quiet + idleTimeout + uncontrolled timeout + 2 gaps, or already when the first pass reads it |
| GivenBack.WantedComesUp | internal/controller/squall/phase.go:190-237 | A pass that reads the server without replicas under the name, of a Model that is wanted, may be provisioned, has its env and is not held back by a failure, leaves replicas up under the name right after its Apply |
| GivenBack.NotRefused | internal/dstack/mock/mock.go:292-346 | An Apply computed by the name's only writer is never refused: the anchor is current or the run is dead, and a flip echoes what is stored |
| GivenBack.SentIsAccepted | internal/dstack/mock/mock.go:292-346 | So every Apply a pass sends lands, and leaves the replicas it asked for |
| GivenBack.PassesAreQuiet | internal/controller/squall/activity.go:77-145 | The hypotheses of bounded release on evidence and Applies follow from the proxies' and the server's own steps |
| GivenBack.PassesAreTheOnlyWakers | internal/dstack/mock/mock.go:292-346 | Replicas up at a pass were up at the one before and left so, or woken by it |
| GivenBack.StaysDown | internal/controller/squall/model_controller.go:1216-1226 | After the demand window, replicas that are down under the name are down in every later server state |
| GivenBack.WorldWithRunUp | internal/controller/squall/model_controller.go:153-499 | All hypotheses of both theorems are met by a run that is up, passes that hear from no proxy, an uncontrolled flip, and a pass after every deadline |
| Release.ReleasedInTime | internal/controller/squall/phase.go:179-301 | An on-demand Model with a valid spec and a recorded wake, unused and unasked for since `quiet`, is flipped to 0, or seen at 0 or gone, by quiet + idleTimeout + uncontrolled timeout + 2 gaps (or by the first pass, if that finds it down), whatever mix of complete and missing evidence the passes gather; reads, Applies and status writes succeed, and a gap bounds the time after a pass that saw the run up or woke it |
| Release.NoWakeWithoutDemand | internal/controller/squall/model_controller.go:1216-1226 | Once the last stamp has expired, no pass of such a run wakes the Model |
| Release.StaysReleased | internal/controller/squall/model_controller.go:484-498 | With no other waker, residual demand may wake the Model once more, but from quiet + 2·idleTimeout + uncontrolled timeout + 2 gaps on, no pass of any such run sees it up, however seldom a sleeping Model is reconciled |
| Release.ReleasedOnceBlind | internal/controller/squall/phase.go:376-393 | Once the uncontrolled clock runs, release follows within one timeout and one gap, even if evidence comes and goes |
| Release.StaysUp | internal/controller/squall/model_controller.go:739-782 | A pass that leaves a quiet Model up past idleTimeout had no complete evidence, and leaves the uncontrolled clock running, never restarted and not yet expired |
| Release.AnchoredThroughout | internal/controller/squall/model_controller.go:739-782 | Over a whole quiet run nothing in the status dates a use after the demand window, and a Model that is up has its wake on record |
| PassOutcome.WakesIff | internal/controller/squall/phase.go:190-237 | A pass wakes the Model if and only if the server shows no live replicas, the Model is pinned or its stamp is younger than idleTimeout, price and spec are good, env and reply are good, and, with no live run, no capacity, credit or rate failure is on record for less than a minute; a sleeping run is flipped in place, otherwise a new one is asked for |
| PassOutcome.FlipsIff | internal/controller/squall/phase.go:239-301 | A pass flips a run to 0 if and only if it is up, the server accepts, and the wake is overdue, or the Model is on demand and long idle, sick, or unmeasured for the whole timeout, each spelled out on status, spec, stamp and evidence |
| PassOutcome.FlipReasons | internal/controller/squall/phase.go:246-287 | Each reason is given exactly when it holds and no earlier one does |
| PassOutcome.PinnedFlipsIff | internal/controller/squall/phase.go:239-287 | A pinned Model is flipped by the provisioning deadline and by nothing else |
| PassOutcome.StoresTimes | internal/controller/squall/model_controller.go:218-331 | What a writing pass stores: the id of the run applied or seen; the wake time, set once, cleared by a sleep; the latest use on record or heard of; the uncontrolled clock, kept, started or cleared; all cut to whole seconds |
| PassOutcome.StoresPhase | internal/controller/squall/phase.go:179-301 | The phase it stores, case by case; a veto or a refused override leaves it as it was |
| PassOutcome.StoresCondition | internal/controller/squall/model_controller.go:668-716 | The Provisioning condition it stores: the failure seen, dated from its first record; cleared when Ready; else kept |
| PassOutcome.WritesIff | internal/controller/squall/model_controller.go:153-499 | When it writes at all, and that it changes nothing otherwise |
| PassOutcome.AlarmIff | internal/controller/squall/phase.go:195-252 | The alarm is raised exactly for a wake that timed out and for a run that is gone unless its replacement is held back |
| PassOutcome.TimeoutMeans | internal/controller/squall/phase.go:376-389 | The uncontrolled timeout is the smaller of the explicit one and a day, or of four idle windows and 15 minutes and two hours |
| PassOutcome.ValidSpecIff | internal/controller/squall/model_validation.go:28-86 | Which specs are accepted, in numbers |
| WakeClock.WakeTimeIsFirstWake | internal/controller/squall/model_controller.go:325-331 | Over any run, a stored wake time is the whole second of an accepted wake from rest after which no sleep was stored, whatever wakes came in between |
| WakeClock.WakeTimeStands | internal/controller/squall/model_controller.go:325-331 | And it stands as long as no sleep is stored |
| WakeClock.ProvisioningFlipEarned | internal/controller/squall/phase.go:246-252 | Behind a provisioning flip there is such a wake more than provisioningTimeout older, up to the part of a second lost in storage, and a run that is up and not ready |
| WakeClock.ProvisioningFlipIff | internal/controller/squall/phase.go:395-400 | While the Model is awake since pass j, pass i flips it for that reason if and only if the run is up and not ready past the deadline counted from the whole second of pass j |
| WakeClock.EachWakeGetsItsTime | internal/controller/squall/model_controller.go:325-331 | After a stored sleep the deadline counts from a later wake, never from one before it |
| ControllerRuns.UncontrolledFlipEarned | internal/controller/squall/phase.go:391-393 | Behind every Uncontrolled flip there is a status-writing pass older than the timeout, up to the part of a second lost in storage, and every status-writing pass from it to the flip saw replicas up, incomplete evidence and no demand |
| ControllerRuns.UncontrolledFlipIff | internal/controller/squall/phase.go:283-287 | Over any run: while the clock that pass j started runs, pass i flips as uncontrolled if and only if nothing else decides and the timeout has passed since the whole second of pass j |
| ControllerRuns.EarlyFlipIff | internal/controller/squall/phase.go:391-393 | That flip comes before the full timeout if and only if the wait falls into the part of a second that storage cut off |
| ControllerRuns.EarlyFlipPossibleIff | internal/controller/squall/model_controller.go:739-782 | For a pass that starts the clock, some later pass can flip early if and only if it does not fall on a whole second and the run's provisioning deadline does not come before the stored clock is over |
| ControllerRuns.UncontrolledFlipCanComeEarly | internal/controller/squall/model_controller.go:739-782 | Two concrete passes flip although the first is not a full timeout older |
| ControllerRuns.UncontrolledClock | internal/controller/squall/model_controller.go:739-782 | A stored uncontrolledSince is always the whole second of the pass that started an unbroken unmeasured stretch |
| ControllerRuns.MintIsPaced | internal/controller/squall/phase.go:209-221 | A run is minted over a capacity, credit or rate-limit failure only when an earlier pass recorded that failure first, its time never moved, and the backoff since then is over |
| ControllerRuns.FailureRecorded | internal/controller/squall/model_controller.go:668-716 | A failure on record was seen by the pass that first recorded it, and its time has stood unchanged in every stored status since |
| ControllerRuns.OtherRunRestartsBackoff | internal/controller/squall/model_controller.go:668-716 | Another run's failure replaces the record with the time of this pass, and a pacing failure keeps this very pass from minting |
| ControllerRuns.RetryFollows | internal/controller/squall/phase.go:358-374 | Once the window is over, the next readable pass of a wanted, schedulable Model asks for a run, and mints it if the Apply goes through |
| Reconcile.Reconciler.Reconcile | internal/controller/squall/model_controller.go:153-499 | The step-by-step pass, with its early returns, refused override and failed writes, leaves exactly the stored status, write flag and action of `Pass` |
| Reconcile.ModelObject.UpdateActivityStatus | internal/controller/squall/model_controller.go:739-782 | The in-place update of the idle anchor and the uncontrolled clock is `NoteActivity` |
| Reconcile.ModelObject.ReportProvisioningCondition | internal/controller/squall/model_controller.go:668-716 | Dropping and re-setting the condition keeps the time of the same message and restarts it for another one |
| Reconcile.ModelObject.RecordObservation | internal/controller/squall/model_controller.go:153-499 | What a pass notes before deciding is the status the decision is proved about |
| Reconcile.ModelObject.DecideOrVeto | internal/controller/squall/model_controller.go:861-955 | A wake with an impossible price or an invalid spec is vetoed and keeps the phase; nothing else is |
| Reconcile.ModelObject.Journal | internal/controller/squall/model_controller.go:153-499 | An accepted wake keeps an earlier wake time, an accepted sleep clears both clocks |
| IdleSleep.IdleSleepIsSound | internal/controller/squall/phase.go:260-267 | For any interleaving of requests, restarts and departures on any number of proxies and any report order: when a pass flips to 0 as idle, each expected proxy had nothing open for the Model when its report was taken and all it ever accepted had ended over idleTimeout before now; a missing key counts as proof |
| IdleSleep.IdleFlipReadsEvidence | internal/controller/squall/phase.go:409-421 | A flip to 0 without another mark on it comes from complete evidence, all idle, past idleTimeout |
| IdleSleep.ProxiesTruthful | internal/proxy/activity.go:49-148 | At every point of every behaviour, every proxy's counters tell the truth about its requests |
| IdleSleep.QuietProxiesQuietEvidence | internal/controller/squall/activity.go:77-145 | Proxies that accepted nothing after `quiet` and hold nothing open give evidence that bounded release counts as quiet |
| Tracker.InvKept | internal/proxy/activity.go:49-87 | Every critical section, with Begin's clock read before its lock, keeps: inFlight is the number of accepted requests not yet done, and at 0 lastRequestAt is the latest completion; a Model without a key never accepted a request |
| Tracker.RowAfterDone | internal/proxy/activity.go:49-87 | A completion takes exactly one open request off the count, and when it was the last its instant is the latest of all |
| Tracker.RowAfterAccept | internal/proxy/activity.go:49-87 | An accept adds exactly one open request to the count, whatever its stamp |
| Tracker.StepWritesRow | internal/proxy/activity.go:49-129 | What each critical section writes into the Model's row, field by field, and that it touches no other Model's |
| Tracker.ActivityTracker.Begin | internal/proxy/activity.go:49-87 | Inserts the key if missing, counts one more, stamps, and hands out a done func not yet called |
| Tracker.DoneFunc.Call | internal/proxy/activity.go:49-87 | The first call completes the request, later calls change nothing |
| Tracker.ActivityTracker.Success | internal/proxy/activity.go:94-109 | Stamps the success and resets the failure count, nothing else |
| Tracker.ActivityTracker.Failure | internal/proxy/activity.go:120-129 | Raises the failure count by one, nothing else |
| Aggregate.AggregateActivity | internal/controller/squall/activity.go:77-145 | Visiting addresses in any order with early exits gives the declarative description: complete iff the expected set is non-empty and each address's last answer is readable, non-negative and not from the future; idleness a conjunction, times maxima, failures a sum |
| Aggregate.Fold | internal/controller/squall/activity.go:77-145 | The loop over the answers meets that description in whatever order the map yields them |
| Aggregate.CompleteIff | internal/controller/squall/activity.go:77-115 | Evidence is complete if and only if some address is expected and each has a last result that is readable, non-negative and not from the future |
| Aggregate.AllIdleIff | internal/controller/squall/activity.go:116-145 | Complete evidence is all idle if and only if none of these results shows an open request |
| Aggregate.AnswerIsLast | internal/controller/squall/activity.go:77-100 | Of several results for an address the last counts |
| Aggregate.DescribedOnce | internal/controller/squall/activity.go:77-145 | The description determines the evidence uniquely |
| Aggregate.EvidenceIgnoresOrder | internal/controller/squall/activity.go:77-145 | The evidence does not depend on the order of either list, on duplicates in the expected list, or on an unexpected address's result |
| Aggregate.AnswersIgnoreOrder | internal/controller/squall/activity.go:77-145 | With one result per address, permuting the results changes no answer |
| Aggregate.AnswersIgnoreStrangers | internal/controller/squall/activity.go:77-145 | A result nobody asked for changes no answer, wherever it stands |
| Aggregate.FailureSumTakes | internal/controller/squall/activity.go:77-145 | The failure sum over a set is independent of the order of summation |
| Server.MockServer.ApplyRun | internal/dstack/mock/mock.go:292-346 | Force refused, stale anchor refused, changed idle_duration on a live run with replicas refused, otherwise a fresh run after death or the next deployment of the same run |
| Server.ApplyAcceptedIff | internal/dstack/mock/mock.go:292-318 | An Apply is accepted if and only if it is not forced and nothing live stands under the name, or the caller read the live run as it is and, with replicas up, leaves its idle duration alone; each refusal says which failed |
| Server.ApplyStores | internal/dstack/mock/mock.go:320-346 | An accepted Apply stores replicas and configuration as asked, under the right identity, and changes nothing else; a refused one changes nothing |
| Server.RunsEnd | internal/dstack/mock/mock.go:466-513 | What Stop, Delete and a death do to the run, and that they touch nothing else |
| Server.MockServer.StopRun | internal/dstack/mock/mock.go:487-499 | Terminal with no replicas, or not found |
| Server.MockServer.DeleteRun | internal/dstack/mock/mock.go:466-481 | Removed only when terminal; an active run is refused and kept |
| Server.MockServer.TerminateRun | internal/dstack/mock/mock.go:505-513 | An uncommanded death leaves everything but the terminal mark |
| ServerRuns.DeploymentNumbersIncrease | internal/dstack/mock/mock.go:292-346 | In every interleaving, successful Applies of one run id bear one name and strictly increasing deployment numbers |
| ServerRuns.RunIdsNeverReturn | internal/dstack/mock/mock.go:292-346 | Once a name stops holding a run id, no name holds it in any later state |
| ServerRuns.IdentityChangesOnlyAfterDeath | internal/dstack/mock/mock.go:292-346 | No event takes a live run's identity away |
| ServerRuns.OneApplyPerObservation | internal/dstack/mock/mock.go:292-346 | Of all Applies computed from one observed state, at most one succeeds until the run it left behind dies or is deleted |
| ServerRuns.VersionFixesRun | internal/dstack/mock/mock.go:292-346 | Over any stretch of history, a live run seen twice at one deployment number is the same in every field |
| ServerRuns.OneWakePerSleep | internal/controller/squall/phase.go:190-237 | Between two effective wakes computed from reads of a sleeping run, the run died or a sleep succeeded |
| ServerRuns.ReplicasDropOnlyBySleep | internal/dstack/mock/mock.go:292-346 | A run that stays alive loses its replicas only through a successful Apply of 0 |
| SleepFlip.SleepReproducesIff | internal/controller/squall/model_controller.go:804-851 | Decoding a run and re-encoding it for the 1→0 Apply gives back idle duration (absent and 0 apart), max duration, env and key, if and only if none of three degenerate values is stored |
| SleepFlip.WakeStores | internal/controller/squall/model_controller.go:804-851 | After an accepted wake the server holds the resolved env key for key with the Model's uid on top and nothing else, squall's key or the run's or the user's, an explicit idle duration of 0, the hard stop of an on-demand Model and none for a pinned one, and the replicas asked for |
| SleepFlip.WakeKeepsOrBegins | internal/dstack/mock/mock.go:292-346 | A wake of a live run keeps its identity and raises its deployment number; one with nothing live begins a run |
| SleepFlip.SleepOfNothing | internal/controller/squall/model_controller.go:819-823 | An Apply of 0 replicas with no run to put to sleep would bear the uid alone |
| SleepFlip.StoredConfigsEcho | internal/dstack/http.go:254-275 | No history of squall Applies, including runs stored with no idle_duration, ever stores such a value |
| SleepFlip.SleepNeverOverrides | internal/dstack/mock/mock.go:300-318 | Computed from any earlier read of a live run, a sleep flip is accepted exactly when that read is still current and is otherwise refused as stale, never as an override; it changes only replicas, deployment number and the spec's part |
| SleepFlip.OnlySpecEditsOverride | internal/dstack/http.go:337-360 | What a sleep flip submits equals the whole stored configuration if and only if the spec's part is unchanged |
| Teardown.TeardownIsSafe | internal/controller/squall/finalizer.go:36-148 | Over every history with crashes, lost replies and deaths: Draining is stored before any Stop, no Stop cuts live replicas before the deadline on unclean evidence, no Delete goes to a run just seen active (so none is refused), and when the finalizer goes, and ever after, no run is held under the name |
| DrainSafety.DrainCutsNoRequest | internal/controller/squall/finalizer.go:67-88 | Against the proxies: a teardown Stop that hits live replicas no later than deletion plus drainTimeout (120s where it is not positive) finds every expected proxy without an open request for the Model when its report was taken |
| DrainSafety.PassStopsIff | internal/controller/squall/finalizer.go:67-118 | A pass stops a live run if and only if Draining is on record, the run is read, and nothing is up, or time is up, or the proxies have drained, and the Stop arrives |
| DrainSafety.PassDeletesIff | internal/controller/squall/finalizer.go:120-122 | It deletes a dead run if and only if the same holds and the Delete arrives |
| DrainSafety.PassUnfinalizesIff | internal/controller/squall/finalizer.go:120-129 | The finalizer goes if and only if no live run is read, a dead one may end, and every reply arrives |
| Teardown.TwoPassesFinish | internal/controller/squall/finalizer.go:36-148 | From any resting state, two error-free passes after the deadline finish, even if the run dies in between |
| Teardown.InvKept | internal/controller/squall/finalizer.go:36-148 | Every single call and every fault keeps the teardown invariant |
| Teardown.PassEnds | internal/controller/squall/finalizer.go:36-148 | A whole pass, seven calls long, comes to exactly one of: nothing, wait, stop, delete, delete and release |
| Teardown.DrainingStays | internal/controller/squall/finalizer.go:36-148 | The log of effects only grows and Draining is never withdrawn |
| Teardown.DeletingModel.ReconcileDelete | internal/controller/squall/finalizer.go:36-148 | The method on live objects, with its early returns, has the effect of the seven-move pass |
| Reaper.Sweep | internal/controller/squall/reaper.go:123-222 | Stops exactly the unowned, non-terminal, old-enough runs stamped with a dead UID whose Stop does not fail, counts both outcomes, and touches nothing when either list fails |
| Reaper.OrphanIff | internal/controller/squall/reaper.go:123-222 | Which runs that is, in the records' own terms: no Model's computed or recorded name, not over, at least the grace (5 minutes by default) old, stamped with a uid no Model has |
| Reaper.RunNameMeans | internal/controller/squall/runname.go:14-37 | A Model acts under its recorded name, else under namespace and name |
| Reaper.SweepRuns | internal/controller/squall/reaper.go:123-222 | The loop carries on past a failed Stop, and its counters equal the orphans reached |
| Reaper.Index | internal/controller/squall/runname.go:32-50 | The lookup tables hold exactly the names and UIDs of the listed Models, recorded names included |
| StopSafety.StopsSpareListedModels | internal/controller/squall/reaper.go:123-222 | In every interleaving of one controller's wakes, sleeps, refused overrides, crashes, Models created and removed, deaths and a concurrent sweep: a Stop that hits replicas that are up comes from a sweep whose list knows neither the run's name nor its stamp at that moment |
| StopSafety.SquallStampsOrKeeps | internal/controller/squall/model_controller.go:804-824 | What squall sends after a read bears the Model's uid if it wakes and keeps the run's env if it puts it to sleep |
| StopSafety.RefusedWakeRecovers | internal/controller/squall/model_controller.go:597-652 | A wake refused as an override leads to a Stop of the run that cannot be flipped and, with the next wake, to a new run |
| StopSafety.CtlInvKept | internal/controller/squall/model_controller.go:597-652 | Recovery of a refused override can only ever stop a run whose replicas are at 0 |
| StopSafety.OrphansInvKept | internal/controller/squall/reaper.go:123-222 | A run found orphaned stays foreign to every listed Model until its Stop, though the controller keeps applying |
| StopSafety.ForeignAfterApply | internal/controller/squall/ownership.go:66-73 | An Apply of squall's never makes a foreign run one of a listed Model's |
| StopSafety.ListInvKept | internal/controller/squall/runname.go:32-50 | A Model on the list keeps writing only under names the list knows, even when its run name is recorded meanwhile |
| Forward.RetrySetIsHoldSet | internal/proxy/attempt.go:72-107 | The phases under which a plain 404 is retried are exactly those the decision table holds on |
| Forward.CommitsOnlyDeliverable | internal/proxy/decision.go:94-129 | An attempt commits if and only if its answer may be handed to a client under the table's own hold set |
| Forward.DecisionMeans | internal/proxy/decision.go:94-129 | A request is forwarded, held or answered, and only one of these; when each, with which status, and when demand is signalled or the alarm raised |
| Handler.Serve | internal/proxy/handler.go:216-460 | For every upstream behaviour and phase history: at most one status, none only to a caller who left; a committed answer is handed over as it came (403 as 502), never a 502, 503 or dstack not-found, a plain 404 only under a phase not held on; which way the request goes follows from the cache and, when held, from where its script ends the hold; one attempt without a hold; retries within what the hold left; credited iff a 2xx was delivered in full; charged iff the replica failed, or there was no route and the request's script loses that error |
| Handler.ServeHeld | internal/proxy/handler.go:317-460 | The same for the branch that holds |
| Handler.AfterHold | internal/proxy/handler.go:369-460 | The same from the end of the hold on: its commit, the wait contract, a Model that is gone, or a forward |
| Handler.ForwardNow | internal/proxy/handler.go:394-460 | The Forward branch after any hold: its attempts, the one status or none, and its verdict in terms of the deadline, the start of the retries and the rest of the script |
| Handler.TryForward | internal/proxy/handler.go:396-409 | Its attempts: one, and, if that failed after a hold of a replayable request, the retries as the script makes them end |
| Handler.RetryForward | internal/proxy/handler.go:497-542 | One attempt per frame, under the phase read then, until one commits, the deadline has come, the context has ended or the Model has stopped serving, each exactly when script and clock say so; these exclude each other; a deadline reports a missing route iff the last retry met one; all but the last of n retries fit n - 1 whole intervals in the budget |
| Handler.RetryOnce | internal/proxy/handler.go:497-542 | Each turn stops for a Model that no longer serves, or adds exactly one attempt under the phase read then |
| Handler.Commit | internal/proxy/handler.go:547-592 | One status; credit iff a 2xx reached the client in full, charge iff another answer did; a raw 403 is neither |
| Handler.Hold | internal/proxy/hold.go:29-80 | The first turn and the loop end as HoldEnds says; its attempts are one per turn, under the phase read then, and all failed to commit or only the last did |
| HeldRequest.HoldEnds | internal/proxy/hold.go:29-80 | Over script and clock: every turn before the last was waited through, with a snapshot that blocks, no commit, a live context and time left; the last was broken off, or its snapshot no longer blocks, or there was no more waiting |
| HeldRequest.HoldReturnsFirstUnblocked | internal/proxy/hold.go:29-80 | The first snapshot that no longer blocks, reached by turns waited through, is the one returned, without timeout, at its time |
| HeldRequest.TimedOutIff | internal/proxy/hold.go:29-80 | A hold times out if and only if there is no such snapshot |
| HeldRequest.SnapshotsBlockBeforeEnd | internal/proxy/hold.go:29-80 | Every snapshot read before the end blocks |
| HeldRequest.HeldRequestIsServed | internal/proxy/handler.go:317-460 | A held request whose Model becomes Ready in time, and whose next attempt is answered, gets that answer and no 503 |
| HeldRequest.CommitWhileHoldingIsServed | internal/proxy/handler.go:341-372 | One whose attempt commits while it waits gets that attempt's answer |
| HeldRequest.RetriedRequestIsServed | internal/proxy/handler.go:394-409 | One whose Model is Ready before its route is gets the answer of the first retry that commits in time |
| HeldRequest.HoldsIff | internal/proxy/handler.go:286-324 | Exactly which requests are held |
| HeldRequest.VerdictMeans | internal/proxy/handler.go:410-453 | The verdict by status, delivery, caller, ceiling and route |
| Handler.RefreshInterval | internal/proxy/handler.go:190-206 | The larger of half a second and a tenth of idleTimeout, unless a smaller positive ceiling; the ceiling alone without an idleTimeout |
| Handler.PendingGate.Acquire | internal/proxy/handler.go:603-617 | Admits below the limit and counts, refuses at it, and admits everyone uncounted without one |
| Handler.PendingGate.Release | internal/proxy/handler.go:619-626 | Gives exactly one slot back |
| Handler.HeldNeverExceedsLimit | internal/proxy/handler.go:603-626 | In every interleaving the counter is the number of requests held for the Model and never above the limit |
| Handler.RefusedIffFull | internal/proxy/handler.go:603-617 | In every interleaving a request is refused a slot if and only if there is a limit and that many requests hold one for the Model |
| HealthVerdict.UnhealthyFlipEarned | internal/controller/squall/phase.go:461-493 | Behind an Unhealthy flip stand at least the threshold (3 if unset) of distinct requests, accepted and served by the expected proxies, that failed through the replica or had no route and lost that error; all of them through the replica where no script loses it; and no proxy's last recorded success is within unhealthyAfter |
| HealthVerdict.MischargesSuffice | internal/proxy/handler.go:438-446 | Requests that end without a route and lose that error can bring the counter to any height with no failure of the replica among them |
| HealthVerdict.FlipWithoutRealFailure | internal/controller/squall/phase.go:461-493 | For every threshold and window there are a history, report, evidence and pass that flip the Model as unhealthy with no failure of the replica behind it |
| HealthVerdict.ServeAndRecord | internal/proxy/handler.go:394-453 | Serving an open request extends the proxy's history by one genuine entry: the count rises exactly for a charge and is reset exactly for a fully delivered 2xx |
| HealthVerdict.RowIsStreak | internal/proxy/activity.go:94-129 | Over any history of critical sections the counter is the number of failures since the last success |
| HealthVerdict.StreakCountsRequests | internal/proxy/activity.go:94-129 | A streak is never longer than the distinct requests that failed |
| HealthVerdict.SumBoundsRequests | internal/controller/squall/activity.go:77-145 | The summed counters of several proxies never exceed the distinct requests that failed on them |
| CacheNotify.NoLostWakeUp | internal/proxy/cache.go:160-217 | In every interleaving, a write of the Model after a waiting request subscribed and last read leaves a buffered notification, or its writer has not broadcast yet |
| CacheNotify.BehindIffGap | internal/proxy/hold.go:29-80 | With nothing buffered or due, a waiting request is behind the cache if and only if a write landed between its first read and its Subscribe |
| CacheNotify.GapIsReachable | internal/proxy/hold.go:29-80 | A four-step interleaving in which the write that made the Model ready is announced to nobody |
| CacheNotify.OthersNeverNotify | internal/proxy/cache.go:208-217 | A broadcast for another Model leaves a request's buffer as it was |
| CacheNotify.MovesMean | internal/proxy/cache.go:160-217 | A write owes a broadcast, a broadcast pays it with a notification for every waiting request of the Model, receiving takes it and wakes the request, and an awake request reads the Model as it is |
| CacheNotify.InformedKept | internal/proxy/cache.go:160-217 | Each step of a writer or a held request keeps what NoLostWakeUp rests on |
| CacheNotify.ModelCache.Broadcast | internal/proxy/cache.go:208-217 | The loop over subscribers fills each one-slot buffer of that Model once, full ones staying full |
| CacheNotify.ModelCache.Set | internal/proxy/cache.go:160-165 | The next read gets the snapshot, every subscriber of the Model has a notification waiting, and no other Model's entry, channel or notification changes |
| CacheNotify.ModelCache.Delete | internal/proxy/cache.go:169-174 | The next read finds no Model, and it is announced to the Model's subscribers and to nobody else |
| CacheNotify.ModelCache.Subscribe | internal/proxy/cache.go:188-206 | Adds an empty one-slot channel under the Model |
| CacheNotify.ModelCache.Cancel | internal/proxy/cache.go:188-206 | Takes the channel out again |
| Demand.DemandHeldIff | internal/proxy/demand.go:71-96 | For every cooldown, gap between ticks, patch time within it, k, and age from the cooldown on: demand holds at every moment of every hold on one proxy that begins on no stamp or one at most that old, with at most k failed patches in a row, if and only if both the worst age of the hold's own stamps, (k+1)·gap + cooldown + patch time + 1s less the nanoseconds the strict comparisons save, and that of the stamp it began on, age + k·gap + patch time + 1s less the same, are below idleTimeout |
| Demand.StaleStampHeldIff | internal/controller/squall/model_controller.go:1216-1226 | For one stamp older than the cooldown and one start: it covers the hold until its first success, in every course the hold can take, if and only if its age at the start, as truncated, plus k·gap and the patch time is below idleTimeout |
| Demand.LiveStampHeldIff | internal/proxy/handler.go:190-206 | Over all stamps that are alive when the hold begins, demand never lapses if and only if no patch fails or takes more than a nanosecond and the cadence alone keeps the hold's own stamps |
| Demand.DemandOutlivesHold | internal/controller/squall/model_controller.go:1216-1226 | No stamp the controller reads in a hold exceeds the bound for its kind |
| Demand.WorstMoment | internal/proxy/patcher.go:40-68 | A hold, for each pace and k, that reaches the bound for its own stamps |
| Demand.StaleMoment | internal/proxy/patcher.go:40-68 | A hold, for each pace, k and stale stamp, that reads that stamp as late as the bound allows |
| Demand.FailuresSurvivedIff | internal/proxy/handler.go:190-206 | At the proxy's own cadence plus patch time, with a 5s cooldown and a fresh or recently stamped coalescer: exactly how many failures every hold survives |
| Demand.EightFailuresSurvived | internal/proxy/handler.go:190-206 | There, with patches that take no time, eight in a row under any valid spec |
| Demand.EightSlowFailuresCanLapse | internal/proxy/handler.go:190-206 | There, not eight at an idleTimeout of one minute with patches that take any time |
| Demand.NineFailuresSurvivedIff | internal/proxy/handler.go:190-206 | There, with patches that take no time, nine in a row if and only if there is a ceiling and ten times it is below idleTimeout less 6s |
| Demand.OneFailureCanLapse | internal/proxy/demand.go:71-96 | A hold that begins on a live stamp 55s old, at an idleTimeout of one minute, and loses demand 5s later through one failed patch |
| Demand.SuccessIsRecent | internal/proxy/demand.go:71-96 | Whatever earlier holds left in the coalescer, a success of the hold, or a recent one before it, lags the latest tick by less than a cooldown and a gap per failed patch; while a stamp that was stale at the start is still the last, every patch so far has failed and the hold is at most one gap per failure after the first old |
| Demand.DemandCoalescer.Signal | internal/proxy/demand.go:71-96 | Suppressed within the cooldown of a success; a failed patch arms nothing; other Models untouched |
| Tunnel.CountIsOpenStreams | internal/proxy/sshbackend.go:125-172 | At the grain of single operations the count is the round trips in progress plus unclosed bodies |
| Tunnel.RetiredTunnelCloses | internal/proxy/sshbackend.go:113-140 | A retired tunnel with no stream left and nobody mid-step is closed |
| Tunnel.ClosesUnderStreamIff | internal/proxy/sshbackend.go:125-140 | An operation closes under an open stream if and only if it is the separate Close of a release or a retire and a stream that is still open started after the decrement to zero, or the idle load, which that Close rests on; undisturbed release and retire never do |
| Tunnel.ReleaseRaceIsReachable | internal/proxy/sshbackend.go:125-129 | Five operations that lead there through release |
| Tunnel.RetireRaceIsReachable | internal/proxy/sshbackend.go:131-140 | Three that lead there through retire |
| Tunnel.RegisteredNeverRetired | internal/proxy/sshbackend.go:262-303 | Over every sequence of resolves, dials, evictions and shutdowns a registered tunnel is not retired |
| Tunnel.TunnelCounters.Release | internal/proxy/sshbackend.go:125-129 | Undisturbed, release is its three operations in a row, and the one-step operation that never cuts a stream |
| Tunnel.TunnelCounters.Retire | internal/proxy/sshbackend.go:135-140 | Undisturbed, retire is its three operations in a row, and the one-step operation that never cuts a stream |
| Tunnel.SSHBackend.Find | internal/proxy/sshbackend.go:262-303 | Reuses a tunnel to the wanted endpoint, retires and drops one to another |
| Tunnel.SSHBackend.Install | internal/proxy/sshbackend.go:262-303 | The loser of a race for one endpoint gets the winner's tunnel |
| Tunnel.SSHBackend.Evict | internal/proxy/sshbackend.go:344-349 | A dead connection is forgotten unless it was replaced |
| Tunnel.SSHBackend.Close | internal/proxy/sshbackend.go:458-465 | Retires and drops every registered tunnel |
| ShellJoin.Join | internal/controller/squall/engine.go:245-256 | The builder loop produces the quoted form the round trip is about |
| ShellJoin.SplitJoined | internal/controller/squall/engine.go:245-256 | Splitting by the quoting rules of sections 2.2.1, 2.2.2 and 2.3 of the Shell Command Language (IEEE Std 1003.1) gives back exactly argv, for every list of strings, empty ones included |
| ShellJoin.JoinedInjective | internal/controller/squall/engine.go:245-256 | Different argument lists never give the same command text |
| ShellJoin.NothingUnquoted | internal/controller/squall/engine.go:245-256 | Outside single quotes stand only the separating spaces and escaped quotes |
| ShellJoin.JoinedIsTight | internal/controller/squall/engine.go:245-256 | The text is no longer than its quotes, its words and one space between each two |
| ShellJoin.InsideQuotes | internal/controller/squall/engine.go:245-256 | From inside quotes, an escaped argument is read back whole and the word stays open |

## Left out

- Fixed-width time: Go's Sub and durations saturate or wrap at 64 bits; the model's integers do not.
- Clock skew: proxies and controller share one clock.
- Stale informer reads: a pass starts from the status last stored.
- Requests accepted after a proxy's report was taken; claims are stated at report instants, as the code accepts that window.
- Error texts: a failure arrives already classified into its reason; matching of dstack's messages is not modelled.
- The spec's part of a run configuration (image, arguments, resources, placement, probe) is one opaque value.
- dstack's own intermediate states: Stop is terminal at once, as in `internal/dstack/mock/mock.go`; fleets, probes and Tick are not part of this model.
- Teardown's own Stops are the subject of Teardown and are not among the moves of StopSafety; run names are not injective in (namespace, name), so a shared name is not excluded there.
- Price parsing, preflight, served-model verification, ownership and drift conditions, requeue intervals and adding the finalizer.
- HTTP header and body handling, request routing, the rewrite of the model field and `/v1/models`.
- The Go scheduler's timing: the gap between passes or ticks is a hypothesis; a request whose script of events is used up is taken to lose its caller.
- Unregistered tunnels that a racing dial overwrote are not claimed to be retired; dial failures and host key pinning are not part of this model.
- Monotonicity of lastSuccessAt: Success reads its clock before the lock, so it is not claimed.
- Demand on more than one proxy: other proxies' stamps can only help; `Demand` speaks of one proxy's.
- The keepalive watch closes a tunnel whose connection fails, open streams or not (internal/proxy/sshbackend.go:357-363); the machine in `Tunnel` has only its eviction from the map.
- How proxies come to stamp demand is not joined to `GivenBack`, which takes the time of the last stamp as given.
- Metrics, logging, deep copies and environment parsing.
