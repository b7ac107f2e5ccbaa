/** The controller's pure phase machine (internal/controller/squall/phase.go). */
module Phase {
  import opened Base
  import opened Dstack

  datatype ModelPhase = Unset | Asleep | Waking | Ready | Draining | Recreating | Dead

  datatype Health = Health(unhealthyAfter: Duration, failureThreshold: int)

  datatype Spec = Spec(
    minReplicas: int,
    hasBackends: bool,
    idleTimeout: Duration,
    uncontrolledTimeout: Option<Duration>,
    provisioningTimeout: Duration,
    holdTimeout: Duration,
    hardStop: Duration,
    drainTimeout: Duration,
    health: Health
  )

  /** The Provisioning condition; `failure` names the run and text its message carries. */
  datatype Condition = Provisioned | Failed(reason: Reason, failure: Failure, since: Instant)

  datatype Status = Status(
    phase: ModelPhase,
    runId: Option<RunId>,
    wakeStartedAt: Option<Instant>,
    lastRequestAt: Option<Instant>,
    uncontrolledSince: Option<Instant>,
    provisioning: Option<Condition>
  )

  /** What the proxies' reports, taken together, say about the Model's use. */
  datatype Evidence = Evidence(
    complete: bool,
    allIdle: bool,
    anyData: bool,
    newestLastRequestAt: Instant,
    newestLastSuccessAt: Instant,
    failuresSinceSuccess: int
  )

  const NO_EVIDENCE := Evidence(false, false, false, ZERO_TIME, ZERO_TIME, 0)

  datatype Observed = Observed(
    run: Option<Run>,
    failure: Option<Failure>,
    ready: bool,
    activity: Option<Evidence>
  )

  datatype Action = Action(
    apply: bool,
    replicas: nat,
    current: Option<Run>,
    alarm: bool,
    unhealthy: bool,
    uncontrolled: bool,
    provisioningTimedOut: bool,
    throttledUntil: Option<Instant>
  )

  /** Of the four reasons for a flip to 0, the one that leaves no mark on the action. */
  predicate IdleFlip(a: Action) {
    a.apply && a.replicas == 0 && !a.unhealthy && !a.uncontrolled && !a.provisioningTimedOut
  }

  const NO_ACTION := Action(false, 0, None, false, false, false, false, None)

  const DEFAULT_UNCONTROLLED_GRACE := 15 * MINUTE
  const MAX_UNCONTROLLED_TIMEOUT := 2 * HOUR
  const MAX_EXPLICIT_UNCONTROLLED_TIMEOUT := 24 * HOUR
  const MIN_HARD_STOP := HOUR
  const MIN_IDLE_TIMEOUT := MINUTE
  const PROVISIONING_RETRY_BACKOFF := MINUTE
  const DEFAULT_FAILURE_THRESHOLD := 3

  predicate Backs(r: Reason) {
    r == NoCapacity || r == InsufficientCredit || r == BackendRateLimited
  }

  function ProvisioningBackoff(prior: Status, now: Instant): Option<Instant> {
    match prior.provisioning
    case Some(Failed(reason, _, since)) =>
      if Backs(reason) && since != ZERO_TIME && now < since + PROVISIONING_RETRY_BACKOFF
      then Some(since + PROVISIONING_RETRY_BACKOFF)
      else None
    case _ => None
  }

  function UncontrolledTimeout(spec: Spec): Duration {
    if spec.uncontrolledTimeout.Some? && spec.uncontrolledTimeout.value > 0 then
      if spec.uncontrolledTimeout.value > MAX_EXPLICIT_UNCONTROLLED_TIMEOUT
      then MAX_EXPLICIT_UNCONTROLLED_TIMEOUT
      else spec.uncontrolledTimeout.value
    else
      var d := 4 * spec.idleTimeout + DEFAULT_UNCONTROLLED_GRACE;
      if d > MAX_UNCONTROLLED_TIMEOUT then MAX_UNCONTROLLED_TIMEOUT else d
  }

  predicate UncontrolledDue(since: Option<Instant>, timeout: Duration, hasDemand: bool, now: Instant) {
    !hasDemand && timeout > 0 && since.Some? && since.value != ZERO_TIME && now - since.value > timeout
  }

  predicate ProvisioningDue(wakeStartedAt: Option<Instant>, ready: bool, timeout: Duration, now: Instant) {
    !ready && timeout > 0 && wakeStartedAt.Some? && wakeStartedAt.value != ZERO_TIME
    && now - wakeStartedAt.value > timeout
  }

  predicate SleepDue(activity: Option<Evidence>, durable: Option<Instant>, idleTimeout: Duration, now: Instant) {
    && activity.Some?
    && var ev := activity.value;
    && ev.complete
    && ev.allIdle
    && if !ev.anyData && ev.newestLastRequestAt == ZERO_TIME then
         durable.Some? && durable.value != ZERO_TIME && now - durable.value > idleTimeout
       else
         now - ev.newestLastRequestAt > idleTimeout
  }

  function Threshold(failureThreshold: int): int {
    if failureThreshold <= 0 then DEFAULT_FAILURE_THRESHOLD else failureThreshold
  }

  predicate UnhealthyDue(activity: Option<Evidence>, ready: bool, wakeStartedAt: Option<Instant>,
                         health: Health, idleTimeout: Duration, now: Instant)
  {
    && ready
    && health.unhealthyAfter > 0
    && activity.Some?
    && var ev := activity.value;
    && ev.complete
    && now - ev.newestLastRequestAt <= idleTimeout
    && ev.failuresSinceSuccess >= Threshold(health.failureThreshold)
    && var anchor := if wakeStartedAt.Some? && wakeStartedAt.value > ev.newestLastSuccessAt
                     then wakeStartedAt.value else ev.newestLastSuccessAt;
    && anchor != ZERO_TIME
    && now - anchor > health.unhealthyAfter
  }

  /** The phase to report and what to do to the run. */
  function Decide(observed: Observed, prior: Status, spec: Spec, hasDemand: bool, now: Instant)
    : (ModelPhase, Action)
  {
    var wantAwake := spec.minReplicas == 1 || hasDemand;
    if observed.run.None? then
      var died := prior.runId.Some?;
      if !wantAwake then
        if died then (Dead, NO_ACTION.(alarm := true)) else (Asleep, NO_ACTION)
      else
        var phase := if died then Recreating else Waking;
        var until := ProvisioningBackoff(prior, now);
        if until.Some? then (phase, NO_ACTION.(throttledUntil := until))
        else (phase, NO_ACTION.(apply := true, replicas := 1, alarm := died))
    else if observed.run.value.replicas == 0 then
      if !wantAwake then (Asleep, NO_ACTION)
      else (Waking, NO_ACTION.(apply := true, replicas := 1, current := observed.run))
    else
      var flip := NO_ACTION.(apply := true, current := observed.run);
      var onDemand := spec.minReplicas == 0;
      if ProvisioningDue(prior.wakeStartedAt, observed.ready, spec.provisioningTimeout, now) then
        (Dead, flip.(alarm := true, provisioningTimedOut := true))
      else if onDemand && SleepDue(observed.activity, prior.lastRequestAt, spec.idleTimeout, now) then
        (Asleep, flip)
      else if onDemand && UnhealthyDue(observed.activity, observed.ready, prior.wakeStartedAt,
                                       spec.health, spec.idleTimeout, now) then
        (Asleep, flip.(unhealthy := true))
      else if onDemand && UncontrolledDue(prior.uncontrolledSince, UncontrolledTimeout(spec), hasDemand, now) then
        (Asleep, flip.(uncontrolled := true))
      else if observed.ready then (Ready, NO_ACTION.(replicas := 1))
      else if prior.phase == Recreating then (Recreating, NO_ACTION.(replicas := 1))
      else (Waking, NO_ACTION.(replicas := 1))
  }

  /** The rejections of ValidateWithWarnings (internal/controller/squall/model_validation.go). */
  predicate ValidSpec(spec: Spec) {
    && spec.hasBackends
    && (spec.uncontrolledTimeout.Some? ==>
          0 < spec.uncontrolledTimeout.value <= MAX_EXPLICIT_UNCONTROLLED_TIMEOUT)
    && (spec.hardStop > 0 ==> spec.hardStop >= MIN_HARD_STOP && spec.hardStop >= UncontrolledTimeout(spec))
    && spec.holdTimeout <= spec.provisioningTimeout
    && spec.idleTimeout >= MIN_IDLE_TIMEOUT
    && spec.provisioningTimeout > 0
  }
}
