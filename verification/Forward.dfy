/**
 The proxy's decision table and its rule for one forward attempt (internal/proxy/decision.go, attempt.go).
 */
module Forward {
  import opened Phase

  datatype ProxyAction = ProxyAction(
    forward: bool,
    block: bool,
    demandPatch: bool,
    immediateStatus: int,
    deadlineStatus: int,
    alarm: bool
  )

  const NOTHING := ProxyAction(false, false, false, 0, 0, false)
  const HOLD := ProxyAction(false, true, true, 0, 503, false)

  /** The six-row table; `gatewayCode` is 0 before any forward. */
  function DecideRequest(phase: ModelPhase, hasCR: bool, gatewayCode: int): ProxyAction {
    if !hasCR then NOTHING.(immediateStatus := 404)
    else match phase
      case Ready => if gatewayCode == 403 then NOTHING.(alarm := true, immediateStatus := 502)
                    else NOTHING.(forward := true)
      case Asleep => HOLD
      case Waking => HOLD
      case Recreating => HOLD
      case Dead => HOLD
      case Draining => NOTHING.(immediateStatus := 404)
      case Unset => NOTHING.(immediateStatus := 404)
  }

  /**
   What the table promises: a request is forwarded, held or answered at once, and only one of these; forwarded to a
   Ready Model unless the gateway said 403, which raises the alarm; held, with demand, while the Model is down or
   on its way up; and answered 404 where there is no Model, or one that is going away or unknown.
   */
  lemma DecisionMeans(phase: ModelPhase, hasCR: bool, gatewayCode: int)
    ensures
      var a := DecideRequest(phase, hasCR, gatewayCode);
      && (a.forward <==> hasCR && phase == Ready && gatewayCode != 403)
      && (a.block <==> hasCR && phase in {Asleep, Waking, Recreating, Dead})
      && (a.demandPatch <==> a.block)
      && (a.block ==> a.deadlineStatus == 503)
      && (a.alarm <==> hasCR && phase == Ready && gatewayCode == 403)
      && (a.immediateStatus == if a.forward || a.block then 0 else if a.alarm then 502 else 404)
  {
  }

  predicate Blocks(phase: ModelPhase) {
    DecideRequest(phase, true, 0).block
  }

  /** What one outbound try met. `serviceNotFound`: the body is dstack's own "Service ... not found". */
  datatype Upstream = NoRoute | TransportError | Answered(status: int, serviceNotFound: bool)

  /** classifyAttempt, with the phases written out as in the source: true means commit. */
  predicate Commits(u: Upstream, phase: ModelPhase) {
    match u
    case NoRoute => false
    case TransportError => false
    case Answered(status, serviceNotFound) =>
      if status == 502 || status == 503 then false
      else if status == 404 then
        !serviceNotFound && phase != Asleep && phase != Waking && phase != Recreating && phase != Dead
      else true
  }

  /** The retry set for a plain 404 is exactly the set of phases the decision table holds on. */
  lemma RetrySetIsHoldSet(phase: ModelPhase)
    ensures Commits(Answered(404, false), phase) <==> !Blocks(phase)
  {
  }

  /** An upstream answer a client may be handed. */
  predicate Deliverable(u: Upstream, phase: ModelPhase) {
    && u.Answered?
    && u.status != 502
    && u.status != 503
    && (u.status == 404 ==> !u.serviceNotFound && !Blocks(phase))
  }

  lemma CommitsOnlyDeliverable(u: Upstream, phase: ModelPhase)
    ensures Commits(u, phase) <==> Deliverable(u, phase)
  {
  }
}
