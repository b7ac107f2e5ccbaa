/**
 The dstack server's rules for runs (internal/dstack/mock/mock.go): compare-and-swap on the whole run,
 a fresh run after death, no override of an active run, and no delete of an active run.
 */
module Server {
  import opened Base
  import opened Dstack

  /** A stored run configuration apart from the replica count; `rest` is what the Model spec alone decides. */
  datatype Config = Config(idle: Option<int>, max: Option<int>, env: Env, sshKeyPub: string, rest: string)

  datatype Service = Service(
    runId: RunId,
    deploymentNum: nat,
    replicas: nat,
    terminal: bool,
    config: Config,
    submittedAt: Instant
  )

  /** `nextId` is the run id sequence; it is never reset. */
  datatype State = State(services: map<string, Service>, nextId: RunId)

  /** The identity a client sends back from an earlier read. */
  datatype Anchor = Anchor(runId: RunId, deploymentNum: nat)

  datatype Request = Request(name: string, replicas: nat, current: Option<Anchor>, force: bool, config: Config)

  datatype Reply = Ok(service: Service) | ResourceChanged | CannotOverride | ForceForbidden

  datatype Ack = Acked | ErrNotFound | ErrDeleteActiveRun

  predicate Live(s: State, name: string) {
    name in s.services && !s.services[name].terminal
  }

  function AnchorOf(v: Service): Anchor {
    Anchor(v.runId, v.deploymentNum)
  }

  /** A client reading `name` now would come away with `a`. */
  predicate AnchorHeld(s: State, name: string, a: Anchor) {
    name in s.services && AnchorOf(s.services[name]) == a
  }

  function Judge(s: State, req: Request): Option<Reply> {
    if req.force then Some(ForceForbidden)
    else if !Live(s, req.name) then None
    else
      var v := s.services[req.name];
      if req.current != Some(AnchorOf(v)) then Some(ResourceChanged)
      else if v.replicas > 0 && v.config.idle != req.config.idle then Some(CannotOverride)
      else None
  }

  /** The server after an Apply, and its reply. */
  function Apply(s: State, req: Request, now: Instant): (State, Reply) {
    var refusal := Judge(s, req);
    if refusal.Some? then (s, refusal.value)
    else
      var live := Live(s, req.name);
      var base := if live then s.services[req.name] else Service(s.nextId, 0, 0, false, req.config, now);
      var v := base.(deploymentNum := base.deploymentNum + 1, replicas := req.replicas, config := req.config);
      (State(s.services[req.name := v], if live then s.nextId else s.nextId + 1), Ok(v))
  }

  function Stop(s: State, name: string): (State, Ack) {
    if name !in s.services then (s, ErrNotFound)
    else (s.(services := s.services[name := s.services[name].(terminal := true, replicas := 0)]), Acked)
  }

  function Delete(s: State, name: string): (State, Ack) {
    if name !in s.services then (s, ErrNotFound)
    else if !s.services[name].terminal then (s, ErrDeleteActiveRun)
    else (s.(services := s.services - {name}), Acked)
  }

  /** An uncommanded death; the replica count is left as it was. */
  function Terminate(s: State, name: string): State {
    if name !in s.services then s
    else s.(services := s.services[name := s.services[name].(terminal := true)])
  }

  // ---------------------------------------------------------------- what a caller can rely on

  /** Nothing but what stands under `name` differs. */
  ghost predicate OnlyAt(s: State, t: State, name: string) {
    forall n :: n != name ==>
      (n in t.services <==> n in s.services) && (n in s.services ==> t.services[n] == s.services[n])
  }

  /**
   An Apply is accepted if and only if it is not forced and there is nothing live to protect, or the caller read
   the live run as it is and, with replicas up, leaves its idle duration alone; the reply to another one says
   which of these failed.
   */
  lemma ApplyAcceptedIff(s: State, req: Request, now: Instant)
    ensures
      var reply := Apply(s, req, now).1;
      var live := req.name in s.services && !s.services[req.name].terminal;
      var current := live && req.current.Some? && req.current.value.runId == s.services[req.name].runId
                     && req.current.value.deploymentNum == s.services[req.name].deploymentNum;
      var overrides := live && s.services[req.name].replicas > 0 && s.services[req.name].config.idle != req.config.idle;
      && (reply.Ok? <==> !req.force && (live ==> current && !overrides))
      && (reply.ForceForbidden? <==> req.force)
      && (reply.ResourceChanged? <==> !req.force && live && !current)
      && (reply.CannotOverride? <==> !req.force && current && overrides)
  {
  }

  /** An accepted Apply stores what it was asked to and nothing else changes; a refused one changes nothing. */
  lemma ApplyStores(s: State, req: Request, now: Instant)
    ensures
      var (t, reply) := Apply(s, req, now);
      if reply.Ok? then
        && OnlyAt(s, t, req.name)
        && Live(t, req.name)
        && t.services[req.name] == reply.service
        && reply.service.replicas == req.replicas
        && reply.service.config == req.config
        && if Live(s, req.name) then
             && t.nextId == s.nextId
             && reply.service.runId == s.services[req.name].runId
             && reply.service.deploymentNum == s.services[req.name].deploymentNum + 1
             && reply.service.submittedAt == s.services[req.name].submittedAt
           else
             && t.nextId == s.nextId + 1
             && reply.service.runId == s.nextId
             && reply.service.deploymentNum == 1
             && reply.service.submittedAt == now
      else t == s
  {
  }

  /** Stop, Delete and a death: what becomes of the run, and that nothing else changes. */
  lemma RunsEnd(s: State, name: string)
    ensures
      var (t, ack) := Stop(s, name);
      && OnlyAt(s, t, name) && t.nextId == s.nextId
      && (ack == if name in s.services then Acked else ErrNotFound)
      && (name in t.services <==> name in s.services)
      && (name in s.services ==>
            t.services[name].terminal && t.services[name].replicas == 0
            && t.services[name].runId == s.services[name].runId && t.services[name].config == s.services[name].config)
    ensures
      var (t, ack) := Delete(s, name);
      && OnlyAt(s, t, name) && t.nextId == s.nextId
      && (ack == if name !in s.services then ErrNotFound else if Live(s, name) then ErrDeleteActiveRun else Acked)
      && (if Live(s, name) then t == s else name !in t.services)
    ensures
      var t := Terminate(s, name);
      && OnlyAt(s, t, name) && t.nextId == s.nextId
      && (name in t.services <==> name in s.services)
      && (name in s.services ==> t.services[name] == s.services[name].(terminal := true))
  {
  }

  /** The server as the object it is: maps changed in place. */
  class MockServer {
    var services: map<string, Service>
    var nextId: RunId

    ghost function Abs(): State
      reads this
    {
      State(services, nextId)
    }

    constructor (firstId: RunId)
      ensures Abs() == State(map[], firstId)
    {
      services, nextId := map[], firstId;
    }

    method ApplyRun(req: Request, now: Instant) returns (reply: Reply)
      modifies this
      ensures (Abs(), reply) == Apply(old(Abs()), req, now)
    {
      if req.force {
        return ForceForbidden;
      }
      var v: Service;
      if req.name !in services || services[req.name].terminal {
        // The anchor is compared with a live run only; here a new run begins.
        v := Service(nextId, 0, 0, false, req.config, now);
        nextId := nextId + 1;
      } else {
        v := services[req.name];
        if req.current.None? || req.current.value.runId != v.runId
           || req.current.value.deploymentNum != v.deploymentNum {
          return ResourceChanged;
        }
        if v.replicas > 0 && v.config.idle != req.config.idle {
          return CannotOverride;
        }
      }
      v := v.(deploymentNum := v.deploymentNum + 1);
      v := v.(replicas := req.replicas);
      v := v.(config := req.config);
      services := services[req.name := v];
      reply := Ok(v);
    }

    method GetRun(name: string) returns (v: Option<Service>)
      ensures v == if name in Abs().services then Some(Abs().services[name]) else None
    {
      if name in services {
        v := Some(services[name]);
      } else {
        v := None;
      }
    }

    method StopRun(name: string) returns (ack: Ack)
      modifies this
      ensures (Abs(), ack) == Stop(old(Abs()), name)
    {
      if name !in services {
        return ErrNotFound;
      }
      var v := services[name];
      v := v.(terminal := true);
      v := v.(replicas := 0);
      services := services[name := v];
      ack := Acked;
    }

    method DeleteRun(name: string) returns (ack: Ack)
      modifies this
      ensures (Abs(), ack) == Delete(old(Abs()), name)
    {
      if name !in services {
        return ErrNotFound;
      }
      if !services[name].terminal {
        return ErrDeleteActiveRun;
      }
      services := services - {name};
      ack := Acked;
    }

    method TerminateRun(name: string)
      modifies this
      ensures Abs() == Terminate(old(Abs()), name)
    {
      if name in services {
        services := services[name := services[name].(terminal := true)];
      }
    }
  }
}
