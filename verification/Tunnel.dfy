/**
 Reference counting of one SSH tunnel at the grain of single atomic operations, and the map tunnels are
 registered in (internal/proxy/sshbackend.go).
 */
module Tunnel {
  import opened Base

  /**
   A stream: in RoundTrip, with its body open, then in release: past a decrement to zero and about to load
   `retired`, past that load and about to close, or over.
   */
  datatype Stream = InTrip | BodyOpen | Checking | Closing | Ended

  /** retire: past its store, past an idle load and about to close, or returned. */
  datatype Retirer = NotCalled | Stored | SawIdle | Returned

  datatype Tunnel = Tunnel(refs: int, retired: bool, closed: bool, streams: map<nat, Stream>, retirer: Retirer)

  const NEW := Tunnel(0, false, false, map[], NotCalled)

  /** Single atomic operations, and release and retire run without interference. */
  datatype Op =
    | StartTrip(id: nat)
    | TripSucceeds(id: nat)
    | TripFails(id: nat)
    | CloseBody(id: nat)
    | LoadRetired(id: nat)
    | CloseByRelease(id: nat)
    | ReleaseAtOnce(id: nat)
    | StoreRetired
    | LoadRefs
    | CloseByRetire
    | RetireAtOnce

  predicate HoldsRef(st: Stream) {
    st.InTrip? || st.BodyOpen?
  }

  predicate At(t: Tunnel, id: nat, st: Stream) {
    id in t.streams && t.streams[id] == st
  }

  /** Streams that hold a reference. */
  function Open(t: Tunnel): set<nat> {
    set id | id in t.streams && HoldsRef(t.streams[id])
  }

  function Put(t: Tunnel, id: nat, st: Stream): Tunnel {
    t.(streams := t.streams[id := st])
  }

  /** release's first operation: the decrement, and what it saw. */
  function Decremented(t: Tunnel, id: nat): Tunnel {
    Put(t, id, if t.refs == 1 then Checking else Ended).(refs := t.refs - 1)
  }

  /** One operation; one that its stream or retire is not at changes nothing. */
  function After(t: Tunnel, op: Op): Tunnel {
    match op
    case StartTrip(id) => if id in t.streams then t else Put(t, id, InTrip).(refs := t.refs + 1)
    case TripSucceeds(id) => if At(t, id, InTrip) then Put(t, id, BodyOpen) else t
    case TripFails(id) => if At(t, id, InTrip) then Decremented(t, id) else t
    case CloseBody(id) => if At(t, id, BodyOpen) then Decremented(t, id) else t
    case LoadRetired(id) => if At(t, id, Checking) then Put(t, id, if t.retired then Closing else Ended) else t
    case CloseByRelease(id) => if At(t, id, Closing) then Put(t, id, Ended).(closed := true) else t
    case ReleaseAtOnce(id) =>
      if id !in Open(t) then t
      else Put(t, id, Ended).(refs := t.refs - 1, closed := t.closed || (t.refs == 1 && t.retired))
    case StoreRetired => if t.retirer.NotCalled? then t.(retired := true, retirer := Stored) else t
    case LoadRefs => if t.retirer.Stored? then t.(retirer := if t.refs == 0 then SawIdle else Returned) else t
    case CloseByRetire => if t.retirer.SawIdle? then t.(closed := true, retirer := Returned) else t
    case RetireAtOnce =>
      if t.retirer.NotCalled? then t.(retired := true, retirer := Returned, closed := t.closed || t.refs == 0) else t
  }

  function Run(ops: seq<Op>): Tunnel {
    if ops == [] then NEW else After(Run(ops[..|ops| - 1]), ops[|ops| - 1])
  }

  /** The stream's release is past its decrement to zero. */
  predicate Releasing(t: Tunnel, id: nat) {
    At(t, id, Checking) || At(t, id, Closing)
  }

  /** Release or retire is between two of its operations and will look at the tunnel, or close it, yet. */
  ghost predicate MidStep(t: Tunnel) {
    t.retirer.Stored? || t.retirer.SawIdle? || exists id :: Releasing(t, id)
  }

  ghost predicate Inv(t: Tunnel) {
    && t.refs == |Open(t)|
    && (t.retired <==> !t.retirer.NotCalled?)
    && (t.retired && t.refs == 0 && !t.closed ==> MidStep(t))
  }

  lemma OpenAfterPut(t: Tunnel, u: Tunnel, id: nat, st: Stream)
    requires u.streams == t.streams[id := st]
    ensures Open(u) == if HoldsRef(st) then Open(t) + {id} else Open(t) - {id}
    ensures id in Open(t) <==> id in t.streams && HoldsRef(t.streams[id])
  {
  }

  function Refs(t: Tunnel, id: nat): nat {
    if id in t.streams && HoldsRef(t.streams[id]) then 1 else 0
  }

  /** An operation moves at most one stream, and the count with it. */
  lemma OneStreamMoves(t: Tunnel, op: Op) returns (id: nat, st: Stream)
    ensures
      var u := After(t, op);
      || (u.streams == t.streams && u.refs == t.refs)
      || (u.streams == t.streams[id := st] && u.refs == t.refs - Refs(t, id) + Refs(u, id))
  {
    var u := After(t, op);
    id, st := 0, Ended;
    if !(op.StoreRetired? || op.LoadRefs? || op.CloseByRetire? || op.RetireAtOnce?) && u != t {
      id, st := op.id, u.streams[op.id];
    }
  }

  lemma OpenAfter(t: Tunnel, op: Op)
    requires t.refs == |Open(t)|
    ensures After(t, op).refs == |Open(After(t, op))|
  {
    var u := After(t, op);
    var id, st := OneStreamMoves(t, op);
    hide After;
    if u.streams == t.streams[id := st] {
      OpenAfterPut(t, u, id, st);
      hide Open;
    } else {
      assert Open(u) == Open(t);
    }
  }

  lemma InvKept(t: Tunnel, op: Op)
    requires Inv(t)
    ensures Inv(After(t, op))
  {
    OpenAfter(t, op);
    var u := After(t, op);
    if u.retired && u.refs == 0 && !u.closed && !u.retirer.Stored? && !u.retirer.SawIdle? {
      if (op.TripFails? || op.CloseBody?) && u != t {
        assert Releasing(u, op.id);
      } else if op.LoadRetired? && u != t {
        assert Releasing(u, op.id);
      } else if MidStep(t) && !t.retirer.Stored? && !t.retirer.SawIdle? {
        var id :| Releasing(t, id);
        assert Releasing(u, id);
      }
    }
  }

  lemma {:induction false} InvAlways(ops: seq<Op>)
    ensures Inv(Run(ops))
  {
    if ops == [] {
      assert Open(NEW) == {};
    } else {
      InvAlways(ops[..|ops| - 1]);
      InvKept(Run(ops[..|ops| - 1]), ops[|ops| - 1]);
    }
  }

  /** In every interleaving the count is the number of round trips in progress plus unclosed bodies. */
  lemma CountIsOpenStreams(ops: seq<Op>)
    ensures Run(ops).refs == |Open(Run(ops))|
  {
    InvAlways(ops);
  }

  /** Nothing leaks: a retired tunnel with no stream left and nobody mid-step is closed. */
  lemma RetiredTunnelCloses(ops: seq<Op>)
    requires Run(ops).retired && Open(Run(ops)) == {} && !MidStep(Run(ops))
    ensures Run(ops).closed
  {
    InvAlways(ops);
  }

  // ---------------------------------------------------------------- closing under a stream

  /** `op` is a Close whose release or retire has come to it. */
  predicate Closes(t: Tunnel, op: Op) {
    (op.CloseByRelease? && At(t, op.id, Closing)) || (op.CloseByRetire? && t.retirer.SawIdle?)
  }

  /** Operation `j` is what that Close rests on: the same release's decrement to zero, or retire's idle load. */
  predicate RestsOn(ops: seq<Op>, op: Op, j: nat) {
    && j < |ops|
    && Run(ops[..j + 1]).refs == 0
    && if op.CloseByRelease? then
         && (ops[j] == TripFails(op.id) || ops[j] == CloseBody(op.id))
         && op.id in Open(Run(ops[..j]))
       else ops[j].LoadRefs? && Run(ops[..j]).retirer.Stored?
  }

  /** Operation `m` started a stream that is open still. */
  predicate StartsAndStays(ops: seq<Op>, m: nat) {
    && m < |ops|
    && ops[m].StartTrip?
    && ops[m].id !in Run(ops[..m]).streams
    && ops[m].id in Open(Run(ops))
  }

  lemma ReleaseBegins(t: Tunnel, op: Op, id: nat)
    requires Releasing(After(t, op), id) && !Releasing(t, id)
    ensures op == TripFails(id) || op == CloseBody(id)
    ensures id in Open(t) && After(t, op).refs == 0
  {
  }

  lemma {:induction false} DecrementOf(ops: seq<Op>, id: nat) returns (j: nat)
    requires Releasing(Run(ops), id)
    ensures RestsOn(ops, CloseByRelease(id), j)
  {
    var init := ops[..|ops| - 1];
    if Releasing(Run(init), id) {
      j := DecrementOf(init, id);
      assert init[..j] == ops[..j] && init[..j + 1] == ops[..j + 1];
    } else {
      j := |init|;
      assert ops[..j + 1] == ops;
      ReleaseBegins(Run(init), ops[j], id);
      hide After;
    }
  }

  lemma IdleLoadBegins(t: Tunnel, op: Op)
    requires After(t, op).retirer.SawIdle? && !t.retirer.SawIdle?
    ensures op.LoadRefs? && t.retirer.Stored? && After(t, op).refs == 0
  {
  }

  lemma StreamBegins(t: Tunnel, op: Op, id: nat)
    requires id in Open(After(t, op)) && id !in Open(t)
    ensures op == StartTrip(id) && id !in t.streams
  {
  }

  lemma {:induction false} IdleLoadOf(ops: seq<Op>) returns (j: nat)
    requires Run(ops).retirer.SawIdle?
    ensures RestsOn(ops, CloseByRetire, j)
  {
    var init := ops[..|ops| - 1];
    if Run(init).retirer.SawIdle? {
      j := IdleLoadOf(init);
      assert init[..j] == ops[..j] && init[..j + 1] == ops[..j + 1];
    } else {
      j := |init|;
      assert ops[..j + 1] == ops;
      IdleLoadBegins(Run(init), ops[j]);
      hide After;
    }
  }

  /** Streams never reopen: one that is open now and was not open after `j` operations started since. */
  lemma {:induction false} StartedSince(ops: seq<Op>, j: nat, id: nat) returns (m: nat)
    requires j <= |ops| && id in Open(Run(ops)) && id !in Open(Run(ops[..j]))
    ensures j <= m && StartsAndStays(ops, m) && ops[m].id == id
  {
    hide After, Open;
    assert ops[..|ops|] == ops;
    var init := ops[..|ops| - 1];
    assert init[..j] == ops[..j];
    if id in Open(Run(init)) {
      m := StartedSince(init, j, id);
      assert init[..m] == ops[..m];
    } else {
      m := |init|;
      StreamBegins(Run(init), ops[m], id);
    }
  }

  /**
   When a stream is cut: an operation closes the tunnel under an open stream if and only if it is the separate
   Close of a release or a retire, and a stream that is still open started after the decrement to zero or the
   idle load which that Close rests on. Release and retire without interference never cut one.
   */
  lemma ClosesUnderStreamIff(ops: seq<Op>, op: Op) returns (j: nat)
    requires !Run(ops).closed
    ensures Closes(Run(ops), op) ==> RestsOn(ops, op, j)
    ensures
      After(Run(ops), op).closed && Open(After(Run(ops), op)) != {} <==>
        Closes(Run(ops), op) && exists m :: j < m && StartsAndStays(ops, m)
  {
    var t, u := Run(ops), After(Run(ops), op);
    InvAlways(ops);
    OpenAfter(t, op);
    j := 0;
    if Closes(t, op) {
      if op.CloseByRelease? {
        j := DecrementOf(ops, op.id);
      } else {
        j := IdleLoadOf(ops);
      }
      InvAlways(ops[..j + 1]);
      assert Open(u) == Open(t);
      if id :| id in Open(t) {
        var m := StartedSince(ops, j + 1, id);
      }
    }
  }

  lemma RunNext(ops: seq<Op>, op: Op)
    ensures Run(ops + [op]) == After(Run(ops), op)
  {
    assert (ops + [op])[..|ops|] == ops;
  }

  /** Release's race: a stream starts between its decrement and its close. */
  lemma ReleaseRaceIsReachable() returns (ops: seq<Op>)
    ensures Closes(Run(ops), CloseByRelease(0)) && !Run(ops).closed && Open(Run(ops)) == {1}
  {
    ops := [];
    for i := 0 to 5
      invariant |ops| == i
      invariant i == 0 ==> Run(ops) == NEW
      invariant i == 1 ==> Run(ops) == Tunnel(1, false, false, map[0 := InTrip], NotCalled)
      invariant i == 2 ==> Run(ops) == Tunnel(0, false, false, map[0 := Checking], NotCalled)
      invariant i == 3 ==> Run(ops) == Tunnel(1, false, false, map[0 := Checking, 1 := InTrip], NotCalled)
      invariant i == 4 ==> Run(ops) == Tunnel(1, true, false, map[0 := Checking, 1 := InTrip], Stored)
      invariant i == 5 ==> Run(ops) == Tunnel(1, true, false, map[0 := Closing, 1 := InTrip], Stored)
    {
      var op := [StartTrip(0), TripFails(0), StartTrip(1), StoreRetired, LoadRetired(0)][i];
      RunNext(ops, op);
      hide Run;
      ops := ops + [op];
    }
  }

  /** Retire's race: a stream starts between its idle load and its close. */
  lemma RetireRaceIsReachable() returns (ops: seq<Op>)
    ensures Closes(Run(ops), CloseByRetire) && !Run(ops).closed && Open(Run(ops)) == {0}
  {
    ops := [];
    for i := 0 to 3
      invariant |ops| == i
      invariant i == 0 ==> Run(ops) == NEW
      invariant i == 1 ==> Run(ops) == Tunnel(0, true, false, map[], Stored)
      invariant i == 2 ==> Run(ops) == Tunnel(0, true, false, map[], SawIdle)
      invariant i == 3 ==> Run(ops) == Tunnel(1, true, false, map[0 := InTrip], SawIdle)
    {
      var op := [StoreRetired, LoadRefs, StartTrip(0)][i];
      RunNext(ops, op);
      hide Run;
      ops := ops + [op];
    }
  }

  // ---------------------------------------------------------------- registration

  /** A dialled connection; ids are never reused. */
  datatype Conn = Conn(id: nat, endpoint: string)

  /** `loose`: dialled but registered nowhere yet. */
  datatype Backend = Backend(conns: map<string, Conn>, retired: set<nat>, loose: set<nat>, next: nat)

  /** The critical sections of tunnelFor, watch and Close. */
  datatype Section =
    | Resolve(model: string, want: string)
    | Dial(endpoint: string)
    | Register(model: string, conn: Conn)
    | Evict(model: string, id: nat)
    | Shutdown

  function Within(b: Backend, s: Section): Backend {
    match s
    case Resolve(model, want) =>
      if model in b.conns && b.conns[model].endpoint != want
      then b.(conns := b.conns - {model}, retired := b.retired + {b.conns[model].id}) else b
    case Dial(_) => b.(loose := b.loose + {b.next}, next := b.next + 1)
    case Register(model, conn) =>
      if conn.id !in b.loose then b
      else if model in b.conns && b.conns[model].endpoint == conn.endpoint then b.(loose := b.loose - {conn.id})
      else b.(conns := b.conns[model := conn], loose := b.loose - {conn.id})
    case Evict(model, id) =>
      if model in b.conns && b.conns[model].id == id then b.(conns := b.conns - {model}) else b
    case Shutdown => b.(conns := map[], retired := b.retired + set m | m in b.conns :: b.conns[m].id)
  }

  function AfterSections(ss: seq<Section>): Backend {
    if ss == [] then Backend(map[], {}, {}, 0) else Within(AfterSections(ss[..|ss| - 1]), ss[|ss| - 1])
  }

  ghost predicate Registered(b: Backend) {
    && (forall m :: m in b.conns ==> b.conns[m].id !in b.retired && b.conns[m].id !in b.loose && b.conns[m].id < b.next)
    && (forall m, n :: m in b.conns && n in b.conns && b.conns[m].id == b.conns[n].id ==> m == n)
    && (forall i :: i in b.loose ==> i < b.next && i !in b.retired)
    && (forall i :: i in b.retired ==> i < b.next)
  }

  lemma SectionKeeps(b: Backend, s: Section)
    requires Registered(b)
    ensures Registered(Within(b, s))
  {
  }

  /** A registered tunnel is never retired, whatever resolves, dials, evictions and shutdowns interleave. */
  lemma {:induction false} RegisteredNeverRetired(ss: seq<Section>, model: string)
    ensures Registered(AfterSections(ss))
    ensures model in AfterSections(ss).conns ==> AfterSections(ss).conns[model].id !in AfterSections(ss).retired
  {
    if ss != [] {
      var init := AfterSections(ss[..|ss| - 1]);
      RegisteredNeverRetired(ss[..|ss| - 1], model);
      SectionKeeps(init, ss[|ss| - 1]);
      hide Within;
    }
  }

  // ---------------------------------------------------------------- the objects

  /** A tunnel's counters, with release and retire running undisturbed. */
  class TunnelCounters {
    var refs: int
    var retired: bool
    var closed: bool

    ghost predicate Shows(t: Tunnel)
      reads this
    {
      refs == t.refs && retired == t.retired && closed == t.closed
    }

    method Release(ghost t: Tunnel, ghost id: nat)
      requires Shows(t) && id in Open(t)
      modifies this
      ensures Shows(After(t, ReleaseAtOnce(id)))
      ensures Shows(After(After(Decremented(t, id), LoadRetired(id)), CloseByRelease(id)))
    {
      refs := refs - 1;
      if refs == 0 && retired {
        closed := true;
      }
    }

    method Retire(ghost t: Tunnel)
      requires Shows(t) && t.retirer.NotCalled?
      modifies this
      ensures Shows(After(t, RetireAtOnce))
      ensures Shows(After(After(After(t, StoreRetired), LoadRefs), CloseByRetire))
    {
      retired := true;
      if refs == 0 {
        closed := true;
      }
    }
  }

  /** The map part of the SSH backend. */
  class SSHBackend {
    var conns: map<string, Conn>
    var retired: set<nat>

    ghost predicate Shows(b: Backend)
      reads this
    {
      conns == b.conns && retired == b.retired
    }

    /** tunnelFor up to the dial: reuse, or retire and drop a connection to another endpoint. */
    method Find(model: string, want: string, ghost b: Backend) returns (found: Option<Conn>)
      requires Shows(b)
      modifies this
      ensures Shows(Within(b, Resolve(model, want)))
      ensures found.Some? <==> model in old(conns) && old(conns)[model].endpoint == want
      ensures found.Some? ==> found.value == old(conns)[model] && conns == old(conns) && retired == old(retired)
      ensures found.None? ==> conns == old(conns) - {model}
      ensures found.None? ==> retired == old(retired) + if model in old(conns) then {old(conns)[model].id} else {}
    {
      if model in conns {
        var c := conns[model];
        if c.endpoint == want {
          return Some(c);
        }
        retired := retired + {c.id};
        conns := conns - {model};
      }
      found := None;
    }

    /** tunnelFor after the dial: the loser of a race for one endpoint is not installed. */
    method Install(model: string, conn: Conn, ghost b: Backend) returns (kept: Conn)
      requires Shows(b) && conn.id in b.loose
      modifies this
      ensures Shows(Within(b, Register(model, conn)))
      ensures conns == old(conns)[model := kept] && retired == old(retired)
      ensures kept ==
        if model in old(conns) && old(conns)[model].endpoint == conn.endpoint then old(conns)[model] else conn
    {
      if model in conns && conns[model].endpoint == conn.endpoint {
        return conns[model];
      }
      conns := conns[model := conn];
      kept := conn;
    }

    /** What watch does when the connection `id` of a Model has died: forget it, unless it was replaced. */
    method Evict(model: string, id: nat, ghost b: Backend)
      requires Shows(b)
      modifies this
      ensures Shows(Within(b, Section.Evict(model, id)))
      ensures conns == if model in old(conns) && old(conns)[model].id == id then old(conns) - {model} else old(conns)
      ensures retired == old(retired)
    {
      if model in conns && conns[model].id == id {
        conns := conns - {model};
      }
    }

    method Close(ghost b: Backend)
      requires Shows(b)
      modifies this
      ensures Shows(Within(b, Shutdown))
      ensures conns == map[] && old(retired) <= retired
      ensures forall m :: m in old(conns) ==> old(conns)[m].id in retired
    {
      while conns != map[]
        invariant conns.Keys <= b.conns.Keys
        invariant forall m :: m in conns ==> conns[m] == b.conns[m]
        invariant retired == b.retired + set m | m in b.conns.Keys - conns.Keys :: b.conns[m].id
        decreases |conns.Keys|
      {
        assert conns.Keys != {};
        var model :| model in conns.Keys;
        ghost var gone := b.conns.Keys - conns.Keys;
        retired := retired + {conns[model].id};
        assert b.conns.Keys - (conns - {model}).Keys == gone + {model};
        conns := conns - {model};
      }
    }
  }
}
