/**
 The proxy's model cache (internal/proxy/cache.go) and the held requests that wait on it (hold.go). A write
 and its broadcast are two critical sections; so are a held request's reads and its Subscribe.
 */
module CacheNotify {
  import opened Base
  import opened Handler

  /** `waiting`: channels by Model. `slot`: each channel's one-place buffer. */
  datatype Cache = Cache(byName: map<string, Snap>, waiting: map<string, set<nat>>, slot: map<nat, bool>)

  function Channels(c: Cache, name: string): set<nat> {
    if name in c.waiting then c.waiting[name] else {}
  }

  /** The cache's entry for a Model, if it has one. */
  function Entry(c: Cache, name: string): Option<Snap> {
    if name in c.byName then Some(c.byName[name]) else None
  }

  /** A write of a snapshot, or of its absence. */
  function Written(c: Cache, name: string, snap: Option<Snap>): Cache {
    c.(byName := if snap.Some? then c.byName[name := snap.value] else c.byName - {name})
  }

  /**
   What Set and Delete come to when nothing interferes: the entry is the one written, every subscriber of the
   Model has a notification waiting, and nobody else's entry, channel or notification changed.
   */
  ghost predicate Announced(c: Cache, after: Cache, name: string, snap: Option<Snap>) {
    && Entry(after, name) == snap
    && (forall m :: m != name ==> Entry(after, m) == Entry(c, m))
    && after.waiting == c.waiting
    && after.slot.Keys == c.slot.Keys
    && forall ch :: ch in c.slot ==> after.slot[ch] == (c.slot[ch] || ch in Channels(c, name))
  }

  /** A send that finds the buffer full is dropped: a burst leaves one notification. */
  function Broadcasted(c: Cache, name: string): Cache {
    c.(slot := map ch | ch in c.slot :: c.slot[ch] || ch in Channels(c, name))
  }

  function Subscribed(c: Cache, name: string, ch: nat): Cache {
    c.(waiting := c.waiting[name := Channels(c, name) + {ch}], slot := c.slot[ch := false])
  }

  function Cancelled(c: Cache, name: string, ch: nat): Cache {
    var rest := Channels(c, name) - {ch};
    c.(waiting := if rest == {} then c.waiting - {name} else c.waiting[name := rest])
  }

  class ModelCache {
    var byName: map<string, Snap>
    var waiting: map<string, set<nat>>
    var slot: map<nat, bool>

    ghost function Abs(): Cache
      reads this
    {
      Cache(byName, waiting, slot)
    }

    /** Set: write under one lock, then broadcast under another. */
    method Set(name: string, snap: Snap)
      modifies this
      ensures Announced(old(Abs()), Abs(), name, Some(snap))
      ensures Abs() == Broadcasted(Written(old(Abs()), name, Some(snap)), name)
    {
      byName := byName[name := snap];
      assert Abs() == Written(old(Abs()), name, Some(snap));
      Broadcast(name);
    }

    /** Delete: the same, and it announces a Model that was not there too. */
    method Delete(name: string)
      modifies this
      ensures Announced(old(Abs()), Abs(), name, None)
      ensures Abs() == Broadcasted(Written(old(Abs()), name, None), name)
    {
      byName := byName - {name};
      assert Abs() == Written(old(Abs()), name, None);
      Broadcast(name);
    }

    method Broadcast(name: string)
      modifies this
      ensures Abs() == Broadcasted(old(Abs()), name)
    {
      var todo := Channels(Cache(byName, waiting, slot), name);
      ghost var all := todo;
      while todo != {}
        invariant todo <= all == Channels(old(Abs()), name)
        invariant byName == old(byName) && waiting == old(waiting) && slot.Keys == old(slot).Keys
        invariant forall ch :: ch in slot ==> slot[ch] == (old(slot)[ch] || ch in all - todo)
      {
        var ch :| ch in todo;
        if ch in slot && !slot[ch] {
          slot := slot[ch := true];
        }
        todo := todo - {ch};
      }
    }

    method Subscribe(name: string, ch: nat)
      modifies this
      ensures Abs() == Subscribed(old(Abs()), name, ch)
      ensures name in waiting && ch in waiting[name] && ch in slot && !slot[ch]
      ensures byName == old(byName) && forall m :: m != name ==> Channels(Abs(), m) == Channels(old(Abs()), m)
    {
      if name !in waiting {
        waiting := waiting[name := {}];
      }
      waiting := waiting[name := waiting[name] + {ch}];
      slot := slot[ch := false];
    }

    method Cancel(name: string, ch: nat)
      modifies this
      ensures Abs() == Cancelled(old(Abs()), name, ch)
      ensures Channels(Abs(), name) == Channels(old(Abs()), name) - {ch}
      ensures byName == old(byName) && forall m :: m != name ==> Channels(Abs(), m) == Channels(old(Abs()), m)
    {
      if name in waiting {
        waiting := waiting[name := waiting[name] - {ch}];
        if waiting[name] == {} {
          waiting := waiting - {name};
        }
      }
    }
  }

  // ---------------------------------------------------------------- writers and held requests

  /**
   A held request: the write count it last read the Model at, the count when it subscribed, and whether a
   notification or tick has woken it without its having re-read the cache yet.
   */
  datatype Holder = Holder(name: string, read: nat, since: Option<nat>, woken: bool)

  /** `writes` counts writes per Model; `due` holds writers that have written but not yet broadcast. */
  datatype Sys = Sys(cache: Cache, writes: map<string, nat>, due: map<nat, string>, holders: map<nat, Holder>)

  datatype Move =
    | WriteModel(writer: nat, name: string, snap: Option<Snap>)
    | SendBroadcast(writer: nat)
    | FirstRead(id: nat, name: string)
    | DoSubscribe(id: nat)
    | Receive(id: nat)
    | RefreshFires(id: nat)
    | ReRead(id: nat)
    | Leave(id: nat)

  function Count(s: Sys, name: string): nat {
    if name in s.writes then s.writes[name] else 0
  }

  /** A move that cannot happen changes nothing. */
  function After(s: Sys, m: Move): Sys {
    match m
    case WriteModel(w, name, snap) =>
      if w in s.due then s
      else
        s.(cache := Written(s.cache, name, snap), writes := s.writes[name := Count(s, name) + 1],
           due := s.due[w := name])
    case SendBroadcast(w) =>
      if w !in s.due then s else s.(cache := Broadcasted(s.cache, s.due[w]), due := s.due - {w})
    case FirstRead(id, name) =>
      if id in s.holders || id in s.cache.slot then s
      else s.(holders := s.holders[id := Holder(name, Count(s, name), None, false)])
    case DoSubscribe(id) =>
      if id !in s.holders || s.holders[id].since.Some? then s
      else
        var h := s.holders[id];
        s.(cache := Subscribed(s.cache, h.name, id), holders := s.holders[id := h.(since := Some(Count(s, h.name)))])
    case Receive(id) =>
      if id !in s.holders || s.holders[id].since.None? || id !in s.cache.slot || !s.cache.slot[id] then s
      else s.(cache := s.cache.(slot := s.cache.slot[id := false]),
              holders := s.holders[id := s.holders[id].(woken := true)])
    case RefreshFires(id) =>
      if id !in s.holders || s.holders[id].since.None? then s
      else s.(holders := s.holders[id := s.holders[id].(woken := true)])
    case ReRead(id) =>
      if id !in s.holders || !s.holders[id].woken then s
      else
        var h := s.holders[id];
        s.(holders := s.holders[id := h.(read := Count(s, h.name), woken := false)])
    case Leave(id) =>
      if id !in s.holders then s
      else s.(cache := Cancelled(s.cache, s.holders[id].name, id), holders := s.holders - {id})
  }

  const INITIAL := Sys(Cache(map[], map[], map[]), map[], map[], map[])

  function Run(ms: seq<Move>): Sys {
    if ms == [] then INITIAL else After(Run(ms[..|ms| - 1]), ms[|ms| - 1])
  }

  predicate IsWaiting(s: Sys, id: nat) {
    id in s.holders && s.holders[id].since.Some? && !s.holders[id].woken
  }

  /** The latest write the request has read, or that had landed when it subscribed. */
  function Covered(h: Holder): nat
    requires h.since.Some?
  {
    if h.read < h.since.value then h.since.value else h.read
  }

  predicate BroadcastDue(s: Sys, name: string) {
    exists w :: w in s.due && s.due[w] == name
  }

  /** A channel stands only under the Model of the request it belongs to. */
  predicate AtHome(s: Sys, ch: nat, name: string) {
    ch in Channels(s.cache, name) ==> ch in s.holders && s.holders[ch].since.Some? && s.holders[ch].name == name
  }

  /** A subscribed request has its channel, and while it waits it is covered up to a notification or a due broadcast. */
  predicate Informed(s: Sys, id: nat)
    requires id in s.holders
  {
    var h := s.holders[id];
    && h.read <= Count(s, h.name)
    && (h.since.Some? ==>
          && h.since.value <= Count(s, h.name)
          && id in Channels(s.cache, h.name)
          && id in s.cache.slot
          && (!h.woken && Covered(h) < Count(s, h.name) ==> s.cache.slot[id] || BroadcastDue(s, h.name)))
  }

  lemma AtHomeKept(s: Sys, m: Move, ch: nat, name: string)
    requires AtHome(s, ch, name)
    ensures AtHome(After(s, m), ch, name)
  {
    var t := After(s, m);
    if m.Leave? && m.id in s.holders {
      var gone := if s.holders[m.id].name == name then {m.id} else {};
      assert Channels(t.cache, name) == Channels(s.cache, name) - gone;
    }
  }

  lemma DueKept(s: Sys, m: Move, name: string)
    requires BroadcastDue(s, name)
    requires !(m.SendBroadcast? && m.writer in s.due && s.due[m.writer] == name)
    ensures BroadcastDue(After(s, m), name)
  {
    var w :| w in s.due && s.due[w] == name;
    assert w in After(s, m).due && After(s, m).due[w] == name;
  }

  lemma InformedKept(s: Sys, m: Move, id: nat)
    requires id in s.holders ==> Informed(s, id)
    requires id in After(s, m).holders
    ensures Informed(After(s, m), id)
  {
    var t := After(s, m);
    var h := t.holders[id];
    if m.WriteModel? && m.writer !in s.due && m.name == h.name {
      assert t.due[m.writer] == h.name;
    }
    if m.Leave? && m.id in s.holders {
      var gone := if s.holders[m.id].name == h.name then {m.id} else {};
      assert Channels(t.cache, h.name) == Channels(s.cache, h.name) - gone;
    }
    if BroadcastDue(s, h.name) && !(m.SendBroadcast? && m.writer in s.due && s.due[m.writer] == h.name) {
      DueKept(s, m, h.name);
    }
    hide BroadcastDue;
  }

  lemma {:induction false} InvAlways(ms: seq<Move>, id: nat, name: string)
    ensures AtHome(Run(ms), id, name)
    ensures id in Run(ms).holders ==> Informed(Run(ms), id)
  {
    if ms != [] {
      var init := ms[..|ms| - 1];
      InvAlways(init, id, name);
      AtHomeKept(Run(init), ms[|ms| - 1], id, name);
      if id in Run(ms).holders {
        InformedKept(Run(init), ms[|ms| - 1], id);
      }
    }
  }

  /**
   No lost wake-up: in every interleaving, as long as a subscribed request waits, a write of its Model that
   came after it subscribed and after its last read leaves a notification in its buffer, or its writer has
   not broadcast yet.
   */
  lemma NoLostWakeUp(ms: seq<Move>, id: nat)
    requires IsWaiting(Run(ms), id)
    requires Covered(Run(ms).holders[id]) < Count(Run(ms), Run(ms).holders[id].name)
    ensures
      var s := Run(ms);
      id in s.cache.slot && (s.cache.slot[id] || BroadcastDue(s, s.holders[id].name))
  {
    InvAlways(ms, id, Run(ms).holders[id].name);
  }

  /**
   What the loop cannot be told: with nothing buffered and nothing due, a waiting request is behind the cache
   if and only if a write landed between its first read and its Subscribe.
   */
  lemma BehindIffGap(ms: seq<Move>, id: nat)
    requires IsWaiting(Run(ms), id)
    requires
      var s := Run(ms);
      id in s.cache.slot && !s.cache.slot[id] && !BroadcastDue(s, s.holders[id].name)
    ensures
      var h := Run(ms).holders[id];
      h.read < Count(Run(ms), h.name) <==> h.read < h.since.value
  {
    InvAlways(ms, id, Run(ms).holders[id].name);
  }

  /** That gap can be hit: here the write that made the Model ready is not announced to the request. */
  lemma GapIsReachable(ready: Snap) returns (ms: seq<Move>)
    ensures
      var s := Run(ms);
      && IsWaiting(s, 0)
      && s.holders[0].read < Count(s, s.holders[0].name)
      && 0 in s.cache.slot && !s.cache.slot[0]
      && s.due == map[]
  {
    var m1, m2, m3, m4 := FirstRead(0, "m"), WriteModel(0, "m", Some(ready)), SendBroadcast(0), DoSubscribe(0);
    ms := [m1, m2, m3, m4];
    assert ms[..3] == [m1, m2, m3] && [m1, m2, m3][..2] == [m1, m2] && [m1, m2][..1] == [m1] && [m1][..0] == [];
    var s1 := After(INITIAL, m1);
    assert Run([m1]) == s1;
    var s2 := After(s1, m2);
    assert Run([m1, m2]) == s2;
    var s3 := After(s2, m3);
    assert Run([m1, m2, m3]) == s3;
    assert s3.due == map[];
    assert Run(ms) == After(s3, m4);
  }

  /** A broadcast for another Model touches no buffer of this request. */
  lemma OthersNeverNotify(ms: seq<Move>, id: nat, w: nat)
    requires IsWaiting(Run(ms), id) && w in Run(ms).due && Run(ms).due[w] != Run(ms).holders[id].name
    ensures id in Run(ms).cache.slot
    ensures After(Run(ms), SendBroadcast(w)).cache.slot[id] == Run(ms).cache.slot[id]
  {
    InvAlways(ms, id, Run(ms).due[w]);
  }

  /**
   What the moves come to: a write changes the entry and owes a broadcast; a broadcast pays it and leaves a
   notification with every waiting request of the Model; receiving takes the notification and wakes the request,
   as the refresh tick does without one; and a request that is awake reads the Model as it then is.
   */
  lemma MovesMean(ms: seq<Move>, w: nat, id: nat, name: string, snap: Option<Snap>)
    ensures
      var s, t := Run(ms), After(Run(ms), WriteModel(w, name, snap));
      w !in s.due ==>
        Entry(t.cache, name) == snap && Count(t, name) == Count(s, name) + 1 && w in t.due && t.due[w] == name
    ensures
      var s, t := Run(ms), After(Run(ms), SendBroadcast(w));
      w in s.due ==>
        && w !in t.due
        && (id in s.holders && s.holders[id].since.Some? && s.holders[id].name == s.due[w] ==>
              id in t.cache.slot && t.cache.slot[id])
    ensures
      var s, t := Run(ms), After(Run(ms), Receive(id));
      id in s.holders && s.holders[id].since.Some? && id in s.cache.slot && s.cache.slot[id] ==>
        !t.cache.slot[id] && id in t.holders && t.holders[id].woken
    ensures
      var s, t := Run(ms), After(Run(ms), RefreshFires(id));
      id in s.holders && s.holders[id].since.Some? ==> id in t.holders && t.holders[id].woken
    ensures
      var s, t := Run(ms), After(Run(ms), ReRead(id));
      id in s.holders && s.holders[id].woken ==>
        id in t.holders && !t.holders[id].woken && t.holders[id].read == Count(s, s.holders[id].name)
  {
    InvAlways(ms, id, name);
    hide Run;
  }
}
