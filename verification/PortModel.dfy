/** Ports: signal bindings, the packets they queue, and the notification that may cascade from port
    to port. Everything here runs with the port lock taken and released as the code does, by one
    thread. */
module PortModel {

  import opened Basics

  /** A subscription of a port to an object's signals. Objects, ports among them, are named by
      number. */
  datatype Binding = Binding(key: nat, mask: set<nat>, target: nat, port: nat)

  const READABLE: nat := 0

  /** pending has the queued bindings with the signals their packet carries. */
  datatype Sys = Sys(ports: set<nat>, live: set<nat>, info: imap<nat, Binding>, lists: imap<nat, seq<nat>>,
                     owned: imap<nat, seq<nat>>, signals: imap<nat, set<nat>>, pending: imap<nat, set<nat>>,
                         ready: imap<nat, seq<nat>>)

  function SigOf(s: Sys, o: nat): set<nat> { if o in s.signals then s.signals[o] else {} }

  function ListOf(s: Sys, o: nat): seq<nat> { if o in s.lists then s.lists[o] else [] }

  function OwnedOf(s: Sys, p: nat): seq<nat> { if p in s.owned then s.owned[p] else [] }

  function ReadyOf(s: Sys, p: nat): seq<nat> { if p in s.ready then s.ready[p] else [] }

  function PacketOf(s: Sys, b: nat): set<nat> { if b in s.pending then s.pending[b] else {} }

  // ---------------------------------------------------------------- the lists agree

  ghost predicate InfoOk(s: Sys, b: nat) {
    && (b in s.live ==> b in s.info && s.info[b].mask != {} && s.info[b].port in s.ports)
    && (b in s.pending ==> b in s.live && s.pending[b] != {} && s.pending[b] <= s.info[b].mask)
  }

  /** o's list names its bindings, each once. */
  ghost predicate ListOk(s: Sys, o: nat) {
    NoDup(ListOf(s, o)) && forall b: nat :: b in ListOf(s, o) <==> b in s.live && b in s.info && s.info[b].target == o
  }

  /** p's queue names its pending bindings, each once. */
  ghost predicate QueueOk(s: Sys, p: nat) {
    NoDup(ReadyOf(s, p)) && forall b: nat :: b in ReadyOf(s, p) <==>
        b in s.pending && b in s.live && b in s.info && s.info[b].port == p
  }

  /** p's own list names its bindings, each once. */
  ghost predicate OwnedOk(s: Sys, p: nat) {
    NoDup(OwnedOf(s, p)) && forall b: nat :: b in OwnedOf(s, p) <==> b in s.live && b in s.info && s.info[b].port == p
  }

  ghost predicate Ok(s: Sys) {
    && (forall b: nat {:trigger InfoOk(s, b)} :: InfoOk(s, b))
    && (forall o: nat {:trigger ListOk(s, o)} :: ListOk(s, o))
    && (forall p: nat {:trigger QueueOk(s, p)} :: QueueOk(s, p))
    && (forall p: nat {:trigger OwnedOk(s, p)} :: OwnedOk(s, p))
    && (forall p: nat | p in s.ports :: SigOf(s, p) <= {READABLE})
  }

  /** READABLE says whether a packet waits, on every port but perhaps this one. */
  ghost predicate Tracks(s: Sys, except: Option<nat>) {
    forall p: nat | p in s.ports && except != Some(p) :: READABLE in SigOf(s, p) <==> ReadyOf(s, p) != []
  }

  // ---------------------------------------------------------------- what a notification does

  /** b's signals went from outside its mask to inside. */
  ghost predicate Edge(s: Sys, s': Sys, b: nat) {
    b in s.live && b in s.info && SigOf(s, s.info[b].target) * s.info[b].mask == {}
        && SigOf(s', s.info[b].target) * s.info[b].mask != {}
  }

  /** Nothing but signals, packets and queues changes, and those only grow; a queue grows at its end. */
  ghost predicate Grows(s: Sys, s': Sys) {
    && s'.ports == s.ports && s'.live == s.live && s'.info == s.info && s'.lists == s.lists && s'.owned == s.owned
    && (forall o: nat :: SigOf(s, o) <= SigOf(s', o))
    && (forall p: nat :: ReadyOf(s, p) <= ReadyOf(s', p))
    && (forall b: nat | b in s.pending :: b in s'.pending && PacketOf(s, b) <= PacketOf(s', b))
  }

  /** The bindings queued are exactly those that were, those that saw an edge and those owed one. */
  ghost predicate Queued(s: Sys, s': Sys, owed: set<nat>) {
    forall b: nat {:trigger b in s'.pending} :: b in s'.pending <==> b in s.pending || Edge(s, s', b) || b in owed
  }

  /** A packet carries nothing its binding's object did not signal. */
  ghost predicate Carries(s: Sys, s': Sys) {
    forall b: nat {:trigger PacketOf(s', b)} | b in s'.pending && b in s.info ::
      PacketOf(s', b) <= PacketOf(s, b) + SigOf(s', s.info[b].target) * s.info[b].mask
  }

  /** Every packet of o carries all that o signals within its mask. */
  ghost predicate Full(s: Sys, o: nat) {
    forall b: nat {:trigger PacketOf(s, b)} | b in s.pending && b in s.info && s.info[b].target == o ::
      SigOf(s, o) * s.info[b].mask <= PacketOf(s, b)
  }

  lemma EdgeSplits(s: Sys, t: Sys, u: Sys, b: nat)
    requires Grows(s, t) && Grows(t, u)
    ensures Edge(s, u, b) <==> Edge(s, t, b) || Edge(t, u, b)
  {
    if b in s.live && b in s.info {
      var x, m := s.info[b].target, s.info[b].mask;
      assert SigOf(s, x) * m <= SigOf(t, x) * m <= SigOf(u, x) * m;
    }
  }

  lemma QueuedTwice(s: Sys, t: Sys, u: Sys, owed: set<nat>, more: set<nat>)
    requires Grows(s, t) && Grows(t, u) && Queued(s, t, owed) && Queued(t, u, more)
    ensures Queued(s, u, owed + more)
  {
    forall b: nat ensures b in u.pending <==> b in s.pending || Edge(s, u, b) || b in owed + more {
      EdgeSplits(s, t, u, b);
      assert b in t.pending <==> b in s.pending || Edge(s, t, b) || b in owed;
    }
  }

  lemma CarriesTwice(s: Sys, t: Sys, u: Sys)
    requires Grows(s, t) && Grows(t, u) && Carries(s, t) && Carries(t, u)
    ensures Carries(s, u)
  {
    forall b: nat | b in u.pending && b in s.info
      ensures PacketOf(u, b) <= PacketOf(s, b) + SigOf(u, s.info[b].target) * s.info[b].mask
    {
      var x, m := s.info[b].target, s.info[b].mask;
      assert PacketOf(u, b) <= PacketOf(t, b) + SigOf(u, x) * m;
      if b in t.pending {
        assert PacketOf(t, b) <= PacketOf(s, b) + SigOf(t, x) * m;
        assert SigOf(t, x) * m <= SigOf(u, x) * m;
      }
    }
  }

  ghost predicate Delivered(s: Sys, s': Sys, owed: set<nat>) { Grows(s, s') && Carries(s, s') && Queued(s, s', owed) }

  lemma DeliveredTwice(s: Sys, t: Sys, u: Sys, owed: set<nat>, more: set<nat>)
    requires Delivered(s, t, owed) && Delivered(t, u, more)
    ensures Delivered(s, u, owed + more) && Idle(u) <= Idle(t)
    ensures (PortsOnly(s, t) && PortsOnly(t, u) ==> PortsOnly(s, u))
  {
    CarriesTwice(s, t, u);
    QueuedTwice(s, t, u, owed, more);
  }

  // ---------------------------------------------------------------- the steps

  function Raise(s: Sys, o: nat, bits: set<nat>): Sys { s.(signals := s.signals[o := SigOf(s, o) + bits]) }

  function Lower(s: Sys, o: nat, bits: set<nat>): Sys { s.(signals := s.signals[o := SigOf(s, o) - bits]) }

  /** A queued packet takes more signals. */
  function Coalesce(s: Sys, b: nat, hits: set<nat>): Sys { s.(pending := s.pending[b := PacketOf(s, b) + hits]) }

  /** A packet joins its port's queue. */
  function Enqueue(s: Sys, b: nat, hits: set<nat>): Sys
    requires b in s.info
  {
    s.(pending := s.pending[b := hits], ready := s.ready[s.info[b].port := ReadyOf(s, s.info[b].port) + [b]])
  }

  lemma CoalesceOk(s: Sys, b: nat, hits: set<nat>)
    requires Ok(s) && b in s.pending && b in s.info && hits <= s.info[b].mask
    ensures Ok(Coalesce(s, b, hits))
  {
    var s' := Coalesce(s, b, hits);
    assert InfoOk(s, b);
    forall c: nat ensures InfoOk(s', c) { assert InfoOk(s, c); }
    forall x: nat ensures ListOk(s', x) { assert ListOk(s, x); }
    forall p: nat ensures QueueOk(s', p) && OwnedOk(s', p) { assert QueueOk(s, p) && OwnedOk(s, p); }
  }

  lemma CoalesceKeeps(s: Sys, b: nat, o: nat, cur: set<nat>)
    requires Ok(s) && b in s.pending && b in s.info && s.info[b].target == o && cur <= SigOf(s, o)
    ensures var s' := Coalesce(s, b, cur * s.info[b].mask);
            Ok(s') && Delivered(s, s', {})
  {
    CoalesceOk(s, b, cur * s.info[b].mask);
  }

  lemma EnqueueOk(s: Sys, b: nat, hits: set<nat>)
    requires Ok(s) && b in s.live && b !in s.pending && b in s.info && hits != {} && hits <= s.info[b].mask
    ensures Ok(Enqueue(s, b, hits))
  {
    var s' := Enqueue(s, b, hits);
    assert InfoOk(s, b);
    forall c: nat ensures InfoOk(s', c) { assert InfoOk(s, c); }
    forall x: nat ensures ListOk(s', x) { assert ListOk(s, x); }
    forall p: nat ensures QueueOk(s', p) && OwnedOk(s', p) { assert QueueOk(s, p) && OwnedOk(s, p); }
  }

  lemma EnqueueKeeps(s: Sys, b: nat, hits: set<nat>)
    requires Ok(s) && b in s.live && b !in s.pending && b in s.info && hits != {}
    requires hits <= s.info[b].mask && hits <= SigOf(s, s.info[b].target)
    ensures var s' := Enqueue(s, b, hits);
            Ok(s') && Delivered(s, s', {b})
  {
    EnqueueOk(s, b, hits);
  }

  /** A port other than the one just queued on still tracks its queue. */
  lemma EnqueueTracks(s: Sys, b: nat, hits: set<nat>)
    requires Tracks(s, None) && b in s.info
    ensures Tracks(Enqueue(s, b, hits), Some(s.info[b].port)) && ReadyOf(Enqueue(s, b, hits), s.info[b].port) != []
  {
  }

  /** o's bindings for which this transition is an edge. */
  ghost function Owed(s: Sys, o: nat, prev: set<nat>, cur: set<nat>): set<nat> {
    set b | b in s.live && b in s.info && s.info[b].target == o && prev * s.info[b].mask == {}
        && cur * s.info[b].mask != {}
  }

  ghost function Idle(s: Sys): set<nat> { set b | b in s.live && b !in s.pending }

  /** Raising o's signals and then queueing what that owes queues exactly the edges. */
  lemma RaiseThenQueue(s: Sys, o: nat, bits: set<nat>, s': Sys)
    requires Grows(Raise(s, o, bits), s')
    requires Queued(Raise(s, o, bits), s', Owed(Raise(s, o, bits), o, SigOf(s, o), SigOf(s, o) + bits))
    ensures Grows(s, s') && Queued(s, s', {})
  {
    var r := Raise(s, o, bits);
    forall b: nat ensures b in s'.pending <==> b in s.pending || Edge(s, s', b) {
      EdgeSplits(s, r, s', b);
    }
  }

  lemma RaiseKeeps(s: Sys, o: nat, bits: set<nat>)
    requires Ok(s) && (o in s.ports ==> bits <= {READABLE})
    ensures var r := Raise(s, o, bits); Ok(r) && Grows(s, r) && Carries(s, r)
  {
    var r := Raise(s, o, bits);
    forall c: nat ensures InfoOk(r, c) { assert InfoOk(s, c); }
    forall x: nat ensures ListOk(r, x) { assert ListOk(s, x); }
    forall p: nat ensures QueueOk(r, p) && OwnedOk(r, p) { assert QueueOk(s, p) && OwnedOk(s, p); }
  }

  lemma HasFirst(q: seq<nat>)
    ensures q != [] ==> exists b :: b in q
  {
    if q != [] { assert q[0] in q; }
  }

  lemma CreateOk(s: Sys, p: nat)
    requires Ok(s) && p !in s.ports && SigOf(s, p) == {}
    ensures Ok(s.(ports := s.ports + {p})) && ReadyOf(s, p) == []
  {
    var s' := s.(ports := s.ports + {p});
    forall c: nat ensures InfoOk(s', c) { assert InfoOk(s, c); }
    forall x: nat ensures ListOk(s', x) { assert ListOk(s, x); }
    forall q: nat ensures QueueOk(s', q) && OwnedOk(s', q) { assert QueueOk(s, q) && OwnedOk(s, q); }
    var q := ReadyOf(s, p);
    forall b: nat ensures b !in q { assert QueueOk(s, p) && InfoOk(s, b); }
    HasFirst(q);
  }

  /** One locked scan of these bindings for a transition: packets already queued take the new signals, and the
      first binding that saw an edge is queued, which ends the scan. */
  function ScanFrom(s: Sys, list: seq<nat>, prev: set<nat>, cur: set<nat>): (Sys, Option<nat>)
    decreases |list|
  {
    if list == [] then (s, None)
    else if list[0] !in s.info || cur * s.info[list[0]].mask == {} then ScanFrom(s, list[1..], prev, cur)
    else if list[0] in s.pending then
      ScanFrom(Coalesce(s, list[0], cur * s.info[list[0]].mask), list[1..], prev, cur)
    else if prev * s.info[list[0]].mask != {} then ScanFrom(s, list[1..], prev, cur)
    else (Enqueue(s, list[0], cur * s.info[list[0]].mask), Some(list[0]))
  }

  /** A pass is done with b: nothing to report, reported, or no edge. */
  ghost predicate Seen(s: Sys, b: nat, prev: set<nat>, cur: set<nat>)
    requires b in s.info
  {
    var m := s.info[b].mask;
    cur * m == {} || (b in s.pending && cur * m <= PacketOf(s, b)) || (b !in s.pending && prev * m != {})
  }

  /** Only ports' signals move. */
  ghost predicate PortsOnly(s: Sys, s': Sys) { forall x: nat | x !in s.ports :: SigOf(s', x) == SigOf(s, x) }

  /** Part-way through a scan that has queued nothing yet. */
  ghost predicate Scanning(start: Sys, s: Sys, o: nat, list: seq<nat>, i: nat, prev: set<nat>, cur: set<nat>) {
    && i <= |list| && list == ListOf(start, o) && Ok(s) && Delivered(start, s, {}) && s.signals == start.signals
    && s.ready == start.ready && Idle(s) == Idle(start) && Tracks(s, None) && cur <= SigOf(s, o)
    && (forall j | 0 <= j < i :: list[j] in s.info && Seen(s, list[j], prev, cur))
    && ScanFrom(start, list, prev, cur) == ScanFrom(s, list[i..], prev, cur)
  }

  lemma ScanStarts(s: Sys, o: nat, prev: set<nat>, cur: set<nat>)
    requires Ok(s) && cur <= SigOf(s, o) && Tracks(s, None)
    ensures Scanning(s, s, o, ListOf(s, o), 0, prev, cur)
  {
    assert ListOf(s, o)[0..] == ListOf(s, o);
  }

  lemma ScanEnds(start: Sys, s: Sys, o: nat, list: seq<nat>, prev: set<nat>, cur: set<nat>)
    requires Scanning(start, s, o, list, |list|, prev, cur)
    ensures ScanFrom(start, list, prev, cur) == (s, None)
    ensures forall b | b in ListOf(s, o) :: b in s.info && Seen(s, b, prev, cur)
  {
  }

  /** What queueing b, the first that saw an edge, makes of the scan. */
  ghost predicate ScanHits(start: Sys, s: Sys, o: nat, b: nat, prev: set<nat>, cur: set<nat>) {
    && b in s.info && Ok(s) && Delivered(start, s, {b}) && Idle(s) < Idle(start) && s.signals == start.signals
    && s.info[b].port in s.ports && Tracks(s, Some(s.info[b].port)) && ReadyOf(s, s.info[b].port) != []
    && b in Owed(start, o, prev, cur) && ScanFrom(start, ListOf(start, o), prev, cur) == (s, Some(b))
  }

  lemma ScanNext(start: Sys, s: Sys, o: nat, list: seq<nat>, i: nat, prev: set<nat>, cur: set<nat>)
    requires Scanning(start, s, o, list, i, prev, cur) && i < |list|
    ensures list[i] in s.info
    ensures var b := list[i]; var hits := cur * s.info[b].mask;
      if hits == {} || (b !in s.pending && prev * s.info[b].mask != {})
          then Scanning(start, s, o, list, i + 1, prev, cur)
      else if b in s.pending then Scanning(start, Coalesce(s, b, hits), o, list, i + 1, prev, cur)
      else ScanHits(start, Enqueue(s, b, hits), o, b, prev, cur)
  {
    var b := list[i];
    assert ListOk(s, o) && b in ListOf(s, o) && InfoOk(s, b);
    var hits := cur * s.info[b].mask;
    assert list[i..][0] == b && list[i..][1..] == list[i + 1..];
    if hits != {} && b in s.pending { ScanTakes(start, s, o, list, i, prev, cur); }
    else if hits != {} && prev * s.info[b].mask == {} { ScanQueues(start, s, o, list, i, prev, cur); }
  }

  lemma ScanTakes(start: Sys, s: Sys, o: nat, list: seq<nat>, i: nat, prev: set<nat>, cur: set<nat>)
    requires Scanning(start, s, o, list, i, prev, cur) && i < |list| && list[i] in s.info && list[i] in s.pending
    requires s.info[list[i]].target == o && cur * s.info[list[i]].mask != {} && list[i..][1..] == list[i + 1..]
    ensures Scanning(start, Coalesce(s, list[i], cur * s.info[list[i]].mask), o, list, i + 1, prev, cur)
  {
    var s' := Coalesce(s, list[i], cur * s.info[list[i]].mask);
    CoalesceKeeps(s, list[i], o, cur);
    DeliveredTwice(start, s, s', {}, {});
    forall j | 0 <= j < i + 1 ensures list[j] in s'.info && Seen(s', list[j], prev, cur) {
      if j < i { SeenStays(s, list[i], list[j], prev, cur); }
    }
  }

  lemma SeenStays(s: Sys, b: nat, c: nat, prev: set<nat>, cur: set<nat>)
    requires b in s.info && b in s.pending && c in s.info && Seen(s, c, prev, cur)
    ensures Seen(Coalesce(s, b, cur * s.info[b].mask), c, prev, cur)
  {
  }

  lemma ScanQueues(start: Sys, s: Sys, o: nat, list: seq<nat>, i: nat, prev: set<nat>, cur: set<nat>)
    requires Scanning(start, s, o, list, i, prev, cur) && i < |list| && list[i] in s.info && list[i] !in s.pending
    requires list[i] in s.live && InfoOk(s, list[i]) && s.info[list[i]].target == o
    requires cur * s.info[list[i]].mask != {} && prev * s.info[list[i]].mask == {}
    ensures ScanHits(start, Enqueue(s, list[i], cur * s.info[list[i]].mask), o, list[i], prev, cur)
  {
    var b := list[i];
    var s' := Enqueue(s, b, cur * s.info[b].mask);
    EnqueueKeeps(s, b, cur * s.info[b].mask);
    EnqueueTracks(s, b, cur * s.info[b].mask);
    DeliveredTwice(start, s, s', {}, {b});
    assert b in Idle(s) && b !in Idle(s') && {} + {b} == {b};
  }

  class PortSystem {
    var sys: Sys

    constructor ()
      ensures Ok(sys) && Tracks(sys, None) && sys.ports == {} && sys.live == {} && forall o: nat :: SigOf(sys, o) == {}
    {
      sys := Sys({}, {}, imap[], imap[], imap[], imap[], imap[], imap[]);
    }

    /** create: a new object signals nothing, and a new port has no packets. */
    method Create(p: nat)
      requires Ok(sys) && Tracks(sys, None) && p !in sys.ports && SigOf(sys, p) == {}
      modifies this
      ensures Ok(sys) && Tracks(sys, None) && sys == old(sys).(ports := old(sys).ports + {p}) && ReadyOf(sys, p) == []
    {
      CreateOk(sys, p);
      sys := sys.(ports := sys.ports + {p});
    }

    /** bind: a signal already inside the mask queues the first packet at once. slot is the arena's
        answer, a binding not in use. */
    method Bind(p: nat, o: Option<nat>, key: nat, mask: set<nat>, slot: Option<nat>) returns (r: Outcome)
      requires Ok(sys) && Tracks(sys, None) && p in sys.ports && (slot.Some? ==> slot.value !in sys.live)
      modifies this
      ensures Ok(sys) && Tracks(sys, None)
      ensures r == if o.None? then NullArgument else if mask == {} then InvalidOperation else if slot.None? then Oom
        else Bound
      ensures r != Bound ==> sys == old(sys)
      ensures r == Bound ==>
                var attached := Attach(old(sys), slot.value, Binding(key, mask, o.value, p));
                Delivered(attached, sys, if SigOf(old(sys), o.value) * mask != {} then {slot.value} else {})
    {
      if o.None? { return NullArgument; }
      if mask == {} { return InvalidOperation; }
      if slot.None? { return Oom; }
      var b := slot.value;
      AttachKeeps(sys, b, Binding(key, mask, o.value, p));
      sys := Attach(sys, b, Binding(key, mask, o.value, p));
      ghost var attached := sys;
      var asserted := SigOf(sys, o.value) * mask;
      if asserted != {} { FirstPacket(p, b, asserted); }
      return Bound;
    }

    method FirstPacket(p: nat, b: nat, hits: set<nat>)
      requires Ok(sys) && Tracks(sys, None) && p in sys.ports && b in sys.live && b !in sys.pending && b in sys.info
      requires hits != {}
      requires sys.info[b].port == p && hits <= sys.info[b].mask && hits <= SigOf(sys, sys.info[b].target)
      modifies this
      ensures Ok(sys) && Tracks(sys, None) && Delivered(old(sys), sys, {b})
    {
      EnqueueKeeps(sys, b, hits);
      EnqueueTracks(sys, b, hits);
      sys := Enqueue(sys, b, hits);
      ghost var queued := sys;
      SignalSet(p, {READABLE});
      DeliveredTwice(old(sys), queued, sys, {b}, {});
      assert {b} + {} == {b};
    }

    /** dequeue: the oldest packet, which leaves its binding armed again. */
    method Dequeue(p: nat) returns (packet: Option<Packet>)
      requires Ok(sys) && Tracks(sys, None) && p in sys.ports
      modifies this
      ensures Ok(sys) && Tracks(sys, None)
      ensures packet.None? <==> ReadyOf(old(sys), p) == []
      ensures packet.Some? ==>
                var b := ReadyOf(old(sys), p)[0];
                && b in old(sys).info && packet.value == Packet(old(sys).info[b].key, PacketOf(old(sys), b))
                && ReadyOf(sys, p) == ReadyOf(old(sys), p)[1..]
                && sys.pending == old(sys).pending - {b} && sys.live == old(sys).live && sys.info == old(sys).info
      ensures forall x: nat | x != p :: ReadyOf(sys, x) == ReadyOf(old(sys), x) && SigOf(sys, x) == SigOf(old(sys), x)
    {
      var queue := ReadyOf(sys, p);
      if queue == [] {
        LowerKeeps(sys, p);
        sys := Lower(sys, p, {READABLE});
        return None;
      }
      var b := queue[0];
      assert QueueOk(sys, p) && InfoOk(sys, b) && b in queue;
      WithoutFirst(queue);
      packet := Some(Packet(sys.info[b].key, PacketOf(sys, b)));
      WithdrawKeeps(sys, b);
      sys := Withdraw(sys, b);
      LowerKeeps(sys, p);
      if ReadyOf(sys, p) == [] { sys := Lower(sys, p, {READABLE}); }
    }

    /** unbind: every binding of p under this key goes, its packet with it; the other packets keep
        their order. */
    method Unbind(p: nat, key: nat) returns (count: nat)
      requires Ok(sys) && Tracks(sys, None) && p in sys.ports
      modifies this
      ensures Ok(sys) && Tracks(sys, None)
      ensures Trimmed(old(sys), sys) && count == |old(sys).live - sys.live|
      ensures forall b: nat | b in old(sys).live ::
        b in sys.info && (b in sys.live <==> sys.info[b].port != p || sys.info[b].key != key)
      ensures forall x: nat | x != p :: SigOf(sys, x) == SigOf(old(sys), x)
    {
      ghost var start := sys;
      count := DropAll(p, key);
      LowerKeeps(sys, p);
      if ReadyOf(sys, p) == [] {
        sys := Lower(sys, p, {READABLE});
      } else {
        SubsequenceNonempty(ReadyOf(sys, p), ReadyOf(start, p));
      }
    }

    method DropAll(p: nat, key: nat) returns (count: nat)
      requires Ok(sys) && Tracks(sys, None) && p in sys.ports
      modifies this
      ensures Ok(sys) && Tracks(sys, Some(p)) && sys.signals == old(sys).signals
      ensures Trimmed(old(sys), sys) && count == |old(sys).live - sys.live|
      ensures forall b: nat | b in old(sys).live ::
        b in sys.info && (b in sys.live <==> sys.info[b].port != p || sys.info[b].key != key)
    {
      var list, i := OwnedOf(sys, p), 0;
      ghost var start := sys;
      count := 0;
      assert OwnedOk(start, p);
      TrimmedSelf(start);
      while i < |list|
        invariant i <= |list| && Ok(sys) && Tracks(sys, Some(p)) && sys.signals == start.signals && Trimmed(start, sys)
        invariant count == |start.live - sys.live| && Sifted(start, sys, list, i, key)
      {
        ghost var before := sys;
        assert sys.info[list[i]].port == p by { assert list[i] in list; }
        if sys.info[list[i]].key == key {
          Drop(p, list[i], start);
          count := count + 1;
        }
        SiftStep(start, before, sys, list, i, key);
        i := i + 1;
      }
      forall b: nat | b in start.live
          ensures b in sys.info && (b in sys.live <==> sys.info[b].port != p || sys.info[b].key != key) {
        assert InfoOk(start, b);
        SiftedAll(start, sys, list, p, key, b);
      }
    }

    /** The binding leaves every list it is in. */
    method Drop(p: nat, b: nat, ghost start: Sys)
      requires Ok(sys) && Tracks(sys, Some(p)) && Trimmed(start, sys) && b in sys.live && b in sys.info
      requires sys.info[b].port == p
      modifies this
      ensures Ok(sys) && Tracks(sys, Some(p)) && Trimmed(start, sys) && sys.signals == old(sys).signals
      ensures sys.live == old(sys).live - {b} && |start.live - sys.live| == |start.live - old(sys).live| + 1
    {
      DropIs(start, sys, p, b);
      sys := Withdraw(sys, b);
      sys := Detach(sys, b);
    }

    /** One locked scan of o's bindings: packets already queued take the new signals; the first
        binding that saw an edge is queued, and the scan stops there. */
    method ScanPass(o: nat, prev: set<nat>, cur: set<nat>) returns (hit: Option<nat>, ghost queued: set<nat>)
      requires Ok(sys) && cur <= SigOf(sys, o) && Tracks(sys, None)
      modifies this
      ensures Ok(sys) && Delivered(old(sys), sys, queued)
      ensures queued <= Owed(old(sys), o, prev, cur) && sys.signals == old(sys).signals
      ensures hit.None? ==> queued == {} && Tracks(sys, None) && forall b | b in ListOf(sys, o) ::
        b in sys.info && Seen(sys, b, prev, cur)
      ensures hit.Some? ==> Idle(sys) < Idle(old(sys)) && hit.value in sys.ports
      ensures hit.Some? ==> Tracks(sys, hit) && ReadyOf(sys, hit.value) != []
      ensures var (s', b) := ScanFrom(old(sys), ListOf(old(sys), o), prev, cur);
        sys == s' && (hit.Some? <==> b.Some?) && (b.Some? ==>
            b.value in sys.info && hit == Some(sys.info[b.value].port))
    {
      ghost var start := sys;
      var b := ScanList(o, prev, cur);
      if b.Some? { return Some(sys.info[b.value].port), {b.value}; }
      ScanEnds(start, sys, o, ListOf(start, o), prev, cur);
      return None, {};
    }

    /** The loop of the scan, and the binding it queued. */
    method ScanList(o: nat, prev: set<nat>, cur: set<nat>) returns (hit: Option<nat>)
      requires Ok(sys) && cur <= SigOf(sys, o) && Tracks(sys, None)
      modifies this
      ensures if hit.Some? then ScanHits(old(sys), sys, o, hit.value, prev, cur)
              else Scanning(old(sys), sys, o, ListOf(old(sys), o), |ListOf(old(sys), o)|, prev, cur)
    {
      var list, i: nat := ListOf(sys, o), 0;
      ghost var start := sys;
      ScanStarts(sys, o, prev, cur);
      while i < |list|
        invariant Scanning(start, sys, o, list, i, prev, cur)
      {
        var b := list[i];
        ScanNext(start, sys, o, list, i, prev, cur);
        var hits := cur * sys.info[b].mask;
        if hits != {} {
          if b in sys.pending {
            sys := Coalesce(sys, b, hits);
          } else if prev * sys.info[b].mask == {} {
            sys := Enqueue(sys, b, hits);
            return Some(b);
          }
        }
        i := i + 1;
      }
      return None;
    }

    /** signal_set. Afterwards the queued bindings are exactly the ones queued before and the ones
        whose object's signals moved into their mask, whatever ports that set off; every queue grew
        at its end only, every port is readable exactly when it has packets, and o's packets carry
        all of o's signals they ask for. */
    method SignalSet(o: nat, bits: set<nat>)
      requires Ok(sys)
      requires if o in sys.ports then bits == {READABLE} && ReadyOf(sys, o) != [] && Tracks(sys, Some(o))
        else Tracks(sys, None)
      modifies this
      ensures Ok(sys) && Tracks(sys, None) && Delivered(old(sys), sys, {}) && Full(sys, o)
      ensures SigOf(sys, o) == SigOf(old(sys), o) + bits
      ensures forall x: nat | x !in sys.ports && x != o :: SigOf(sys, x) == SigOf(old(sys), x)
      decreases Idle(sys), 2
    {
      ghost var start := sys;
      var prev := SigOf(sys, o);
      RaiseKeeps(sys, o, bits);
      sys := Raise(sys, o, bits);
      ghost var raised := sys;
      assert Tracks(sys, None);
      assert Idle(sys) == Idle(start);
      if ListOf(sys, o) != [] {
        Notify(o, prev, prev + bits);
        RaiseThenQueue(start, o, bits, sys);
        CarriesTwice(start, raised, sys);
      } else {
        NoBindings(sys, o, prev, prev + bits);
        RaiseThenQueue(start, o, bits, sys);
      }
    }

    /** port_notify. */
    method Notify(o: nat, prev: set<nat>, cur: set<nat>)
      requires Ok(sys) && Tracks(sys, None) && cur == SigOf(sys, o) && (o in sys.ports ==> cur == {READABLE})
      modifies this
      ensures Ok(sys) && Tracks(sys, None) && Delivered(old(sys), sys, Owed(old(sys), o, prev, cur))
      ensures PortsOnly(old(sys), sys)
      ensures Full(sys, o) && SigOf(sys, o) == cur
      decreases Idle(sys), 1
    {
      ghost var start, done: set<nat> := sys, {};
      var more := true;
      while more
        invariant Notifying(start, sys, o, prev, cur, done) && Idle(sys) <= Idle(start)
        invariant !more ==> forall b | b in ListOf(sys, o) :: b in sys.info && Seen(sys, b, prev, cur)
        decreases more, Idle(sys)
      {
        more, done := Round(o, prev, cur, start, done);
      }
      AllSeen(start, sys, o, prev, cur, done);
    }

    /** One scan and, when it queued a packet, the signal to its port, unlocked. */
    method Round(o: nat, prev: set<nat>, cur: set<nat>, ghost start: Sys, ghost done: set<nat>)
      returns (more: bool, ghost done': set<nat>)
      requires Notifying(start, sys, o, prev, cur, done) && Idle(sys) <= Idle(start)
      modifies this
      ensures Notifying(start, sys, o, prev, cur, done') && Idle(sys) <= Idle(old(sys))
      ensures more ==> Idle(sys) < Idle(old(sys))
      ensures !more ==> forall b | b in ListOf(sys, o) :: b in sys.info && Seen(sys, b, prev, cur)
      decreases Idle(sys), 0
    {
      ghost var before := sys;
      var hit, queued := ScanPass(o, prev, cur);
      done' := done + queued;
      Scanned(start, before, sys, o, prev, cur, done, queued);
      if hit.None? { return false, done'; }
      ghost var between := sys;
      SignalSet(hit.value, {READABLE});
      Signalled(start, between, sys, o, prev, cur, done', hit.value);
      return true, done';
    }
  }

  /** A scan leaves the notification part-way, but for the port whose queue it may have joined. */
  lemma Scanned(start: Sys, before: Sys, s: Sys, o: nat, prev: set<nat>, cur: set<nat>, done: set<nat>,
                queued: set<nat>)
    requires Notifying(start, before, o, prev, cur, done)
    requires Delivered(before, s, queued) && queued <= Owed(before, o, prev, cur) && s.signals == before.signals
    ensures Delivered(start, s, done + queued) && PortsOnly(start, s) && done + queued <= Owed(start, o, prev, cur)
    ensures SigOf(s, o) == cur && (o in s.ports ==> cur == {READABLE}) && Idle(s) <= Idle(before)
  {
    DeliveredTwice(start, before, s, done, queued);
    OwedSame(start, before, o, prev, cur);
  }

  lemma Signalled(start: Sys, between: Sys, s: Sys, o: nat, prev: set<nat>, cur: set<nat>, done: set<nat>, p: nat)
    requires Delivered(start, between, done) && PortsOnly(start, between) && done <= Owed(start, o, prev, cur)
    requires p in between.ports
    requires SigOf(between, o) == cur && (o in between.ports ==> cur == {READABLE})
    requires Ok(s) && Tracks(s, None) && Delivered(between, s, {}) && SigOf(s, p) == SigOf(between, p) + {READABLE}
    requires forall x: nat | x !in s.ports && x != p :: SigOf(s, x) == SigOf(between, x)
    ensures Notifying(start, s, o, prev, cur, done) && Idle(s) <= Idle(between)
  {
    assert PortsOnly(between, s);
    DeliveredTwice(start, between, s, done, {});
    assert done + {} == done;
    if o in s.ports { assert SigOf(between, o) <= SigOf(s, o) <= {READABLE}; }
  }

  /** Part-way through port_notify. */
  ghost predicate Notifying(start: Sys, s: Sys, o: nat, prev: set<nat>, cur: set<nat>, done: set<nat>) {
    && Ok(s) && Tracks(s, None) && SigOf(s, o) == cur && (o in s.ports ==> cur == {READABLE}) && PortsOnly(start, s)
    && Delivered(start, s, done) && done <= Owed(start, o, prev, cur)
  }

  lemma OwedSame(s: Sys, s': Sys, o: nat, prev: set<nat>, cur: set<nat>)
    requires Grows(s, s')
    ensures Owed(s, o, prev, cur) == Owed(s', o, prev, cur)
  {
  }

  // ---------------------------------------------------------------- bind

  datatype Outcome = Bound | NullArgument | InvalidOperation | Oom

  /** The new binding heads its object's list and its port's list. */
  function Attach(s: Sys, b: nat, info: Binding): Sys {
    s.(live := s.live + {b}, info := s.info[b := info], lists := s.lists[info.target := [b] + ListOf(s, info.target)],
       owned := s.owned[info.port := [b] + OwnedOf(s, info.port)])
  }

  lemma AttachKeeps(s: Sys, b: nat, info: Binding)
    requires Ok(s) && b !in s.live && info.mask != {} && info.port in s.ports
    ensures Ok(Attach(s, b, info)) && b !in s.pending
  {
    var s' := Attach(s, b, info);
    assert InfoOk(s, b);
    forall c: nat ensures InfoOk(s', c) { assert InfoOk(s, c); }
    forall x: nat ensures ListOk(s', x) { AttachList(s, b, info, x); }
    forall p: nat ensures QueueOk(s', p) && OwnedOk(s', p) {
      assert QueueOk(s, p);
      AttachOwned(s, b, info, p);
    }
  }

  lemma AttachList(s: Sys, b: nat, info: Binding, x: nat)
    requires Ok(s) && b !in s.live
    ensures ListOk(Attach(s, b, info), x)
  {
    assert ListOk(s, x);
  }

  lemma AttachOwned(s: Sys, b: nat, info: Binding, p: nat)
    requires Ok(s) && b !in s.live
    ensures OwnedOk(Attach(s, b, info), p)
  {
    assert OwnedOk(s, p);
  }

  // ---------------------------------------------------------------- dequeue and unbind

  datatype Packet = Packet(key: nat, signals: set<nat>)

  function Without(q: seq<nat>, b: nat): (r: seq<nat>)
    ensures forall x :: x in r <==> x in q && x != b
    ensures NoDup(q) ==> NoDup(r)
  {
    if q == [] then []
    else
      var r := Without(q[1..], b);
      assert q == [q[0]] + q[1..];
      assert NoDup(q) ==> NoDup(q[1..]) && q[0] !in q[1..];
      if q[0] == b then r else [q[0]] + r
  }

  /** The packet b leaves its queue. */
  function Withdraw(s: Sys, b: nat): Sys
    requires b in s.info
  {
    s.(pending := s.pending - {b}, ready := s.ready[s.info[b].port := Without(ReadyOf(s, s.info[b].port), b)])
  }

  lemma WithdrawKeeps(s: Sys, b: nat)
    requires Ok(s) && b in s.info && b in s.live
    ensures Ok(Withdraw(s, b))
  {
    var s' := Withdraw(s, b);
    forall c: nat ensures InfoOk(s', c) { assert InfoOk(s, c); }
    forall x: nat ensures ListOk(s', x) { assert ListOk(s, x); }
    forall p: nat ensures QueueOk(s', p) && OwnedOk(s', p) { assert QueueOk(s, p) && OwnedOk(s, p); }
  }

  /** The binding b leaves its object's list and its port's. */
  function Detach(s: Sys, b: nat): Sys
    requires b in s.info
  {
    var i := s.info[b];
    s.(live := s.live - {b}, lists := s.lists[i.target := Without(ListOf(s, i.target), b)],
       owned := s.owned[i.port := Without(OwnedOf(s, i.port), b)])
  }

  lemma DetachKeeps(s: Sys, b: nat)
    requires Ok(s) && b in s.info && b !in s.pending
    ensures Ok(Detach(s, b))
  {
    var s' := Detach(s, b);
    forall c: nat ensures InfoOk(s', c) { assert InfoOk(s, c); }
    forall x: nat ensures ListOk(s', x) { assert ListOk(s, x); }
    forall p: nat ensures QueueOk(s', p) && OwnedOk(s', p) { assert QueueOk(s, p) && OwnedOk(s, p); }
  }

  lemma DropIs(start: Sys, s: Sys, p: nat, b: nat)
    requires Ok(s) && Tracks(s, Some(p)) && Trimmed(start, s) && b in s.live && b in s.info && s.info[b].port == p
    ensures var s' := Detach(Withdraw(s, b), b);
      Ok(s') && Tracks(s', Some(p)) && Trimmed(start, s') && |start.live - s'.live| == |start.live - s.live| + 1
  {
    var w, s' := Withdraw(s, b), Detach(Withdraw(s, b), b);
    WithdrawKeeps(s, b);
    DetachKeeps(w, b);
    TrimOne(start, s, b);
    assert start.live - s'.live == (start.live - s.live) + {b};
  }

  lemma LowerOk(s: Sys, o: nat, bits: set<nat>)
    requires Ok(s)
    ensures Ok(Lower(s, o, bits))
  {
    var l := Lower(s, o, bits);
    forall c: nat ensures InfoOk(l, c) { assert InfoOk(s, c); }
    forall x: nat ensures ListOk(l, x) { assert ListOk(s, x); }
    forall q: nat ensures QueueOk(l, q) && OwnedOk(l, q) { assert QueueOk(s, q) && OwnedOk(s, q); }
  }

  lemma LowerKeeps(s: Sys, p: nat)
    requires Ok(s) && p in s.ports && Tracks(s, Some(p))
    ensures ReadyOf(s, p) == [] ==> Ok(Lower(s, p, {READABLE})) && Tracks(Lower(s, p, {READABLE}), None)
    ensures ReadyOf(s, p) != [] && READABLE in SigOf(s, p) ==> Tracks(s, None)
  {
    LowerOk(s, p, {READABLE});
  }

  /** Of the listed bindings, those before i under this key are gone; no other binding is. */
  ghost predicate Sifted(start: Sys, s: Sys, list: seq<nat>, i: nat, key: nat) {
    && (forall j {:trigger list[j]} | 0 <= j < |list| ::
       list[j] in s.info && (list[j] in s.live <==> j >= i || s.info[list[j]].key != key))
    && (forall b: nat | b in start.live && b !in list :: b in s.live)
  }

  lemma SiftStep(start: Sys, s: Sys, s': Sys, list: seq<nat>, i: nat, key: nat)
    requires Sifted(start, s, list, i, key) && NoDup(list) && i < |list| && s'.info == s.info
    requires s'.live == if s.info[list[i]].key == key then s.live - {list[i]} else s.live
    ensures Sifted(start, s', list, i + 1, key)
  {
  }

  lemma SiftedAll(start: Sys, s: Sys, list: seq<nat>, p: nat, key: nat, b: nat)
    requires OwnedOk(start, p) && list == OwnedOf(start, p) && s.info == start.info && InfoOk(start, b)
    requires b in start.live
    requires Sifted(start, s, list, |list|, key)
    ensures b in s.info && (b in s.live <==> s.info[b].port != p || s.info[b].key != key)
  {
    if b in list { var j :| 0 <= j < |list| && list[j] == b; }
  }

  /** a is b with some elements left out. */
  predicate Subsequence(a: seq<nat>, b: seq<nat>) {
    if a == [] then true else if b == [] then false
    else if a[0] == b[0] then Subsequence(a[1..], b[1..]) else Subsequence(a, b[1..])
  }

  lemma {:induction false} SubsequenceOf(q: seq<nat>)
    ensures Subsequence(q, q)
  {
    if q != [] { SubsequenceOf(q[1..]); }
  }

  /** Some bindings are gone with their packets; the others' packets are as they were, in order. */
  ghost predicate Trimmed(s: Sys, s': Sys) {
    && s'.ports == s.ports && s'.info == s.info && s'.live <= s.live
    && (forall b: nat :: b in s'.pending <==> b in s.pending && b in s'.live)
    && (forall b: nat | b in s'.pending :: PacketOf(s', b) == PacketOf(s, b))
    && (forall x: nat :: Subsequence(ReadyOf(s', x), ReadyOf(s, x)))
  }

  lemma TrimmedSelf(s: Sys)
    requires Ok(s)
    ensures Trimmed(s, s)
  {
    forall b: nat ensures b in s.pending ==> b in s.live { assert InfoOk(s, b); }
    forall x: nat ensures Subsequence(ReadyOf(s, x), ReadyOf(s, x)) { SubsequenceOf(ReadyOf(s, x)); }
  }

  lemma TrimOne(start: Sys, s: Sys, b: nat)
    requires Trimmed(start, s) && b in s.info
    ensures Trimmed(start, Detach(Withdraw(s, b), b))
  {
    SubsequenceWithout(s, Withdraw(s, b), start, b);
  }

  lemma {:induction false} WithoutWithin(a: seq<nat>, q: seq<nat>, b: nat)
    requires Subsequence(a, q)
    ensures Subsequence(Without(a, b), q)
    decreases |a| + |q|
  {
    if a != [] {
      if a[0] == q[0] {
        WithoutWithin(a[1..], q[1..], b);
        if a[0] == b { Skip(Without(a[1..], b), q[1..], q[0]); assert q == [q[0]] + q[1..]; }
      } else {
        WithoutWithin(a, q[1..], b);
        Skip(Without(a, b), q[1..], q[0]);
        assert q == [q[0]] + q[1..];
      }
    }
  }

  lemma {:induction false} Skip(a: seq<nat>, q: seq<nat>, x: nat)
    requires Subsequence(a, q)
    ensures Subsequence(a, [x] + q)
    decreases |q|, 1
  {
    assert ([x] + q)[1..] == q;
    if a != [] && a[0] == x { Tail(a, q); }
  }

  lemma {:induction false} Tail(a: seq<nat>, q: seq<nat>)
    requires Subsequence(a, q) && a != []
    ensures Subsequence(a[1..], q)
    decreases |q|, 0
  {
    if a[0] == q[0] { Skip(a[1..], q[1..], q[0]); } else { Tail(a, q[1..]); Skip(a[1..], q[1..], q[0]); }
    assert q == [q[0]] + q[1..];
  }

  lemma SubsequenceWithout(before: Sys, s: Sys, start: Sys, b: nat)
    requires b in before.info && s.ready == Withdraw(before, b).ready
    requires forall x: nat :: Subsequence(ReadyOf(before, x), ReadyOf(start, x))
    ensures forall x: nat :: Subsequence(ReadyOf(s, x), ReadyOf(start, x))
  {
    forall x: nat ensures Subsequence(ReadyOf(s, x), ReadyOf(start, x)) {
      if x == before.info[b].port { WithoutWithin(ReadyOf(before, x), ReadyOf(start, x), b); }
    }
  }

  lemma SubsequenceNonempty(a: seq<nat>, q: seq<nat>)
    requires Subsequence(a, q) && a != []
    ensures q != []
  {
  }

  lemma WithoutFirst(q: seq<nat>)
    requires NoDup(q) && q != []
    ensures Without(q, q[0]) == q[1..]
  {
    assert q[0] !in q[1..];
    WithoutAbsent(q[1..], q[0]);
  }

  lemma {:induction false} WithoutAbsent(q: seq<nat>, b: nat)
    requires b !in q
    ensures Without(q, b) == q
  {
    if q != [] { WithoutAbsent(q[1..], b); }
  }

  lemma NoBindings(s: Sys, o: nat, prev: set<nat>, cur: set<nat>)
    requires Ok(s) && ListOf(s, o) == []
    ensures Owed(s, o, prev, cur) == {} && Full(s, o)
  {
    assert ListOk(s, o);
    forall b: nat ensures !(b in s.live && b in s.info && s.info[b].target == o) { assert b !in ListOf(s, o); }
    forall b: nat ensures b in s.pending ==> b in s.live { assert InfoOk(s, b); }
  }

  /** After a pass that stopped nowhere, all that was owed is queued and every packet is full. */
  lemma AllSeen(start: Sys, s: Sys, o: nat, prev: set<nat>, cur: set<nat>, done: set<nat>)
    requires Ok(s) && Grows(start, s) && Queued(start, s, done) && done <= Owed(start, o, prev, cur)
    requires SigOf(s, o) == cur
    requires forall b | b in ListOf(s, o) :: b in s.info && Seen(s, b, prev, cur)
    ensures Queued(start, s, Owed(start, o, prev, cur)) && Full(s, o)
  {
    assert ListOk(s, o);
    forall b: nat | b in Owed(start, o, prev, cur) ensures b in s.pending { assert b in ListOf(s, o); }
    forall b: nat | b in s.pending && b in s.info && s.info[b].target == o
        ensures SigOf(s, o) * s.info[b].mask <= PacketOf(s, b) {
      assert InfoOk(s, b);
      assert b in ListOf(s, o);
    }
  }
}
