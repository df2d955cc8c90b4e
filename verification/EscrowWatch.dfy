/** Ports that watch endpoints and other ports, on top of Escrow. A binding keeps what it watches, a port
    keeps its bindings, and a system call keeps what it has looked up, so an endpoint can outlive its last
    handle. Every step is one of Escrow or leaves it alone: what holds of every run there holds here. */
module EscrowWatch {

  import opened Basics
  import opened Escrow
  import opened EscrowTheorems

  /** What a port handle is made with and keeps: port handles are never duplicated. */
  const PORT_RIGHTS: set<nat> := {READ, WRITE, WAIT}

  /** Of the even numbers every second one is a port. */
  function PortAt(target: nat): Option<nat> { if target % 4 == 2 then Some(target / 4) else None }

  function PortNumber(p: nat): nat { p * 4 + 2 }

  /** A port watches an object under a key. Bindings that agree in all three count as one. */
  datatype Bond = Bond(port: nat, key: nat, target: nat)

  /** What a system call holds on to: an object it waits for or has done with, the port and the object it is
      about to bind, or the port it is about to unbind. */
  datatype Call =
    | Holding(target: nat)
    | Binding(task: nat, port: nat, watched: Option<nat>)
    | Unbinding(port: nat, key: nat)

  /** loose has the bindings that are off their port's list and still to be taken apart. */
  datatype Ports = Ports(made: set<nat>, dead: set<nat>, bonds: set<Bond>, loose: set<Bond>, calls: map<nat, Call>)

  datatype World = World(s: State, ps: Ports)

  const NONE: Ports := Ports({}, {}, {}, {}, map[])

  predicate Uses(c: Call, x: nat) {
    match c
    case Holding(target) => target == x
    case Binding(_, port, watched) => PortNumber(port) == x || watched == Some(x)
    case Unbinding(port, _) => PortNumber(port) == x
  }

  /** A binding or a call refers to the object. */
  ghost predicate Pinned(ps: Ports, x: nat) {
    || (exists b :: b in ps.bonds + ps.loose && b.target == x)
    || (exists c :: c in ps.calls && Uses(ps.calls[c], x))
  }

  /** The handle is not closed: it is in a table or a hand. */
  predicate NotClosed(s: State, n: nat) { n in s.hs.place && s.hs.place[n] != Closed && n in s.hs.minted }

  ghost predicate Handled(s: State, x: nat) { exists n: nat :: NotClosed(s, n) && s.hs.minted[n].target == x }

  // ---------------------------------------------------------------- the steps

  datatype Op =
    | Hold(call: nat, task: nat, via: HandleId)                  // a call looks a handle up, to wait or otherwise
    | BindPort(call: nat, task: nat, via: HandleId)              // port_bind finds its port,
    | BindObject(call: nat, via: HandleId)                       // then the object,
    | BindEnd(call: nat, key: nat)                               // and binds
    | UnbindPort(call: nat, task: nat, via: HandleId, key: nat)  // port_unbind finds its port,
    | UnbindEnd(call: nat)                                       // and takes the key's bindings off it
    | Return(call: nat)                                          // done, or failed
    | Unhook(bond: Bond)                                         // a loose binding lets go of its object
    | EndPort(port: nat)                                         // the port's last reference is gone

  datatype Act = Base(a: Action) | Port(op: Op)

  predicate Grants(s: State, task: nat, via: HandleId, right: nat) {
    task != KERNEL && LiveIn(s, task, via) && right in ItemIn(s, task, via).cap.rights
  }

  predicate GrantsPort(s: State, task: nat, via: HandleId) {
    Grants(s, task, via, WRITE) && PortAt(ItemIn(s, task, via).cap.target).Some?
  }

  function PortVia(s: State, task: nat, via: HandleId): nat
    requires GrantsPort(s, task, via)
  {
    PortAt(ItemIn(s, task, via).cap.target).value
  }

  function Keyed(bonds: set<Bond>, p: nat, key: nat): set<Bond> { set b | b in bonds && b.port == p && b.key == key }

  function BondsOf(bonds: set<Bond>, p: nat): set<Bond> { set b | b in bonds && b.port == p }

  function Loosen(ps: Ports, off: set<Bond>): Ports { ps.(bonds := ps.bonds - off, loose := ps.loose + off) }

  function Calls(ps: Ports, c: nat, call: Call): Ports { ps.(calls := ps.calls[c := call]) }

  ghost predicate MayEnd(w: World, p: nat) {
    p in w.ps.made && p !in w.ps.dead && !Handled(w.s, PortNumber(p)) && !Pinned(w.ps, PortNumber(p))
  }

  ghost function PortStep(w: World, op: Op): Ports {
    var s, ps := w.s, w.ps;
    match op
    case Hold(c, task, via) =>
      if c !in ps.calls && task != KERNEL && LiveIn(s, task, via)
      then Calls(ps, c, Holding(ItemIn(s, task, via).cap.target)) else ps
    case BindPort(c, task, via) =>
      if c !in ps.calls && GrantsPort(s, task, via) then Calls(ps, c, Binding(task, PortVia(s, task, via), None))
          else ps
    case BindObject(c, via) =>
      if c in ps.calls && ps.calls[c].Binding? && ps.calls[c].watched.None? && Grants(s, ps.calls[c].task, via, WAIT)
      then Calls(ps, c, ps.calls[c].(watched := Some(ItemIn(s, ps.calls[c].task, via).cap.target))) else ps
    case BindEnd(c, key) =>
      if c in ps.calls && ps.calls[c].Binding? && ps.calls[c].watched.Some?
      then Bound(ps, c, key) else ps
    case UnbindPort(c, task, via, key) =>
      if c !in ps.calls && GrantsPort(s, task, via) then Calls(ps, c, Unbinding(PortVia(s, task, via), key)) else ps
    case UnbindEnd(c) => if c in ps.calls && ps.calls[c].Unbinding? then Unbound(ps, c) else ps
    case Return(c) =>
      if c in ps.calls && !ps.calls[c].Unbinding? then ps.(calls := ps.calls - {c}) else ps
    case Unhook(b) => ps.(loose := ps.loose - {b})
    case EndPort(p) =>
      if MayEnd(w, p) then Loosen(ps, BondsOf(ps.bonds, p)).(dead := ps.dead + {p}) else ps
  }

  function Bound(ps: Ports, c: nat, key: nat): Ports
    requires c in ps.calls && ps.calls[c].Binding? && ps.calls[c].watched.Some?
  {
    var call := ps.calls[c];
    Calls(ps.(bonds := ps.bonds + {Bond(call.port, key, call.watched.value)}), c, Holding(PortNumber(call.port)))
  }

  function Unbound(ps: Ports, c: nat): Ports
    requires c in ps.calls && ps.calls[c].Unbinding?
  {
    var call := ps.calls[c];
    Calls(Loosen(ps, Keyed(ps.bonds, call.port, call.key)), c, Holding(PortNumber(call.port)))
  }

  /** A port is made once, with its own rights, and nothing that is kept is destroyed. */
  ghost predicate Allowed(w: World, a: Action) {
    && (a.Mint? && PortAt(a.cap.target).Some? ==>
       PortAt(a.cap.target).value !in w.ps.made && a.cap.rights == PORT_RIGHTS)
    && (a.Destroy? ==> !Pinned(w.ps, NumberOf(a.end)))
  }

  predicate MakesPort(s: State, a: Action) {
    a.Mint? && MayMint(s, a.task, a.id, a.tag, a.cap) && PortAt(a.cap.target).Some?
  }

  ghost function Turn(w: World, a: Act): World {
    match a
    case Base(b) =>
      if !Allowed(w, b) then w
      else World(Step(w.s, b), if MakesPort(w.s, b)
      then w.ps.(made := w.ps.made + {PortAt(b.cap.target).value}) else w.ps)
    case Port(op) => World(w.s, PortStep(w, op))
  }

  ghost function Turns(w: World, acts: seq<Act>): World {
    if acts == [] then w else Turn(Turns(w, acts[..|acts| - 1]), acts[|acts| - 1])
  }

  function Start(): World { World(Initial(), NONE) }

  // ---------------------------------------------------------------- the runs are Escrow's

  /** A run with ports is a run of Escrow, with the steps of ports left out. */
  lemma {:induction false} RunsBelow(w: World, acts: seq<Act>) returns (below: seq<Action>)
    ensures Runs(w.s, below) == Turns(w, acts).s
  {
    below := [];
    if acts != [] {
      below := RunsBelow(w, acts[..|acts| - 1]);
      var v, a := Turns(w, acts[..|acts| - 1]), acts[|acts| - 1];
      if a.Base? && Allowed(v, a.a) {
        assert (below + [a.a])[..|below|] == below;
        below := below + [a.a];
      }
    }
  }

  function {:tailrecursion false} Lift(acts: seq<Action>): seq<Act> {
    if acts == [] then [] else Lift(acts[..|acts| - 1]) + [Base(acts[|acts| - 1])]
  }

  /** Steps that ports have no say in. */
  predicate Free(a: Action) { !a.Mint? && !a.Destroy? }

  /** Such steps are steps here too. */
  lemma {:induction false} LiftRuns(w: World, acts: seq<Action>)
    requires forall a | a in acts :: Free(a) || (!a.Mint? && w.ps == NONE)
    ensures Turns(w, Lift(acts)) == World(Runs(w.s, acts), w.ps)
  {
    if acts != [] {
      var fewer, a := acts[..|acts| - 1], acts[|acts| - 1];
      LiftRuns(w, fewer);
      assert a in acts && Lift(acts)[..|Lift(acts)| - 1] == Lift(fewer);
    }
  }

  lemma {:induction false} TurnsAppend(w: World, a: seq<Act>, b: seq<Act>)
    ensures Turns(w, a + b) == Turns(Turns(w, a), b)
    decreases |b|
  {
    if b == [] {
      assert a + b == a;
    } else {
      TurnsAppend(w, a, b[..|b| - 1]);
      assert (a + b)[..|a + b| - 1] == a + b[..|b| - 1];
    }
  }

  lemma TurnsOne(w: World, a: Act)
    ensures Turns(w, [a]) == Turn(w, a)
  {
    assert [a][..0] == [] && Turns(w, []) == w;
  }

  lemma TurnsTwo(w: World, a: Act, b: Act)
    ensures Turns(w, [a, b]) == Turn(Turn(w, a), b)
  {
    TurnsAppend(w, [a], [b]);
    TurnsOne(w, a);
    TurnsOne(Turn(w, a), b);
    assert [a] + [b] == [a, b];
  }

  // ---------------------------------------------------------------- what every step keeps

  /** An endpoint or a port is made and not destroyed. */
  predicate Standing(w: World, x: nat) {
    && (EndAt(x).Some? ==> EndAt(x).value.pair in w.s.cs.made && EndAt(x).value !in w.s.cs.dead)
    && (PortAt(x).Some? ==> PortAt(x).value in w.ps.made && PortAt(x).value !in w.ps.dead)
  }

  ghost predicate PinnedOk(w: World, x: nat) { Pinned(w.ps, x) ==> Standing(w, x) }

  /** A port's handle has a port's rights, and the port is there while the handle is. */
  ghost predicate TagOk(w: World, n: nat) {
    n in w.s.hs.place && n in w.s.hs.minted && PortAt(w.s.hs.minted[n].target).Some? ==>
      && w.s.hs.minted[n].rights == PORT_RIGHTS && PortAt(w.s.hs.minted[n].target).value in w.ps.made
      && (NotClosed(w.s, n) ==> PortAt(w.s.hs.minted[n].target).value !in w.ps.dead)
  }

  ghost predicate Whole(w: World) {
    && Inv(w.s) && w.ps.dead <= w.ps.made
    && (forall b | b in w.ps.bonds :: b.port in w.ps.made && b.port !in w.ps.dead)
    && (forall x: nat {:trigger PinnedOk(w, x)} :: PinnedOk(w, x))
    && (forall n: nat {:trigger TagOk(w, n)} :: TagOk(w, n))
  }

  lemma NumberIs(x: nat, e: End)
    requires EndAt(x) == Some(e)
    ensures x == NumberOf(e)
  {
  }

  lemma PortBack(p: nat)
    ensures PortAt(PortNumber(p)) == Some(p) && EndAt(PortNumber(p)).None?
  {
    assert PortNumber(p) % 4 == 2 && PortNumber(p) / 4 == p;
  }

  lemma EndsNoPort(e: End)
    ensures PortAt(NumberOf(e)).None?
  {
    assert NumberOf(e) % 4 == if e.side then 3 else 1;
  }

  /** Endpoints are made and destroyed by the steps that say so. */
  lemma StepEnds(s: State, a: Action)
    ensures s.cs.made <= Step(s, a).cs.made
    ensures forall e | e in Step(s, a).cs.dead :: e in s.cs.dead || (a.Destroy? && e == a.end)
  {
    if a.Go? { GoEnds(s, a.thread, a.ok, a.id); }
  }

  lemma GoEnds(s: State, t: nat, ok: bool, id: HandleId)
    ensures SameEnds(s, Advance(s, t, ok, id))
  {
  }

  /** Only a new handle is made, and none that was closed is open again. */
  lemma StepTags(s: State, a: Action, n: nat)
    requires Inv(s) && n in Step(s, a).hs.place
    ensures var s' := Step(s, a);
      || (n in s.hs.place && n in s.hs.minted && n in s'.hs.minted && s'.hs.minted[n] == s.hs.minted[n]
          && (NotClosed(s', n) ==> NotClosed(s, n)))
      || (a.Mint? && MayMint(s, a.task, a.id, a.tag, a.cap) && n == a.tag && n in s'.hs.minted
          && s'.hs.minted[n] == a.cap)
      || (a.NewPair? && n in s'.hs.minted && PortAt(s'.hs.minted[n].target).None?)
  {
    if n in s.hs.place { StepMinted(s, a, n); }
    else if a.NewPair? { NewTags(s, a, n); }
    else { StepWithin(s, a); }
  }

  lemma NewTags(s: State, a: Action, n: nat)
    requires a.NewPair? && n !in s.hs.place && n in Step(s, a).hs.place
    ensures n in Step(s, a).hs.minted && PortAt(Step(s, a).hs.minted[n].target).None?
  {
    EndsNoPort(End(a.pair, false));
    EndsNoPort(End(a.pair, true));
  }

  lemma BaseKeeps(w: World, a: Action)
    requires Whole(w) && Allowed(w, a)
    ensures Whole(Turn(w, Base(a)))
  {
    var v := Turn(w, Base(a));
    StepKeeps(w.s, a);
    StepEnds(w.s, a);
    forall x: nat ensures PinnedOk(v, x) {
      assert PinnedOk(w, x);
      if EndAt(x).Some? { NumberIs(x, EndAt(x).value); }
    }
    forall n: nat ensures TagOk(v, n) {
      if n in v.s.hs.place {
        assert TagOk(w, n);
        StepTags(w.s, a, n);
      }
    }
  }

  /** A step of ports keeps the books if what it takes up stands and it ends nothing that is in use. */
  lemma PortsKeep(w: World, ps: Ports)
    requires Whole(w) && ps.made == w.ps.made && w.ps.dead <= ps.dead <= ps.made
    requires forall b | b in ps.bonds :: b.port in ps.made && b.port !in ps.dead
    requires forall x: nat | Pinned(ps, x) :: Pinned(w.ps, x) || Standing(w, x)
    requires forall p | p in ps.dead :: p in w.ps.dead || (!Handled(w.s, PortNumber(p)) && !Pinned(ps, PortNumber(p)))
    ensures Whole(World(w.s, ps))
  {
    var v := World(w.s, ps);
    forall x: nat ensures PinnedOk(v, x) {
      assert PinnedOk(w, x);
      if PortAt(x).Some? { assert PortNumber(PortAt(x).value) == x; }
    }
    forall n: nat ensures TagOk(v, n) {
      assert TagOk(w, n);
      if n in w.s.hs.minted && PortAt(w.s.hs.minted[n].target).Some? {
        assert PortNumber(PortAt(w.s.hs.minted[n].target).value) == w.s.hs.minted[n].target;
      }
    }
  }

  /** What a task has a handle to stands. */
  lemma LookedUp(w: World, task: nat, via: HandleId)
    requires Whole(w) && LiveIn(w.s, task, via)
    ensures Standing(w, ItemIn(w.s, task, via).cap.target)
    ensures PortAt(ItemIn(w.s, task, via).cap.target).Some? ==> ItemIn(w.s, task, via).cap.rights == PORT_RIGHTS
  {
    assert EntryOk(w.s, task, via) && TagOk(w, ItemIn(w.s, task, via).tag);
  }

  lemma CallKeeps(w: World, c: nat, call: Call)
    requires Whole(w) && forall x: nat | Uses(call, x) :: Pinned(w.ps, x) || Standing(w, x)
    ensures Whole(World(w.s, Calls(w.ps, c, call)))
  {
    var ps := Calls(w.ps, c, call);
    forall x: nat | Pinned(ps, x) ensures Pinned(w.ps, x) || Standing(w, x) {
      if !(exists b :: b in ps.bonds + ps.loose && b.target == x) {
        var k :| k in ps.calls && Uses(ps.calls[k], x);
        if k != c { assert k in w.ps.calls && Uses(w.ps.calls[k], x); }
      } else {
        var b :| b in ps.bonds + ps.loose && b.target == x;
        assert b in w.ps.bonds + w.ps.loose;
      }
    }
    PortsKeep(w, ps);
  }

  /** What a call holds is kept. */
  lemma CallKeepsIt(ps: Ports, c: nat, x: nat)
    requires c in ps.calls && Uses(ps.calls[c], x)
    ensures Pinned(ps, x)
  {
  }

  lemma PortStandsBack(w: World, p: nat)
    requires Whole(w) && Pinned(w.ps, PortNumber(p))
    ensures p in w.ps.made && p !in w.ps.dead
  {
    PortBack(p);
    assert PinnedOk(w, PortNumber(p));
  }

  lemma BoundKeeps(w: World, c: nat, key: nat)
    requires Whole(w) && c in w.ps.calls && w.ps.calls[c].Binding? && w.ps.calls[c].watched.Some?
    ensures Whole(World(w.s, Bound(w.ps, c, key)))
  {
    var ps, call := Bound(w.ps, c, key), w.ps.calls[c];
    CallKeepsIt(w.ps, c, PortNumber(call.port));
    CallKeepsIt(w.ps, c, call.watched.value);
    PortStandsBack(w, call.port);
    forall x: nat | Pinned(ps, x) ensures Pinned(w.ps, x) { BoundKept(w.ps, c, key, x); }
    PortsKeep(w, ps);
  }

  lemma BoundKept(ps: Ports, c: nat, key: nat, x: nat)
    requires c in ps.calls && ps.calls[c].Binding? && ps.calls[c].watched.Some? && Pinned(Bound(ps, c, key), x)
    ensures Pinned(ps, x)
  {
    var now, call := Bound(ps, c, key), ps.calls[c];
    if exists b :: b in now.bonds + now.loose && b.target == x {
      var b :| b in now.bonds + now.loose && b.target == x;
      if b !in ps.bonds + ps.loose { assert Uses(call, x); }
    } else {
      var k :| k in now.calls && Uses(now.calls[k], x);
      assert k in ps.calls && Uses(ps.calls[k], x);
    }
  }

  /** Taking bindings off their lists changes nothing about what is kept. */
  lemma LooseKept(ps: Ports, off: set<Bond>, x: nat)
    requires off <= ps.bonds
    ensures Pinned(Loosen(ps, off), x) <==> Pinned(ps, x)
  {
    assert ps.bonds - off + (ps.loose + off) == ps.bonds + ps.loose;
  }

  lemma UnboundKeeps(w: World, c: nat)
    requires Whole(w) && c in w.ps.calls && w.ps.calls[c].Unbinding?
    ensures Whole(World(w.s, Unbound(w.ps, c)))
  {
    var call := w.ps.calls[c];
    var off := Keyed(w.ps.bonds, call.port, call.key);
    var mid := World(w.s, Loosen(w.ps, off));
    forall x: nat | Pinned(mid.ps, x) ensures Pinned(w.ps, x) { LooseKept(w.ps, off, x); }
    PortsKeep(w, mid.ps);
    CallKeepsIt(mid.ps, c, PortNumber(call.port));
    CallKeeps(mid, c, Holding(PortNumber(call.port)));
  }

  lemma FewerKeep(w: World, ps: Ports)
    requires Whole(w) && ps.made == w.ps.made && ps.dead == w.ps.dead && ps.bonds == w.ps.bonds
    requires ps.loose <= w.ps.loose
    requires forall c | c in ps.calls :: c in w.ps.calls && ps.calls[c] == w.ps.calls[c]
    ensures Whole(World(w.s, ps))
  {
    forall x: nat | Pinned(ps, x) ensures Pinned(w.ps, x) {
      if exists b :: b in ps.bonds + ps.loose && b.target == x {
        var b :| b in ps.bonds + ps.loose && b.target == x;
        assert b in w.ps.bonds + w.ps.loose;
      }
    }
    PortsKeep(w, ps);
  }

  lemma EndKeeps(w: World, p: nat)
    requires Whole(w) && MayEnd(w, p)
    ensures Whole(Turn(w, Port(EndPort(p))))
  {
    var ps := PortStep(w, EndPort(p));
    forall x: nat ensures Pinned(ps, x) <==> Pinned(w.ps, x) { LooseKept(w.ps, BondsOf(w.ps.bonds, p), x); }
    PortsKeep(w, ps);
  }

  lemma OpKeeps(w: World, op: Op)
    requires Whole(w)
    ensures Whole(Turn(w, Port(op)))
  {
    var s, ps := w.s, w.ps;
    match op
    case Hold(c, task, via) => if c !in ps.calls && task != KERNEL && LiveIn(s, task, via) {
      LookedUp(w, task, via);
      CallKeeps(w, c, Holding(ItemIn(s, task, via).cap.target));
    }
    case BindPort(c, task, via) => if c !in ps.calls && GrantsPort(s, task, via) { FindKeeps(w, c, task, via, None); }
    case UnbindPort(c, task, via, key) =>
      if c !in ps.calls && GrantsPort(s, task, via) { FindKeeps(w, c, task, via, Some(key)); }
    case BindObject(c, via) => ObjectKeeps(w, c, via);
    case BindEnd(c, key) =>
      if c in ps.calls && ps.calls[c].Binding? && ps.calls[c].watched.Some? { BoundKeeps(w, c, key); }
    case UnbindEnd(c) => if c in ps.calls && ps.calls[c].Unbinding? { UnboundKeeps(w, c); }
    case Return(c) => if c in ps.calls && !ps.calls[c].Unbinding? { FewerKeep(w, PortStep(w, op)); }
    case Unhook(b) => FewerKeep(w, PortStep(w, op));
    case EndPort(p) => if MayEnd(w, p) { EndKeeps(w, p); }
  }

  lemma FindKeeps(w: World, c: nat, task: nat, via: HandleId, key: Option<nat>)
    requires Whole(w) && GrantsPort(w.s, task, via)
    ensures var p := PortVia(w.s, task, via);
      Whole(World(w.s, Calls(w.ps, c, if key.Some? then Unbinding(p, key.value) else Binding(task, p, None))))
  {
    var p := PortVia(w.s, task, via);
    LookedUp(w, task, via);
    assert PortNumber(p) == ItemIn(w.s, task, via).cap.target;
    CallKeeps(w, c, if key.Some? then Unbinding(p, key.value) else Binding(task, p, None));
  }

  lemma ObjectKeeps(w: World, c: nat, via: HandleId)
    requires Whole(w)
    ensures Whole(Turn(w, Port(BindObject(c, via))))
  {
    var ps := w.ps;
    if c in ps.calls && ps.calls[c].Binding? && ps.calls[c].watched.None? && Grants(w.s, ps.calls[c].task, via, WAIT) {
      LookedUp(w, ps.calls[c].task, via);
      CallKeepsIt(ps, c, PortNumber(ps.calls[c].port));
      CallKeeps(w, c, ps.calls[c].(watched := Some(ItemIn(w.s, ps.calls[c].task, via).cap.target)));
    }
  }

  /** Every step keeps it: nothing is destroyed that a handle, a binding or a call refers to. */
  lemma TurnKeeps(w: World, a: Act)
    requires Whole(w)
    ensures Whole(Turn(w, a))
  {
    match a
    case Base(b) => if Allowed(w, b) { BaseKeeps(w, b); }
    case Port(op) => OpKeeps(w, op);
  }

  lemma {:induction false} TurnsKeep(w: World, acts: seq<Act>)
    requires Whole(w)
    ensures Whole(Turns(w, acts))
  {
    if acts != [] {
      TurnsKeep(w, acts[..|acts| - 1]);
      TurnKeeps(Turns(w, acts[..|acts| - 1]), acts[|acts| - 1]);
    }
  }

  lemma TurnsFromStart(acts: seq<Act>)
    ensures Whole(Turns(Start(), acts))
  {
    InitialKeeps();
    TurnsKeep(Start(), acts);
  }
}
