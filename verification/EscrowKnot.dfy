/** Handles that stay queued for ever: channels and ports that hold one another's last references. And what
    does go when a message dies. */
module EscrowKnot {

  import opened Basics
  import opened Escrow
  import opened EscrowTheorems
  import opened EscrowReach
  import opened EscrowReceive
  import opened EscrowWatch

  // ---------------------------------------------------------------- a knot stays tied

  /** A message on the queue carries a handle to the object. */
  ghost predicate Fetches(s: State, f: End, x: nat) {
    exists m: nat, id: HandleId :: m in ListOf(s.cs.inbound, f) && id in CargoOf(s.ms.cargo, m) && LiveIn(s, KERNEL, id)
        && ItemIn(s, KERNEL, id).cap.target == x
  }

  lemma LeadsBack(s: State, f: End, e: End)
    ensures Leads(s, f, e) <==> Fetches(s, f, NumberOf(e))
  {
    NumberBack(e);
    if Leads(s, f, e) {
      var m: nat, id: HandleId :| m in ListOf(s.cs.inbound, f) && id in CargoOf(s.ms.cargo, m)
          && Carried(s, id) == Some(e);
      NumberIs(ItemIn(s, KERNEL, id).cap.target, e);
    }
    if Fetches(s, f, NumberOf(e)) {
      var m: nat, id: HandleId :| m in ListOf(s.cs.inbound, f) && id in CargoOf(s.ms.cargo, m) && LiveIn(s, KERNEL, id)
          && ItemIn(s, KERNEL, id).cap.target == NumberOf(e);
      assert Carried(s, id) == Some(e);
    }
  }

  /** Of a queue that nobody can read one end is in the knot, so that the queue is not torn down. */
  predicate Ties(u: iset<End>, z: iset<End>, f: End) { f in u && (f in z || Peer(f) in z) }

  /** The binding is not about to be taken off its port. */
  ghost predicate Firm(ps: Ports, b: Bond) {
    b in ps.bonds && forall c | c in ps.calls :: ps.calls[c] != Unbinding(b.port, b.key)
  }

  /** The object's handle waits in a queue that the knot keeps, or a port of the knot watches it. */
  ghost predicate Tied(w: World, u: iset<End>, z: iset<End>, v: iset<nat>, x: nat) {
    || (exists f: End :: Ties(u, z, f) && Fetches(w.s, f, x))
    || (exists b: Bond :: Firm(w.ps, b) && b.port in v && b.target == x)
  }

  /** The handles there are, or were, to these ports. */
  ghost function PortTags(s: State, v: iset<nat>): iset<nat> {
    iset n: nat | n in s.hs.place && n in s.hs.minted && PortAt(s.hs.minted[n].target).Some?
                  && PortAt(s.hs.minted[n].target).value in v
  }

  /** Nobody has or will have the endpoints of u or a handle to the ports of v, and each endpoint of z and
      port of v is kept by others of them. */
  ghost predicate Knot(w: World, u: iset<End>, z: iset<End>, v: iset<nat>) {
    && Sealed(w.s, u, PortTags(w.s, v))
    && (forall e: End {:trigger NumberOf(e)} | e in z :: Tied(w, u, z, v, NumberOf(e)))
    && (forall p: nat {:trigger PortNumber(p)} | p in v :: Tied(w, u, z, v, PortNumber(p)))
  }

  /** No task has the endpoint, so nobody can begin to receive on it, and its queue is not being torn down. */
  ghost predicate Unread(s: State, f: End) { !InTable(s, f) && !(f in s.cs.dead && Peer(f) in s.cs.dead) }

  /** What waits on a queue stays there, with what it carries, through any step, unless somebody holds the
      queue's endpoint or both endpoints are destroyed. */
  lemma WaitsThrough(s: State, a: Action, f: End, m: nat)
    requires Inv(s) && m in ListOf(s.cs.inbound, f) && Unread(s, f)
    ensures m in ListOf(Step(s, a).cs.inbound, f) && SameCarried(s, Step(s, a), m)
  {
    assert QueueOk(s, f) && MessageOk(s, m);
    if a.Go? { WaitsThroughGo(s, a.thread, a.ok, a.id, f, m); }
    else if a.Bury? { BuryLeaves(s, a.msg, f, m); }
    else if a.Receive? { ReadLeaves(s, a, f, m); }
    else {
      KernelLeft(s, a);
      assert a.Discard? && a.end in s.cs.dead && Peer(a.end) in s.cs.dead ==> a.end != f;
    }
  }

  lemma ReadLeaves(s: State, a: Action, f: End, m: nat)
    requires a.Receive? && MessageOk(s, m) && m in ListOf(s.cs.inbound, f) && Unread(s, f)
    ensures m in ListOf(Step(s, a).cs.inbound, f) && SameCarried(s, Step(s, a), m)
  {
    if PcOf(s.pc, a.thread).Idle? && Holds(s, a.task, a.via, {READ}) { assert ViaEnd(s, a.task, a.via, {READ}) != f; }
  }

  /** Only threads and burials change the kernel's table and what messages name. */
  lemma KernelLeft(s: State, a: Action)
    requires !a.Go? && !a.Bury? && !a.Receive?
    ensures TabOf(Step(s, a).hs.tabs, KERNEL) == TabOf(s.hs.tabs, KERNEL) && Step(s, a).ms.cargo == s.ms.cargo
    ensures !a.Discard? ==> Step(s, a).cs.inbound == s.cs.inbound
  {
  }

  lemma BuryLeaves(s: State, n: nat, f: End, m: nat)
    requires Inv(s) && MessageOk(s, m) && m in ListOf(s.cs.inbound, f) && StageOf(s.ms.stage, m).Queued?
    ensures var s' := BuryNext(s, n); s'.cs == s.cs && SameCarried(s, s', m)
  {
    if StageOf(s.ms.stage, n).Dying? && CargoOf(s.ms.cargo, n) != [] {
      assert MessageOk(s, n) && CargoOf(s.ms.cargo, n)[0] in CargoOf(s.ms.cargo, n);
    }
  }

  /** The next block of a thread leaves the messages of queues alone. */
  lemma WaitsThroughGo(s: State, t: nat, ok: bool, id: HandleId, f: End, m: nat)
    requires Inv(s) && m in ListOf(s.cs.inbound, f) && QueueOk(s, f) && MessageOk(s, m)
    ensures var s' := Advance(s, t, ok, id); m in ListOf(s'.cs.inbound, f) && SameCarried(s, s', m)
  {
    var pc := PcOf(s.pc, t);
    assert ThreadOk(s, t);
    if pc.Unpacking? { UnpackLeaves(s, t, m); }
    else if pc.Moving? && ok && NewIn(s, KERNEL, id) { StowLeaves(s, t, id, m); }
    else { LeavesKernel(s, t, ok, id, f, m); }
  }

  lemma UnpackLeaves(s: State, t: nat, m: nat)
    requires Inv(s) && MessageOk(s, m) && PcOf(s.pc, t).Unpacking? && PcOf(s.pc, t).msg != m
    ensures var s' := UnpackNext(s, t); s'.cs == s.cs && SameCarried(s, s', m)
  {
    var n := PcOf(s.pc, t).msg;
    if CargoOf(s.ms.cargo, n) != [] { assert MessageOk(s, n) && CargoOf(s.ms.cargo, n)[0] in CargoOf(s.ms.cargo, n); }
  }

  lemma StowLeaves(s: State, t: nat, id: HandleId, m: nat)
    requires Inv(s) && MessageOk(s, m) && PcOf(s.pc, t).Moving? && PcOf(s.pc, t).msg != m && NewIn(s, KERNEL, id)
    ensures SameCarried(s, Stowed(s, t, id), m)
  {
    assert EntryOk(s, KERNEL, id);
  }

  lemma LeavesKernel(s: State, t: nat, ok: bool, id: HandleId, f: End, m: nat)
    requires ThreadOk(s, t) && MessageOk(s, m) && m in ListOf(s.cs.inbound, f)
    requires var pc := PcOf(s.pc, t); !pc.Unpacking? && !(pc.Moving? && ok && NewIn(s, KERNEL, id))
    ensures var s' := Advance(s, t, ok, id); m in ListOf(s'.cs.inbound, f) && SameCarried(s, s', m)
  {
    var s', pc := Advance(s, t, ok, id), PcOf(s.pc, t);
    if pc.Staging? && pc.todo != [] { TakeLeaves(s, t); }
    else {
      assert s'.ms.cargo == s.ms.cargo && TabOf(s'.hs.tabs, KERNEL).live == TabOf(s.hs.tabs, KERNEL).live;
    }
  }

  lemma TakeLeaves(s: State, t: nat)
    requires ThreadOk(s, t) && PcOf(s.pc, t).Staging? && PcOf(s.pc, t).todo != []
    ensures var s' := TakeNext(s, t);
      s'.cs == s.cs && s'.ms.cargo == s.ms.cargo && TabOf(s'.hs.tabs, KERNEL) == TabOf(s.hs.tabs, KERNEL)
  {
  }

  lemma SealedAway(s: State, u: iset<End>, g: iset<nat>, t: nat, d: HandleId)
    requires Sealed(s, u, g) && LiveIn(s, t, d) && Marked(u, g, ItemIn(s, t, d))
    ensures t == KERNEL
  {
    assert SealedAt(s, u, g, t, d);
  }

  lemma SealedUnheld(s: State, u: iset<End>, g: iset<nat>, e: End)
    requires Sealed(s, u, g) && e in u
    ensures !InTable(s, e)
  {
    if InTable(s, e) {
      var t: nat, d: HandleId :| t != KERNEL && LiveIn(s, t, d) && EndAt(ItemIn(s, t, d).cap.target) == Some(e);
      SealedAway(s, u, g, t, d);
    }
  }

  /** What is tied is referred to, and so it stands. */
  lemma TiedStands(w: World, u: iset<End>, z: iset<End>, v: iset<nat>, x: nat)
    requires Whole(w) && Tied(w, u, z, v, x)
    ensures Standing(w, x) && (Handled(w.s, x) || Pinned(w.ps, x))
  {
    if exists f: End :: Ties(u, z, f) && Fetches(w.s, f, x) {
      var f: End :| Ties(u, z, f) && Fetches(w.s, f, x);
      var m: nat, id: HandleId :| m in ListOf(w.s.cs.inbound, f) && id in CargoOf(w.s.ms.cargo, m)
          && LiveIn(w.s, KERNEL, id) && ItemIn(w.s, KERNEL, id).cap.target == x;
      LookedUp(w, KERNEL, id);
      assert EntryOk(w.s, KERNEL, id) && NotClosed(w.s, ItemIn(w.s, KERNEL, id).tag);
    } else {
      var b: Bond :| Firm(w.ps, b) && b.port in v && b.target == x;
      assert b in w.ps.bonds + w.ps.loose && PinnedOk(w, x);
    }
  }

  lemma KnotAlive(w: World, u: iset<End>, z: iset<End>, v: iset<nat>, e: End)
    requires Whole(w) && Knot(w, u, z, v) && e in z
    ensures e !in w.s.cs.dead
  {
    NumberBack(e);
    TiedStands(w, u, z, v, NumberOf(e));
  }

  lemma PortAlive(w: World, u: iset<End>, z: iset<End>, v: iset<nat>, p: nat)
    requires Whole(w) && Knot(w, u, z, v) && p in v
    ensures p in w.ps.made && p !in w.ps.dead && !MayEnd(w, p)
  {
    PortBack(p);
    TiedStands(w, u, z, v, PortNumber(p));
  }

  lemma TiedUnread(w: World, u: iset<End>, z: iset<End>, v: iset<nat>, f: End)
    requires Whole(w) && Knot(w, u, z, v) && Ties(u, z, f)
    ensures Unread(w.s, f)
  {
    SealedUnheld(w.s, u, PortTags(w.s, v), f);
    if f in z { KnotAlive(w, u, z, v, f); } else { KnotAlive(w, u, z, v, Peer(f)); }
  }

  /** What a queue carries it goes on carrying, while nobody can read it and it is not torn down. */
  lemma FetchesOn(s: State, a: Action, f: End, x: nat)
    requires Inv(s) && Fetches(s, f, x) && Unread(s, f)
    ensures Fetches(Step(s, a), f, x)
  {
    var m: nat, id: HandleId :| m in ListOf(s.cs.inbound, f) && id in CargoOf(s.ms.cargo, m) && LiveIn(s, KERNEL, id)
        && ItemIn(s, KERNEL, id).cap.target == x;
    WaitsThrough(s, a, f, m);
    assert m in ListOf(Step(s, a).cs.inbound, f) && id in CargoOf(Step(s, a).ms.cargo, m);
  }

  /** Ports that are made get no further handles. */
  lemma TagsStay(w: World, a: Action, v: iset<nat>)
    requires Whole(w) && Allowed(w, a) && forall p: nat | p in v :: p in w.ps.made
    ensures PortTags(Step(w.s, a), v) == PortTags(w.s, v)
  {
    var s, s' := w.s, Step(w.s, a);
    forall n: nat ensures n in PortTags(s', v) <==> n in PortTags(s, v) {
      if n in s.hs.place { StepMinted(s, a, n); }
      if n in s'.hs.place { StepTags(s, a, n); }
    }
  }

  lemma BaseKnot(w: World, a: Action, u: iset<End>, z: iset<End>, v: iset<nat>)
    requires Whole(w) && Knot(w, u, z, v) && Allowed(w, a)
    ensures Knot(Turn(w, Base(a)), u, z, v)
  {
    var w' := Turn(w, Base(a));
    forall p: nat | p in v ensures p in w.ps.made { PortAlive(w, u, z, v, p); }
    TagsStay(w, a, v);
    StepSealed(w.s, a, u, PortTags(w.s, v));
    forall x: nat | Tied(w, u, z, v, x) ensures Tied(w', u, z, v, x) {
      if exists f: End :: Ties(u, z, f) && Fetches(w.s, f, x) {
        var f: End :| Ties(u, z, f) && Fetches(w.s, f, x);
        TiedUnread(w, u, z, v, f);
        FetchesOn(w.s, a, f, x);
      } else {
        var b: Bond :| Firm(w.ps, b) && b.port in v && b.target == x;
        assert Firm(w'.ps, b);
      }
    }
  }

  /** A port nobody can come by is not unbound, and one that is kept does not end. */
  lemma FirmStays(w: World, op: Op, u: iset<End>, z: iset<End>, v: iset<nat>, b: Bond)
    requires Whole(w) && Knot(w, u, z, v) && Firm(w.ps, b) && b.port in v
    ensures Firm(PortStep(w, op), b)
  {
    if op.UnbindPort? && GrantsPort(w.s, op.task, op.via) { NotGranted(w, u, v, op.task, op.via); }
    if op.EndPort? { PortAlive(w, u, z, v, b.port); }
  }

  lemma NotGranted(w: World, u: iset<End>, v: iset<nat>, task: nat, via: HandleId)
    requires Whole(w) && Sealed(w.s, u, PortTags(w.s, v)) && GrantsPort(w.s, task, via)
    ensures PortVia(w.s, task, via) !in v
  {
    assert EntryOk(w.s, task, via) && SealedAt(w.s, u, PortTags(w.s, v), task, via);
  }

  lemma OpKnot(w: World, op: Op, u: iset<End>, z: iset<End>, v: iset<nat>)
    requires Whole(w) && Knot(w, u, z, v)
    ensures Knot(Turn(w, Port(op)), u, z, v)
  {
    var w' := Turn(w, Port(op));
    forall x: nat | Tied(w, u, z, v, x) ensures Tied(w', u, z, v, x) {
      if !(exists f: End :: Ties(u, z, f) && Fetches(w.s, f, x)) {
        var b: Bond :| Firm(w.ps, b) && b.port in v && b.target == x;
        FirmStays(w, op, u, z, v, b);
      }
    }
  }

  lemma TurnKnot(w: World, a: Act, u: iset<End>, z: iset<End>, v: iset<nat>)
    requires Whole(w) && Knot(w, u, z, v)
    ensures Knot(Turn(w, a), u, z, v)
  {
    match a
    case Base(b) => if Allowed(w, b) { BaseKnot(w, b, u, z, v); }
    case Port(op) => OpKnot(w, op, u, z, v);
  }

  /** Whatever anybody does, a knot stays tied: its endpoints and ports are kept and never destroyed. */
  lemma {:induction false} KnotForEver(w: World, acts: seq<Act>, u: iset<End>, z: iset<End>, v: iset<nat>)
    requires Whole(w) && Knot(w, u, z, v)
    ensures var w' := Turns(w, acts);
      && Knot(w', u, z, v) && (forall e: End | e in z :: e !in w'.s.cs.dead)
      && forall p: nat | p in v :: p in w'.ps.made && p !in w'.ps.dead
  {
    if acts != [] {
      KnotForEver(w, acts[..|acts| - 1], u, z, v);
      TurnsKeep(w, acts[..|acts| - 1]);
      TurnKnot(Turns(w, acts[..|acts| - 1]), acts[|acts| - 1], u, z, v);
    }
    TurnsKeep(w, acts);
    forall e: End | e in z ensures e !in Turns(w, acts).s.cs.dead { KnotAlive(Turns(w, acts), u, z, v, e); }
    forall p: nat | p in v ensures p in Turns(w, acts).ps.made && p !in Turns(w, acts).ps.dead {
      PortAlive(Turns(w, acts), u, z, v, p);
    }
  }

  /** And so does every message on a queue that the knot keeps. */
  lemma {:induction false} KeptForEver(w: World, acts: seq<Act>, u: iset<End>, z: iset<End>, v: iset<nat>, f: End,
                                       m: nat)
    requires Whole(w) && Knot(w, u, z, v) && Ties(u, z, f) && m in ListOf(w.s.cs.inbound, f)
    ensures m in ListOf(Turns(w, acts).s.cs.inbound, f) && SameCarried(w.s, Turns(w, acts).s, m)
  {
    if acts == [] {
      assert MessageOk(w.s, m);
    } else {
      var before, a := Turns(w, acts[..|acts| - 1]), acts[|acts| - 1];
      KeptForEver(w, acts[..|acts| - 1], u, z, v, f, m);
      KnotForEver(w, acts[..|acts| - 1], u, z, v);
      TurnsKeep(w, acts[..|acts| - 1]);
      TiedUnread(before, u, z, v, f);
      if a.Base? { WaitsThrough(before.s, a.a, f, m); }
    }
  }

  // ---------------------------------------------------------------- a message that dies

  function Burials(m: nat, k: nat): seq<Action> { if k == 0 then [] else Burials(m, k - 1) + [Bury(m)] }

  /** The first k of its handles are closed and out of the kernel's table; nothing else has moved. */
  ghost predicate FirstClosed(s: State, s': State, m: nat, k: nat) {
    var c := CargoOf(s.ms.cargo, m);
    && k <= |c| && s'.pc == s.pc && s'.cs == s.cs && s'.ms == s.ms.(cargo := s'.ms.cargo)
    && CargoOf(s'.ms.cargo, m) == c[k..]
    && (forall n: nat | n != m :: CargoOf(s'.ms.cargo, n) == CargoOf(s.ms.cargo, n))
    && (forall i | 0 <= i < k :: ClosedNow(s, s', c[i]))
    && (forall t: nat, id: HandleId | LiveIn(s, t, id) && !(t == KERNEL && id in c[..k]) ::
       LiveIn(s', t, id) && ItemIn(s', t, id) == ItemIn(s, t, id))
  }

  ghost predicate ClosedNow(s: State, s': State, id: HandleId) {
    LiveIn(s, KERNEL, id) && !LiveIn(s', KERNEL, id) && var g := ItemIn(s, KERNEL, id).tag;
        g in s'.hs.place && s'.hs.place[g] == Closed
  }

  /** Taking a dead message apart closes its handles, first to last, and disturbs nothing else. */
  lemma {:induction false} Buried(s: State, m: nat, k: nat)
    requires Inv(s) && StageOf(s.ms.stage, m).Dying? && k <= |CargoOf(s.ms.cargo, m)|
    ensures FirstClosed(s, Runs(s, Burials(m, k)), m, k)
  {
    if k == 0 {
      NoneBuried(s, m);
    } else {
      Buried(s, m, k - 1);
      OneMoreBuried(s, m, k);
    }
  }

  lemma OneMoreBuried(s: State, m: nat, k: nat)
    requires Inv(s) && StageOf(s.ms.stage, m).Dying? && 0 < k <= |CargoOf(s.ms.cargo, m)|
    requires FirstClosed(s, Runs(s, Burials(m, k - 1)), m, k - 1)
    ensures FirstClosed(s, Runs(s, Burials(m, k)), m, k)
  {
    var s1 := Runs(s, Burials(m, k - 1));
    assert FirstClosed(s, BuryNext(s1, m), m, k) by {
      RunsKeep(s, Burials(m, k - 1));
      BuriedNext(s, s1, m, k - 1);
    }
    BurialsGrow(s, m, k);
  }

  lemma NoneBuried(s: State, m: nat)
    requires Inv(s) && StageOf(s.ms.stage, m).Dying?
    ensures FirstClosed(s, Runs(s, Burials(m, 0)), m, 0)
  {
    assert MessageOk(s, m);
  }

  lemma BurialsGrow(s: State, m: nat, k: nat)
    requires k > 0
    ensures Runs(s, Burials(m, k)) == BuryNext(Runs(s, Burials(m, k - 1)), m)
  {
    Buries(s, Burials(m, k - 1), m);
  }

  lemma Buries(s: State, acts: seq<Action>, m: nat)
    ensures Runs(s, acts + [Bury(m)]) == BuryNext(Runs(s, acts), m)
  {
    assert (acts + [Bury(m)])[..|acts|] == acts;
  }

  lemma BuriedNext(s: State, s1: State, m: nat, k: nat)
    requires Inv(s) && Inv(s1) && StageOf(s.ms.stage, m).Dying? && k < |CargoOf(s.ms.cargo, m)|
    requires FirstClosed(s, s1, m, k)
    ensures FirstClosed(s, BuryNext(s1, m), m, k + 1)
  {
    var c, s' := CargoOf(s.ms.cargo, m), BuryNext(s1, m);
    assert MessageOk(s, m) && c[k..][0] == c[k] && c[k] in c && c[k..][1..] == c[k + 1..];
    assert c[k] !in c[..k] && LiveIn(s1, KERNEL, c[k]);
    forall i | 0 <= i < k + 1 ensures ClosedNow(s, s', c[i]) { NowClosed(s, s1, m, k, i); }
    assert c[..k + 1] == c[..k] + [c[k]];
  }

  lemma NowClosed(s: State, s1: State, m: nat, k: nat, i: nat)
    requires Inv(s) && StageOf(s.ms.stage, m).Dying? && i <= k < |CargoOf(s.ms.cargo, m)| && FirstClosed(s, s1, m, k)
    requires LiveIn(s1, KERNEL, CargoOf(s.ms.cargo, m)[k])
    requires forall j | 0 <= j < k :: CargoOf(s.ms.cargo, m)[j] != CargoOf(s.ms.cargo, m)[k]
    ensures ClosedNow(s, BuryNext(s1, m), CargoOf(s.ms.cargo, m)[i])
  {
    var c := CargoOf(s.ms.cargo, m);
    assert MessageOk(s, m) && c[k..][0] == c[k] && c[k] in c && c[k] !in c[..k];
    if i < k { assert ClosedNow(s, s1, c[i]); } else { assert EntryOk(s, KERNEL, c[k]); }
  }
}
