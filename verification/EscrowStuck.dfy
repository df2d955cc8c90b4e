/** When a queued handle stays queued for ever: exactly when its queue is out of reach and a knot of queues
    and ports keeps it. Anything else can be received, or closed, by some run. */
module EscrowStuck {

  import opened Basics
  import opened Escrow
  import opened EscrowTheorems
  import opened EscrowReach
  import opened EscrowReceive
  import opened EscrowWatch
  import opened EscrowKnot

  ghost predicate Stuck(w: World, g: End) {
    exists z: iset<End>, v: iset<nat> :: Knot(w, Unreachable(w.s), z, v) && Ties(Unreachable(w.s), z, g)
  }

  /** The handle is in the kernel's table. */
  ghost predicate Escrowed(s: State, n: nat) {
    n in s.hs.place && s.hs.place[n].At? && s.hs.place[n].table == KERNEL
  }

  lemma SealAll(s: State, g: End)
    requires Inv(s) && g in Unreachable(s)
    ensures Sealed(s, Unreachable(s), iset{})
  {
    var z, tags := Unreachable(s), TagsOn(s, g);
    SealStarts(s, g);
    forall t: nat, id: HandleId ensures SealedAt(s, z, iset{}, t, id) { assert SealedAt(s, z, tags, t, id); }
    forall t: nat ensures HandClear(s, z, iset{}, t) { assert HandClear(s, z, tags, t); }
  }

  /** What is stuck is never received and never closed. */
  lemma StuckStays(w: World, g: End, m: nat, id: HandleId, acts: seq<Act>)
    requires Whole(w) && Stuck(w, g) && m in ListOf(w.s.cs.inbound, g) && id in CargoOf(w.s.ms.cargo, m)
    requires LiveIn(w.s, KERNEL, id)
    ensures Escrowed(Turns(w, acts).s, ItemIn(w.s, KERNEL, id).tag)
  {
    var z: iset<End>, v: iset<nat> :| Knot(w, Unreachable(w.s), z, v) && Ties(Unreachable(w.s), z, g);
    KeptForEver(w, acts, Unreachable(w.s), z, v, g, m);
    TurnsKeep(w, acts);
    assert EntryOk(Turns(w, acts).s, KERNEL, id);
  }

  // ---------------------------------------------------------------- handles nobody can come by

  /** The handle is closed, or in a message that is dying or on or on its way to a queue of u. */
  ghost predicate Lost(s: State, u: iset<End>, n: nat) {
    n in s.hs.place ==>
      match s.hs.place[n]
      case Closed => true
      case At(t, id) => t == KERNEL && Inside(s, u, id)
      case InHand(t) => Sending(PcOf(s.pc, t)) && Peer(PcOf(s.pc, t).end) in u
  }

  lemma LostIfSealed(s: State, u: iset<End>, g: iset<nat>, n: nat)
    requires Inv(s) && Sealed(s, u, g) && n in g
    ensures Lost(s, u, n)
  {
    assert PlaceOk(s, n);
    match s.hs.place[n]
    case Closed =>
    case At(t, id) => assert SealedAt(s, u, g, t, id);
    case InHand(t) => assert HandClear(s, u, g, t);
  }

  lemma SealedIfLost(s: State, u: iset<End>, g: iset<nat>)
    requires Inv(s) && Sealed(s, u, iset{}) && forall n: nat | n in g :: n in s.hs.place && Lost(s, u, n)
    ensures Sealed(s, u, g)
  {
    forall t: nat, id: HandleId ensures SealedAt(s, u, g, t, id) {
      assert SealedAt(s, u, iset{}, t, id) && EntryOk(s, t, id);
    }
    forall t: nat ensures HandClear(s, u, g, t) { assert HandClear(s, u, iset{}, t) && ThreadOk(s, t); }
  }

  // ---------------------------------------------------------------- what is out of reach stays so

  ghost predicate ReachKept(s: State, s1: State) {
    && (forall e: End | InReach(s, e) :: Reach(s1, e))
    && forall e: End, f: End | Leads(s, e, f) && Reach(s1, e) :: Reach(s1, f)
  }

  lemma {:induction false} AlongPath(s: State, s1: State, p: seq<End>, i: nat)
    requires ReachKept(s, s1) && Path(s, p, false) && i < |p|
    ensures Reach(s1, p[i])
  {
    if i > 0 {
      AlongPath(s, s1, p, i - 1);
      assert Edge(s, p[i - 1], p[i - 1 + 1], false);
    }
  }

  lemma ReachStays(s: State, s1: State, f: End)
    requires ReachKept(s, s1) && Reach(s, f)
    ensures Reach(s1, f)
  {
    var p :| Path(s, p, false) && p[|p| - 1] == f;
    AlongPath(s, s1, p, |p| - 1);
  }

  /** Nothing is carried that was not, and no queue that is left has gone out of reach. */
  ghost predicate Tamer(s: State, s1: State) {
    && (forall f: End, x: nat | Fetches(s1, f, x) :: Fetches(s, f, x))
    && forall f: End | ListOf(s1.cs.inbound, f) != [] && Reach(s, f) :: Reach(s1, f)
  }

  /** The handle is to a port that has bindings. */
  ghost predicate ToBusyPort(w: World, n: nat) {
    n in w.s.hs.minted && exists b :: b in w.ps.bonds && PortAt(w.s.hs.minted[n].target) == Some(b.port)
  }

  /** No handle is new, and a port with bindings whose handle nobody can come by was out of hand before. */
  ghost predicate NoneLost(w: World, w1: World) {
    && (forall n: nat | n in w.s.hs.place ::
       n in w1.s.hs.place && n in w.s.hs.minted && n in w1.s.hs.minted && w1.s.hs.minted[n] == w.s.hs.minted[n])
    && (forall n: nat | n in w.s.hs.place && ToBusyPort(w1, n) && Lost(w1.s, Unreachable(w1.s), n) ::
       Lost(w.s, Unreachable(w.s), n))
    && forall b | Firm(w1.ps, b) :: Firm(w.ps, b)
  }

  lemma SameReach(s: State, s1: State, f: End)
    requires Calm(s) && Calm(s1) && Tamer(s, s1) && s1.cs.made == s.cs.made && f in Unreachable(s1)
    requires ListOf(s1.cs.inbound, f) != []
    ensures f in Unreachable(s)
  {
    CalmReach(s, f);
    CalmReach(s1, f);
  }

  /** The ports of a knot that have bindings were as hard to come by before. */
  lemma LostBefore(w: World, w1: World, v: iset<nat>, v': iset<nat>)
    requires Whole(w) && Whole(w1) && NoneLost(w, w1) && Sealed(w1.s, Unreachable(w1.s), PortTags(w1.s, v))
    requires Sealed(w.s, Unreachable(w.s), iset{})
    requires v' == iset p: nat | p in v && exists b :: b in w1.ps.bonds && b.port == p
    ensures Sealed(w.s, Unreachable(w.s), PortTags(w.s, v'))
  {
    forall n: nat | n in PortTags(w.s, v') ensures n in w.s.hs.place && Lost(w.s, Unreachable(w.s), n) {
      assert n in PortTags(w1.s, v) && ToBusyPort(w1, n);
      LostIfSealed(w1.s, Unreachable(w1.s), PortTags(w1.s, v), n);
    }
    SealedIfLost(w.s, Unreachable(w.s), PortTags(w.s, v'));
  }

  lemma TiedBefore(w: World, w1: World, z: iset<End>, v: iset<nat>, v': iset<nat>, x: nat)
    requires Calm(w.s) && Calm(w1.s) && Tamer(w.s, w1.s) && NoneLost(w, w1) && w1.s.cs.made == w.s.cs.made
    requires Tied(w1, Unreachable(w1.s), z, v, x)
    requires v' == iset p: nat | p in v && exists b :: b in w1.ps.bonds && b.port == p
    ensures Tied(w, Unreachable(w.s), z, v', x)
  {
    var u, u1 := Unreachable(w.s), Unreachable(w1.s);
    if exists f: End :: Ties(u1, z, f) && Fetches(w1.s, f, x) {
      var f: End :| Ties(u1, z, f) && Fetches(w1.s, f, x);
      assert ListOf(w1.s.cs.inbound, f) != [];
      SameReach(w.s, w1.s, f);
      assert Ties(u, z, f) && Fetches(w.s, f, x);
    } else {
      var b: Bond :| Firm(w1.ps, b) && b.port in v && b.target == x;
      assert b.port in v' && Firm(w.ps, b);
    }
  }

  lemma StuckBefore(w: World, w1: World, g: End)
    requires Whole(w) && Whole(w1) && Calm(w.s) && Calm(w1.s) && Tamer(w.s, w1.s) && NoneLost(w, w1)
    requires w1.s.cs.made == w.s.cs.made && ListOf(w1.s.cs.inbound, g) != []
    ensures Stuck(w1, g) ==> Stuck(w, g)
  {
    if Stuck(w1, g) {
      var u, u1 := Unreachable(w.s), Unreachable(w1.s);
      var z: iset<End>, v: iset<nat> :| Knot(w1, u1, z, v) && Ties(u1, z, g);
      var v' := iset p: nat | p in v && exists b :: b in w1.ps.bonds && b.port == p;
      SameReach(w.s, w1.s, g);
      SealAll(w.s, g);
      LostBefore(w, w1, v, v');
      forall e: End | e in z ensures Tied(w, u, z, v', NumberOf(e)) { TiedBefore(w, w1, z, v, v', NumberOf(e)); }
      forall p: nat | p in v' ensures Tied(w, u, z, v', PortNumber(p)) { TiedBefore(w, w1, z, v, v', PortNumber(p)); }
      assert Knot(w, u, z, v') && Ties(u, z, g);
    }
  }

  // ---------------------------------------------------------------- how much there is left to do

  /** Finite sets with all the handles, messages, busy threads and endpoints of a state. */
  datatype Bounds = Bounds(tags: set<nat>, msgs: set<nat>, threads: set<nat>, ends: set<End>)

  ghost predicate Within(s: State, b: Bounds) {
    && (forall n: nat | n in s.hs.place :: n in b.tags)
    && (forall m: nat | !StageOf(s.ms.stage, m).Unused? :: m in b.msgs)
    && (forall t: nat | !PcOf(s.pc, t).Idle? :: t in b.threads)
    && (forall e: End | e.pair in s.cs.made :: e in b.ends)
  }

  ghost function Busy(s: State, b: Bounds): set<nat> { set t | t in b.threads && !PcOf(s.pc, t).Idle? }

  ghost function Waiting(s: State, b: Bounds): set<nat> { set m | m in b.msgs && StageOf(s.ms.stage, m).Queued? }

  ghost function Open(s: State, b: Bounds): set<nat> {
    set n | n in b.tags && n in s.hs.place && s.hs.place[n] != Closed
  }

  ghost function Alive(s: State, b: Bounds): set<End> { set e | e in b.ends && e !in s.cs.dead }

  function Running(ps: Ports): set<nat> { ps.made - ps.dead }

  /** Lexicographically less to do: threads, calls, queued messages and bindings come first, */
  ghost predicate LessFirst(w1: World, w: World, b: Bounds) {
    || Busy(w1.s, b) < Busy(w.s, b)
    || (Busy(w1.s, b) == Busy(w.s, b) && w1.ps.calls.Keys < w.ps.calls.Keys)
    || (Busy(w1.s, b) == Busy(w.s, b) && w1.ps.calls.Keys == w.ps.calls.Keys && Waiting(w1.s, b) < Waiting(w.s, b))
    || (SameSoFar(w1, w, b) && w1.ps.bonds < w.ps.bonds)
  }

  ghost predicate SameSoFar(w1: World, w: World, b: Bounds) {
    Busy(w1.s, b) == Busy(w.s, b) && w1.ps.calls.Keys == w.ps.calls.Keys && Waiting(w1.s, b) == Waiting(w.s, b)
  }

  /** then ports, loose bindings, handles and endpoints. */
  ghost predicate LessLast(w1: World, w: World, b: Bounds) {
    || Running(w1.ps) < Running(w.ps)
    || (Running(w1.ps) == Running(w.ps) && w1.ps.loose < w.ps.loose)
    || (Running(w1.ps) == Running(w.ps) && w1.ps.loose == w.ps.loose && (
          Open(w1.s, b) < Open(w.s, b) || (Open(w1.s, b) == Open(w.s, b) && Alive(w1.s, b) < Alive(w.s, b))))
  }

  ghost predicate Less(w1: World, w: World, b: Bounds) {
    LessFirst(w1, w, b) || (SameSoFar(w1, w, b) && w1.ps.bonds == w.ps.bonds && LessLast(w1, w, b))
  }

  /** The handle's message is still on its queue, no worse off than before. */
  ghost predicate Goes(w: World, w1: World, b: Bounds, g: End, m: nat) {
    && Whole(w1) && Calm(w1.s) && Within(w1.s, b) && m in ListOf(w1.s.cs.inbound, g) && SameCarried(w.s, w1.s, m)
    && (Stuck(w1, g) ==> Stuck(w, g))
  }

  ghost predicate AllIdle(s: State) { forall t: nat :: PcOf(s.pc, t).Idle? }

  // ---------------------------------------------------------------- a thread ends its receive

  lemma FinishTame(s: State, s1: State, t: nat, e: End)
    requires Inv(s) && Receiving(PcOf(s.pc, t)) && Resumed(s, s1, t) && InReach(s, e)
    requires var pc := PcOf(s.pc, t);
      && pc.task != KERNEL && (HandOf(pc).Some? ==> Arrived(s1, pc.task, HandOf(pc).value))
      && forall id | id in CargoOf(s.ms.cargo, pc.msg) ::
         LiveIn(s, KERNEL, id) && Arrived(s1, pc.task, ItemIn(s, KERNEL, id))
    ensures InReach(s1, e)
  {
    if InTable(s, e) {
      var v: nat, d: HandleId :| v != KERNEL && LiveIn(s, v, d) && EndAt(ItemIn(s, v, d).cap.target) == Some(e);
      assert LiveIn(s1, v, d);
    } else {
      var u: nat :| Brings(s, u, e);
      if u == t { BroughtHome(s, s1, t, e); }
      else {
        assert ThreadOk(s, u) && ThreadOk(s, t) && Aside(s, s1, PcOf(s.pc, u).msg);
        assert Brings(s1, u, e);
      }
    }
  }

  lemma BroughtHome(s: State, s1: State, t: nat, e: End)
    requires Brings(s, t, e) && PcOf(s.pc, t).task != KERNEL
    requires var pc := PcOf(s.pc, t);
      && (HandOf(pc).Some? ==> Arrived(s1, pc.task, HandOf(pc).value))
      && forall id | id in CargoOf(s.ms.cargo, pc.msg) ::
         LiveIn(s, KERNEL, id) && Arrived(s1, pc.task, ItemIn(s, KERNEL, id))
    ensures InTable(s1, e)
  {
    var pc := PcOf(s.pc, t);
    if HandOf(pc).Some? && EndAt(HandOf(pc).value.cap.target) == Some(e) {
      var d :| LiveIn(s1, pc.task, d) && ItemIn(s1, pc.task, d) == HandOf(pc).value;
    } else {
      var id :| id in CargoOf(s.ms.cargo, pc.msg) && Carried(s, id) == Some(e);
      var d :| LiveIn(s1, pc.task, d) && ItemIn(s1, pc.task, d) == ItemIn(s, KERNEL, id);
    }
  }

  lemma SameFetches(s: State, s1: State, f: End, x: nat)
    requires SameQueue(s, s1, f)
    ensures Fetches(s1, f, x) <==> Fetches(s, f, x)
  {
    if Fetches(s, f, x) {
      var m: nat, id: HandleId :| m in ListOf(s.cs.inbound, f) && id in CargoOf(s.ms.cargo, m) && LiveIn(s, KERNEL, id)
          && ItemIn(s, KERNEL, id).cap.target == x;
      assert SameCarried(s, s1, m);
      assert m in ListOf(s1.cs.inbound, f) && id in CargoOf(s1.ms.cargo, m) && LiveIn(s1, KERNEL, id);
    }
    if Fetches(s1, f, x) {
      var m: nat, id: HandleId :| m in ListOf(s1.cs.inbound, f) && id in CargoOf(s1.ms.cargo, m)
          && LiveIn(s1, KERNEL, id) && ItemIn(s1, KERNEL, id).cap.target == x;
      assert SameCarried(s, s1, m);
      assert m in ListOf(s.cs.inbound, f) && id in CargoOf(s.ms.cargo, m) && LiveIn(s, KERNEL, id);
    }
  }

  lemma {:induction false} RunsMinted(s: State, acts: seq<Action>, n: nat)
    requires Inv(s) && n in s.hs.place
    ensures var s1 := Runs(s, acts);
      n in s1.hs.place && n in s.hs.minted && n in s1.hs.minted && s1.hs.minted[n] == s.hs.minted[n]
    ensures s.hs.place[n] == Closed ==> Runs(s, acts).hs.place[n] == Closed
  {
    if acts == [] {
      assert PlaceOk(s, n);
    } else {
      RunsMinted(s, acts[..|acts| - 1], n);
      RunsKeep(s, acts[..|acts| - 1]);
      StepMinted(Runs(s, acts[..|acts| - 1]), acts[|acts| - 1], n);
    }
  }

  /** The handle is where it was, in a message that is where it was, or has come into a task's table. */
  ghost predicate Settled(s: State, s1: State, n: nat) {
    n in s.hs.place ==>
      && n in s1.hs.place
      && (|| (s1.hs.place[n].At? && s1.hs.place[n].table != KERNEL)
          || (s1.hs.place[n] == s.hs.place[n] && (forall t: nat | s.hs.place[n] == InHand(t) ::
                PcOf(s1.pc, t) == PcOf(s.pc, t))
              && forall id: HandleId | s.hs.place[n] == At(KERNEL, id) && id in s.ms.owner ::
                 id in s1.ms.owner && s1.ms.owner[id] == s.ms.owner[id]
                 && StageOf(s1.ms.stage, s.ms.owner[id]) == StageOf(s.ms.stage, s.ms.owner[id])))
  }

  lemma LostSettled(s: State, s1: State, n: nat)
    requires Inv(s) && Inv(s1) && Calm(s) && Calm(s1) && Tamer(s, s1) && s1.cs.made == s.cs.made && Settled(s, s1, n)
    requires Lost(s1, Unreachable(s1), n)
    ensures Lost(s, Unreachable(s), n)
  {
    if n in s.hs.place && s.hs.place[n].At? {
      var id := s.hs.place[n].id;
      assert PlaceOk(s, n) && EscrowOk(s, id);
      if s.hs.place[n].table == KERNEL {
        var m := s.ms.owner[id];
        assert MessageOk(s1, m);
        if StageOf(s.ms.stage, m).Queued? { SameReach(s, s1, StageOf(s.ms.stage, m).end); }
      }
    }
  }

  lemma LiftReceives(w: World, acts: seq<Action>)
    requires Receives(acts)
    ensures Turns(w, Lift(acts)) == World(Runs(w.s, acts), w.ps)
  {
    forall a | a in acts ensures Free(a) { ReceivesAll(acts, a); }
    LiftRuns(w, acts);
  }

  /** The state is tamer, every handle is settled, and the message waits as it did. */
  ghost predicate Tidy(s: State, s1: State, b: Bounds, g: End, m: nat) {
    && Calm(s1) && Within(s1, b) && m in ListOf(s1.cs.inbound, g) && SameCarried(s, s1, m) && Tamer(s, s1)
    && s1.cs.made == s.cs.made && forall n: nat {:trigger Settled(s, s1, n)} :: Settled(s, s1, n)
  }

  lemma TidyGoes(w: World, acts: seq<Action>, b: Bounds, g: End, m: nat)
    requires Whole(w) && Calm(w.s) && Receives(acts) && Tidy(w.s, Runs(w.s, acts), b, g, m)
    ensures Turns(w, Lift(acts)) == World(Runs(w.s, acts), w.ps) && Goes(w, Turns(w, Lift(acts)), b, g, m)
  {
    var w1 := World(Runs(w.s, acts), w.ps);
    LiftReceives(w, acts);
    TurnsKeep(w, Lift(acts));
    forall n: nat | n in w.s.hs.place
      ensures n in w1.s.hs.place && n in w.s.hs.minted && n in w1.s.hs.minted && w1.s.hs.minted[n] == w.s.hs.minted[n]
    {
      RunsMinted(w.s, acts, n);
    }
    forall n: nat | Lost(w1.s, Unreachable(w1.s), n) ensures Lost(w.s, Unreachable(w.s), n) {
      assert Settled(w.s, w1.s, n);
      LostSettled(w.s, w1.s, n);
    }
    StuckBefore(w, w1, g);
  }

  lemma FinishStep(w: World, b: Bounds, t: nat, g: End, m: nat) returns (acts: seq<Act>)
    requires Whole(w) && Calm(w.s) && Within(w.s, b) && !PcOf(w.s.pc, t).Idle? && m in ListOf(w.s.cs.inbound, g)
    ensures Goes(w, Turns(w, acts), b, g, m) && Busy(Turns(w, acts).s, b) < Busy(w.s, b)
  {
    var below := FinishTidies(w.s, b, t, g, m);
    TidyGoes(w, below, b, g, m);
    acts := Lift(below);
  }

  lemma FinishTidies(s: State, b: Bounds, t: nat, g: End, m: nat) returns (acts: seq<Action>)
    requires Inv(s) && Calm(s) && Within(s, b) && !PcOf(s.pc, t).Idle? && m in ListOf(s.cs.inbound, g)
    ensures Receives(acts) && Tidy(s, Runs(s, acts), b, g, m) && Busy(Runs(s, acts), b) < Busy(s, b)
  {
    acts := Finish(s, t);
    var s1 := Runs(s, acts);
    assert ThreadOk(s, t) && SameQueue(s, s1, g);
    FinishReach(s, s1, t);
    forall n: nat ensures Settled(s, s1, n) { FinishSettled(s, acts, t, n); }
    assert t in Busy(s, b) && t !in Busy(s1, b);
  }

  /** All that t had is in its task's table. */
  ghost predicate AllHome(s: State, s1: State, t: nat) {
    var pc := PcOf(s.pc, t);
    && Receiving(pc) && pc.task != KERNEL && (HandOf(pc).Some? ==> Arrived(s1, pc.task, HandOf(pc).value))
    && forall id | id in CargoOf(s.ms.cargo, pc.msg) ::
         LiveIn(s, KERNEL, id) && Arrived(s1, pc.task, ItemIn(s, KERNEL, id))
  }

  lemma FinishReach(s: State, s1: State, t: nat)
    requires Inv(s) && Calm(s) && Resumed(s, s1, t) && AllHome(s, s1, t)
    ensures Tamer(s, s1)
  {
    forall f: End, x: nat ensures Fetches(s1, f, x) <==> Fetches(s, f, x) {
      assert SameQueue(s, s1, f);
      SameFetches(s, s1, f, x);
    }
    forall e: End | InReach(s, e) ensures Reach(s1, e) {
      FinishTame(s, s1, t, e);
      ReachStart(s1, e, false);
    }
    forall e: End, f: End | Leads(s, e, f) && Reach(s1, e) ensures Reach(s1, f) {
      LeadsBack(s, e, f);
      LeadsBack(s1, e, f);
      ReachOn(s1, e, f, false);
    }
    forall f: End | Reach(s, f) ensures Reach(s1, f) { ReachStays(s, s1, f); }
  }

  /** A handle in a task's table stays in it. */
  lemma TaskSettled(s: State, s1: State, n: nat)
    requires Inv(s) && Inv(s1) && TasksKeep(s, s1) && n in s.hs.place && s.hs.place[n].At?
    requires s.hs.place[n].table != KERNEL
    ensures Settled(s, s1, n)
  {
    assert PlaceOk(s, n) && EntryOk(s1, s.hs.place[n].table, s.hs.place[n].id);
  }

  lemma HomeSettled(s: State, s1: State, task: nat, x: Item)
    requires Inv(s1) && task != KERNEL && Arrived(s1, task, x)
    ensures Settled(s, s1, x.tag)
  {
    var d :| LiveIn(s1, task, d) && ItemIn(s1, task, d) == x;
    assert EntryOk(s1, task, d);
  }

  /** A handle of a message nobody touched stays in it. */
  lemma AsideSettled(s: State, s1: State, n: nat, id: HandleId)
    requires Inv(s) && Inv(s1) && n in s.hs.place && s.hs.place[n] == At(KERNEL, id) && s1.ms.owner == s.ms.owner
    requires id in s.ms.owner && Aside(s, s1, s.ms.owner[id])
    ensures Settled(s, s1, n)
  {
    assert PlaceOk(s, n) && EscrowOk(s, id) && EntryOk(s1, KERNEL, id);
  }

  lemma FinishSettled(s: State, acts: seq<Action>, t: nat, n: nat)
    requires Inv(s) && Resumed(s, Runs(s, acts), t) && AllHome(s, Runs(s, acts), t)
    ensures Settled(s, Runs(s, acts), n)
  {
    if n in s.hs.place {
      RunsMinted(s, acts, n);
      assert PlaceOk(s, n) && ThreadOk(s, t);
      match s.hs.place[n]
      case Closed =>
      case At(v, id) => if v != KERNEL {
        TaskSettled(s, Runs(s, acts), n);
      } else {
        EscrowedSettled(s, Runs(s, acts), t, n, id);
      }
      case InHand(u) => HandSettled(s, Runs(s, acts), t, n, u);
    }
  }

  lemma EscrowedSettled(s: State, s1: State, t: nat, n: nat, id: HandleId)
    requires Inv(s) && Resumed(s, s1, t) && AllHome(s, s1, t) && n in s.hs.place && s.hs.place[n] == At(KERNEL, id)
    ensures Settled(s, s1, n)
  {
    assert PlaceOk(s, n) && EscrowOk(s, id) && ThreadOk(s, t);
    if s.ms.owner[id] == PcOf(s.pc, t).msg { HomeSettled(s, s1, PcOf(s.pc, t).task, ItemIn(s, KERNEL, id)); }
    else { AsideSettled(s, s1, n, id); }
  }

  lemma HandSettled(s: State, s1: State, t: nat, n: nat, u: nat)
    requires Inv(s) && Resumed(s, s1, t) && AllHome(s, s1, t) && n in s.hs.place && s.hs.place[n] == InHand(u)
    ensures Settled(s, s1, n)
  {
    assert PlaceOk(s, n);
    if u == t { HomeSettled(s, s1, PcOf(s.pc, t).task, HandOf(PcOf(s.pc, t)).value); }
    else { assert ThreadOk(s1, u); }
  }

  // ---------------------------------------------------------------- a call ends

  /** The steps that end a call: an unbind does its work first. */
  function Ending(ps: Ports, c: nat): seq<Act>
    requires c in ps.calls
  {
    if ps.calls[c].Unbinding? then [Port(UnbindEnd(c)), Port(Return(c))] else [Port(Return(c))]
  }

  function Ended(ps: Ports, c: nat): Ports
    requires c in ps.calls
  {
    var call := ps.calls[c];
    (if call.Unbinding? then Loosen(ps, Keyed(ps.bonds, call.port, call.key)) else ps).(calls := ps.calls - {c})
  }

  lemma EndingIs(w: World, c: nat)
    requires c in w.ps.calls
    ensures Turns(w, Ending(w.ps, c)) == World(w.s, Ended(w.ps, c))
  {
    if w.ps.calls[c].Unbinding? {
      TurnsTwo(w, Port(UnbindEnd(c)), Port(Return(c)));
      assert Unbound(w.ps, c).calls - {c} == w.ps.calls - {c};
    } else {
      TurnsOne(w, Port(Return(c)));
    }
  }

  /** A step of ports alone, after which no binding is firm that was not. */
  lemma PortGoes(w: World, ps: Ports, b: Bounds, g: End, m: nat)
    requires Whole(w) && Whole(World(w.s, ps)) && Calm(w.s) && Within(w.s, b) && m in ListOf(w.s.cs.inbound, g)
    requires forall x | Firm(ps, x) :: Firm(w.ps, x)
    ensures Goes(w, World(w.s, ps), b, g, m)
  {
    var w1 := World(w.s, ps);
    assert MessageOk(w.s, m);
    forall n: nat | n in w.s.hs.place ensures n in w.s.hs.minted { assert PlaceOk(w.s, n); }
    StuckBefore(w, w1, g);
  }

  lemma CallStep(w: World, b: Bounds, c: nat, g: End, m: nat) returns (acts: seq<Act>)
    requires Whole(w) && Calm(w.s) && Within(w.s, b) && c in w.ps.calls && m in ListOf(w.s.cs.inbound, g)
    ensures Goes(w, Turns(w, acts), b, g, m) && Less(Turns(w, acts), w, b)
  {
    acts := Ending(w.ps, c);
    EndingIs(w, c);
    TurnsKeep(w, acts);
    var ps := Ended(w.ps, c);
    forall x | Firm(ps, x) ensures Firm(w.ps, x) {
      forall k | k in w.ps.calls ensures w.ps.calls[k] != Unbinding(x.port, x.key) {
        if k != c { assert k in ps.calls && ps.calls[k] == w.ps.calls[k]; }
      }
    }
    PortGoes(w, ps, b, g, m);
    assert c in w.ps.calls.Keys && c !in ps.calls.Keys && ps.calls.Keys <= w.ps.calls.Keys;
  }

  // ---------------------------------------------------------------- a task receives

  /** A task holds this endpoint and there is something to receive on it. */
  ghost predicate Readable(s: State, h: End) { InTable(s, h) && ListOf(s.cs.inbound, h) != [] }

  lemma ReceiveTame(s: State, s1: State, t: nat, task: nat, h: End)
    requires Inv(s) && Inv(s1) && AllIdle(s) && task != KERNEL && ReceivedOne(s, s1, t, task, h) && InTable(s, h)
    ensures ReachKept(s, s1)
  {
    var q := ListOf(s.cs.inbound, h);
    forall e: End | InReach(s, e) ensures Reach(s1, e) {
      assert InTable(s, e);
      TableStays(s, s1, e);
      ReachStart(s1, e, false);
    }
    forall e: End, f: End | Leads(s, e, f) && Reach(s1, e) ensures Reach(s1, f) {
      var m: nat, id: HandleId :| m in ListOf(s.cs.inbound, e) && id in CargoOf(s.ms.cargo, m)
          && Carried(s, id) == Some(f);
      if m == q[0] {
        ArrivedInTable(s1, task, ItemIn(s, KERNEL, id), f);
        ReachStart(s1, f, false);
      } else {
        StillLeads(s, s1, t, task, h, e, f, m, id);
        ReachOn(s1, e, f, false);
      }
    }
  }

  lemma TableStays(s: State, s1: State, e: End)
    requires InTable(s, e) && TasksKeep(s, s1)
    ensures InTable(s1, e)
  {
    var v: nat, d: HandleId :| v != KERNEL && LiveIn(s, v, d) && EndAt(ItemIn(s, v, d).cap.target) == Some(e);
    assert LiveIn(s1, v, d);
  }

  lemma ArrivedInTable(s: State, task: nat, x: Item, f: End)
    requires task != KERNEL && Arrived(s, task, x) && EndAt(x.cap.target) == Some(f)
    ensures InTable(s, f)
  {
    var d :| LiveIn(s, task, d) && ItemIn(s, task, d) == x;
  }

  lemma StillLeads(s: State, s1: State, t: nat, task: nat, h: End, e: End, f: End, m: nat, id: HandleId)
    requires ReceivedOne(s, s1, t, task, h) && m != ListOf(s.cs.inbound, h)[0]
    requires m in ListOf(s.cs.inbound, e) && id in CargoOf(s.ms.cargo, m) && Carried(s, id) == Some(f)
    ensures Leads(s1, e, f)
  {
    var q := ListOf(s.cs.inbound, h);
    assert SameCarried(s, s1, m) && q == [q[0]] + q[1..];
    assert m in ListOf(s1.cs.inbound, e) && id in CargoOf(s1.ms.cargo, m) && Carried(s1, id) == Some(f);
  }

  lemma FewerFetches(s: State, s1: State, t: nat, task: nat, h: End, f: End, x: nat)
    requires Inv(s) && ReceivedOne(s, s1, t, task, h) && Fetches(s1, f, x)
    ensures Fetches(s, f, x)
  {
    var q := ListOf(s.cs.inbound, h);
    var m: nat, id: HandleId :| m in ListOf(s1.cs.inbound, f) && id in CargoOf(s1.ms.cargo, m)
        && LiveIn(s1, KERNEL, id) && ItemIn(s1, KERNEL, id).cap.target == x;
    assert QueueOk(s, h) && QueueOk(s, f) && q == [q[0]] + q[1..] && q[0] in q;
    assert m in ListOf(s.cs.inbound, f) && m != q[0] && SameCarried(s, s1, m);
    assert id in CargoOf(s.ms.cargo, m) && LiveIn(s, KERNEL, id) && ItemIn(s, KERNEL, id).cap.target == x;
  }

  /** The handle is out of escrow: a task has it, or it is closed. */
  ghost predicate Left(s: State, n: nat) {
    n in s.hs.place && (s.hs.place[n] == Closed || (s.hs.place[n].At? && s.hs.place[n].table != KERNEL))
  }

  /** All the message carries is out of escrow. */
  ghost predicate Emptied(s: State, s1: State, m: nat) {
    forall id | id in CargoOf(s.ms.cargo, m) :: LiveIn(s, KERNEL, id) && Left(s1, ItemIn(s, KERNEL, id).tag)
  }

  lemma ReceiveStep(w: World, b: Bounds, h: End, g: End, m: nat) returns (acts: seq<Act>)
    requires Whole(w) && AllIdle(w.s) && Within(w.s, b) && Readable(w.s, h) && m in ListOf(w.s.cs.inbound, g)
    ensures Less(Turns(w, acts), w, b)
    ensures Goes(w, Turns(w, acts), b, g, m) || Emptied(w.s, Turns(w, acts).s, m)
  {
    var below := ReceiveTidies(w.s, b, h, g, m);
    LiftReceives(w, below);
    acts := Lift(below);
    if Tidy(w.s, Runs(w.s, below), b, g, m) { TidyGoes(w, below, b, g, m); }
  }

  lemma ReceiveTidies(s: State, b: Bounds, h: End, g: End, m: nat) returns (acts: seq<Action>)
    requires Inv(s) && AllIdle(s) && Within(s, b) && Readable(s, h) && m in ListOf(s.cs.inbound, g)
    ensures Receives(acts) && Busy(Runs(s, acts), b) == Busy(s, b) && Waiting(Runs(s, acts), b) < Waiting(s, b)
    ensures Tidy(s, Runs(s, acts), b, g, m) || Emptied(s, Runs(s, acts), m)
  {
    var task: nat, d: HandleId :| task != KERNEL && LiveIn(s, task, d)
        && EndAt(ItemIn(s, task, d).cap.target) == Some(h);
    assert EntryOk(s, task, d);
    acts := ReceiveOne(s, 0, task, d);
    FewerWaiting(s, Runs(s, acts), b, task, h);
    if m == ListOf(s.cs.inbound, h)[0] { ReceiveEmpties(s, Runs(s, acts), task, h, m); }
    else { ReceiveTidy(s, acts, b, task, h, g, m); }
  }

  lemma FewerWaiting(s: State, s1: State, b: Bounds, task: nat, h: End)
    requires Inv(s) && Within(s, b) && AllIdle(s) && ReceivedOne(s, s1, 0, task, h)
    ensures Busy(s1, b) == Busy(s, b) && Waiting(s1, b) < Waiting(s, b)
  {
    var q := ListOf(s.cs.inbound, h);
    assert QueueOk(s, h) && q[0] in q;
    assert q[0] in Waiting(s, b) && q[0] !in Waiting(s1, b);
  }

  lemma ReceiveEmpties(s: State, s1: State, task: nat, h: End, m: nat)
    requires task != KERNEL && ReceivedOne(s, s1, 0, task, h) && m == ListOf(s.cs.inbound, h)[0]
    ensures Emptied(s, s1, m)
  {
    forall id | id in CargoOf(s.ms.cargo, m) ensures LiveIn(s, KERNEL, id) && Left(s1, ItemIn(s, KERNEL, id).tag) {
      ArrivedLeft(s1, task, ItemIn(s, KERNEL, id));
    }
  }

  lemma ArrivedLeft(s: State, task: nat, x: Item)
    requires Inv(s) && task != KERNEL && Arrived(s, task, x)
    ensures Left(s, x.tag)
  {
    var d :| LiveIn(s, task, d) && ItemIn(s, task, d) == x;
    assert EntryOk(s, task, d);
  }

  lemma ReceiveTidy(s: State, acts: seq<Action>, b: Bounds, task: nat, h: End, g: End, m: nat)
    requires Inv(s) && AllIdle(s) && Within(s, b) && InTable(s, h) && task != KERNEL
    requires ReceivedOne(s, Runs(s, acts), 0, task, h)
    requires m in ListOf(s.cs.inbound, g) && m != ListOf(s.cs.inbound, h)[0]
    ensures Tidy(s, Runs(s, acts), b, g, m)
  {
    var s1, q := Runs(s, acts), ListOf(s.cs.inbound, h);
    assert q == [q[0]] + q[1..] && SameCarried(s, s1, m);
    ReceiveTamer(s, s1, task, h);
    forall n: nat ensures Settled(s, s1, n) { ReceiveSettled(s, acts, task, h, n); }
  }

  lemma ReceiveTamer(s: State, s1: State, task: nat, h: End)
    requires Inv(s) && Inv(s1) && AllIdle(s) && task != KERNEL && ReceivedOne(s, s1, 0, task, h) && InTable(s, h)
    ensures Tamer(s, s1)
  {
    ReceiveTame(s, s1, 0, task, h);
    forall f: End | Reach(s, f) ensures Reach(s1, f) { ReachStays(s, s1, f); }
    forall f: End, x: nat | Fetches(s1, f, x) ensures Fetches(s, f, x) { FewerFetches(s, s1, 0, task, h, f, x); }
  }

  lemma ReceiveSettled(s: State, acts: seq<Action>, task: nat, h: End, n: nat)
    requires Inv(s) && AllIdle(s) && task != KERNEL && ReceivedOne(s, Runs(s, acts), 0, task, h)
    ensures Settled(s, Runs(s, acts), n)
  {
    var s1, q := Runs(s, acts), ListOf(s.cs.inbound, h);
    if n in s.hs.place {
      RunsMinted(s, acts, n);
      assert PlaceOk(s, n);
      if s.hs.place[n].At? {
        var id := s.hs.place[n].id;
        assert EscrowOk(s, id);
        if s.hs.place[n].table != KERNEL { TaskSettled(s, s1, n); }
        else if s.ms.owner[id] == q[0] { HomeSettled(s, s1, task, ItemIn(s, KERNEL, id)); }
        else { AsideSettled(s, s1, n, id); }
      }
    }
  }

  // ---------------------------------------------------------------- what is left is taken down

  ghost predicate NothingToRead(s: State) { forall h: End :: !Readable(s, h) }

  /** With nobody busy and nothing to read, no queue that has a message can be reached. */
  lemma NoneReached(s: State, f: End)
    requires AllIdle(s) && NothingToRead(s) && ListOf(s.cs.inbound, f) != []
    ensures !Reach(s, f)
  {
    if Reach(s, f) {
      var p :| Path(s, p, false) && p[|p| - 1] == f;
      PathStart(s, p);
    }
  }

  lemma PathStart(s: State, p: seq<End>)
    requires AllIdle(s) && Path(s, p, false)
    ensures InTable(s, p[0]) && (|p| > 1 ==> Readable(s, p[0]))
    ensures ListOf(s.cs.inbound, p[|p| - 1]) != [] ==> Readable(s, p[0])
  {
    if |p| > 1 { assert Edge(s, p[0], p[0 + 1], false); }
  }

  /** Then every handle that no task has is out of hand. */
  lemma IdleLost(s: State, n: nat)
    requires Inv(s) && AllIdle(s) && NothingToRead(s) && n in s.hs.place
    requires !(s.hs.place[n].At? && s.hs.place[n].table != KERNEL)
    ensures Lost(s, Unreachable(s), n)
  {
    assert PlaceOk(s, n);
    if s.hs.place[n].At? {
      var id := s.hs.place[n].id;
      assert EscrowOk(s, id);
      var m := s.ms.owner[id];
      assert MessageOk(s, m);
      if StageOf(s.ms.stage, m).Queued? { IdleUnreachable(s, StageOf(s.ms.stage, m).end); }
    }
  }

  lemma IdleUnreachable(s: State, f: End)
    requires Inv(s) && AllIdle(s) && NothingToRead(s) && ListOf(s.cs.inbound, f) != []
    ensures f in Unreachable(s)
  {
    assert QueueOk(s, f);
    NoneReached(s, f);
    CalmReach(s, f);
  }

  /** With nobody busy and nothing to read, a step that closes handles or queues, or ends what nobody refers
      to, makes nothing worse, if a port whose handle it closes has no bindings. */
  lemma TakenDown(w: World, a: Action, b: Bounds, g: End, m: nat)
    requires Whole(w) && AllIdle(w.s) && NothingToRead(w.s) && Within(w.s, b) && Allowed(w, a)
    requires a.CloseHandle? || a.Bury? || a.Destroy? || a.Discard?
    requires var s, s1 := w.s, Step(w.s, a);
      && s1.pc == s.pc && SameBounds(s, s1.(cs := s1.cs.(dead := s.cs.dead)))
      && (forall f: End, x: nat | Fetches(s1, f, x) :: Fetches(s, f, x))
      && (forall f: End | ListOf(s1.cs.inbound, f) != [] :: ListOf(s.cs.inbound, f) != [])
      && m in ListOf(s1.cs.inbound, g) && SameCarried(s, s1, m)
    requires a.CloseHandle? ==>
      a.task != KERNEL && LiveIn(w.s, a.task, a.id) && !ToBusyPort(w, ItemIn(w.s, a.task, a.id).tag)
    ensures Goes(w, Turn(w, Base(a)), b, g, m) && Busy(Turn(w, Base(a)).s, b) == Busy(w.s, b)
  {
    var s, w1 := w.s, Turn(w, Base(a));
    TurnKeeps(w, Base(a));
    forall f: End ensures ListOf(w1.s.cs.inbound, f) != [] ==> !Reach(s, f) {
      if ListOf(w1.s.cs.inbound, f) != [] { NoneReached(s, f); }
    }
    DownNoneLost(w, a);
    StuckBefore(w, w1, g);
  }

  lemma DownNoneLost(w: World, a: Action)
    requires Whole(w) && AllIdle(w.s) && NothingToRead(w.s) && Allowed(w, a)
    requires a.CloseHandle? || a.Bury? || a.Destroy? || a.Discard?
    requires a.CloseHandle? ==>
      a.task != KERNEL && LiveIn(w.s, a.task, a.id) && !ToBusyPort(w, ItemIn(w.s, a.task, a.id).tag)
    ensures NoneLost(w, Turn(w, Base(a)))
  {
    var s, w1 := w.s, Turn(w, Base(a));
    forall n: nat | n in s.hs.place
      ensures n in w1.s.hs.place && n in s.hs.minted && n in w1.s.hs.minted && w1.s.hs.minted[n] == s.hs.minted[n]
    {
      StepMinted(s, a, n);
    }
    forall n: nat | n in s.hs.place && ToBusyPort(w1, n) && Lost(w1.s, Unreachable(w1.s), n)
        ensures Lost(s, Unreachable(s), n) {
      if !(s.hs.place[n].At? && s.hs.place[n].table != KERNEL) { IdleLost(s, n); } else { TaskKeeps(w, a, n); }
    }
  }

  /** Closing is the only one of them that a task's table notices. */
  lemma TaskKeeps(w: World, a: Action, n: nat)
    requires Whole(w) && n in w.s.hs.place && w.s.hs.place[n].At? && w.s.hs.place[n].table != KERNEL
    requires a.CloseHandle? || a.Bury? || a.Destroy? || a.Discard?
    requires a.CloseHandle? ==>
      a.task != KERNEL && LiveIn(w.s, a.task, a.id) && !ToBusyPort(w, ItemIn(w.s, a.task, a.id).tag)
    ensures ToBusyPort(w, n) ==> n in Step(w.s, a).hs.place && Step(w.s, a).hs.place[n] == w.s.hs.place[n]
  {
    var s := w.s;
    assert PlaceOk(s, n);
    if a.CloseHandle? { assert EntryOk(s, a.task, a.id); }
    if a.Bury? && CargoOf(s.ms.cargo, a.msg) != [] { assert EntryOk(s, KERNEL, CargoOf(s.ms.cargo, a.msg)[0]); }
  }

  lemma DiscardStep(w: World, b: Bounds, e: End, g: End, m: nat)
    requires Whole(w) && AllIdle(w.s) && NothingToRead(w.s) && Within(w.s, b) && m in ListOf(w.s.cs.inbound, g)
    requires e in w.s.cs.dead && Peer(e) in w.s.cs.dead && ListOf(w.s.cs.inbound, e) != []
    requires m != ListOf(w.s.cs.inbound, e)[0]
    ensures Goes(w, Turn(w, Base(Discard(e))), b, g, m) && Less(Turn(w, Base(Discard(e))), w, b)
  {
    DiscardTame(w.s, e, m, g);
    TakenDown(w, Discard(e), b, g, m);
    FewerQueued(w.s, e, b);
  }

  lemma DiscardTame(s: State, e: End, m: nat, g: End)
    requires Inv(s) && e in s.cs.dead && Peer(e) in s.cs.dead && ListOf(s.cs.inbound, e) != []
    requires m in ListOf(s.cs.inbound, g) && m != ListOf(s.cs.inbound, e)[0]
    ensures var s1 := DiscardNext(s, e);
      && SameBounds(s, s1) && s1.pc == s.pc && m in ListOf(s1.cs.inbound, g) && SameCarried(s, s1, m)
      && (forall f: End, x: nat | Fetches(s1, f, x) :: Fetches(s, f, x))
      && (forall f: End | ListOf(s1.cs.inbound, f) != [] :: ListOf(s.cs.inbound, f) != [])
  {
    var s1, q := DiscardNext(s, e), ListOf(s.cs.inbound, e);
    assert QueueOk(s, e) && MessageOk(s, m) && q[0] in q && q == [q[0]] + q[1..];
    forall f: End, x: nat | Fetches(s1, f, x) ensures Fetches(s, f, x) { DiscardFetches(s, e, f, x); }
  }

  lemma DiscardFetches(s: State, e: End, f: End, x: nat)
    requires Fetches(DiscardNext(s, e), f, x)
    ensures Fetches(s, f, x)
  {
    var s1 := DiscardNext(s, e);
    var n: nat, id: HandleId :| n in ListOf(s1.cs.inbound, f) && id in CargoOf(s1.ms.cargo, n)
        && LiveIn(s1, KERNEL, id) && ItemIn(s1, KERNEL, id).cap.target == x;
    assert n in ListOf(s.cs.inbound, f) && id in CargoOf(s.ms.cargo, n) && LiveIn(s, KERNEL, id);
  }

  lemma FewerQueued(s: State, e: End, b: Bounds)
    requires Inv(s) && Within(s, b) && ListOf(s.cs.inbound, e) != []
    ensures Waiting(DiscardNext(s, e), b) < Waiting(s, b)
  {
    var q := ListOf(s.cs.inbound, e);
    assert QueueOk(s, e) && q[0] in q;
    assert q[0] in Waiting(s, b) && q[0] !in Waiting(DiscardNext(s, e), b);
  }

  /** A step that leaves every queue and what it carries alone. */
  lemma QuietStep(w: World, a: Action, b: Bounds, g: End, m: nat)
    requires Whole(w) && AllIdle(w.s) && NothingToRead(w.s) && Within(w.s, b) && Allowed(w, a)
    requires m in ListOf(w.s.cs.inbound, g) && (a.CloseHandle? || a.Bury? || a.Destroy?)
    requires var s, s1 := w.s, Step(w.s, a);
      && s1.pc == s.pc && SameBounds(s, s1.(cs := s1.cs.(dead := s.cs.dead))) && QueuesKept(s, s1)
      && s1.ms.stage == s.ms.stage
    requires a.CloseHandle? ==>
      a.task != KERNEL && LiveIn(w.s, a.task, a.id) && !ToBusyPort(w, ItemIn(w.s, a.task, a.id).tag)
    ensures Goes(w, Turn(w, Base(a)), b, g, m) && SameSoFar(Turn(w, Base(a)), w, b)
  {
    var s, s1 := w.s, Step(w.s, a);
    forall f: End, x: nat ensures Fetches(s1, f, x) <==> Fetches(s, f, x) {
      assert SameQueue(s, s1, f);
      SameFetches(s, s1, f, x);
    }
    forall f: End ensures ListOf(s1.cs.inbound, f) == ListOf(s.cs.inbound, f) { assert SameQueue(s, s1, f); }
    assert SameQueue(s, s1, g);
    TakenDown(w, a, b, g, m);
  }

  lemma CloseStep(w: World, b: Bounds, task: nat, d: HandleId, g: End, m: nat)
    requires Whole(w) && AllIdle(w.s) && NothingToRead(w.s) && Within(w.s, b) && m in ListOf(w.s.cs.inbound, g)
    requires task != KERNEL && LiveIn(w.s, task, d) && !ToBusyPort(w, ItemIn(w.s, task, d).tag)
    ensures Goes(w, Turn(w, Base(CloseHandle(task, d))), b, g, m) && Less(Turn(w, Base(CloseHandle(task, d))), w, b)
  {
    var s, s1, n := w.s, TakeOut(w.s, task, d, Closed), ItemIn(w.s, task, d).tag;
    assert EntryOk(s, task, d);
    forall f: End ensures SameQueue(s, s1, f) { WholeQueue(s, f); }
    QuietStep(w, CloseHandle(task, d), b, g, m);
    assert n in Open(s, b) && n !in Open(s1, b);
  }

  lemma BuryStep(w: World, b: Bounds, k: nat, g: End, m: nat)
    requires Whole(w) && AllIdle(w.s) && NothingToRead(w.s) && Within(w.s, b) && m in ListOf(w.s.cs.inbound, g)
    requires StageOf(w.s.ms.stage, k).Dying? && CargoOf(w.s.ms.cargo, k) != []
    ensures Goes(w, Turn(w, Base(Bury(k))), b, g, m) && Less(Turn(w, Base(Bury(k))), w, b)
  {
    BuryTame(w.s, k, b);
    forall f: End ensures SameQueue(w.s, BuryNext(w.s, k), f) { BuryQueue(w.s, k, f); }
    QuietStep(w, Bury(k), b, g, m);
  }

  lemma BuryTame(s: State, k: nat, b: Bounds)
    requires Inv(s) && Within(s, b) && StageOf(s.ms.stage, k).Dying? && CargoOf(s.ms.cargo, k) != []
    ensures var s1 := BuryNext(s, k);
      && s1.pc == s.pc && s1.cs == s.cs && s1.ms.stage == s.ms.stage && SameBounds(s, s1) && Open(s1, b) < Open(s, b)
  {
    CargoIsLive(s, k);
    var s1, id := BuryNext(s, k), CargoOf(s.ms.cargo, k)[0];
    assert EntryOk(s, KERNEL, id);
    assert ItemIn(s, KERNEL, id).tag in Open(s, b) && ItemIn(s, KERNEL, id).tag !in Open(s1, b);
  }

  lemma BuryQueue(s: State, k: nat, f: End)
    requires Inv(s)
    ensures SameQueue(s, BuryNext(s, k), f)
  {
    assert QueueOk(s, f);
    forall x | x in ListOf(s.cs.inbound, f) ensures SameCarried(s, BuryNext(s, k), x) {
      assert MessageOk(s, x);
      BuryLeaves(s, k, f, x);
    }
  }

  /** Nothing refers to the endpoint, and it is still there. */
  ghost predicate MayDestroy(w: World, e: End) {
    e.pair in w.s.cs.made && e !in w.s.cs.dead && Unreferenced(w.s, e) && !Pinned(w.ps, NumberOf(e))
  }

  lemma DestroyStep(w: World, b: Bounds, e: End, g: End, m: nat)
    requires Whole(w) && AllIdle(w.s) && NothingToRead(w.s) && Within(w.s, b) && m in ListOf(w.s.cs.inbound, g)
    requires MayDestroy(w, e)
    ensures Goes(w, Turn(w, Base(Destroy(e))), b, g, m) && Less(Turn(w, Base(Destroy(e))), w, b)
  {
    var s, s1 := w.s, w.s.(cs := w.s.cs.(dead := w.s.cs.dead + {e}));
    forall f: End ensures SameQueue(s, s1, f) { WholeQueue(s, f); }
    QuietStep(w, Destroy(e), b, g, m);
    assert e in Alive(s, b) && e !in Alive(s1, b);
  }

  // ---------------------------------------------------------------- ports are taken down

  lemma UnhookStep(w: World, b: Bounds, x: Bond, g: End, m: nat)
    requires Whole(w) && Calm(w.s) && Within(w.s, b) && m in ListOf(w.s.cs.inbound, g) && x in w.ps.loose
    ensures Goes(w, Turn(w, Port(Unhook(x))), b, g, m) && Less(Turn(w, Port(Unhook(x))), w, b)
  {
    TurnKeeps(w, Port(Unhook(x)));
    PortGoes(w, PortStep(w, Unhook(x)), b, g, m);
  }

  lemma EndPortStep(w: World, b: Bounds, p: nat, g: End, m: nat)
    requires Whole(w) && Calm(w.s) && Within(w.s, b) && m in ListOf(w.s.cs.inbound, g) && MayEnd(w, p)
    ensures Goes(w, Turn(w, Port(EndPort(p))), b, g, m) && Less(Turn(w, Port(EndPort(p))), w, b)
  {
    var ps := PortStep(w, EndPort(p));
    TurnKeeps(w, Port(EndPort(p)));
    PortGoes(w, ps, b, g, m);
    assert p in Running(w.ps) && p !in Running(ps);
    if BondsOf(w.ps.bonds, p) == {} { assert ps.bonds == w.ps.bonds; }
    else {
      var x :| x in BondsOf(w.ps.bonds, p);
      assert x in w.ps.bonds && x !in ps.bonds;
    }
  }

  /** A task that has the port takes a key's bindings off it. */
  lemma UnbindStep(w: World, b: Bounds, task: nat, d: HandleId, x: Bond, g: End, m: nat) returns (acts: seq<Act>)
    requires Whole(w) && Calm(w.s) && Within(w.s, b) && m in ListOf(w.s.cs.inbound, g) && w.ps.calls == map[]
    requires task != KERNEL && LiveIn(w.s, task, d) && PortAt(ItemIn(w.s, task, d).cap.target) == Some(x.port)
    requires x in w.ps.bonds
    ensures Goes(w, Turns(w, acts), b, g, m) && Less(Turns(w, acts), w, b)
  {
    LookedUp(w, task, d);
    var first := [Port(UnbindPort(0, task, d, x.key))];
    var w1 := Turn(w, first[0]);
    TurnsOne(w, first[0]);
    assert w1.ps == Calls(w.ps, 0, Unbinding(x.port, x.key));
    EndingIs(w1, 0);
    acts := first + Ending(w1.ps, 0);
    TurnsAppend(w, first, Ending(w1.ps, 0));
    TurnsKeep(w, acts);
    var ps := Ended(w1.ps, 0);
    assert ps.calls == map[];
    PortGoes(w, ps, b, g, m);
    assert x in Keyed(w.ps.bonds, x.port, x.key) && x !in ps.bonds;
  }

  // ---------------------------------------------------------------- nothing left to do

  /** No task has anything, nothing is dying or to be torn down, and what nothing refers to is destroyed. */
  ghost predicate Still(w: World) {
    && AllIdle(w.s) && w.ps.calls == map[] && NothingToRead(w.s) && w.ps.loose == {}
    && (forall t: nat, d: HandleId | t != KERNEL :: !LiveIn(w.s, t, d))
    && (forall k: nat | StageOf(w.s.ms.stage, k).Dying? :: CargoOf(w.s.ms.cargo, k) == [])
    && (forall e: End | e in w.s.cs.dead && Peer(e) in w.s.cs.dead :: ListOf(w.s.cs.inbound, e) == [])
    && (forall e: End :: !MayDestroy(w, e)) && (forall p: nat :: !MayEnd(w, p))
  }

  ghost function EndsLeft(w: World): iset<End> { iset x: End | x.pair in w.s.cs.made && x !in w.s.cs.dead }

  ghost function PortsLeft(w: World): iset<nat> { iset p: nat | p in w.ps.made && p !in w.ps.dead }

  /** A handle that is left is in some queue, and an end of that queue's channel is left too. */
  lemma StillFetched(w: World, id: HandleId) returns (f: End)
    requires Whole(w) && Still(w) && LiveIn(w.s, KERNEL, id)
    ensures Ties(Unreachable(w.s), EndsLeft(w), f) && Fetches(w.s, f, ItemIn(w.s, KERNEL, id).cap.target)
  {
    var s := w.s;
    assert EscrowOk(s, id);
    var m := s.ms.owner[id];
    assert MessageOk(s, m) && StageOf(s.ms.stage, m).Queued?;
    f := StageOf(s.ms.stage, m).end;
    assert m in ListOf(s.cs.inbound, f) && id in CargoOf(s.ms.cargo, m);
    StillTies(w, f);
  }

  lemma StillTies(w: World, f: End)
    requires Whole(w) && Still(w) && ListOf(w.s.cs.inbound, f) != []
    ensures Ties(Unreachable(w.s), EndsLeft(w), f)
  {
    assert QueueOk(w.s, f);
    IdleUnreachable(w.s, f);
  }

  /** What a binding refers to, a port that is left watches. */
  lemma StillWatched(w: World, x: nat)
    requires Whole(w) && Still(w) && Pinned(w.ps, x)
    ensures Tied(w, Unreachable(w.s), EndsLeft(w), PortsLeft(w), x)
  {
    var b :| b in w.ps.bonds + w.ps.loose && b.target == x;
    assert Firm(w.ps, b) && b.port in PortsLeft(w);
  }

  lemma StillEnd(w: World, e: End)
    requires Whole(w) && Still(w) && e in EndsLeft(w)
    ensures Tied(w, Unreachable(w.s), EndsLeft(w), PortsLeft(w), NumberOf(e))
  {
    assert !MayDestroy(w, e);
    if Pinned(w.ps, NumberOf(e)) { StillWatched(w, NumberOf(e)); }
    else {
      var t: nat, id: HandleId :| LiveIn(w.s, t, id) && EndAt(ItemIn(w.s, t, id).cap.target) == Some(e);
      NumberIs(ItemIn(w.s, t, id).cap.target, e);
      var f := StillFetched(w, id);
    }
  }

  lemma StillPort(w: World, p: nat)
    requires Whole(w) && Still(w) && p in PortsLeft(w)
    ensures Tied(w, Unreachable(w.s), EndsLeft(w), PortsLeft(w), PortNumber(p))
  {
    assert !MayEnd(w, p);
    if Pinned(w.ps, PortNumber(p)) { StillWatched(w, PortNumber(p)); }
    else {
      var n: nat :| NotClosed(w.s, n) && w.s.hs.minted[n].target == PortNumber(p);
      assert PlaceOk(w.s, n);
      var t, id := w.s.hs.place[n].table, w.s.hs.place[n].id;
      assert EntryOk(w.s, t, id);
      var f := StillFetched(w, id);
    }
  }

  lemma StillSealed(w: World, g: End)
    requires Whole(w) && Still(w) && g in Unreachable(w.s)
    ensures Sealed(w.s, Unreachable(w.s), PortTags(w.s, PortsLeft(w)))
  {
    SealAll(w.s, g);
    forall n: nat | n in w.s.hs.place ensures Lost(w.s, Unreachable(w.s), n) {
      assert PlaceOk(w.s, n);
      IdleLost(w.s, n);
    }
    SealedIfLost(w.s, Unreachable(w.s), PortTags(w.s, PortsLeft(w)));
  }

  lemma StillStuck(w: World, g: End)
    requires Whole(w) && Still(w) && ListOf(w.s.cs.inbound, g) != []
    ensures Stuck(w, g)
  {
    var u, z, v := Unreachable(w.s), EndsLeft(w), PortsLeft(w);
    StillTies(w, g);
    StillSealed(w, g);
    forall e: End | e in z ensures Tied(w, u, z, v, NumberOf(e)) { StillEnd(w, e); }
    forall p: nat | p in v ensures Tied(w, u, z, v, PortNumber(p)) { StillPort(w, p); }
    assert Knot(w, u, z, v);
  }

  // ---------------------------------------------------------------- the exact condition

  lemma DiscardEmpties(w: World, e: End, m: nat) returns (acts: seq<Act>)
    requires Whole(w) && e in w.s.cs.dead && Peer(e) in w.s.cs.dead && ListOf(w.s.cs.inbound, e) != []
    requires m == ListOf(w.s.cs.inbound, e)[0]
    ensures Emptied(w.s, Turns(w, acts).s, m)
  {
    var s := w.s;
    var s1, k := DiscardNext(s, e), |CargoOf(s.ms.cargo, m)|;
    DiscardKeeps(s, e);
    Buried(s1, m, k);
    RunsOne(s, Discard(e));
    RunsAppend(s, [Discard(e)], Burials(m, k));
    var below := [Discard(e)] + Burials(m, k);
    BurialsFree(m, k);
    LiftRuns(w, below);
    acts := Lift(below);
    var c := CargoOf(s.ms.cargo, m);
    forall id | id in c ensures LiveIn(s, KERNEL, id) && Left(Runs(s, below), ItemIn(s, KERNEL, id).tag) {
      var i :| 0 <= i < |c| && c[i] == id;
      assert ClosedNow(s1, Runs(s1, Burials(m, k)), c[i]);
    }
  }

  lemma {:induction false} BurialsFree(m: nat, k: nat)
    ensures forall a | a in Burials(m, k) :: Free(a)
  {
    if k > 0 { BurialsFree(m, k - 1); }
  }

  /** One thing left to do, if there is any: afterwards there is less, or the message's handles are out. */
  lemma Onward(w: World, b: Bounds, g: End, m: nat) returns (acts: seq<Act>)
    requires Whole(w) && Calm(w.s) && Within(w.s, b) && m in ListOf(w.s.cs.inbound, g) && !Still(w)
    ensures Emptied(w.s, Turns(w, acts).s, m) || (Goes(w, Turns(w, acts), b, g, m) && Less(Turns(w, acts), w, b))
  {
    if !AllIdle(w.s) {
      var t: nat :| !PcOf(w.s.pc, t).Idle?;
      acts := FinishStep(w, b, t, g, m);
    } else if w.ps.calls != map[] {
      var c :| c in w.ps.calls;
      acts := CallStep(w, b, c, g, m);
    } else if exists h: End :: Readable(w.s, h) {
      var h: End :| Readable(w.s, h);
      acts := ReceiveStep(w, b, h, g, m);
    } else if exists e: End :: Discardable(w.s, e) {
      var e: End :| Discardable(w.s, e);
      if m == ListOf(w.s.cs.inbound, e)[0] { acts := DiscardEmpties(w, e, m); }
      else {
        acts := [Base(Discard(e))];
        TurnsOne(w, acts[0]);
        DiscardStep(w, b, e, g, m);
      }
    } else {
      acts := TearDown(w, b, g, m);
    }
  }

  /** Both ends of the channel are gone, and there is a message left. */
  ghost predicate Discardable(s: State, e: End) {
    e in s.cs.dead && Peer(e) in s.cs.dead && ListOf(s.cs.inbound, e) != []
  }

  lemma TearDown(w: World, b: Bounds, g: End, m: nat) returns (acts: seq<Act>)
    requires Whole(w) && AllIdle(w.s) && NothingToRead(w.s) && Within(w.s, b) && m in ListOf(w.s.cs.inbound, g)
    requires w.ps.calls == map[] && !Still(w) && forall e: End :: !Discardable(w.s, e)
    ensures Goes(w, Turns(w, acts), b, g, m) && Less(Turns(w, acts), w, b)
  {
    if exists t: nat, d: HandleId :: t != KERNEL && LiveIn(w.s, t, d) {
      var t: nat, d: HandleId :| t != KERNEL && LiveIn(w.s, t, d);
      acts := LetGo(w, b, t, d, g, m);
    } else {
      var a := TearOne(w, b, g, m);
      acts := [a];
      TurnsOne(w, a);
    }
  }

  /** A task closes a handle; a port is unbound first. */
  lemma LetGo(w: World, b: Bounds, task: nat, d: HandleId, g: End, m: nat) returns (acts: seq<Act>)
    requires Whole(w) && AllIdle(w.s) && NothingToRead(w.s) && Within(w.s, b) && m in ListOf(w.s.cs.inbound, g)
    requires w.ps.calls == map[] && task != KERNEL && LiveIn(w.s, task, d)
    ensures Goes(w, Turns(w, acts), b, g, m) && Less(Turns(w, acts), w, b)
  {
    var n := ItemIn(w.s, task, d).tag;
    assert EntryOk(w.s, task, d);
    if ToBusyPort(w, n) {
      var x :| x in w.ps.bonds && PortAt(w.s.hs.minted[n].target) == Some(x.port);
      acts := UnbindStep(w, b, task, d, x, g, m);
    } else {
      acts := [Base(CloseHandle(task, d))];
      TurnsOne(w, acts[0]);
      CloseStep(w, b, task, d, g, m);
    }
  }

  lemma TearOne(w: World, b: Bounds, g: End, m: nat) returns (a: Act)
    requires Whole(w) && AllIdle(w.s) && NothingToRead(w.s) && Within(w.s, b) && m in ListOf(w.s.cs.inbound, g)
    requires w.ps.calls == map[] && !Still(w) && forall e: End :: !Discardable(w.s, e)
    requires forall t: nat, d: HandleId | t != KERNEL :: !LiveIn(w.s, t, d)
    ensures Goes(w, Turn(w, a), b, g, m) && Less(Turn(w, a), w, b)
  {
    if exists k: nat :: StageOf(w.s.ms.stage, k).Dying? && CargoOf(w.s.ms.cargo, k) != [] {
      var k: nat :| StageOf(w.s.ms.stage, k).Dying? && CargoOf(w.s.ms.cargo, k) != [];
      a := Base(Bury(k));
      BuryStep(w, b, k, g, m);
    } else if w.ps.loose != {} {
      var x :| x in w.ps.loose;
      a := Port(Unhook(x));
      UnhookStep(w, b, x, g, m);
    } else if exists p: nat :: MayEnd(w, p) {
      var p: nat :| MayEnd(w, p);
      a := Port(EndPort(p));
      EndPortStep(w, b, p, g, m);
    } else {
      assert forall e: End | e in w.s.cs.dead && Peer(e) in w.s.cs.dead :: !Discardable(w.s, e);
      var e: End :| MayDestroy(w, e);
      a := Base(Destroy(e));
      DestroyStep(w, b, e, g, m);
    }
  }

  /** What is not stuck some run takes out of escrow. */
  lemma {:induction false} Frees(w: World, b: Bounds, g: End, m: nat, id: HandleId) returns (acts: seq<Act>)
    requires Whole(w) && Calm(w.s) && Within(w.s, b) && m in ListOf(w.s.cs.inbound, g) && id in CargoOf(w.s.ms.cargo, m)
    requires LiveIn(w.s, KERNEL, id)
    ensures Stuck(w, g) || Left(Turns(w, acts).s, ItemIn(w.s, KERNEL, id).tag)
    decreases Busy(w.s, b), w.ps.calls.Keys, Waiting(w.s, b), w.ps.bonds, Running(w.ps), w.ps.loose, Open(w.s, b),
      Alive(w.s, b)
  {
    acts := [];
    if Still(w) { StillStuck(w, g); }
    else {
      var first := Onward(w, b, g, m);
      var w1 := Turns(w, first);
      acts := first;
      if !Emptied(w.s, w1.s, m) {
        var rest := Frees(w1, b, g, m, id);
        acts := first + rest;
        TurnsAppend(w, first, rest);
      }
    }
  }

  lemma {:induction false} BoundsOf(acts: seq<Action>) returns (b: Bounds)
    ensures Within(Runs(Initial(), acts), b)
  {
    b := Bounds({}, {}, {}, {});
    if acts != [] {
      b := BoundsOf(acts[..|acts| - 1]);
      var s, a := Runs(Initial(), acts[..|acts| - 1]), acts[|acts| - 1];
      RunKeeps(acts[..|acts| - 1]);
      OtherThreads(s, a);
      if a.Mint? { b := b.(tags := b.tags + {a.tag}); }
      else if a.NewPair? {
        b := b.(tags := b.tags + {a.tag, a.tag'}, ends := b.ends + {End(a.pair, false), End(a.pair, true)});
      }
      else if a.Send? { b := b.(msgs := b.msgs + {a.msg}, threads := b.threads + {a.thread}); }
      else if a.Go? || a.Receive? { b := b.(threads := b.threads + {a.thread}); }
      StepWithin(s, a);
    }
  }

  /** In every reachable state with no send half done: a queued handle is never received and never closed,
      whatever happens, exactly when it is stuck. */
  lemma StuckExactly(acts: seq<Act>, g: End, m: nat, id: HandleId)
    requires var s := Turns(Start(), acts).s; Calm(s) && m in ListOf(s.cs.inbound, g) && id in CargoOf(s.ms.cargo, m)
    ensures LiveIn(Turns(Start(), acts).s, KERNEL, id)
    ensures var w := Turns(Start(), acts);
      Stuck(w, g) <==> forall more: seq<Act> :: Escrowed(Turns(w, more).s, ItemIn(w.s, KERNEL, id).tag)
  {
    TurnsFromStart(acts);
    var w := Turns(Start(), acts);
    assert MessageOk(w.s, m);
    var n := ItemIn(w.s, KERNEL, id).tag;
    if Stuck(w, g) {
      forall more: seq<Act> ensures Escrowed(Turns(w, more).s, n) { StuckStays(w, g, m, id, more); }
    } else {
      var below := RunsBelow(Start(), acts);
      var b := BoundsOf(below);
      var more := Frees(w, b, g, m, id);
      assert !Escrowed(Turns(w, more).s, n);
    }
  }

  /** Some run from here brings the handle into a task's table. */
  ghost predicate Obtainable(w: World, n: nat) {
    exists acts: seq<Act>, task: nat, d: HandleId :: task != KERNEL && Under(Turns(w, acts).s, n, task, d)
  }

  /** Ports make no difference to what can be received. */
  lemma ObtainableIffReached(acts: seq<Act>, e: End, m: nat, id: HandleId)
    requires var s := Turns(Start(), acts).s; m in ListOf(s.cs.inbound, e) && id in CargoOf(s.ms.cargo, m)
    ensures LiveIn(Turns(Start(), acts).s, KERNEL, id)
    ensures var w := Turns(Start(), acts); Reach(w.s, e) ==> Obtainable(w, ItemIn(w.s, KERNEL, id).tag)
    ensures var w := Turns(Start(), acts); Obtainable(w, ItemIn(w.s, KERNEL, id).tag) ==> MayReach(w.s, e)
    ensures var s := Turns(Start(), acts).s; Calm(s) ==> (Reach(s, e) <==> MayReach(s, e))
  {
    TurnsFromStart(acts);
    var w := Turns(Start(), acts);
    assert MessageOk(w.s, m) && QueueOk(w.s, e);
    var n := ItemIn(w.s, KERNEL, id).tag;
    if Reach(w.s, e) {
      var below := RunsBelow(Start(), acts);
      var idle := IdleBeyond(below);
      var more, task, d := CanBeReceived(w.s, e, m, id, idle);
      LiftReceives(w, more);
      assert Under(Turns(w, Lift(more)).s, n, task, d);
    }
    if Obtainable(w, n) && !MayReach(w.s, e) {
      var more: seq<Act>, task: nat, d: HandleId :| task != KERNEL && Under(Turns(w, more).s, n, task, d);
      var below := RunsBelow(w, more);
      NeverReceived(w.s, e, m, id, below, task, d);
    }
    if Calm(w.s) { CalmReach(w.s, e); }
  }
}
