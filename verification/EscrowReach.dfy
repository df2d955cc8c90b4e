/** When a queued handle can still be received: its channel must be reachable, through queues and messages
    being sent, from an endpoint a task or a thread holds. What can not be reached stays out of reach. */
module EscrowReach {

  import opened Basics
  import opened Escrow
  import opened EscrowTheorems

  predicate Receiving(pc: Pc) { pc.Unpacking? || pc.Delivering? }

  predicate Sending(pc: Pc) { pc.Staging? || pc.Moving? || pc.Writing? }

  /** No thread is in the middle of a send. */
  ghost predicate Calm(s: State) { forall t: nat :: PcOf(s.pc, t).Idle? || Receiving(PcOf(s.pc, t)) }

  /** Some task has the endpoint's handle in its table. */
  ghost predicate InTable(s: State, e: End) {
    exists t: nat, id: HandleId :: t != KERNEL && LiveIn(s, t, id) && EndAt(ItemIn(s, t, id).cap.target) == Some(e)
  }

  /** A thread has the endpoint's handle in its hand, or in the message it is busy with. */
  ghost predicate Has(s: State, t: nat, e: End) {
    var pc := PcOf(s.pc, t);
    && !pc.Idle?
    && ((HandOf(pc).Some? && EndAt(HandOf(pc).value.cap.target) == Some(e))
        || exists id | id in CargoOf(s.ms.cargo, pc.msg) :: Carried(s, id) == Some(e))
  }

  /** A thread has received the endpoint's handle and is bringing it to its task's table. */
  ghost predicate Brings(s: State, t: nat, e: End) { Receiving(PcOf(s.pc, t)) && Has(s, t, e) }

  ghost predicate InReach(s: State, e: End) { InTable(s, e) || exists t: nat :: Brings(s, t, e) }

  /** A message that e can read carries f. */
  ghost predicate Leads(s: State, e: End, f: End) {
    exists m: nat, id: HandleId ::
      m in ListOf(s.cs.inbound, e) && id in CargoOf(s.ms.cargo, m) && Carried(s, id) == Some(f)
  }

  /** A message on its way to e's queue carries f. */
  ghost predicate Underway(s: State, e: End, f: End) {
    exists t: nat :: Sending(PcOf(s.pc, t)) && Peer(PcOf(s.pc, t).end) == e && Has(s, t, f)
  }

  /** From an endpoint a task or thread holds, each next endpoint is in the queue of the one before; or, when
      wide, perhaps on its way there. */
  ghost predicate Path(s: State, p: seq<End>, wide: bool) {
    p != [] && NoDup(p) && InReach(s, p[0]) && forall i | 0 <= i < |p| - 1 :: Edge(s, p[i], p[i + 1], wide)
  }

  ghost predicate Edge(s: State, e: End, f: End, wide: bool) { Leads(s, e, f) || (wide && Underway(s, e, f)) }

  ghost predicate ReachBy(s: State, e: End, wide: bool) { exists p: seq<End> :: Path(s, p, wide) && p[|p| - 1] == e }

  ghost predicate Reach(s: State, e: End) { ReachBy(s, e, false) }

  ghost predicate MayReach(s: State, e: End) { ReachBy(s, e, true) }

  lemma ReachStart(s: State, e: End, wide: bool)
    requires InReach(s, e)
    ensures ReachBy(s, e, wide)
  {
    assert Path(s, [e], wide);
  }

  lemma ReachOn(s: State, e: End, f: End, wide: bool)
    requires ReachBy(s, e, wide) && Edge(s, e, f, wide)
    ensures ReachBy(s, f, wide)
  {
    var p :| Path(s, p, wide) && p[|p| - 1] == e;
    if f in p { CutPath(s, p, f, wide); } else { LongerPath(s, p, f, wide); }
  }

  lemma CutPath(s: State, p: seq<End>, f: End, wide: bool)
    requires Path(s, p, wide) && f in p
    ensures ReachBy(s, f, wide)
  {
    var i :| 0 <= i < |p| && p[i] == f;
    var q := p[..i + 1];
    forall j | 0 <= j < |q| - 1 ensures Edge(s, q[j], q[j + 1], wide) { assert Edge(s, p[j], p[j + 1], wide); }
    assert Path(s, q, wide) && q[|q| - 1] == f;
  }

  lemma LongerPath(s: State, p: seq<End>, f: End, wide: bool)
    requires Path(s, p, wide) && f !in p && Edge(s, p[|p| - 1], f, wide)
    ensures ReachBy(s, f, wide)
  {
    var q := p + [f];
    forall i | 0 <= i < |q| - 1 ensures Edge(s, q[i], q[i + 1], wide) {
      if i < |p| - 1 { assert Edge(s, p[i], p[i + 1], wide); }
    }
    assert Path(s, q, wide) && q[|q| - 1] == f;
  }

  /** With no send under way the two are the same. */
  lemma CalmReach(s: State, e: End)
    requires Calm(s)
    ensures Reach(s, e) <==> MayReach(s, e)
  {
    if Reach(s, e) {
      var p :| Path(s, p, false) && p[|p| - 1] == e;
      forall i | 0 <= i < |p| - 1 ensures Edge(s, p[i], p[i + 1], true) { assert Edge(s, p[i], p[i + 1], false); }
      assert Path(s, p, true);
    }
    if MayReach(s, e) {
      var p :| Path(s, p, true) && p[|p| - 1] == e;
      forall i | 0 <= i < |p| - 1 ensures Edge(s, p[i], p[i + 1], false) { assert Edge(s, p[i], p[i + 1], true); }
      assert Path(s, p, false);
    }
  }

  // ---------------------------------------------------------------- what can not be reached stays where it is

  /** The message waits on a queue of the sealed endpoints, is on its way to one, or is dying. */
  ghost predicate Safe(s: State, z: iset<End>, m: nat) {
    var st := StageOf(s.ms.stage, m);
    || st.Dying? || (st.Queued? && st.end in z)
    || (st.Held? && Sending(PcOf(s.pc, st.thread)) && Peer(PcOf(s.pc, st.thread).end) in z)
  }

  ghost predicate Inside(s: State, z: iset<End>, id: HandleId) { id in s.ms.owner && Safe(s, z, s.ms.owner[id]) }

  /** A sealed endpoint's handle, or one of the handles in question. */
  ghost predicate Marked(z: iset<End>, g: iset<nat>, x: Item) {
    x.tag in g || (EndAt(x.cap.target).Some? && EndAt(x.cap.target).value in z)
  }

  ghost predicate SealedAt(s: State, z: iset<End>, g: iset<nat>, t: nat, id: HandleId) {
    LiveIn(s, t, id) && Marked(z, g, ItemIn(s, t, id)) ==> t == KERNEL && Inside(s, z, id)
  }

  /** A hand has nothing marked, unless it is on its way to a sealed queue. */
  ghost predicate HandClear(s: State, z: iset<End>, g: iset<nat>, t: nat) {
    var pc := PcOf(s.pc, t);
    HandOf(pc).Some? && Marked(z, g, HandOf(pc).value) ==> Sending(pc) && Peer(pc.end) in z
  }

  ghost predicate Sealed(s: State, z: iset<End>, g: iset<nat>) {
    && (forall t: nat, id: HandleId {:trigger SealedAt(s, z, g, t, id)} :: SealedAt(s, z, g, t, id))
    && (forall t: nat {:trigger HandClear(s, z, g, t)} :: HandClear(s, z, g, t))
    && (forall e: End | e in z :: e.pair in s.cs.made) && (forall n: nat | n in g :: n in s.hs.place)
  }

  ghost predicate SafeStays(s: State, s': State, z: iset<End>) { forall m: nat | Safe(s, z, m) :: Safe(s', z, m) }

  ghost predicate ThreadsBut(s: State, s': State, u: nat) {
    forall t: nat | t != u :: PcOf(s'.pc, t) == PcOf(s.pc, t)
  }

  /** A step keeps the seal if every entry there is now was there before or is not marked. */
  lemma SealStays(s: State, s': State, u: nat, z: iset<End>, g: iset<nat>)
    requires Sealed(s, z, g) && SafeStays(s, s', z)
    requires forall id: HandleId | id in s.ms.owner && LiveIn(s, KERNEL, id) ::
      id in s'.ms.owner && s'.ms.owner[id] == s.ms.owner[id]
    requires forall t: nat, id: HandleId | LiveIn(s', t, id) && Marked(z, g, ItemIn(s', t, id)) ::
      (LiveIn(s, t, id) && ItemIn(s, t, id) == ItemIn(s', t, id)) || SealedAt(s', z, g, t, id)
    requires ThreadsBut(s, s', u) && HandClear(s', z, g, u)
    requires s.cs.made <= s'.cs.made && forall n: nat | n in s.hs.place :: n in s'.hs.place
    ensures Sealed(s', z, g)
  {
    forall t: nat, id: HandleId ensures SealedAt(s', z, g, t, id) {
      if LiveIn(s', t, id) && Marked(z, g, ItemIn(s', t, id)) { assert SealedAt(s, z, g, t, id); }
    }
    forall t: nat ensures HandClear(s', z, g, t) { assert HandClear(s, z, g, t); }
  }

  /** Nothing of a message that is not safe is marked. */
  lemma HeldUnmarked(s: State, z: iset<End>, g: iset<nat>, m: nat, id: HandleId)
    requires Inv(s) && Sealed(s, z, g) && id in CargoOf(s.ms.cargo, m) && !Safe(s, z, m)
    ensures LiveIn(s, KERNEL, id) && !Marked(z, g, ItemIn(s, KERNEL, id))
  {
    assert MessageOk(s, m) && SealedAt(s, z, g, KERNEL, id);
  }

  lemma TookSealed(s: State, t: nat, z: iset<End>, g: iset<nat>)
    requires Inv(s) && Sealed(s, z, g) && PcOf(s.pc, t).Staging? && PcOf(s.pc, t).todo != []
    requires LiveIn(s, PcOf(s.pc, t).task, PcOf(s.pc, t).todo[0])
    ensures Sealed(Took(s, t), z, g)
  {
    var pc := PcOf(s.pc, t);
    assert ThreadOk(s, t) && SealedAt(s, z, g, pc.task, pc.todo[0]);
    SealStays(s, Took(s, t), t, z, g);
  }

  lemma StowedSealed(s: State, t: nat, id: HandleId, z: iset<End>, g: iset<nat>)
    requires Inv(s) && Sealed(s, z, g) && PcOf(s.pc, t).Moving? && NewIn(s, KERNEL, id)
    ensures Sealed(Stowed(s, t, id), z, g)
  {
    var s' := Stowed(s, t, id);
    assert ThreadOk(s, t) && EntryOk(s, KERNEL, id) && EscrowOk(s, id) && HandClear(s, z, g, t);
    assert SealedAt(s', z, g, KERNEL, id);
    SealStays(s, s', t, z, g);
  }

  lemma UnpackedSealed(s: State, t: nat, z: iset<End>, g: iset<nat>)
    requires Inv(s) && Sealed(s, z, g) && PcOf(s.pc, t).Unpacking? && CargoOf(s.ms.cargo, PcOf(s.pc, t).msg) != []
    requires LiveIn(s, KERNEL, CargoOf(s.ms.cargo, PcOf(s.pc, t).msg)[0])
    ensures Sealed(Unpacked(s, t), z, g)
  {
    var m := PcOf(s.pc, t).msg;
    assert ThreadOk(s, t);
    HeldUnmarked(s, z, g, m, CargoOf(s.ms.cargo, m)[0]);
    SealStays(s, Unpacked(s, t), t, z, g);
  }

  lemma DeliveredSealed(s: State, t: nat, id: HandleId, z: iset<End>, g: iset<nat>)
    requires Inv(s) && Sealed(s, z, g) && PcOf(s.pc, t).Delivering? && NewIn(s, PcOf(s.pc, t).task, id)
    ensures Sealed(Deliver(s, t, true, id), z, g)
  {
    assert ThreadOk(s, t) && HandClear(s, z, g, t);
    SealStays(s, Deliver(s, t, true, id), t, z, g);
  }

  /** A step that puts nothing into any table or hand. */
  lemma FewerSealed(s: State, s': State, u: nat, z: iset<End>, g: iset<nat>)
    requires Sealed(s, z, g) && SafeStays(s, s', z) && s'.ms.owner == s.ms.owner
    requires forall t: nat, id: HandleId | LiveIn(s', t, id) ::
      LiveIn(s, t, id) && ItemIn(s', t, id) == ItemIn(s, t, id)
    requires ThreadsBut(s, s', u) && (HandOf(PcOf(s'.pc, u)).None? || PcOf(s'.pc, u) == PcOf(s.pc, u))
    requires s.cs.made <= s'.cs.made && forall n: nat | n in s.hs.place :: n in s'.hs.place
    ensures Sealed(s', z, g)
  {
    assert HandClear(s, z, g, u);
    SealStays(s, s', u, z, g);
  }

  lemma AdvanceSealed(s: State, t: nat, ok: bool, id: HandleId, z: iset<End>, g: iset<nat>)
    requires Inv(s) && Sealed(s, z, g)
    ensures Sealed(Advance(s, t, ok, id), z, g)
  {
    var pc := PcOf(s.pc, t);
    if pc.Staging? && pc.todo != [] && LiveIn(s, pc.task, pc.todo[0]) { TookSealed(s, t, z, g); }
    else if pc.Moving? && ok && NewIn(s, KERNEL, id) { StowedSealed(s, t, id, z, g); }
    else if pc.Unpacking? && CargoOf(s.ms.cargo, pc.msg) != [] {
      CargoIsLive(s, pc.msg);
      UnpackedSealed(s, t, z, g);
    }
    else if pc.Delivering? && ok && NewIn(s, pc.task, id) { DeliveredSealed(s, t, id, z, g); }
    else if Sending(pc) { SendingSealed(s, t, ok, id, z, g); }
    else { EndSealed(s, t, ok, id, z, g); }
  }

  lemma SendingSealed(s: State, t: nat, ok: bool, id: HandleId, z: iset<End>, g: iset<nat>)
    requires Inv(s) && Sealed(s, z, g) && Sending(PcOf(s.pc, t))
    requires var pc := PcOf(s.pc, t);
      !(pc.Staging? && pc.todo != [] && LiveIn(s, pc.task, pc.todo[0])) && !(pc.Moving? && ok && NewIn(s, KERNEL, id))
    ensures Sealed(Advance(s, t, ok, id), z, g)
  {
    var pc, s' := PcOf(s.pc, t), Advance(s, t, ok, id);
    assert ThreadOk(s, t);
    if pc.Moving? && ok { assert s' == s; }
    else {
      SendingSafe(s, t, ok, id, z);
      FewerSealed(s, s', t, z, g);
    }
  }

  lemma SendingSafe(s: State, t: nat, ok: bool, id: HandleId, z: iset<End>)
    requires Inv(s) && Sending(PcOf(s.pc, t))
    ensures SafeStays(s, Advance(s, t, ok, id), z)
  {
    assert ThreadOk(s, t);
    var m, s' := PcOf(s.pc, t).msg, Advance(s, t, ok, id);
    SendingStages(s, t, ok, id);
    forall n: nat | Safe(s, z, n) ensures Safe(s', z, n) { assert MessageOk(s, n); }
  }

  /** The message t was sending is still in its hands, or is on the queue it was meant for, or is dying. */
  ghost predicate Sends(s: State, s': State, t: nat) {
    var pc := PcOf(s.pc, t);
    !pc.Idle? && SendsOne(s, s', t, pc.end, pc.msg)
  }

  ghost predicate SendsOne(s: State, s': State, t: nat, e: End, m: nat) {
    var st := StageOf(s'.ms.stage, m);
    && ThreadsBut(s, s', t) && (forall n: nat | n != m :: StageOf(s'.ms.stage, n) == StageOf(s.ms.stage, n))
    && (|| st.Dying? || st == Queued(Peer(e))
        || (st == Held(t) && Sending(PcOf(s'.pc, t)) && PcOf(s'.pc, t).end == e))
  }

  lemma SendingStages(s: State, t: nat, ok: bool, id: HandleId)
    requires Sending(PcOf(s.pc, t)) && StageOf(s.ms.stage, PcOf(s.pc, t).msg) == Held(t)
    ensures Sends(s, Advance(s, t, ok, id), t)
  {
    if PcOf(s.pc, t).Moving? { EscrowStages(s, t, ok, id); }
    else if PcOf(s.pc, t).Writing? { WriteStages(s, t); }
    else if PcOf(s.pc, t).todo != [] { TakeStages(s, t); }
  }

  lemma TakeStages(s: State, t: nat)
    requires PcOf(s.pc, t).Staging? && PcOf(s.pc, t).todo != [] && StageOf(s.ms.stage, PcOf(s.pc, t).msg) == Held(t)
    ensures Sends(s, TakeNext(s, t), t)
  {
  }

  lemma EscrowStages(s: State, t: nat, ok: bool, id: HandleId)
    requires PcOf(s.pc, t).Moving? && StageOf(s.ms.stage, PcOf(s.pc, t).msg) == Held(t)
    ensures Sends(s, EscrowNext(s, t, ok, id), t)
  {
  }

  lemma WriteStages(s: State, t: nat)
    requires PcOf(s.pc, t).Writing? && StageOf(s.ms.stage, PcOf(s.pc, t).msg) == Held(t)
    ensures Sends(s, Write(s, t), t)
  {
  }

  /** A receive that ends, or whose handle finds no room. */
  lemma EndSealed(s: State, t: nat, ok: bool, id: HandleId, z: iset<End>, g: iset<nat>)
    requires Inv(s) && Sealed(s, z, g) && !Sending(PcOf(s.pc, t))
    requires var pc := PcOf(s.pc, t);
      !(pc.Unpacking? && CargoOf(s.ms.cargo, pc.msg) != []) && !(pc.Delivering? && ok && NewIn(s, pc.task, id))
    ensures Sealed(Advance(s, t, ok, id), z, g)
  {
    var pc, s' := PcOf(s.pc, t), Advance(s, t, ok, id);
    assert ThreadOk(s, t);
    if pc.Idle? || (pc.Delivering? && ok) { assert s' == s; }
    else { FewerSealed(s, s', t, z, g); }
  }

  lemma ReadSealed(s: State, t: nat, task: nat, via: HandleId, fits: bool, z: iset<End>, g: iset<nat>)
    requires Inv(s) && Sealed(s, z, g) && PcOf(s.pc, t).Idle? && Holds(s, task, via, {READ})
    ensures Sealed(Read(s, t, task, ViaEnd(s, task, via, {READ}), fits), z, g)
  {
    var e := ViaEnd(s, task, via, {READ});
    assert SealedAt(s, z, g, task, via) && QueueOk(s, e);
    if ListOf(s.cs.inbound, e) != [] {
      assert ListOf(s.cs.inbound, e)[0] in ListOf(s.cs.inbound, e);
      ReadSafe(s, t, task, e, fits, z);
      FewerSealed(s, Read(s, t, task, e, fits), t, z, g);
    }
  }

  lemma ReadSafe(s: State, t: nat, task: nat, e: End, fits: bool, z: iset<End>)
    requires Inv(s) && PcOf(s.pc, t).Idle? && e !in z && ListOf(s.cs.inbound, e) != []
    ensures SafeStays(s, Read(s, t, task, e, fits), z)
  {
    var m := ListOf(s.cs.inbound, e)[0];
    assert QueueOk(s, e) && m in ListOf(s.cs.inbound, e);
    forall n: nat | Safe(s, z, n) ensures Safe(Read(s, t, task, e, fits), z, n) { assert MessageOk(s, n); }
  }

  lemma BornSealed(s: State, task: nat, id: HandleId, x: Item, z: iset<End>, g: iset<nat>)
    requires Sealed(s, z, g) && x.tag !in s.hs.place && (EndAt(x.cap.target).Some? ==> EndAt(x.cap.target).value !in z)
    requires task != KERNEL
    ensures Sealed(Born(s, task, id, x), z, g)
  {
    assert HandClear(s, z, g, 0);
    SealStays(s, Born(s, task, id, x), 0, z, g);
  }

  lemma PairSealed(s: State, task: nat, pair: nat, id: HandleId, id': HandleId, tag: nat, tag': nat, z: iset<End>,
                   g: iset<nat>)
    requires Sealed(s, z, g) && MayPair(s, task, pair, id, id', tag, tag')
    ensures Sealed(Paired(s, task, pair, id, id', tag, tag'), z, g)
  {
    NumberBack(End(pair, false));
    NumberBack(End(pair, true));
    assert End(pair, false) !in z && End(pair, true) !in z;
    var made := s.(cs := s.cs.(made := s.cs.made + {pair}));
    assert HandClear(s, z, g, 0);
    SealStays(s, made, 0, z, g);
    BornSealed(made, task, id, EndItem(tag, End(pair, false)), z, g);
    BornSealed(Born(made, task, id, EndItem(tag, End(pair, false))), task, id', EndItem(tag', End(pair, true)), z, g);
  }

  lemma StepSealed(s: State, a: Action, z: iset<End>, g: iset<nat>)
    requires Inv(s) && Sealed(s, z, g)
    ensures Sealed(Step(s, a), z, g)
  {
    match a
    case Mint(task, id, tag, cap) => if MayMint(s, task, id, tag, cap) {
      BornSealed(s, task, id, Item(tag, cap), z, g);
    }
    case NewPair(task, pair, id, id', tag, tag') =>
      if MayPair(s, task, pair, id, id', tag, tag') { PairSealed(s, task, pair, id, id', tag, tag', z, g); }
    case Go(t, ok, id) => AdvanceSealed(s, t, ok, id, z, g);
    case Receive(t, task, via, fits) =>
      if PcOf(s.pc, t).Idle? && Holds(s, task, via, {READ}) { ReadSealed(s, t, task, via, fits, z, g); }
    case Send(t, task, via, m, todo) =>
      if PcOf(s.pc, t).Idle? && StageOf(s.ms.stage, m).Unused? && Holds(s, task, via, SendRights(todo)) {
        FewerSealed(s, StartSend(s, t, ViaEnd(s, task, via, SendRights(todo)), task, m, todo), t, z, g);
      }
    case CloseHandle(task, id) => if task != KERNEL && LiveIn(s, task, id) {
      FewerSealed(s, TakeOut(s, task, id, Closed), 0, z, g);
    }
    case _ => EndingSealed(s, a, z, g);
  }

  lemma EndingSealed(s: State, a: Action, z: iset<End>, g: iset<nat>)
    requires Inv(s) && Sealed(s, z, g) && (a.Bury? || a.Destroy? || a.Discard?)
    ensures Sealed(Step(s, a), z, g)
  {
    match a
    case Bury(m) => BurySealed(s, m, z, g);
    case Destroy(e) => DestroySealed(s, e, z, g);
    case Discard(e) => DiscardSealed(s, e, z, g);
  }

  lemma BurySealed(s: State, m: nat, z: iset<End>, g: iset<nat>)
    requires Sealed(s, z, g)
    ensures Sealed(BuryNext(s, m), z, g)
  {
    FewerSealed(s, BuryNext(s, m), 0, z, g);
  }

  lemma DestroySealed(s: State, e: End, z: iset<End>, g: iset<nat>)
    requires Sealed(s, z, g)
    ensures Sealed(s.(cs := s.cs.(dead := s.cs.dead + {e})), z, g)
  {
    FewerSealed(s, s.(cs := s.cs.(dead := s.cs.dead + {e})), 0, z, g);
  }

  lemma DiscardSealed(s: State, e: End, z: iset<End>, g: iset<nat>)
    requires Sealed(s, z, g)
    ensures Sealed(DiscardNext(s, e), z, g)
  {
    FewerSealed(s, DiscardNext(s, e), 0, z, g);
  }

  lemma {:induction false} RunsSealed(s: State, acts: seq<Action>, z: iset<End>, g: iset<nat>)
    requires Inv(s) && Sealed(s, z, g)
    ensures Sealed(Runs(s, acts), z, g)
  {
    if acts != [] {
      RunsSealed(s, acts[..|acts| - 1], z, g);
      RunsKeep(s, acts[..|acts| - 1]);
      StepSealed(Runs(s, acts[..|acts| - 1]), acts[|acts| - 1], z, g);
    }
  }

  ghost function Unreachable(s: State): iset<End> { iset e: End | e.pair in s.cs.made && !MayReach(s, e) }

  /** The handle waits on the endpoint's queue. */
  ghost predicate WaitsOn(s: State, e: End, n: nat) {
    exists m: nat, id: HandleId ::
        m in ListOf(s.cs.inbound, e) && id in CargoOf(s.ms.cargo, m) && Under(s, n, KERNEL, id)
  }

  ghost function TagsOn(s: State, e: End): iset<nat> { iset n: nat | WaitsOn(s, e, n) }

  lemma SealStarts(s: State, e: End)
    requires Inv(s) && e in Unreachable(s)
    ensures Sealed(s, Unreachable(s), TagsOn(s, e))
  {
    var z, g := Unreachable(s), TagsOn(s, e);
    forall t: nat, id: HandleId ensures SealedAt(s, z, g, t, id) {
      if LiveIn(s, t, id) && Marked(z, g, ItemIn(s, t, id)) { SealStartsAt(s, e, t, id); }
    }
    forall t: nat ensures HandClear(s, z, g, t) {
      if HandOf(PcOf(s.pc, t)).Some? { HandStarts(s, e, t); }
    }
    forall n: nat | n in g ensures n in s.hs.place {
      var m: nat, id: HandleId :| m in ListOf(s.cs.inbound, e) && id in CargoOf(s.ms.cargo, m)
          && Under(s, n, KERNEL, id);
      assert EntryOk(s, KERNEL, id);
    }
  }

  lemma SealStartsAt(s: State, e: End, t: nat, id: HandleId)
    requires Inv(s) && e in Unreachable(s) && LiveIn(s, t, id)
    requires Marked(Unreachable(s), TagsOn(s, e), ItemIn(s, t, id))
    ensures t == KERNEL && Inside(s, Unreachable(s), id)
  {
    var x := ItemIn(s, t, id);
    assert EntryOk(s, t, id);
    if x.tag in TagsOn(s, e) {
      var m: nat, d: HandleId :| m in ListOf(s.cs.inbound, e) && d in CargoOf(s.ms.cargo, m)
          && Under(s, x.tag, KERNEL, d);
      assert EntryOk(s, KERNEL, d) && QueueOk(s, e) && MessageOk(s, m);
    } else {
      var f := EndAt(x.cap.target).value;
      if t != KERNEL { ReachStart(s, f, true); }
      EndStarts(s, f, id);
    }
  }

  lemma EndStarts(s: State, f: End, id: HandleId)
    requires Inv(s) && f in Unreachable(s) && Carried(s, id) == Some(f)
    ensures Inside(s, Unreachable(s), id)
  {
    assert EscrowOk(s, id);
    var m := s.ms.owner[id];
    var st := StageOf(s.ms.stage, m);
    assert MessageOk(s, m);
    if st.Queued? {
      assert QueueOk(s, st.end);
      assert m in ListOf(s.cs.inbound, st.end) && id in CargoOf(s.ms.cargo, m) && Carried(s, id) == Some(f);
      assert Leads(s, st.end, f);
      if MayReach(s, st.end) { ReachOn(s, st.end, f, true); }
    }
    if st.Held? { HasStarts(s, st.thread, f); }
  }

  /** A thread that has an endpoint out of reach is sending it to a queue out of reach. */
  lemma HasStarts(s: State, t: nat, f: End)
    requires Inv(s) && f in Unreachable(s) && Has(s, t, f)
    ensures Sending(PcOf(s.pc, t)) && Peer(PcOf(s.pc, t).end) in Unreachable(s)
  {
    var pc := PcOf(s.pc, t);
    assert ThreadOk(s, t);
    if Receiving(pc) {
      assert Brings(s, t, f);
      ReachStart(s, f, true);
    } else {
      assert Underway(s, Peer(pc.end), f);
      if MayReach(s, Peer(pc.end)) { ReachOn(s, Peer(pc.end), f, true); }
    }
  }

  lemma HandStarts(s: State, e: End, t: nat)
    requires Inv(s) && e in Unreachable(s) && HandOf(PcOf(s.pc, t)).Some?
    ensures HandClear(s, Unreachable(s), TagsOn(s, e), t)
  {
    var x := HandOf(PcOf(s.pc, t)).value;
    assert ThreadOk(s, t);
    if x.tag in TagsOn(s, e) {
      var m: nat, d: HandleId :| m in ListOf(s.cs.inbound, e) && d in CargoOf(s.ms.cargo, m)
          && Under(s, x.tag, KERNEL, d);
      HandApart(s, t, KERNEL, d);
    } else if EndAt(x.cap.target).Some? && EndAt(x.cap.target).value in Unreachable(s) {
      HasStarts(s, t, EndAt(x.cap.target).value);
    }
  }

  /** What waits on a queue that can not be reached, not even through what is being sent, is never received:
      no run brings it into a task's table. */
  lemma NeverReceived(s: State, e: End, m: nat, id: HandleId, acts: seq<Action>, t: nat, d: HandleId)
    requires Inv(s) && e.pair in s.cs.made && !MayReach(s, e)
    requires m in ListOf(s.cs.inbound, e) && id in CargoOf(s.ms.cargo, m) && LiveIn(s, KERNEL, id) && t != KERNEL
    ensures !Under(Runs(s, acts), ItemIn(s, KERNEL, id).tag, t, d)
  {
    var n := ItemIn(s, KERNEL, id).tag;
    assert Under(s, n, KERNEL, id) && n in TagsOn(s, e);
    SealStarts(s, e);
    RunsSealed(s, acts, Unreachable(s), TagsOn(s, e));
    assert SealedAt(Runs(s, acts), Unreachable(s), TagsOn(s, e), t, d);
  }
}
