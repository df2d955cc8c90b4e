/** What every step of the scheduler keeps. */
module SchedInv {
  import opened Basics
  import opened SchedModel

  // ---------------------------------------------------------------- cores and on_cpu

  predicate CoreOk(core: Core, c: nat, cpu: imap<nat, nat>) {
    && core.current in cpu && cpu[core.current] == c
    && (core.previous.Some? ==>
          core.picked.None? && core.previous.value in cpu && cpu[core.previous.value] == c
          && core.previous.value != core.current)
    && (core.picked.Some? ==> core.picked.value !in cpu)
  }

  /** on_cpu is set exactly for the current and the still-switching-out thread of each core. */
  ghost predicate CpuOk(cores: imap<nat, Core>, cpu: imap<nat, nat>) {
    && (forall c | c in cores :: CoreOk(cores[c], c, cpu))
    && (forall t | t in cpu :: cpu[t] in cores && (cores[cpu[t]].current == t || cores[cpu[t]].previous == Some(t)))
  }

  /** t is what its core runs. */
  predicate OnCore(cores: imap<nat, Core>, cpu: imap<nat, nat>, t: nat) {
    t in cpu && cpu[t] in cores && cores[cpu[t]].current == t
  }

  predicate OnExec(cores: imap<nat, Core>, cpu: imap<nat, nat>, t: nat) {
    OnCore(cores, cpu, t) && cores[cpu[t]].previous.None? && cores[cpu[t]].picked.None?
  }

  // ---------------------------------------------------------------- who holds a thread

  function Batch(pc: Pc): seq<nat> { if pc.Readying? then pc.batch else [] }

  /** list names exactly the threads held as h, each once. */
  ghost predicate Lists(list: seq<nat>, hold: imap<nat, Hold>, h: Hold) {
    NoDup(list) && forall t: nat {:trigger t in list} :: t in list <==> HoldOf(hold, t) == h
  }

  ghost predicate QueuesOk(queues: imap<Queue, seq<nat>>, hold: imap<nat, Hold>) {
    forall q {:trigger Lists(QueueOf(queues, q), hold, Node(q))} :: Lists(QueueOf(queues, q), hold, Node(q))
  }

  ghost predicate SleepersOk(sleepers: imap<nat, nat>, hold: imap<nat, Hold>) {
    forall t: nat :: t in sleepers <==> HoldOf(hold, t) == Asleep
  }

  ghost predicate PickedOk(cores: imap<nat, Core>, hold: imap<nat, Hold>) {
    && (forall c: nat | c in cores && cores[c].picked.Some? :: HoldOf(hold, cores[c].picked.value) == PickedBy(c))
    && (forall t: nat | HoldOf(hold, t).PickedBy? ::
          HoldOf(hold, t).core in cores && cores[HoldOf(hold, t).core].picked == Some(t))
  }

  ghost predicate BatchesOk(pc: imap<nat, Pc>, hold: imap<nat, Hold>) {
    forall w: nat {:trigger Lists(Batch(PcOf(pc, w)), hold, WokenBy(w))} :: Lists(Batch(PcOf(pc, w)), hold, WokenBy(w))
  }

  ghost predicate ReapingOk(pc: imap<nat, Pc>, hold: imap<nat, Hold>, reaper: nat) {
    forall t: nat :: HoldOf(hold, t) == Reaping <==> PcOf(pc, reaper) == ReapHold(t)
  }

  ghost predicate HoldsOk(w: World) {
    && Lists(w.runQ, w.hold, RunQueue) && QueuesOk(w.queues, w.hold) && SleepersOk(w.sleepers, w.hold)
    && PickedOk(w.cores, w.hold) && BatchesOk(w.pc, w.hold) && Lists(w.zombies, w.hold, Zombie)
    && ReapingOk(w.pc, w.hold, w.reaper)
  }

  // ---------------------------------------------------------------- a thread's own fields agree

  predicate StateFits(st: TState, h: Hold, idle: bool) {
    match st
    case Unborn => h == Nobody && !idle
    case Ready => (h == RunQueue && !idle) || h.PickedBy? || (h == Nobody && idle)
    case Running => h == Nobody
    case Blocked => (h.Node? || h == Asleep || h.WokenBy?) && !idle
    case Dead => (h == Zombie || h == Reaping || h == Freed) && !idle
  }

  predicate Suspended(pc: Pc) { pc.Leaving? || pc.Away? }

  /** The pcs of a thread that resumes after block_if or sleep_ticks. */
  predicate Continues(after: Pc) {
    after.Run? || (after.WaitDone? && after.mask != {}) || after.LockPark? || after.ReapTop?
  }

  predicate LivePc(pc: Pc) {
    match pc
    case WaitTop(_, mask, _) => mask != {}
    case WaitRegister(_, mask, dl) => mask != {} && dl.Some?
    case WaitPark(_, mask, _) => mask != {}
    case WaitDone(_, mask, _) => mask != {}
    case SigLoad(_, after) => after.Run?
    case SigScan(_, _, after) => after.Run?
    case Readying(batch, after) => batch != [] && (after.Run? || (after.SigScan? && after.after.Run?))
    case Leaving(after) => Continues(after)
    case Away(after) => Continues(after)
    case ExitSignal => false
    case ExitKick => false
    case Halt => false
    case _ => true
  }

  predicate ExitPc(pc: Pc) {
    match pc
    case ExitSignal => true
    case ExitKick => true
    case SigLoad(_, after) => after.ExitKick?
    case SigScan(_, _, after) => after.ExitKick?
    case Readying(batch, after) =>
      batch != [] && (after.ExitKick? || (after.SigScan? && after.after.ExitKick?) || after == Leaving(Halt))
    case Leaving(after) => after.Halt?
    case Away(after) => after.Halt?
    case _ => false
  }

  predicate ReaperPc(pc: Pc) {
    pc.ReapTop? || pc.ReapPark? || pc.ReapHold? || (Suspended(pc) && pc.after.ReapTop?)
  }

  function ParkFor(after: Pc): Option<Park> {
    if after.WaitDone? then Some(Park(ObjQ(after.o), after.mask))
    else if after.LockPark? then Some(Park(MutexQ(after.m), {}))
    else if after.ReapTop? then Some(Park(ReaperQ, {}))
    else None
  }

  function ParkOf(parked: imap<nat, Park>, t: nat): Option<Park> { if t in parked then Some(parked[t]) else None }

  predicate PcFits(st: TState, h: Hold, pc: Pc, park: Option<Park>) {
    && (if st == Dead then ExitPc(pc) else LivePc(pc))
    && (st == Unborn ==> pc.Run?)
    && (park.Some? ==> Suspended(pc) && park == ParkFor(pc.after))
    && (h.Node? ==> park.Some? && park.value.q == h.q)
    && (st == Blocked ==> Suspended(pc) && (park.None? <==> h == Asleep))
    && (st == Blocked && park.None? ==> pc.after.Run?)
  }

  // ---------------------------------------------------------------- threads on cores

  predicate Placed(cores: imap<nat, Core>, cpu: imap<nat, nat>, t: nat, st: TState, h: Hold, pc: Pc) {
    && (st == Running ==> OnCore(cores, cpu, t))
    && (pc.Leaving? ==> OnExec(cores, cpu, t) && st != Running)
    && (ExitPc(pc) && !pc.Away? ==> OnExec(cores, cpu, t))
    && (h == Freed || st == Unborn ==> t !in cpu)
    && (t in cores && t in cpu ==> cpu[t] == t)
    && (t in cores ==> pc.Run? && (h == Nobody || h == PickedBy(t)))
    && (t in cores && h == Nobody ==> t in cpu || st == Ready)
  }

  /** What the thread on a core may be, in each phase of a switch. */
  predicate PhaseOk(core: Core, c: nat, state: imap<nat, TState>, pc: imap<nat, Pc>) {
    && (core.previous.None? && core.picked.None? ==>
          StateOf(state, core.current) == Running || PcOf(pc, core.current).Leaving?
          || (StateOf(state, core.current) == Dead && !PcOf(pc, core.current).Away?))
    && (core.picked.Some? ==> StateOf(state, core.current) != Running || core.current == c)
    && (core.previous.Some? ==>
       StateOf(state, core.current) == Running && StateOf(state, core.previous.value) != Running)
  }

  // ---------------------------------------------------------------- kill and deadlines

  /** The kill scan leaves no killed thread asleep or parked on a signal wait, ever after. */
  ghost predicate KillOk(killed: set<nat>, hold: imap<nat, Hold>, parked: imap<nat, Park>) {
    forall t | t in killed ::
      HoldOf(hold, t) != Asleep && (HoldOf(hold, t).Node? ==> MaskOf(parked, t) == {})
  }

  /** The registration a pc stands behind: from before block_if until unregister. */
  function Registered(pc: Pc): Option<Timed> {
    if (pc.WaitPark? || pc.WaitDone?) && pc.deadline.Some? then Some(Timed(pc.deadline.value, ObjQ(pc.o)))
    else if Suspended(pc) && pc.after.WaitDone? && pc.after.deadline.Some?
    then Some(Timed(pc.after.deadline.value, ObjQ(pc.after.o)))
    else None
  }

  predicate TimedFits(pc: Pc, h: Hold, entry: Option<Timed>) {
    && (entry.Some? ==> Registered(pc) == entry)
    && (Registered(pc).Some? && (h.Node? || pc.WaitPark?) ==> entry.Some?)
  }

  function EntryOf(timed: imap<nat, Timed>, t: nat): Option<Timed> { if t in timed then Some(timed[t]) else None }

  // ---------------------------------------------------------------- the invariant

  predicate Fits(w: World, t: nat) {
    var st, h, pc := StateOf(w.state, t), HoldOf(w.hold, t), PcOf(w.pc, t);
    && StateFits(st, h, t in w.cores)
    && PcFits(st, h, pc, ParkOf(w.parked, t))
    && Placed(w.cores, w.cpu, t, st, h, pc)
    && TimedFits(pc, h, EntryOf(w.timed, t))
    && (ReaperPc(pc) <==> t == w.reaper)
  }

  ghost predicate ThreadsOk(w: World) {
    && (forall t: nat :: Fits(w, t))
    && (forall c | c in w.cores :: PhaseOk(w.cores[c], c, w.state, w.pc))
  }

  datatype Aspect = OnCpus | InLists | InThreads | InKills | AtReaper

  ghost predicate Part(w: World, k: Aspect) {
    match k
    case OnCpus => CpuOk(w.cores, w.cpu)
    case InLists => HoldsOk(w)
    case InThreads => ThreadsOk(w)
    case InKills => KillOk(w.killed, w.hold, w.parked)
    case AtReaper => w.reaper !in w.cores
  }

  /** All of it. What does not look inside an aspect passes the whole on folded. */
  ghost predicate Inv(w: World) { forall k: Aspect {:trigger Part(w, k)} :: Part(w, k) }

  lemma Unfold(w: World)
    requires Inv(w)
    ensures w.reaper !in w.cores && CpuOk(w.cores, w.cpu) && HoldsOk(w) && ThreadsOk(w)
    ensures KillOk(w.killed, w.hold, w.parked)
  {
    assert Part(w, OnCpus) && Part(w, InLists) && Part(w, InThreads) && Part(w, InKills) && Part(w, AtReaper);
  }

  lemma Fold(w: World)
    requires w.reaper !in w.cores && CpuOk(w.cores, w.cpu) && HoldsOk(w) && ThreadsOk(w)
    requires KillOk(w.killed, w.hold, w.parked)
    ensures Inv(w)
  {
  }

  lemma Look(w: World, t: nat)
    requires Inv(w)
    ensures Fits(w, t)
  {
    assert Part(w, InThreads);
  }

  lemma InitialOk(w: World)
    requires Initial(w)
    ensures Inv(w)
  {
    assert CpuOk(w.cores, w.cpu);
    assert HoldsOk(w) by { InitialHolds(w); }
    assert ThreadsOk(w) by { InitialThreads(w); }
    Fold(w);
  }

  lemma InitialHolds(w: World)
    requires Initial(w)
    ensures HoldsOk(w)
  {
    assert forall t: nat :: PcOf(w.pc, t) == if t == w.reaper then ReapTop else Run;
    assert forall t: nat :: HoldOf(w.hold, t) == if t == w.reaper then RunQueue else Nobody;
    assert forall q :: QueueOf(w.queues, q) == [];
  }

  lemma InitialThreads(w: World)
    requires Initial(w)
    ensures ThreadsOk(w)
  {
    forall t: nat ensures Fits(w, t) {
    }
  }

  lemma Local(w: World, t: nat)
    requires ThreadsOk(w)
    ensures Fits(w, t)
  {
  }

  predicate Same(w: World, w': World, t: nat) {
    && StateOf(w'.state, t) == StateOf(w.state, t) && HoldOf(w'.hold, t) == HoldOf(w.hold, t)
    && PcOf(w'.pc, t) == PcOf(w.pc, t) && ParkOf(w'.parked, t) == ParkOf(w.parked, t)
    && EntryOf(w'.timed, t) == EntryOf(w.timed, t)
  }

  /** A step that changes the fields of one thread only. */
  lemma OneThread(w: World, w': World, t: nat)
    requires ThreadsOk(w) && w'.cores == w.cores && w'.cpu == w.cpu && w'.reaper == w.reaper
    requires forall u: nat | u != t :: Same(w, w', u)
    requires Fits(w', t)
    requires forall c | c in w.cores && (w.cores[c].current == t || w.cores[c].previous == Some(t)) ::
               PhaseOk(w.cores[c], c, w'.state, w'.pc)
    ensures ThreadsOk(w')
  {
    forall u: nat ensures Fits(w', u) {
      if u != t { assert Fits(w, u) && Same(w, w', u); }
    }
    forall c | c in w.cores ensures PhaseOk(w'.cores[c], c, w'.state, w'.pc) {
      var core := w.cores[c];
      if core.current != t && core.previous != Some(t) {
        assert Same(w, w', core.current);
        if core.previous.Some? { assert Same(w, w', core.previous.value); }
      }
    }
  }

  // ---------------------------------------------------------------- the containers

  lemma PushFront(q: seq<nat>, t: nat)
    requires NoDup(q) && t !in q
    ensures NoDup([t] + q) && forall u :: u in [t] + q <==> u == t || u in q
  {
    forall i, j | 0 <= i < j < |[t] + q| ensures ([t] + q)[i] != ([t] + q)[j] {
      assert q[j - 1] in q;
    }
  }

  lemma PushBack(q: seq<nat>, t: nat)
    requires NoDup(q) && t !in q
    ensures NoDup(q + [t]) && forall u :: u in q + [t] <==> u == t || u in q
  {
    forall i, j | 0 <= i < j < |q + [t]| ensures (q + [t])[i] != (q + [t])[j] {
      assert q[i] in q;
    }
  }

  lemma {:induction false} UnlinkIs(q: seq<nat>, t: nat)
    requires NoDup(q)
    ensures NoDup(Unlink(q, t)) && forall u :: u in Unlink(q, t) <==> u in q && u != t
  {
    if q != [] {
      var rest := q[1..];
      assert q == [q[0]] + rest;
      assert NoDup(rest) && q[0] !in rest;
      if q[0] != t {
        UnlinkIs(rest, t);
        PushFront(Unlink(rest, t), q[0]);
      }
    }
  }

  /** Taking the i-th thread and rotating those before it to the back loses nobody else. */
  lemma RotateIs(q: seq<nat>, i: nat)
    requires NoDup(q) && i < |q|
    ensures NoDup(q[i + 1..] + q[..i]) && forall u :: u in q[i + 1..] + q[..i] <==> u in q && u != q[i]
  {
    var r := q[i + 1..] + q[..i];
    forall k | 0 <= k < |r| ensures r[k] in q && r[k] != q[i] {
      assert r[k] == q[if k < |q| - i - 1 then i + 1 + k else k - (|q| - i - 1)];
    }
    forall j, k | 0 <= j < k < |r| ensures r[j] != r[k] {
      assert r[j] == q[if j < |q| - i - 1 then i + 1 + j else j - (|q| - i - 1)];
      assert r[k] == q[if k < |q| - i - 1 then i + 1 + k else k - (|q| - i - 1)];
    }
    forall u | u in q && u != q[i] ensures u in r {
      var k :| 0 <= k < |q| && q[k] == u;
      assert r[if k > i then k - i - 1 else k + (|q| - i - 1)] == u;
    }
  }

  lemma Pushed(list: seq<nat>, hold: imap<nat, Hold>, t: nat, h: Hold)
    requires Lists(list, hold, h) && HoldOf(hold, t) != h
    ensures Lists(list + [t], hold[t := h], h) && Lists([t] + list, hold[t := h], h)
  {
    PushBack(list, t);
    PushFront(list, t);
    assert t !in list;
    forall u: nat ensures u in list + [t] <==> HoldOf(hold[t := h], u) == h {
      assert u in list <==> HoldOf(hold, u) == h;
    }
    forall u: nat ensures u in [t] + list <==> HoldOf(hold[t := h], u) == h {
      assert u in list <==> HoldOf(hold, u) == h;
    }
  }

  lemma Dropped(list: seq<nat>, hold: imap<nat, Hold>, t: nat, h: Hold, h': Hold)
    requires Lists(list, hold, h) && t in list && h' != h
    ensures Lists(Unlink(list, t), hold[t := h'], h)
  {
    UnlinkIs(list, t);
    forall u: nat ensures u in Unlink(list, t) <==> HoldOf(hold[t := h'], u) == h {
      assert u in list <==> HoldOf(hold, u) == h;
    }
  }

  lemma QueuesPush(queues: imap<Queue, seq<nat>>, hold: imap<nat, Hold>, q: Queue, t: nat)
    requires QueuesOk(queues, hold) && !HoldOf(hold, t).Node?
    ensures QueuesOk(queues[q := [t] + QueueOf(queues, q)], hold[t := Node(q)])
  {
    var queues' := queues[q := [t] + QueueOf(queues, q)];
    forall p ensures Lists(QueueOf(queues', p), hold[t := Node(q)], Node(p)) {
      assert Lists(QueueOf(queues, p), hold, Node(p));
      if p == q { Pushed(QueueOf(queues, q), hold, t, Node(q)); }
    }
  }

  lemma QueuesDrop(queues: imap<Queue, seq<nat>>, hold: imap<nat, Hold>, q: Queue, t: nat, h: Hold)
    requires QueuesOk(queues, hold) && t in QueueOf(queues, q) && !h.Node?
    ensures QueuesOk(queues[q := Unlink(QueueOf(queues, q), t)], hold[t := h]) && HoldOf(hold, t) == Node(q)
  {
    var queues' := queues[q := Unlink(QueueOf(queues, q), t)];
    assert Lists(QueueOf(queues, q), hold, Node(q));
    forall p ensures Lists(QueueOf(queues', p), hold[t := h], Node(p)) {
      assert Lists(QueueOf(queues, p), hold, Node(p));
      if p == q { Dropped(QueueOf(queues, q), hold, t, Node(q), h); }
    }
  }

  lemma Kept(list: seq<nat>, hold: imap<nat, Hold>, h: Hold, t: nat, h': Hold)
    requires Lists(list, hold, h) && HoldOf(hold, t) != h && h' != h
    ensures Lists(list, hold[t := h'], h)
  {
    forall u: nat ensures u in list <==> HoldOf(hold[t := h'], u) == h { assert u in list <==> HoldOf(hold, u) == h; }
  }

  lemma QueuesKept(queues: imap<Queue, seq<nat>>, hold: imap<nat, Hold>, t: nat, h: Hold)
    requires QueuesOk(queues, hold) && !HoldOf(hold, t).Node? && !h.Node?
    ensures QueuesOk(queues, hold[t := h])
  {
    forall q ensures Lists(QueueOf(queues, q), hold[t := h], Node(q)) {
      assert Lists(QueueOf(queues, q), hold, Node(q));
      Kept(QueueOf(queues, q), hold, Node(q), t, h);
    }
  }

  lemma BatchesKept(pc: imap<nat, Pc>, hold: imap<nat, Hold>, t: nat, h: Hold)
    requires BatchesOk(pc, hold) && !HoldOf(hold, t).WokenBy? && !h.WokenBy?
    ensures BatchesOk(pc, hold[t := h])
  {
    forall u: nat ensures Lists(Batch(PcOf(pc, u)), hold[t := h], WokenBy(u)) {
      assert Lists(Batch(PcOf(pc, u)), hold, WokenBy(u));
      Kept(Batch(PcOf(pc, u)), hold, WokenBy(u), t, h);
    }
  }

  lemma PickedKept(cores: imap<nat, Core>, hold: imap<nat, Hold>, t: nat, h: Hold)
    requires PickedOk(cores, hold) && !HoldOf(hold, t).PickedBy? && !h.PickedBy?
    ensures PickedOk(cores, hold[t := h])
  {
    var hold' := hold[t := h];
    forall c: nat | c in cores && cores[c].picked.Some? ensures HoldOf(hold', cores[c].picked.value) == PickedBy(c) {
      assert HoldOf(hold, cores[c].picked.value) == PickedBy(c);
    }
    assert forall u: nat :: HoldOf(hold', u).PickedBy? ==> HoldOf(hold, u) == HoldOf(hold', u);
    assert PickedOk(cores, hold');
  }

  lemma RestKept(w: World, t: nat, h: Hold)
    requires SleepersOk(w.sleepers, w.hold) && ReapingOk(w.pc, w.hold, w.reaper)
    ensures HoldOf(w.hold, t) != Asleep && h != Asleep ==> SleepersOk(w.sleepers, w.hold[t := h])
    ensures HoldOf(w.hold, t) != Reaping && h != Reaping ==> ReapingOk(w.pc, w.hold[t := h], w.reaper)
  {
  }

  /** Containers that neither gain nor lose t. */
  lemma OthersKeep(w: World, t: nat, h: Hold)
    requires HoldsOk(w)
    ensures HoldOf(w.hold, t) != RunQueue && h != RunQueue ==> Lists(w.runQ, w.hold[t := h], RunQueue)
    ensures !HoldOf(w.hold, t).Node? && !h.Node? ==> QueuesOk(w.queues, w.hold[t := h])
    ensures HoldOf(w.hold, t) != Asleep && h != Asleep ==> SleepersOk(w.sleepers, w.hold[t := h])
    ensures !HoldOf(w.hold, t).PickedBy? && !h.PickedBy? ==> PickedOk(w.cores, w.hold[t := h])
    ensures !HoldOf(w.hold, t).WokenBy? && !h.WokenBy? ==> BatchesOk(w.pc, w.hold[t := h])
    ensures HoldOf(w.hold, t) != Zombie && h != Zombie ==> Lists(w.zombies, w.hold[t := h], Zombie)
    ensures HoldOf(w.hold, t) != Reaping && h != Reaping ==> ReapingOk(w.pc, w.hold[t := h], w.reaper)
  {
    var was := HoldOf(w.hold, t);
    if was != RunQueue && h != RunQueue { Kept(w.runQ, w.hold, RunQueue, t, h); }
    if was != Zombie && h != Zombie { Kept(w.zombies, w.hold, Zombie, t, h); }
    if !was.Node? && !h.Node? { QueuesKept(w.queues, w.hold, t, h); }
    if !was.WokenBy? && !h.WokenBy? { BatchesKept(w.pc, w.hold, t, h); }
    if !was.PickedBy? && !h.PickedBy? { PickedKept(w.cores, w.hold, t, h); }
    RestKept(w, t, h);
  }

  /** A pc that holds no batch and no zombie may change freely. */
  lemma PcKeeps(w: World, t: nat, pc: Pc)
    requires HoldsOk(w) && Batch(PcOf(w.pc, t)) == Batch(pc)
    requires t == w.reaper ==> (PcOf(w.pc, t).ReapHold? || pc.ReapHold? ==> pc == PcOf(w.pc, t))
    ensures BatchesOk(w.pc[t := pc], w.hold) && ReapingOk(w.pc[t := pc], w.hold, w.reaper)
  {
    forall u: nat ensures Lists(Batch(PcOf(w.pc[t := pc], u)), w.hold, WokenBy(u)) {
      assert Lists(Batch(PcOf(w.pc, u)), w.hold, WokenBy(u));
    }
  }
}
