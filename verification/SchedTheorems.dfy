/** What every run of the scheduler guarantees, in the code's own terms. */
module SchedTheorems {
  import opened Basics
  import opened SchedModel
  import opened SchedInv
  import opened SchedSteps
  import opened SchedSafety

  // ---------------------------------------------------------------- one holder per thread

  /** Everywhere a reference to a thread can be while the thread is not running. */
  datatype Place =
    | InRunQueue
    | PickedAt(core: nat)
    | InWaitQueue(q: Queue)
    | InSleepers
    | InBatch(waker: nat)
    | InZombies
    | WithReaper

  predicate At(w: World, t: nat, p: Place) {
    match p
    case InRunQueue => t in w.runQ
    case PickedAt(c) => c in w.cores && w.cores[c].picked == Some(t)
    case InWaitQueue(q) => t in QueueOf(w.queues, q)
    case InSleepers => t in w.sleepers
    case InBatch(waker) => t in Batch(PcOf(w.pc, waker))
    case InZombies => t in w.zombies
    case WithReaper => PcOf(w.pc, w.reaper) == ReapHold(t)
  }

  function HoldAt(p: Place): Hold {
    match p
    case InRunQueue => RunQueue
    case PickedAt(c) => PickedBy(c)
    case InWaitQueue(q) => Node(q)
    case InSleepers => Asleep
    case InBatch(waker) => WokenBy(waker)
    case InZombies => Zombie
    case WithReaper => Reaping
  }

  function PlaceOf(h: Hold): Option<Place> {
    match h
    case RunQueue => Some(InRunQueue)
    case PickedBy(c) => Some(PickedAt(c))
    case Node(q) => Some(InWaitQueue(q))
    case Asleep => Some(InSleepers)
    case WokenBy(u) => Some(InBatch(u))
    case Zombie => Some(InZombies)
    case Reaping => Some(WithReaper)
    case _ => None
  }

  lemma AtIsHold(w: World, t: nat, p: Place)
    requires HoldsOk(w)
    ensures At(w, t, p) <==> HoldOf(w.hold, t) == HoldAt(p)
  {
    match p
    case InWaitQueue(q) => assert Lists(QueueOf(w.queues, q), w.hold, Node(q));
    case InBatch(waker) => assert Lists(Batch(PcOf(w.pc, waker)), w.hold, WokenBy(waker));
    case _ =>
  }

  /** The places a thread in this state may be found. */
  predicate Allowed(st: TState, p: Place) {
    match st
    case Ready => p.InRunQueue? || p.PickedAt?
    case Blocked => p.InWaitQueue? || p.InSleepers? || p.InBatch?
    case Dead => p.InZombies? || p.WithReaper?
    case _ => false
  }

  ghost predicate HeldOnce(v: World, t: nat) {
    var st := StateOf(v.state, t);
    && (forall p | At(v, t, p) :: Allowed(st, p))
    && (forall p, p' | At(v, t, p) && At(v, t, p') :: p == p')
    && (st == Blocked || (st == Ready && t !in v.cores) ==> exists p :: At(v, t, p))
  }

  ghost predicate NamedOnce(v: World) {
    && NoDup(v.runQ) && NoDup(v.zombies)
    && (forall q :: NoDup(QueueOf(v.queues, q))) && (forall u: nat :: NoDup(Batch(PcOf(v.pc, u))))
  }

  lemma HoldIsOnce(v: World, t: nat)
    requires HoldsOk(v) && StateFits(StateOf(v.state, t), HoldOf(v.hold, t), t in v.cores)
    ensures HeldOnce(v, t)
  {
    var h := HoldOf(v.hold, t);
    forall p ensures At(v, t, p) <==> h == HoldAt(p) { AtIsHold(v, t, p); }
    if PlaceOf(h).Some? { assert At(v, t, PlaceOf(h).value); }
  }

  lemma ListsAreOnce(v: World)
    requires HoldsOk(v)
    ensures NamedOnce(v)
  {
    forall q ensures NoDup(QueueOf(v.queues, q)) { assert Lists(QueueOf(v.queues, q), v.hold, Node(q)); }
    forall u: nat ensures NoDup(Batch(PcOf(v.pc, u))) { assert Lists(Batch(PcOf(v.pc, u)), v.hold, WokenBy(u)); }
  }

  /** In every run, a thread that is not running has at most one holder, of the kind its state
      says, in a list that names it once; every ready thread other than an idle one and every
      blocked thread has one. */
  lemma OneHolder(w: World, acts: seq<Action>, t: nat)
    requires Initial(w)
    ensures HeldOnce(Runs(w, acts), t) && NamedOnce(Runs(w, acts))
  {
    RunKeeps(w, acts);
    Unfold(Runs(w, acts));
    Local(Runs(w, acts), t);
    HoldIsOnce(Runs(w, acts), t);
    ListsAreOnce(Runs(w, acts));
  }

  // ---------------------------------------------------------------- one core per thread

  predicate Current(w: World, t: nat, c: nat) { c in w.cores && w.cores[c].current == t }

  /** In every run a thread is current on at most one core, on_cpu covers exactly the current and
      the still-switching threads, a running thread is current, and what a core has picked is on no
      cpu until that core, which has no switch pending, switches to it. */
  lemma OneCorePerThread(w: World, acts: seq<Action>, t: nat)
    requires Initial(w)
    ensures
      var v := Runs(w, acts);
      && (forall c, d | Current(v, t, c) && Current(v, t, d) :: c == d)
      && (t in v.cpu <==> exists c | c in v.cores :: v.cores[c].current == t || v.cores[c].previous == Some(t))
      && (StateOf(v.state, t) == Running ==> exists c :: Current(v, t, c))
      && (forall c | c in v.cores && v.cores[c].picked == Some(t) :: t !in v.cpu && v.cores[c].previous.None?)
  {
    RunKeeps(w, acts);
    Unfold(Runs(w, acts));
    var v := Runs(w, acts);
    Local(v, t);
    forall c | c in v.cores && (v.cores[c].current == t || v.cores[c].previous == Some(t))
      ensures t in v.cpu && v.cpu[t] == c
    {
      assert CoreOk(v.cores[c], c, v.cpu);
    }
    forall c | c in v.cores && v.cores[c].picked == Some(t) ensures t !in v.cpu && v.cores[c].previous.None? {
      assert CoreOk(v.cores[c], c, v.cpu);
    }
    if StateOf(v.state, t) == Running { assert Current(v, t, v.cpu[t]); }
  }

  // ---------------------------------------------------------------- the reaper

  /** t is held nowhere, runs nowhere and is no idle thread. */
  ghost predicate Nowhere(w: World, t: nat) {
    && (forall p :: !At(w, t, p)) && t !in w.cores && StateOf(w.state, t) == Dead
    && (forall c | c in w.cores :: w.cores[c].current != t && w.cores[c].previous != Some(t))
  }

  lemma FreedNowhere(w: World, t: nat)
    requires CpuOk(w.cores, w.cpu) && HoldsOk(w) && Fits(w, t) && HoldOf(w.hold, t) == Freed
    ensures Nowhere(w, t)
  {
    forall c | c in w.cores ensures w.cores[c].current != t && w.cores[c].previous != Some(t) {
      assert CoreOk(w.cores[c], c, w.cpu);
    }
    forall p ensures !At(w, t, p) { AtIsHold(w, t, p); }
  }

  predicate Quiet(pc: Pc) {
    pc.Run? || pc.WaitTop? || pc.WaitRegister? || pc.WaitDone? || pc.SigLoad? || pc.ExitSignal? || pc.Halt?
        || Suspended(pc)
  }

  /** Every other thread's holder is what it was. */
  ghost predicate SameHold(v: World, w: World, t: nat) { HoldOf(v.hold, t) == HoldOf(w.hold, t) }

  lemma QuietHold(w: World, u: nat, t: nat)
    requires Quiet(PcOf(w.pc, u))
    ensures SameHold(Advance(w, u), w, t)
  {
    var pc := PcOf(w.pc, u);
    if pc.WaitRegister? { assert Register(w, u, pc).hold == w.hold; }
  }

  lemma ParkHold(w: World, u: nat, t: nat)
    requires u != t && (PcOf(w.pc, u).WaitPark? || PcOf(w.pc, u).LockPark? || PcOf(w.pc, u).ReapPark?)
    ensures SameHold(Advance(w, u), w, t)
  {
    var pc := PcOf(w.pc, u);
    if pc.WaitPark? {
      BlockHold(w, u, pc, t);
    } else if pc.LockPark? {
      LockHold(w, u, pc.m, t);
    } else {
      ReapWaitHold(w, u, t);
    }
  }

  lemma BlockHold(w: World, u: nat, pc: Pc, t: nat)
    requires u != t && pc.WaitPark?
    ensures SameHold(BlockIf(w, u, pc), w, t)
  {
  }

  lemma LockHold(w: World, u: nat, m: nat, t: nat)
    requires u != t
    ensures SameHold(TryLock(w, u, m), w, t)
  {
  }

  lemma ReapWaitHold(w: World, u: nat, t: nat)
    requires u != t
    ensures SameHold(ReapWait(w, u), w, t)
  {
  }

  lemma ReaperHold(w: World, u: nat, t: nat)
    requires t !in w.zombies && PcOf(w.pc, u) != ReapHold(t) && (PcOf(w.pc, u).ReapTop? || PcOf(w.pc, u).ReapHold?)
    ensures SameHold(Advance(w, u), w, t)
  {
    var pc := PcOf(w.pc, u);
    if pc.ReapTop? { ReapNextHold(w, u, t); } else { ReapFreeHold(w, u, pc.zombie, t); }
  }

  lemma ReapNextHold(w: World, u: nat, t: nat)
    requires t !in w.zombies
    ensures SameHold(ReapNext(w, u), w, t)
  {
  }

  lemma ReapFreeHold(w: World, u: nat, z: nat, t: nat)
    requires z != t
    ensures SameHold(ReapFree(w, u, z), w, t)
  {
  }

  lemma ScanHold(w: World, u: nat, o: Obj, sigs: set<nat>, after: Pc, t: nat)
    requires QueuesOk(w.queues, w.hold) && t !in QueueOf(w.queues, ObjQ(o))
    ensures SameHold(ScanPass(w, u, o, sigs, after), w, t)
  {
    var list := QueueOf(w.queues, ObjQ(o));
    assert Lists(list, w.hold, Node(ObjQ(o)));
    CollectIs(list, w.parked, sigs, WAKE_BATCH);
  }

  lemma WakeOneHold(w: World, u: nat, q: Queue, after: Pc, t: nat)
    requires t !in QueueOf(w.queues, q)
    ensures SameHold(WakeOne(w, u, q, after), w, t)
  {
    FirstPlainIs(QueueOf(w.queues, q), w.parked);
  }

  lemma NowhereAdvance(w: World, t: nat, u: nat)
    requires QueuesOk(w.queues, w.hold) && Nowhere(w, t) && u != t && (ReaperPc(PcOf(w.pc, u)) ==> u == w.reaper)
    ensures SameHold(Advance(w, u), w, t)
  {
    var pc := PcOf(w.pc, u);
    if Quiet(pc) { QuietHold(w, u, t); }
    else if pc.WaitPark? || pc.LockPark? || pc.ReapPark? { ParkHold(w, u, t); }
    else if pc.SigScan? { assert !At(w, t, InWaitQueue(ObjQ(pc.o))); ScanHold(w, u, pc.o, pc.sigs, pc.after, t); }
    else if pc.Unlocked? { assert !At(w, t, InWaitQueue(MutexQ(pc.m))); WakeOneHold(w, u, MutexQ(pc.m), Run, t); }
    else if pc.ExitKick? { assert !At(w, t, InWaitQueue(ReaperQ)); WakeOneHold(w, u, ReaperQ, Leaving(Halt), t); }
    else if pc.Readying? { assert !At(w, t, InBatch(u)); assert SameHold(ReadyNext(w, u, pc.batch, pc.after), w, t); }
    else { assert !At(w, t, InZombies) && !At(w, t, WithReaper); ReaperHold(w, u, t); }
  }

  lemma PopHold(w: World, c: nat, t: nat)
    requires c in w.cores && t !in w.runQ && t != c
    ensures SameHold(Pick(w, c), w, t)
    ensures w.cores[c].current != t ==> SameHold(Yield(w, c), w, t)
  {
    var i := FirstOff(w.runQ, w.cpu);
    assert i < |w.runQ| ==> w.runQ[i] in w.runQ;
  }

  lemma NowhereCore(w: World, t: nat, a: Action)
    requires Nowhere(w, t) && (a.DoPick? || a.DoYield? || a.DoSwitch? || a.DoFinish?) && a.core in w.cores
    ensures SameHold(Step(w, a), w, t)
  {
    assert !At(w, t, InRunQueue) && !At(w, t, PickedAt(a.core));
    var c, u := a.core, w.cores[a.core].current;
    match a
    case DoPick(_) =>
      if Exec(w, c) && PcOf(w.pc, u).Leaving? { PopHold(Goto(w, u, Away(PcOf(w.pc, u).after)), c, t); }
      else { assert Step(w, a) == w; }
    case DoYield(_) => PopHold(w, c, t); assert Step(w, a) == Yield(w, c) || Step(w, a) == w;
    case DoSwitch(_) => if w.cores[c].picked.Some? { assert SameHold(Switch(w, c), w, t); }
    case DoFinish(_) => if w.cores[c].previous.Some? { assert SameHold(Finish(w, c), w, t); }
  }

  lemma ClaimHold(w: World, q: Queue, t: nat, u: nat)
    requires t !in QueueOf(w.queues, q)
    ensures SameHold(Claim(w, q, u), w, t)
  {
  }

  lemma WakeHold(w: World, t: nat, u: nat)
    requires t !in w.sleepers
    ensures SameHold(WakeSleeper(w, u), w, t)
  {
  }

  lemma ExpireHold(w: World, t: nat, u: nat)
    requires Nowhere(w, t)
    ensures SameHold(Expire(w, u), w, t)
  {
    if u in w.timed { assert !At(w, t, InWaitQueue(w.timed[u].q)); }
  }

  lemma KillHold(w: World, t: nat, u: nat)
    requires Nowhere(w, t)
    ensures SameHold(KillOne(w, u), w, t)
  {
    assert !At(w, t, InSleepers);
    var marked := w.(th := w.th.(killed := w.killed + {u}));
    WakeHold(marked, t, u);
    if u in w.parked { assert !At(w, t, InWaitQueue(w.parked[u].q)); ClaimHold(marked, w.parked[u].q, t, u); }
  }

  lemma StartHold(w: World, u: nat, call: Call, t: nat)
    requires u != t
    ensures SameHold(Start(w, u, call), w, t)
  {
  }

  lemma NowhereThread(w: World, t: nat, a: Action)
    requires Inv(w) && Nowhere(w, t) && (a.Go? || a.Begin?)
    ensures SameHold(Step(w, a), w, t)
  {
    Unfold(w);
    var c := a.core;
    if !Acting(w, c) { assert Step(w, a) == w; }
    else {
      var u := w.cores[c].current;
      Local(w, u);
      if a.Go? { NowhereAdvance(w, t, u); }
      else { StartHold(w, u, a.call, t); assert Step(w, a) == w || Step(w, a) == Start(w, u, a.call); }
    }
  }

  lemma NowhereStep(w: World, t: nat, a: Action)
    requires Inv(w) && Nowhere(w, t)
    ensures SameHold(Step(w, a), w, t)
  {
    match a
    case Go(_) => NowhereThread(w, t, a);
    case Begin(_, _) => NowhereThread(w, t, a);
    case Wake(u) => assert !At(w, t, InSleepers); WakeHold(w, t, u);
      assert Step(w, a) == WakeSleeper(w, u) || Step(w, a) == w;
    case Expiry(u) => ExpireHold(w, t, u);
    case Clock(_) =>
    case Kill(u) => KillHold(w, t, u); assert Step(w, a) == KillOne(w, u) || Step(w, a) == w;
    case Spawn(u) => assert Step(w, a) == w || (u != t && Step(w, a) == MakeReady(w, u));
    case _ => if a.core in w.cores { NowhereCore(w, t, a); } else { assert Step(w, a) == w; }
  }

  /** In every run the reaper lets go of a thread's stack only when no core is on it, and a freed
      thread is dead, on no cpu and held nowhere, and no step ever touches it again. */
  lemma FreedIsUntouched(w: World, acts: seq<Action>, t: nat)
    requires Initial(w) && HoldOf(Runs(w, acts).hold, t) == Freed
    ensures Nowhere(Runs(w, acts), t) && forall a :: HoldOf(Step(Runs(w, acts), a).hold, t) == Freed
  {
    RunKeeps(w, acts);
    Unfold(Runs(w, acts));
    var v := Runs(w, acts);
    Local(v, t);
    FreedNowhere(v, t);
    forall a ensures HoldOf(Step(v, a).hold, t) == Freed { NowhereStep(v, t, a); assert SameHold(Step(v, a), v, t); }
  }

  // ---------------------------------------------------------------- kill and deadlines

  /** In every run a killed thread is never asleep and never parked on a signal wait, whatever it
      does after the kill scan passed it. */
  lemma KilledIsNeverStuck(w: World, acts: seq<Action>, t: nat)
    requires Initial(w) && t in Runs(w, acts).killed
    ensures
      var v := Runs(w, acts);
      t !in v.sleepers && forall q | t in QueueOf(v.queues, q) :: MaskOf(v.parked, t) == {}
  {
    RunKeeps(w, acts);
    Unfold(Runs(w, acts));
    var v := Runs(w, acts);
    forall q | t in QueueOf(v.queues, q) ensures MaskOf(v.parked, t) == {} {
      assert Lists(QueueOf(v.queues, q), v.hold, Node(q));
    }
  }

  /** t is marked, and ready unless it already was in a waker's hands. */
  ghost predicate KillFreed(v: World, v': World, t: nat) {
    && t in v'.killed
    && (if exists u :: At(v, t, InBatch(u)) then StateOf(v'.state, t) == Blocked
        else StateOf(v'.state, t) == Ready && t in v'.runQ)
  }

  lemma KillOneFrees(v: World, t: nat)
    requires HoldsOk(v) && Fits(v, t) && StateOf(v.state, t) == Blocked
    ensures KillFreed(v, KillOne(v, t), t)
  {
    var h := HoldOf(v.hold, t);
    forall u ensures At(v, t, InBatch(u)) <==> h == WokenBy(u) { AtIsHold(v, t, InBatch(u)); }
    if t in v.parked { AtIsHold(v, t, InWaitQueue(v.parked[t].q)); } else { AtIsHold(v, t, InSleepers); }
    if h.WokenBy? { assert At(v, t, InBatch(h.waker)); }
  }

  /** The kill scan makes a sleeping or parked thread ready; a blocked thread it leaves alone is
      already in a waker's hands. */
  lemma KillFrees(w: World, acts: seq<Action>, t: nat)
    requires Initial(w) && StateOf(Runs(w, acts).state, t) == Blocked && t != Runs(w, acts).reaper
    ensures KillFreed(Runs(w, acts), Step(Runs(w, acts), Kill(t)), t)
  {
    RunKeeps(w, acts);
    Unfold(Runs(w, acts));
    var v := Runs(w, acts);
    Local(v, t);
    KillOneFrees(v, t);
    KillIs(v, t);
  }

  lemma KillIs(v: World, t: nat)
    requires t != v.reaper && t !in v.cores
    ensures Step(v, Kill(t)) == KillOne(v, t)
  {
  }

  /** The deadline of a thread parked by wait_signals_deadline. */
  function DeadlineOf(w: World, t: nat): Option<nat> {
    var pc := PcOf(w.pc, t);
    if Suspended(pc) && pc.after.WaitDone? then pc.after.deadline else None
  }

  lemma WatchedAt(v: World, t: nat, o: Obj)
    requires QueuesOk(v.queues, v.hold) && Fits(v, t) && t in QueueOf(v.queues, ObjQ(o)) && DeadlineOf(v, t).Some?
    ensures t in v.timed && v.timed[t] == Timed(DeadlineOf(v, t).value, ObjQ(o))
  {
    assert Lists(QueueOf(v.queues, ObjQ(o)), v.hold, Node(ObjQ(o)));
  }

  /** In every run each parked deadline wait has its registry entry, naming the queue its node is
      in, and each registry entry belongs to a thread still inside that wait, so its node is live. */
  lemma DeadlinesAreWatched(w: World, acts: seq<Action>, t: nat)
    requires Initial(w)
    ensures
      var v := Runs(w, acts);
      && (forall o | t in QueueOf(v.queues, ObjQ(o)) && DeadlineOf(v, t).Some? ::
            t in v.timed && v.timed[t] == Timed(DeadlineOf(v, t).value, ObjQ(o)))
      && (t in v.timed ==> Registered(PcOf(v.pc, t)) == Some(v.timed[t]) && StateOf(v.state, t) !in {Dead, Unborn})
  {
    RunKeeps(w, acts);
    Unfold(Runs(w, acts));
    var v := Runs(w, acts);
    Local(v, t);
    forall o | t in QueueOf(v.queues, ObjQ(o)) && DeadlineOf(v, t).Some?
      ensures t in v.timed && v.timed[t] == Timed(DeadlineOf(v, t).value, ObjQ(o))
    {
      WatchedAt(v, t, o);
    }
    if t in v.timed { EntryIsLive(v, t); }
  }

  lemma EntryIsLive(v: World, t: nat)
    requires Fits(v, t) && t in v.timed
    ensures Registered(PcOf(v.pc, t)) == Some(v.timed[t]) && StateOf(v.state, t) !in {Dead, Unborn}
  {
    if StateOf(v.state, t) == Dead { ExitIsWaking(PcOf(v.pc, t)); }
  }

  /** t is ready, off the queue and off the registry. */
  predicate ExpiryFreed(v: World, t: nat, q: Queue) {
    StateOf(v.state, t) == Ready && t in v.runQ && t !in QueueOf(v.queues, q) && t !in v.timed
  }

  lemma ExpireFrees(v: World, t: nat, o: Obj)
    requires QueuesOk(v.queues, v.hold) && t in QueueOf(v.queues, ObjQ(o))
    requires t in v.timed && v.timed[t].q == ObjQ(o) && v.timed[t].at <= v.now
    ensures ExpiryFreed(Expire(v, t), t, ObjQ(o))
  {
    assert Lists(QueueOf(v.queues, ObjQ(o)), v.hold, Node(ObjQ(o)));
    UnlinkIs(QueueOf(v.queues, ObjQ(o)), t);
  }

  lemma ExpiryStep(v: World, t: nat, o: Obj)
    requires QueuesOk(v.queues, v.hold) && Fits(v, t)
    requires t in QueueOf(v.queues, ObjQ(o)) && DeadlineOf(v, t).Some? && DeadlineOf(v, t).value <= v.now
    ensures ExpiryFreed(Step(v, Expiry(t)), t, ObjQ(o))
  {
    WatchedAt(v, t, o);
    ExpireFrees(v, t, o);
  }

  /** The expiry scan at or after the deadline frees the waiter. */
  lemma ExpiryFrees(w: World, acts: seq<Action>, t: nat, o: Obj)
    requires Initial(w)
    requires var v := Runs(w, acts);
             t in QueueOf(v.queues, ObjQ(o)) && DeadlineOf(v, t).Some? && DeadlineOf(v, t).value <= v.now
    ensures ExpiryFreed(Step(Runs(w, acts), Expiry(t)), t, ObjQ(o))
  {
    RunKeeps(w, acts);
    Unfold(Runs(w, acts));
    var v := Runs(w, acts);
    Local(v, t);
    ExpiryStep(v, t, o);
  }
}
