/** No wakeup is lost: whenever a thread is parked on something that has happened, some thread is on
    its way to wake it. */
module SchedWake {
  import opened SchedModel
  import opened SchedInv
  import opened SchedSteps
  import opened SchedSafety

  /** A thread that takes steps is linked in no queue. */
  ghost predicate Unlinked(w: World, u: nat) { forall q :: u !in QueueOf(w.queues, q) }

  lemma ActorUnlinked(w: World, u: nat)
    requires Inv(w) && Actor(w, u)
    ensures Unlinked(w, u)
  {
    Unfold(w);
    Local(w, u);
    forall q ensures u !in QueueOf(w.queues, q) { assert Lists(QueueOf(w.queues, q), w.hold, Node(q)); }
  }

  /** Only u's pc moves. */
  ghost predicate Others(w: World, w': World, u: nat) {
    forall x: nat | x != u :: PcOf(w'.pc, x) == PcOf(w.pc, x)
  }

  ghost predicate Shrinks(w: World, w': World, q: Queue) {
    forall x: nat | x in QueueOf(w'.queues, q) :: x in QueueOf(w.queues, q)
  }

  lemma TakeShrinks(w: World, p: Queue, y: nat, q: Queue)
    requires QueuesOk(w.queues, w.hold)
    ensures
      var rest := w.queues[p := Unlink(QueueOf(w.queues, p), y)];
      forall x: nat :: x in QueueOf(rest, q) <==> x in QueueOf(w.queues, q) && !(q == p && x == y)
  {
    assert Lists(QueueOf(w.queues, p), w.hold, Node(p));
    UnlinkIs(QueueOf(w.queues, p), y);
  }

  // ---------------------------------------------------------------- signals

  /** t is parked on o, and a signal it waits for is set. */
  predicate Hit(w: World, o: Obj, t: nat) {
    t in QueueOf(w.queues, ObjQ(o)) && MaskOf(w.parked, t) * SigOf(w.sig, o) != {}
  }

  /** A thread at pc will scan o's queue for waiters with this mask. */
  predicate Scans(pc: Pc, o: Obj, mask: set<nat>) {
    if pc.SigLoad? then pc.o == o
    else if pc.SigScan? then pc.o == o && mask * pc.sigs != {}
    else pc.Readying? && pc.after.SigScan? && pc.after.o == o && mask * pc.after.sigs != {}
  }

  ghost predicate Woken(w: World, o: Obj, t: nat) {
    Hit(w, o, t) ==> exists u :: Scans(PcOf(w.pc, u), o, MaskOf(w.parked, t))
  }

  predicate Waker(pc: Pc) { pc.SigLoad? || pc.SigScan? || pc.Readying? }

  lemma StillWoken(w: World, w': World, u: nat, o: Obj, t: nat)
    requires Woken(w, o, t) && Others(w, w', u)
    requires Hit(w', o, t) ==> Hit(w, o, t) && MaskOf(w'.parked, t) == MaskOf(w.parked, t)
    requires Hit(w', o, t) && Scans(PcOf(w.pc, u), o, MaskOf(w.parked, t)) ==>
      Scans(PcOf(w'.pc, u), o, MaskOf(w.parked, t))
    ensures Woken(w', o, t)
  {
    if Hit(w', o, t) {
      var x :| Scans(PcOf(w.pc, x), o, MaskOf(w.parked, t));
      assert Scans(PcOf(w'.pc, x), o, MaskOf(w'.parked, t));
    }
  }

  /** Steps that leave the queues and the signals alone. */
  lemma CalmWoken(w: World, w': World, u: nat, o: Obj, t: nat)
    requires Woken(w, o, t) && Others(w, w', u) && (Waker(PcOf(w.pc, u)) ==> PcOf(w'.pc, u) == PcOf(w.pc, u))
    requires w'.queues == w.queues && (w'.parked == w.parked || (w'.parked == w.parked - {u} && Unlinked(w, u)))
    requires SigOf(w'.sig, o) <= SigOf(w.sig, o)
    ensures Woken(w', o, t)
  {
    StillWoken(w, w', u, o, t);
  }

  lemma ParkWoken(w: World, u: nat, q: Queue, mask: set<nat>, after: Pc, o: Obj, t: nat)
    requires Woken(w, o, t) && Unlinked(w, u) && !Waker(PcOf(w.pc, u))
    requires q == ObjQ(o) ==> mask * SigOf(w.sig, o) == {}
    ensures Woken(ParkOn(w, u, q, mask, after), o, t)
  {
    assert u !in QueueOf(w.queues, ObjQ(o));
    StillWoken(w, ParkOn(w, u, q, mask, after), u, o, t);
  }

  lemma WakeOneWoken(w: World, u: nat, q: Queue, after: Pc, o: Obj, t: nat)
    requires Woken(w, o, t) && QueuesOk(w.queues, w.hold) && !Waker(PcOf(w.pc, u))
    ensures Woken(WakeOne(w, u, q, after), o, t)
  {
    var found := FirstPlain(QueueOf(w.queues, q), w.parked);
    if found.Some? { TakeShrinks(w, q, found.value, ObjQ(o)); }
    StillWoken(w, WakeOne(w, u, q, after), u, o, t);
  }

  lemma SignalWoken(w: World, u: nat, p: Obj, bits: set<nat>, after: Pc, o: Obj, t: nat)
    requires Woken(w, o, t) && !Waker(PcOf(w.pc, u))
    ensures Woken(Goto(w.(sh := w.sh.(sig := w.sig[p := SigOf(w.sig, p) + bits])), u, SigLoad(p, after)), o, t)
  {
    var w' := Goto(w.(sh := w.sh.(sig := w.sig[p := SigOf(w.sig, p) + bits])), u, SigLoad(p, after));
    if o == p { assert Scans(PcOf(w'.pc, u), o, MaskOf(w'.parked, t)); } else { StillWoken(w, w', u, o, t); }
  }

  lemma LoadWoken(w: World, u: nat, p: Obj, after: Pc, o: Obj, t: nat)
    requires Woken(w, o, t) && PcOf(w.pc, u) == SigLoad(p, after)
    ensures Woken(Goto(w, u, SigScan(p, SigOf(w.sig, p), after)), o, t)
  {
    StillWoken(w, Goto(w, u, SigScan(p, SigOf(w.sig, p), after)), u, o, t);
  }

  lemma ScanWoken(w: World, u: nat, p: Obj, sigs: set<nat>, after: Pc, o: Obj, t: nat)
    requires Woken(w, o, t) && QueuesOk(w.queues, w.hold) && PcOf(w.pc, u) == SigScan(p, sigs, after)
    ensures Woken(ScanPass(w, u, p, sigs, after), o, t)
  {
    var list := QueueOf(w.queues, ObjQ(p));
    assert Lists(list, w.hold, Node(ObjQ(p)));
    CollectIs(list, w.parked, sigs, WAKE_BATCH);
    StillWoken(w, ScanPass(w, u, p, sigs, after), u, o, t);
  }

  lemma ReadyWoken(w: World, u: nat, batch: seq<nat>, after: Pc, o: Obj, t: nat)
    requires Woken(w, o, t) && PcOf(w.pc, u) == Readying(batch, after)
    ensures Woken(ReadyNext(w, u, batch, after), o, t)
  {
    StillWoken(w, ReadyNext(w, u, batch, after), u, o, t);
  }

  lemma BlockWoken(w: World, u: nat, o: Obj, t: nat)
    requires Woken(w, o, t) && Unlinked(w, u) && PcOf(w.pc, u).WaitPark?
    ensures Woken(BlockIf(w, u, PcOf(w.pc, u)), o, t)
  {
    var pc := PcOf(w.pc, u);
    var done := WaitDone(pc.o, pc.mask, pc.deadline);
    if Fired(w, u, pc) { CalmWoken(w, Goto(w, u, done), u, o, t); }
    else { ParkWoken(w, u, ObjQ(pc.o), pc.mask, done, o, t); }
  }

  lemma LockWoken(w: World, u: nat, m: nat, o: Obj, t: nat)
    requires Woken(w, o, t) && Unlinked(w, u) && PcOf(w.pc, u) == LockPark(m)
    ensures Woken(TryLock(w, u, m), o, t)
  {
    if m !in w.mutex {
      CalmWoken(w, TryLock(w, u, m), u, o, t);
    } else {
      ParkWoken(w, u, MutexQ(m), {}, LockPark(m), o, t);
    }
  }

  lemma ReapWoken(w: World, u: nat, o: Obj, t: nat)
    requires Woken(w, o, t) && Unlinked(w, u)
    ensures PcOf(w.pc, u).ReapTop? ==> Woken(ReapNext(w, u), o, t)
    ensures PcOf(w.pc, u).ReapPark? ==> Woken(ReapWait(w, u), o, t)
    ensures PcOf(w.pc, u).ReapHold? ==> Woken(ReapFree(w, u, PcOf(w.pc, u).zombie), o, t)
  {
    var pc := PcOf(w.pc, u);
    if pc.ReapTop? { CalmWoken(w, ReapNext(w, u), u, o, t); }
    else if pc.ReapHold? { CalmWoken(w, ReapFree(w, u, pc.zombie), u, o, t); }
    else if pc.ReapPark? && w.zombies == [] { ParkWoken(w, u, ReaperQ, {}, ReapTop, o, t); }
    else if pc.ReapPark? { CalmWoken(w, ReapWait(w, u), u, o, t); }
  }

  lemma WaitWoken(w: World, u: nat, o: Obj, t: nat)
    requires Woken(w, o, t) && Unlinked(w, u)
    requires var pc := PcOf(w.pc, u); pc.WaitTop? || pc.WaitRegister? || pc.WaitDone? || pc.Away?
    ensures Woken(Advance(w, u), o, t)
  {
    var pc := PcOf(w.pc, u);
    if pc.WaitRegister? { CalmWoken(w, Register(w, u, pc), u, o, t); } else { CalmWoken(w, Advance(w, u), u, o, t); }
  }

  lemma AdvanceWoken(w: World, u: nat, o: Obj, t: nat)
    requires Woken(w, o, t) && QueuesOk(w.queues, w.hold) && Unlinked(w, u)
    ensures Woken(Advance(w, u), o, t)
  {
    var pc := PcOf(w.pc, u);
    if pc.WaitTop? || pc.WaitRegister? || pc.WaitDone? || pc.Away? { WaitWoken(w, u, o, t); }
    else if pc.WaitPark? { BlockWoken(w, u, o, t); }
    else if pc.LockPark? { LockWoken(w, u, pc.m, o, t); }
    else if pc.Unlocked? { WakeOneWoken(w, u, MutexQ(pc.m), Run, o, t); }
    else if pc.SigLoad? { LoadWoken(w, u, pc.o, pc.after, o, t); }
    else if pc.SigScan? { ScanWoken(w, u, pc.o, pc.sigs, pc.after, o, t); }
    else if pc.Readying? { ReadyWoken(w, u, pc.batch, pc.after, o, t); }
    else if pc.ExitSignal? { SignalWoken(w, u, ThreadObj(u), {SIGNAL_TERMINATED}, ExitKick, o, t); }
    else if pc.ExitKick? { WakeOneWoken(w, u, ReaperQ, Leaving(Halt), o, t); }
    else { ReapWoken(w, u, o, t); }
  }

  lemma StartWoken(w: World, u: nat, call: Call, o: Obj, t: nat)
    requires Woken(w, o, t) && PcOf(w.pc, u).Run?
    ensures Woken(Start(w, u, call), o, t)
  {
    if call.Signal? { SignalWoken(w, u, call.o, call.bits, Run, o, t); }
    else { CalmWoken(w, Start(w, u, call), u, o, t); }
  }

  lemma ClaimWoken(w: World, q: Queue, x: nat, o: Obj, t: nat)
    requires Woken(w, o, t) && QueuesOk(w.queues, w.hold)
    ensures Woken(Claim(w, q, x), o, t)
  {
    TakeShrinks(w, q, x, ObjQ(o));
    StillWoken(w, Claim(w, q, x), x, o, t);
  }

  lemma KillWoken(w: World, x: nat, o: Obj, t: nat)
    requires Woken(w, o, t) && QueuesOk(w.queues, w.hold)
    ensures Woken(KillOne(w, x), o, t)
  {
    var marked := w.(th := w.th.(killed := w.killed + {x}));
    CalmWoken(w, marked, x, o, t);
    if x in w.parked { ClaimWoken(marked, w.parked[x].q, x, o, t); }
    CalmWoken(marked, WakeSleeper(marked, x), x, o, t);
  }

  lemma ExpireWoken(w: World, x: nat, o: Obj, t: nat)
    requires Woken(w, o, t) && QueuesOk(w.queues, w.hold)
    ensures Woken(Expire(w, x), o, t)
  {
    var dropped := w.(ls := w.ls.(timed := w.timed - {x}));
    CalmWoken(w, dropped, x, o, t);
    if x in w.timed { ClaimWoken(dropped, w.timed[x].q, x, o, t); }
  }

  // ---------------------------------------------------------------- mutexes

  /** x has released m and is about to wake a waiter, or x is about to try m without being linked. */
  predicate Serves(w: World, m: nat, x: nat) {
    var pc := PcOf(w.pc, x);
    pc == Unlocked(m) || (Tries(pc, m) && x !in QueueOf(w.queues, MutexQ(m)))
  }

  predicate Tries(pc: Pc, m: nat) { pc == LockPark(m) || (Suspended(pc) && pc.after == LockPark(m)) }

  /** A free mutex with waiters has a thread that will take it or wake one of them. */
  ghost predicate Served(w: World, m: nat) {
    m !in w.mutex && QueueOf(w.queues, MutexQ(m)) != [] ==> exists x :: Serves(w, m, x)
  }

  lemma StillServed(w: World, w': World, u: nat, m: nat)
    requires Served(w, m) && Others(w, w', u) && (m !in w'.mutex ==> m !in w.mutex)
    requires m !in w'.mutex ==> Shrinks(w, w', MutexQ(m))
    requires m !in w'.mutex && Serves(w, m, u) ==> Serves(w', m, u)
    ensures Served(w', m)
  {
    var list := QueueOf(w'.queues, MutexQ(m));
    if m !in w'.mutex && list != [] {
      assert list[0] in list;
      var x :| Serves(w, m, x);
      assert Serves(w', m, x);
    }
  }

  lemma CalmServed(w: World, w': World, u: nat, m: nat)
    requires Served(w, m) && Others(w, w', u) && w'.queues == w.queues && (m !in w'.mutex ==> m !in w.mutex)
    requires m !in w'.mutex && Serves(w, m, u) ==> Serves(w', m, u)
    ensures Served(w', m)
  {
    StillServed(w, w', u, m);
  }

  lemma ParkServed(w: World, u: nat, q: Queue, mask: set<nat>, after: Pc, m: nat)
    requires Served(w, m) && !Serves(w, m, u) && (q == MutexQ(m) ==> m in w.mutex)
    ensures Served(ParkOn(w, u, q, mask, after), m)
  {
    StillServed(w, ParkOn(w, u, q, mask, after), u, m);
  }

  lemma WakeOneServed(w: World, u: nat, q: Queue, after: Pc, m: nat)
    requires Served(w, m) && QueuesOk(w.queues, w.hold) && !Serves(w, m, u)
    ensures Served(WakeOne(w, u, q, after), m)
  {
    var found := FirstPlain(QueueOf(w.queues, q), w.parked);
    if found.Some? { TakeShrinks(w, q, found.value, MutexQ(m)); }
    StillServed(w, WakeOne(w, u, q, after), u, m);
  }

  lemma LinkedTries(w: World, m: nat, x: nat)
    requires QueuesOk(w.queues, w.hold) && Fits(w, x) && x in QueueOf(w.queues, MutexQ(m))
    ensures Tries(PcOf(w.pc, x), m) && MaskOf(w.parked, x) == {}
  {
    assert Lists(QueueOf(w.queues, MutexQ(m)), w.hold, Node(MutexQ(m)));
  }

  /** wake_one hands the mutex's turn from the releaser to the waiter it takes. */
  lemma UnlockedServed(w: World, u: nat, m: nat)
    requires QueuesOk(w.queues, w.hold) && (forall x: nat :: Fits(w, x)) && Unlinked(w, u)
    ensures Served(WakeOne(w, u, MutexQ(m), Run), m)
  {
    var list := QueueOf(w.queues, MutexQ(m));
    FirstPlainIs(list, w.parked);
    var found := FirstPlain(list, w.parked);
    if list != [] { assert list[0] in list; LinkedTries(w, m, list[0]); }
    if found.Some? {
      var x, w' := found.value, WakeOne(w, u, MutexQ(m), Run);
      LinkedTries(w, m, x);
      TakeShrinks(w, MutexQ(m), x, MutexQ(m));
      assert x != u by { assert u !in list; }
      assert Serves(w', m, x);
    }
  }

  lemma LockServed(w: World, u: nat, n: nat, m: nat)
    requires Served(w, m) && PcOf(w.pc, u) == LockPark(n)
    ensures Served(TryLock(w, u, n), m)
  {
    if n !in w.mutex { CalmServed(w, TryLock(w, u, n), u, m); }
    else if n != m { ParkServed(w, u, MutexQ(n), {}, LockPark(n), m); }
  }

  lemma BlockServed(w: World, u: nat, m: nat)
    requires Served(w, m) && PcOf(w.pc, u).WaitPark?
    ensures Served(BlockIf(w, u, PcOf(w.pc, u)), m)
  {
    var pc := PcOf(w.pc, u);
    var done := WaitDone(pc.o, pc.mask, pc.deadline);
    if Fired(w, u, pc) {
      CalmServed(w, Goto(w, u, done), u, m);
    } else {
      ParkServed(w, u, ObjQ(pc.o), pc.mask, done, m);
    }
  }

  lemma ScanServed(w: World, u: nat, o: Obj, sigs: set<nat>, after: Pc, m: nat)
    requires Served(w, m) && PcOf(w.pc, u).SigScan?
    ensures Served(ScanPass(w, u, o, sigs, after), m)
  {
    StillServed(w, ScanPass(w, u, o, sigs, after), u, m);
  }

  lemma ReapServed(w: World, u: nat, m: nat)
    requires Served(w, m) && (PcOf(w.pc, u).ReapTop? || PcOf(w.pc, u).ReapPark? || PcOf(w.pc, u).ReapHold?)
    ensures Served(ReapNext(w, u), m) && Served(ReapWait(w, u), m)
    ensures PcOf(w.pc, u).ReapHold? ==> Served(ReapFree(w, u, PcOf(w.pc, u).zombie), m)
  {
    CalmServed(w, ReapNext(w, u), u, m);
    if w.zombies == [] { ParkServed(w, u, ReaperQ, {}, ReapTop, m); } else { CalmServed(w, ReapWait(w, u), u, m); }
    if PcOf(w.pc, u).ReapHold? { CalmServed(w, ReapFree(w, u, PcOf(w.pc, u).zombie), u, m); }
  }

  lemma WaitServed(w: World, u: nat, m: nat)
    requires Served(w, m) && Unlinked(w, u)
    requires var pc := PcOf(w.pc, u); pc.WaitTop? || pc.WaitRegister? || pc.WaitDone? || pc.Away?
    ensures Served(Advance(w, u), m)
  {
    var pc := PcOf(w.pc, u);
    if pc.WaitRegister? { CalmServed(w, Register(w, u, pc), u, m); } else { CalmServed(w, Advance(w, u), u, m); }
  }

  lemma AdvanceServed(w: World, u: nat, m: nat)
    requires Served(w, m) && QueuesOk(w.queues, w.hold) && (forall x: nat :: Fits(w, x)) && Unlinked(w, u)
    ensures Served(Advance(w, u), m)
  {
    var pc := PcOf(w.pc, u);
    if pc.WaitTop? || pc.WaitRegister? || pc.WaitDone? || pc.Away? { WaitServed(w, u, m); }
    else if pc.WaitPark? { BlockServed(w, u, m); }
    else if pc.LockPark? { LockServed(w, u, pc.m, m); }
    else if pc.Unlocked? {
      if pc.m == m { UnlockedServed(w, u, m); } else { WakeOneServed(w, u, MutexQ(pc.m), Run, m); }
    }
    else if pc.SigLoad? { CalmServed(w, Advance(w, u), u, m); }
    else if pc.SigScan? { ScanServed(w, u, pc.o, pc.sigs, pc.after, m); }
    else if pc.Readying? { CalmServed(w, ReadyNext(w, u, pc.batch, pc.after), u, m); }
    else if pc.ExitSignal? { CalmServed(w, Terminate(w, u), u, m); }
    else if pc.ExitKick? { WakeOneServed(w, u, ReaperQ, Leaving(Halt), m); }
    else if pc.ReapTop? || pc.ReapPark? || pc.ReapHold? { ReapServed(w, u, m); }
  }

  lemma StartServed(w: World, u: nat, call: Call, m: nat)
    requires Served(w, m) && PcOf(w.pc, u).Run?
    ensures Served(Start(w, u, call), m)
  {
    if call.Unlock? {
      if call.m in w.mutex && w.mutex[call.m] == u {
        ReleaseServed(w, u, call.m, m);
      } else {
        assert Start(w, u, call) == w;
      }
    } else {
      CalmServed(w, Start(w, u, call), u, m);
    }
  }

  lemma ReleaseServed(w: World, u: nat, n: nat, m: nat)
    requires Served(w, m) && PcOf(w.pc, u).Run?
    ensures Served(Goto(w.(sh := w.sh.(mutex := w.mutex - {n})), u, Unlocked(n)), m)
  {
    var w' := Goto(w.(sh := w.sh.(mutex := w.mutex - {n})), u, Unlocked(n));
    if n == m { assert Serves(w', m, u); } else { CalmServed(w, w', u, m); }
  }

  lemma ClaimServed(w: World, q: Queue, x: nat, m: nat)
    requires Served(w, m) && QueuesOk(w.queues, w.hold)
    ensures Served(Claim(w, q, x), m)
  {
    TakeShrinks(w, q, x, MutexQ(m));
    StillServed(w, Claim(w, q, x), x, m);
  }

  lemma KillServed(w: World, x: nat, m: nat)
    requires Served(w, m) && QueuesOk(w.queues, w.hold)
    ensures Served(KillOne(w, x), m)
  {
    var marked := w.(th := w.th.(killed := w.killed + {x}));
    CalmServed(w, marked, x, m);
    if x in w.parked { ClaimServed(marked, w.parked[x].q, x, m); }
    CalmServed(marked, WakeSleeper(marked, x), x, m);
  }

  lemma ExpireServed(w: World, x: nat, m: nat)
    requires Served(w, m) && QueuesOk(w.queues, w.hold)
    ensures Served(Expire(w, x), m)
  {
    var dropped := w.(ls := w.ls.(timed := w.timed - {x}));
    CalmServed(w, dropped, x, m);
    if x in w.timed { ClaimServed(dropped, w.timed[x].q, x, m); }
  }

  // ---------------------------------------------------------------- the reaper

  /** A dying thread that has yet to kick the reaper. */
  predicate Kicks(pc: Pc) {
    if pc.SigLoad? || pc.SigScan? then pc.after.ExitKick?
    else if pc.Readying? then pc.after.ExitKick? || (pc.after.SigScan? && pc.after.after.ExitKick?)
    else pc.ExitSignal? || pc.ExitKick?
  }

  /** With zombies waiting, the parked reaper has a kick coming. */
  ghost predicate Kicked(w: World) {
    w.zombies != [] && w.reaper in QueueOf(w.queues, ReaperQ) ==> exists u :: Kicks(PcOf(w.pc, u))
  }

  lemma StillKicked(w: World, w': World, u: nat)
    requires Kicked(w) && Others(w, w', u) && w'.reaper == w.reaper
    requires w'.zombies != [] ==> w.zombies != [] && Shrinks(w, w', ReaperQ)
    requires Kicks(PcOf(w.pc, u)) ==> Kicks(PcOf(w'.pc, u))
    ensures Kicked(w')
  {
    if w'.zombies != [] && w'.reaper in QueueOf(w'.queues, ReaperQ) {
      var x :| Kicks(PcOf(w.pc, x));
      assert Kicks(PcOf(w'.pc, x));
    }
  }

  lemma ParkKicked(w: World, u: nat, q: Queue, mask: set<nat>, after: Pc)
    requires Kicked(w) && !Kicks(PcOf(w.pc, u)) && (q == ReaperQ ==> w.zombies == [])
    ensures Kicked(ParkOn(w, u, q, mask, after))
  {
    StillKicked(w, ParkOn(w, u, q, mask, after), u);
  }

  lemma WakeOneKicked(w: World, u: nat, q: Queue, after: Pc)
    requires Kicked(w) && QueuesOk(w.queues, w.hold) && !Kicks(PcOf(w.pc, u))
    ensures Kicked(WakeOne(w, u, q, after))
  {
    var found := FirstPlain(QueueOf(w.queues, q), w.parked);
    if found.Some? { TakeShrinks(w, q, found.value, ReaperQ); }
    StillKicked(w, WakeOne(w, u, q, after), u);
  }

  lemma LinkedReaper(w: World, x: nat)
    requires QueuesOk(w.queues, w.hold) && Fits(w, x) && x in QueueOf(w.queues, ReaperQ)
    ensures x == w.reaper && MaskOf(w.parked, x) == {}
  {
    assert Lists(QueueOf(w.queues, ReaperQ), w.hold, Node(ReaperQ));
  }

  /** The kick takes the reaper off its queue: nothing else ever parks there. */
  lemma ExitKicked(w: World, u: nat)
    requires QueuesOk(w.queues, w.hold) && forall x: nat :: Fits(w, x)
    ensures Kicked(WakeOne(w, u, ReaperQ, Leaving(Halt)))
  {
    var list := QueueOf(w.queues, ReaperQ);
    FirstPlainIs(list, w.parked);
    var found := FirstPlain(list, w.parked);
    if found.Some? { LinkedReaper(w, found.value); TakeShrinks(w, ReaperQ, found.value, ReaperQ); }
    else if w.reaper in list { LinkedReaper(w, w.reaper); }
  }

  lemma BlockKicked(w: World, u: nat)
    requires Kicked(w) && PcOf(w.pc, u).WaitPark?
    ensures Kicked(BlockIf(w, u, PcOf(w.pc, u)))
  {
    var pc := PcOf(w.pc, u);
    var done := WaitDone(pc.o, pc.mask, pc.deadline);
    if Fired(w, u, pc) { StillKicked(w, Goto(w, u, done), u); } else { ParkKicked(w, u, ObjQ(pc.o), pc.mask, done); }
  }

  lemma LockKicked(w: World, u: nat, m: nat)
    requires Kicked(w) && PcOf(w.pc, u) == LockPark(m)
    ensures Kicked(TryLock(w, u, m))
  {
    if m !in w.mutex { StillKicked(w, TryLock(w, u, m), u); } else { ParkKicked(w, u, MutexQ(m), {}, LockPark(m)); }
  }

  lemma ReapKicked(w: World, u: nat)
    requires Kicked(w) && (PcOf(w.pc, u).ReapTop? || PcOf(w.pc, u).ReapPark? || PcOf(w.pc, u).ReapHold?)
    ensures Kicked(ReapNext(w, u)) && Kicked(ReapWait(w, u))
    ensures PcOf(w.pc, u).ReapHold? ==> Kicked(ReapFree(w, u, PcOf(w.pc, u).zombie))
  {
    StillKicked(w, ReapNext(w, u), u);
    if w.zombies == [] { ParkKicked(w, u, ReaperQ, {}, ReapTop); } else { StillKicked(w, ReapWait(w, u), u); }
    if PcOf(w.pc, u).ReapHold? { StillKicked(w, ReapFree(w, u, PcOf(w.pc, u).zombie), u); }
  }

  lemma WaitKicked(w: World, u: nat)
    requires Kicked(w)
    requires var pc := PcOf(w.pc, u); pc.WaitTop? || pc.WaitRegister? || pc.WaitDone? || pc.Away?
    ensures Kicked(Advance(w, u))
  {
    var pc := PcOf(w.pc, u);
    if pc.WaitRegister? { StillKicked(w, Register(w, u, pc), u); } else { StillKicked(w, Advance(w, u), u); }
  }

  lemma AdvanceKicked(w: World, u: nat)
    requires Kicked(w) && QueuesOk(w.queues, w.hold) && forall x: nat :: Fits(w, x)
    ensures Kicked(Advance(w, u))
  {
    var pc := PcOf(w.pc, u);
    if pc.WaitTop? || pc.WaitRegister? || pc.WaitDone? || pc.Away? { WaitKicked(w, u); }
    else if pc.WaitPark? { BlockKicked(w, u); }
    else if pc.LockPark? { LockKicked(w, u, pc.m); }
    else if pc.Unlocked? { WakeOneKicked(w, u, MutexQ(pc.m), Run); }
    else if pc.SigLoad? || pc.SigScan? || pc.Readying? || pc.ExitSignal? { SignalKicked(w, u); }
    else if pc.ExitKick? { ExitKicked(w, u); }
    else if pc.ReapTop? || pc.ReapPark? || pc.ReapHold? { ReapKicked(w, u); }
  }

  lemma SignalKicked(w: World, u: nat)
    requires Kicked(w) && Fits(w, u)
    requires var pc := PcOf(w.pc, u); pc.SigLoad? || pc.SigScan? || pc.Readying? || pc.ExitSignal?
    ensures Kicked(Advance(w, u))
  {
    StillKicked(w, Advance(w, u), u);
  }

  lemma StartKicked(w: World, u: nat, call: Call)
    requires Kicked(w) && PcOf(w.pc, u).Run?
    ensures Kicked(Start(w, u, call))
  {
    var w' := Start(w, u, call);
    if call.Exit? { assert Kicks(PcOf(w'.pc, u)); } else { StillKicked(w, w', u); }
  }

  lemma ClaimKicked(w: World, q: Queue, x: nat)
    requires Kicked(w) && QueuesOk(w.queues, w.hold)
    ensures Kicked(Claim(w, q, x))
  {
    TakeShrinks(w, q, x, ReaperQ);
    StillKicked(w, Claim(w, q, x), x);
  }

  lemma KillKicked(w: World, x: nat)
    requires Kicked(w) && QueuesOk(w.queues, w.hold)
    ensures Kicked(KillOne(w, x))
  {
    var marked := w.(th := w.th.(killed := w.killed + {x}));
    StillKicked(w, marked, x);
    if x in w.parked { ClaimKicked(marked, w.parked[x].q, x); }
    StillKicked(marked, WakeSleeper(marked, x), x);
  }

  lemma ExpireKicked(w: World, x: nat)
    requires Kicked(w) && QueuesOk(w.queues, w.hold)
    ensures Kicked(Expire(w, x))
  {
    var dropped := w.(ls := w.ls.(timed := w.timed - {x}));
    StillKicked(w, dropped, x);
    if x in w.timed { ClaimKicked(dropped, w.timed[x].q, x); }
  }

  // ---------------------------------------------------------------- every run

  /** The thread whose pc a core's switching step moves. */
  function Mover(w: World, a: Action): nat {
    if a.DoPick? && a.core in w.cores then w.cores[a.core].current else 0
  }

  /** Switching, the clock, the sleeper scan and spawn touch nothing a waker looks at. */
  ghost predicate Idles(w: World, w': World, u: nat) {
    && Others(w, w', u) && w'.queues == w.queues && w'.parked == w.parked && w'.sig == w.sig
    && w'.mutex == w.mutex && w'.zombies == w.zombies && w'.reaper == w.reaper
    && (PcOf(w'.pc, u) == PcOf(w.pc, u) || (PcOf(w.pc, u).Leaving? && PcOf(w'.pc, u) == Away(PcOf(w.pc, u).after)))
  }

  lemma CoreIdles(w: World, a: Action)
    requires a.DoPick? || a.DoSwitch? || a.DoFinish? || a.DoYield? || a.Wake? || a.Clock? || a.Spawn?
    ensures Idles(w, Step(w, a), Mover(w, a))
  {
    var u := Mover(w, a);
    match a
    case DoPick(c) => PickIdles(w, c);
    case DoSwitch(c) => SwitchIdles(w, c);
    case DoFinish(c) => SwitchIdles(w, c);
    case DoYield(c) => YieldStepIdles(w, c);
    case Wake(t) => WakeIdles(w, t, u); assert Step(w, a) == w || Step(w, a) == WakeSleeper(w, t);
    case Clock(_) =>
    case Spawn(t) => SpawnIdles(w, t, u);
  }

  lemma SpawnIdles(w: World, t: nat, u: nat)
    ensures Idles(w, Step(w, Spawn(t)), u)
  {
    if StateOf(w.state, t) == Unborn {
      assert Step(w, Spawn(t)) == MakeReady(w, t);
    } else {
      assert Step(w, Spawn(t)) == w;
    }
  }

  lemma SwitchIdles(w: World, c: nat)
    ensures Idles(w, Step(w, DoSwitch(c)), 0) && Idles(w, Step(w, DoFinish(c)), 0)
  {
    if c in w.cores && w.cores[c].picked.Some? {
      assert Step(w, DoSwitch(c)) == Switch(w, c);
    } else {
      assert Step(w, DoSwitch(c)) == w;
    }
    if c in w.cores && w.cores[c].previous.Some? {
      assert Step(w, DoFinish(c)) == Finish(w, c);
    } else {
      assert Step(w, DoFinish(c)) == w;
    }
  }

  lemma YieldStepIdles(w: World, c: nat)
    ensures Idles(w, Step(w, DoYield(c)), 0)
  {
    if Exec(w, c) && StateOf(w.state, w.cores[c].current) == Running && !PcOf(w.pc, w.cores[c].current).Away? {
      YieldIdles(w, c, 0);
    } else {
      assert Step(w, DoYield(c)) == w;
    }
  }

  lemma PickIdles(w: World, c: nat)
    ensures Idles(w, Step(w, DoPick(c)), Mover(w, DoPick(c)))
  {
    if Exec(w, c) && PcOf(w.pc, w.cores[c].current).Leaving? {
      var u := w.cores[c].current;
      assert Idles(w, Pick(Goto(w, u, Away(PcOf(w.pc, u).after)), c), u);
    } else {
      assert Step(w, DoPick(c)) == w;
    }
  }

  lemma YieldIdles(w: World, c: nat, u: nat)
    requires c in w.cores
    ensures Idles(w, Yield(w, c), u)
  {
    var core := w.cores[c];
    var (found, rest) := PopReady(w.runQ, w.cpu);
    if found.Some? {
      var picked := w.(th := w.th.(hold := w.hold[found.value := PickedBy(c)]), ls := w.ls.(runQ := rest),
          cs := w.cs.(cores := w.cores[c := core.(picked := found)]));
      assert Idles(w, picked, u) && Idles(w, MakeReady(picked, core.current), u);
    }
  }

  lemma WakeIdles(w: World, t: nat, u: nat)
    ensures Idles(w, WakeSleeper(w, t), u)
  {
  }

  ghost predicate Awake(w: World, o: Obj, t: nat, m: nat) { Woken(w, o, t) && Served(w, m) && Kicked(w) }

  lemma IdlesAwake(w: World, w': World, u: nat, o: Obj, t: nat, m: nat)
    requires Awake(w, o, t, m) && Idles(w, w', u)
    ensures Awake(w', o, t, m)
  {
    CalmWoken(w, w', u, o, t);
    CalmServed(w, w', u, m);
    StillKicked(w, w', u);
  }

  lemma ThreadAwake(w: World, a: Action, o: Obj, t: nat, m: nat)
    requires Inv(w) && Awake(w, o, t, m) && (a.Go? || a.Begin?)
    ensures Awake(Step(w, a), o, t, m)
  {
    Unfold(w);
    var c := a.core;
    if !Acting(w, c) { assert Step(w, a) == w; }
    else {
      var u := w.cores[c].current;
      ActingIsActor(w, c);
      ActorUnlinked(w, u);
      if a.Go? {
        AdvanceWoken(w, u, o, t);
        AdvanceServed(w, u, m);
        AdvanceKicked(w, u);
      } else if PcOf(w.pc, u).Run? {
        StartWoken(w, u, a.call, o, t);
        StartServed(w, u, a.call, m);
        StartKicked(w, u, a.call);
        assert Step(w, a) == w || Step(w, a) == Start(w, u, a.call);
      } else {
        assert Step(w, a) == w;
      }
    }
  }

  lemma StepAwake(w: World, a: Action, o: Obj, t: nat, m: nat)
    requires Inv(w) && Awake(w, o, t, m)
    ensures Awake(Step(w, a), o, t, m)
  {
    Unfold(w);
    match a
    case Go(_) => ThreadAwake(w, a, o, t, m);
    case Begin(_, _) => ThreadAwake(w, a, o, t, m);
    case Expiry(x) => ExpireWoken(w, x, o, t); ExpireServed(w, x, m); ExpireKicked(w, x);
    case Kill(x) =>
      KillWoken(w, x, o, t);
      KillServed(w, x, m);
      KillKicked(w, x);
      assert Step(w, a) == w || Step(w, a) == KillOne(w, x);
    case _ => CoreIdles(w, a); IdlesAwake(w, Step(w, a), Mover(w, a), o, t, m);
  }

  lemma {:induction false} RunAwake(w: World, acts: seq<Action>, o: Obj, t: nat, m: nat)
    requires Initial(w)
    ensures Awake(Runs(w, acts), o, t, m)
  {
    if acts != [] {
      var before := acts[..|acts| - 1];
      RunKeeps(w, before);
      RunAwake(w, before, o, t, m);
      StepAwake(Runs(w, before), acts[|acts| - 1], o, t, m);
    }
  }

  /** u is not blocked and has still to scan o for t. */
  predicate Rescues(v: World, o: Obj, t: nat, u: nat) {
    && Scans(PcOf(v.pc, u), o, MaskOf(v.parked, t))
    && StateOf(v.state, u) != Unborn && StateOf(v.state, u) != Blocked
  }

  lemma WakerRuns(v: World, u: nat)
    requires Fits(v, u) && Waker(PcOf(v.pc, u))
    ensures StateOf(v.state, u) != Unborn && StateOf(v.state, u) != Blocked
  {
  }

  lemma HitIsRescued(v: World, o: Obj, t: nat)
    requires ThreadsOk(v) && Woken(v, o, t) && Hit(v, o, t)
    ensures exists u :: Rescues(v, o, t, u)
  {
    var u :| Scans(PcOf(v.pc, u), o, MaskOf(v.parked, t));
    Local(v, u);
    WakerRuns(v, u);
    assert Rescues(v, o, t, u);
  }

  /** In every run, a thread parked on an object one of whose wanted signals is set has a signaller
      that is not itself blocked and has still to scan for it. */
  lemma NoLostSignal(w: World, acts: seq<Action>, o: Obj, t: nat)
    requires Initial(w) && Hit(Runs(w, acts), o, t)
    ensures exists u :: Rescues(Runs(w, acts), o, t, u)
  {
    RunKeeps(w, acts);
    Unfold(Runs(w, acts));
    RunAwake(w, acts, o, t, 0);
    HitIsRescued(Runs(w, acts), o, t);
  }

  /** In every run, a free mutex with waiters has a thread off every queue that will take it or wake
      a waiter. */
  lemma NoLostUnlock(w: World, acts: seq<Action>, m: nat)
    requires Initial(w) && m !in Runs(w, acts).mutex && QueueOf(Runs(w, acts).queues, MutexQ(m)) != []
    ensures var v := Runs(w, acts); exists x :: Serves(v, m, x) && Unlinked(v, x)
  {
    var v := Runs(w, acts);
    RunKeeps(w, acts);
    Unfold(Runs(w, acts));
    RunAwake(w, acts, OtherObj(0), 0, m);
    var x :| Serves(v, m, x);
    ServerUnlinked(v, m, x);
  }

  lemma ServerUnlinked(v: World, m: nat, x: nat)
    requires QueuesOk(v.queues, v.hold) && Fits(v, x) && Serves(v, m, x)
    ensures Unlinked(v, x)
  {
    forall q ensures x !in QueueOf(v.queues, q) { assert Lists(QueueOf(v.queues, q), v.hold, Node(q)); }
  }

  /** In every run, when the reaper is parked and a zombie waits, a dying thread still on its core has
      the kick ahead of it. */
  lemma NoLostKick(w: World, acts: seq<Action>)
    requires Initial(w)
    requires var v := Runs(w, acts); v.zombies != [] && v.reaper in QueueOf(v.queues, ReaperQ)
    ensures var v := Runs(w, acts);
            exists u :: Kicks(PcOf(v.pc, u)) && StateOf(v.state, u) == Dead && OnExec(v.cores, v.cpu, u)
  {
    var v := Runs(w, acts);
    RunKeeps(w, acts);
    Unfold(Runs(w, acts));
    RunAwake(w, acts, OtherObj(0), 0, 0);
    var u :| Kicks(PcOf(v.pc, u));
    Local(v, u);
    KickerIsDying(v, u);
  }

  lemma KickerIsDying(v: World, u: nat)
    requires Fits(v, u) && Kicks(PcOf(v.pc, u))
    ensures StateOf(v.state, u) == Dead && OnExec(v.cores, v.cpu, u)
  {
    var pc := PcOf(v.pc, u);
    assert !LivePc(pc);
    assert ExitPc(pc);
  }
}
