/** Every step keeps the invariant: first the steps of threads, then the steps of cores. */
module SchedSteps {
  import opened Basics
  import opened SchedModel
  import opened SchedInv

  /** A thread that may take its next step: it runs on a core with no switch under way. */
  predicate Actor(w: World, t: nat) {
    && OnExec(w.cores, w.cpu, t) && t !in w.cores && !PcOf(w.pc, t).Leaving?
    && StateOf(w.state, t) in {Running, Dead} && (StateOf(w.state, t) == Dead ==> !PcOf(w.pc, t).Away?)
  }

  lemma ActingIsActor(w: World, c: nat)
    requires Inv(w) && Acting(w, c)
    ensures Actor(w, w.cores[c].current)
  {
    Unfold(w);
    var t := w.cores[c].current;
    assert Fits(w, t) && PhaseOk(w.cores[c], c, w.state, w.pc) && CoreOk(w.cores[c], c, w.cpu);
  }

  /** An actor changes its own pc, registration or parking record and nothing else about a thread. */
  lemma ActorMoves(w: World, w': World, t: nat)
    requires Inv(w) && Actor(w, t)
    requires w' == w.(th := w.th.(pc := w'.pc, parked := w'.parked), ls := w.ls.(timed := w'.timed),
      sh := w.sh.(sig := w'.sig, mutex := w'.mutex))
    requires forall u: nat | u != t :: Same(w, w', u)
    requires Batch(PcOf(w.pc, t)) == Batch(PcOf(w'.pc, t))
    requires !PcOf(w.pc, t).ReapHold? && !PcOf(w'.pc, t).ReapHold?
    requires Fits(w', t)
    requires StateOf(w.state, t) == Dead ==> !PcOf(w'.pc, t).Away?
    ensures Inv(w')
  {
    Unfold(w);
    OneThread(w, w', t);
    ActorHolds(w, w', t);
    ActorKill(w, w', t);
    Fold(w');
  }

  lemma ActorHolds(w: World, w': World, t: nat)
    requires HoldsOk(w) && w' == w.(th := w.th.(pc := w'.pc, parked := w'.parked), ls := w.ls.(timed := w'.timed),
                                    sh := w.sh.(sig := w'.sig, mutex := w'.mutex))
    requires forall u: nat | u != t :: Same(w, w', u)
    requires Batch(PcOf(w.pc, t)) == Batch(PcOf(w'.pc, t)) && !PcOf(w.pc, t).ReapHold? && !PcOf(w'.pc, t).ReapHold?
    ensures HoldsOk(w')
  {
    forall u: nat ensures Lists(Batch(PcOf(w'.pc, u)), w'.hold, WokenBy(u)) {
      assert Lists(Batch(PcOf(w.pc, u)), w.hold, WokenBy(u));
      if u != t { assert Same(w, w', u); }
    }
    if w.reaper != t { assert Same(w, w', w.reaper); }
  }

  lemma ActorKill(w: World, w': World, t: nat)
    requires KillOk(w.killed, w.hold, w.parked) && Fits(w, t) && Actor(w, t) && w'.killed == w.killed
    requires w'.hold == w.hold
    requires forall u: nat | u != t :: Same(w, w', u)
    ensures KillOk(w'.killed, w'.hold, w'.parked)
  {
    forall u | u in w'.killed
      ensures HoldOf(w'.hold, u) != Asleep && (HoldOf(w'.hold, u).Node? ==> MaskOf(w'.parked, u) == {})
    {
      if u != t { assert Same(w, w', u); }
    }
  }

  /** pc' is a place a thread at pc may go by itself. */
  predicate Turns(pc: Pc, pc': Pc) {
    && !Suspended(pc') && Batch(pc) == Batch(pc') && !pc.ReapHold? && !pc'.ReapHold?
    && (ReaperPc(pc) <==> ReaperPc(pc')) && Registered(pc) == Registered(pc')
    && (pc'.WaitPark? && Registered(pc').Some? ==> pc.WaitPark?)
  }

  lemma GotoKeeps(w: World, t: nat, pc: Pc)
    requires Inv(w) && Actor(w, t) && !PcOf(w.pc, t).Away? && Turns(PcOf(w.pc, t), pc)
    requires if StateOf(w.state, t) == Dead then ExitPc(pc) else LivePc(pc)
    ensures Inv(Goto(w, t, pc))
  {
    Look(w, t);
    ActorMoves(w, Goto(w, t, pc), t);
  }

  /** Signals, mutexes and the clock are not part of the invariant. */
  lemma Unrelated(w: World, sig: imap<Obj, set<nat>>, mutex: imap<nat, nat>, now: nat)
    requires Inv(w)
    ensures Inv(w.(sh := w.sh.(sig := sig, mutex := mutex, now := now)))
  {
    Unfold(w);
    var w' := w.(sh := w.sh.(sig := sig, mutex := mutex, now := now));
    forall t: nat ensures Fits(w', t) {
      Look(w, t);
    }
  }

  lemma RegisterKeeps(w: World, t: nat)
    requires Inv(w) && Actor(w, t) && PcOf(w.pc, t).WaitRegister?
    ensures Inv(Advance(w, t))
  {
    Look(w, t);
    var pc := PcOf(w.pc, t);
    var w' := w.(ls := w.ls.(timed := w.timed[t := Timed(pc.deadline.value, ObjQ(pc.o))]),
        th := w.th.(pc := w.pc[t := WaitPark(pc.o, pc.mask, pc.deadline)]));
    ActorMoves(w, w', t);
  }

  lemma UnregisterKeeps(w: World, t: nat)
    requires Inv(w) && Actor(w, t) && PcOf(w.pc, t).WaitDone?
    ensures Inv(Advance(w, t))
  {
    Look(w, t);
    var pc := PcOf(w.pc, t);
    var w' := w.(ls := w.ls.(timed := w.timed - {t}),
        th := w.th.(pc := w.pc[t := WaitTop(pc.o, pc.mask, pc.deadline)]));
    ActorMoves(w, w', t);
  }

  lemma ResumeKeeps(w: World, t: nat)
    requires Inv(w) && Actor(w, t) && PcOf(w.pc, t).Away?
    ensures Inv(Advance(w, t))
  {
    Look(w, t);
    var w' := w.(th := w.th.(parked := w.parked - {t}, pc := w.pc[t := PcOf(w.pc, t).after]));
    ActorMoves(w, w', t);
  }

  /** block_if parks: the thread keeps its core until the switch. */
  lemma ParkKeeps(w: World, t: nat, q: Queue, mask: set<nat>, after: Pc)
    requires Inv(w) && Actor(w, t) && StateOf(w.state, t) == Running && !PcOf(w.pc, t).Away?
    requires ParkFor(after) == Some(Park(q, mask)) && Continues(after) && Batch(PcOf(w.pc, t)) == []
    requires !PcOf(w.pc, t).ReapHold? && (ReaperPc(PcOf(w.pc, t)) <==> after.ReapTop?)
    requires mask != {} ==> t !in w.killed
    requires Registered(PcOf(w.pc, t)) == Registered(Leaving(after))
    requires Registered(Leaving(after)).Some? ==> t in w.timed
    ensures Inv(ParkOn(w, t, q, mask, after))
  {
    Unfold(w);
    Look(w, t);
    ParkThread(w, t, q, mask, after);
    ParkHolds(w, t, q, mask, after);
    ParkKill(w, t, q, mask, after);
  }

  lemma ParkKill(w: World, t: nat, q: Queue, mask: set<nat>, after: Pc)
    requires KillOk(w.killed, w.hold, w.parked) && (mask != {} ==> t !in w.killed)
    ensures var w' := ParkOn(w, t, q, mask, after); KillOk(w'.killed, w'.hold, w'.parked)
  {
  }

  lemma ParkThread(w: World, t: nat, q: Queue, mask: set<nat>, after: Pc)
    requires CpuOk(w.cores, w.cpu) && ThreadsOk(w) && Actor(w, t) && StateOf(w.state, t) == Running
    requires !PcOf(w.pc, t).Away?
    requires ParkFor(after) == Some(Park(q, mask)) && Continues(after)
    requires ReaperPc(PcOf(w.pc, t)) <==> after.ReapTop?
    requires Registered(PcOf(w.pc, t)) == Registered(Leaving(after))
    requires Registered(Leaving(after)).Some? ==> t in w.timed
    ensures ThreadsOk(ParkOn(w, t, q, mask, after))
  {
    Local(w, t);
    var w' := ParkOn(w, t, q, mask, after);
    ParkFits(w, t, q, mask, after);
    OneThread(w, w', t);
  }

  lemma ParkFits(w: World, t: nat, q: Queue, mask: set<nat>, after: Pc)
    requires Fits(w, t) && Actor(w, t) && StateOf(w.state, t) == Running && !PcOf(w.pc, t).Away?
    requires ParkFor(after) == Some(Park(q, mask)) && Continues(after)
    requires ReaperPc(PcOf(w.pc, t)) <==> after.ReapTop?
    requires Registered(PcOf(w.pc, t)) == Registered(Leaving(after))
    requires Registered(Leaving(after)).Some? ==> t in w.timed
    ensures Fits(ParkOn(w, t, q, mask, after), t)
  {
  }

  lemma ParkHolds(w: World, t: nat, q: Queue, mask: set<nat>, after: Pc)
    requires HoldsOk(w) && HoldOf(w.hold, t) == Nobody && Batch(PcOf(w.pc, t)) == []
    requires !PcOf(w.pc, t).ReapHold?
    ensures HoldsOk(ParkOn(w, t, q, mask, after))
  {
    QueuesPush(w.queues, w.hold, q, t);
    PcKeeps(w, t, Leaving(after));
    OthersKeep(Goto(w, t, Leaving(after)), t, Node(q));
  }

  /** make_ready of a thread the caller has just taken out of its wait. */
  lemma ReadyThreads(w: World, w': World, t: nat)
    requires ThreadsOk(w) && StateOf(w.state, t) in {Blocked, Unborn}
    requires w' == w.(th := w.th.(state := w.state[t := Ready], hold := w.hold[t := RunQueue], killed := w'.killed),
      ls := w.ls.(runQ := w'.runQ, queues := w'.queues, sleepers := w'.sleepers, timed := w'.timed))
    requires forall u: nat | u != t :: EntryOf(w'.timed, u) == EntryOf(w.timed, u)
    requires EntryOf(w'.timed, t) in {None, EntryOf(w.timed, t)}
    ensures ThreadsOk(w')
  {
    Local(w, t);
    OneThread(w, w', t);
  }

  lemma ReadyHolds(w: World, t: nat)
    requires HoldsOk(w) && HoldOf(w.hold, t) == Nobody
    ensures HoldsOk(MakeReady(w, t))
  {
    Pushed(w.runQ, w.hold, t, RunQueue);
    OthersKeep(w, t, RunQueue);
  }

  lemma ReadyKill(w: World, w': World, t: nat)
    requires KillOk(w.killed, w.hold, w.parked) && w'.hold == w.hold[t := RunQueue] && w'.parked == w.parked
    requires w'.killed == w.killed || w'.killed == w.killed + {t}
    ensures KillOk(w'.killed, w'.hold, w'.parked)
  {
  }

  lemma WakeSleeperKeeps(w: World, t: nat)
    requires Inv(w) && t in w.sleepers
    ensures Inv(WakeSleeper(w, t))
  {
    Unfold(w);
    var w' := WakeSleeper(w, t);
    Look(w, t);
    ReadyThreads(w, w', t);
    WakeSleeperHolds(w, t);
    ReadyKill(w, w', t);
  }

  lemma WakeSleeperHolds(w: World, t: nat)
    requires HoldsOk(w) && t in w.sleepers
    ensures HoldsOk(WakeSleeper(w, t))
  {
    Pushed(w.runQ, w.hold, t, RunQueue);
    OthersKeep(w, t, RunQueue);
  }

  lemma SpawnKeeps(w: World, t: nat)
    requires Inv(w) && StateOf(w.state, t) == Unborn
    ensures Inv(MakeReady(w, t))
  {
    Unfold(w);
    var w' := MakeReady(w, t);
    Look(w, t);
    ReadyThreads(w, w', t);
    ReadyHolds(w, t);
    ReadyKill(w, w', t);
  }

  lemma ClaimHolds(w: World, q: Queue, t: nat)
    requires HoldsOk(w) && t in QueueOf(w.queues, q)
    ensures HoldsOk(Claim(w, q, t)) && HoldOf(w.hold, t) == Node(q)
  {
    QueuesDrop(w.queues, w.hold, q, t, RunQueue);
    Pushed(w.runQ, w.hold, t, RunQueue);
    OthersKeep(w, t, RunQueue);
  }

  lemma ExpireKeeps(w: World, t: nat)
    requires Inv(w)
    ensures Inv(Expire(w, t))
  {
    Unfold(w);
    if t in w.timed && w.timed[t].at <= w.now && t in QueueOf(w.queues, w.timed[t].q) {
      var q := w.timed[t].q;
      Look(w, t);
      ClaimHolds(w.(ls := w.ls.(timed := w.timed - {t})), q, t);
      ReadyThreads(w, Expire(w, t), t);
      ReadyKill(w, Expire(w, t), t);
      Fold(Expire(w, t));
    }
  }

  lemma MarkKeeps(w: World, t: nat)
    requires Inv(w) && (StateOf(w.state, t) != Blocked || HoldOf(w.hold, t).WokenBy?)
    ensures Inv(w.(th := w.th.(killed := w.killed + {t})))
  {
    Unfold(w);
    var w' := w.(th := w.th.(killed := w.killed + {t}));
    Look(w, t);
    forall u: nat ensures Fits(w', u) { Look(w, u); }
    Fold(w');
  }

  lemma KillKeeps(w: World, t: nat)
    requires Inv(w)
    ensures Inv(KillOne(w, t))
  {
    var st := StateOf(w.state, t);
    Look(w, t);
    if st in {Dead, Unborn} {
    } else if st != Blocked {
      MarkKeeps(w, t);
    } else if t in w.parked {
      KillParked(w, t);
    } else {
      KillSleeper(w, t);
    }
  }

  lemma KillSleeper(w: World, t: nat)
    requires Inv(w) && StateOf(w.state, t) == Blocked && t !in w.parked
    ensures Inv(KillOne(w, t)) && StateOf(KillOne(w, t).state, t) == Ready
  {
    Unfold(w);
    var w' := KillOne(w, t);
    Look(w, t);
    ReadyThreads(w, w', t);
    Pushed(w.runQ, w.hold, t, RunQueue);
    OthersKeep(w, t, RunQueue);
    ReadyKill(w, w', t);
  }

  lemma KillParked(w: World, t: nat)
    requires Inv(w) && StateOf(w.state, t) == Blocked && t in w.parked
    ensures Inv(KillOne(w, t))
  {
    Unfold(w);
    var q := w.parked[t].q;
    Look(w, t);
    assert Lists(QueueOf(w.queues, q), w.hold, Node(q));
    if t in QueueOf(w.queues, q) {
      KillClaims(w, t, q);
    } else {
      MarkKeeps(w, t);
    }
  }

  lemma KillClaims(w: World, t: nat, q: Queue)
    requires Inv(w) && StateOf(w.state, t) == Blocked && t in QueueOf(w.queues, q)
    ensures Inv(Claim(w.(th := w.th.(killed := w.killed + {t})), q, t))
  {
    Unfold(w);
    var w' := Claim(w.(th := w.th.(killed := w.killed + {t})), q, t);
    ClaimHolds(w.(th := w.th.(killed := w.killed + {t})), q, t);
    ReadyThreads(w, w', t);
    ReadyKill(w, w', t);
  }

  // ---------------------------------------------------------------- wakers

  /** wake_one: the waiter leaves its node for the waker's hands. */
  lemma WakeNobody(w: World, t: nat, after: Pc)
    requires Inv(w) && Actor(w, t) && Waking(PcOf(w.pc, t)) && Batch(PcOf(w.pc, t)) == []
    requires after == if StateOf(w.state, t) == Dead then Leaving(Halt) else Run
    ensures Inv(Goto(w, t, after))
  {
    Unfold(w);
    ActorReadies(w, t, after);
    PcKeeps(w, t, after);
    Fold(Goto(w, t, after));
  }

  lemma WakeOneKeeps(w: World, t: nat, q: Queue, after: Pc)
    requires Inv(w) && Actor(w, t) && Waking(PcOf(w.pc, t)) && Batch(PcOf(w.pc, t)) == []
    requires after == if StateOf(w.state, t) == Dead then Leaving(Halt) else Run
    ensures Inv(WakeOne(w, t, q, after))
  {
    var found := FirstPlain(QueueOf(w.queues, q), w.parked);
    if found.None? {
      WakeNobody(w, t, after);
    } else {
      FirstPlainIs(QueueOf(w.queues, q), w.parked);
      TakeKeeps(w, t, q, found.value, Readying([found.value], after));
    }
  }

  lemma {:induction false} FirstPlainIs(list: seq<nat>, parked: imap<nat, Park>)
    ensures var f := FirstPlain(list, parked);
            if f.Some? then f.value in list && MaskOf(parked, f.value) == {}
            else forall u | u in list :: MaskOf(parked, u) != {}
  {
    if list != [] {
      FirstPlainIs(list[1..], parked);
      assert list == [list[0]] + list[1..];
    }
  }

  /** Threads move from their nodes into a waker's hands; nothing else about any thread changes. */
  lemma TakenThreads(w: World, w': World, taken: seq<nat>, waker: nat)
    requires ThreadsOk(w) && w' == w.(th := w.th.(hold := w'.hold), ls := w.ls.(queues := w'.queues))
    requires forall u: nat :: HoldOf(w'.hold, u) == if u in taken then WokenBy(waker) else HoldOf(w.hold, u)
    requires forall u | u in taken :: HoldOf(w.hold, u).Node?
    ensures ThreadsOk(w')
  {
    assert w'.state == w.state && w'.pc == w.pc && w'.cores == w.cores;
    forall u: nat ensures Fits(w', u) {
      Local(w, u);
    }
    forall c | c in w'.cores ensures PhaseOk(w'.cores[c], c, w'.state, w'.pc) {
      assert PhaseOk(w.cores[c], c, w.state, w.pc);
    }
  }

  /** A pc on the waking side: nothing registered, nothing parked. */
  predicate Waking(pc: Pc) {
    !Suspended(pc) && !ReaperPc(pc) && Registered(pc) == None && !pc.WaitPark?
  }

  /** Where a waker may go next, alive or on its way out. */
  predicate WakingNext(dead: bool, pc: Pc) {
    if dead then ExitPc(pc) && !pc.Away? else LivePc(pc) && Waking(pc)
  }

  lemma ExitIsWaking(pc: Pc)
    requires ExitPc(pc)
    ensures !ReaperPc(pc) && Registered(pc) == None && !pc.WaitPark? && (!Suspended(pc) ==> Waking(pc))
  {
  }

  lemma SigShape(pc: Pc, dead: bool, pass: Pass)
    requires pc.SigScan? && if dead then ExitPc(pc) else LivePc(pc)
    ensures
      var next := Then(pass.batch, if pass.scannedAll then pc.after else pc);
      WakingNext(dead, next) && Batch(next) == pass.batch && Waking(pc) && !next.ReapHold?
  {
  }

  lemma ReadyingShape(pc: Pc, dead: bool)
    requires pc.Readying? && if dead then ExitPc(pc) else LivePc(pc)
    ensures
      var next := Then(pc.batch[..|pc.batch| - 1], pc.after);
      WakingNext(dead, next) && Batch(next) == pc.batch[..|pc.batch| - 1] && Waking(pc) && Batch(pc.after) == []
      && !pc.after.ReapHold?
  {
  }

  lemma ActorReadies(w: World, t: nat, pc: Pc)
    requires CpuOk(w.cores, w.cpu) && ThreadsOk(w) && Actor(w, t) && Waking(PcOf(w.pc, t))
    requires WakingNext(StateOf(w.state, t) == Dead, pc)
    ensures ThreadsOk(Goto(w, t, pc))
  {
    Local(w, t);
    var w' := Goto(w, t, pc);
    assert PcOf(w'.pc, t) == pc;
    if StateOf(w.state, t) == Dead { DeadFits(w, w', t); } else { LiveFits(w, w', t); }
    OneThread(w, w', t);
  }

  lemma DeadFits(w: World, w': World, t: nat)
    requires Fits(w, t) && Actor(w, t) && w' == w.(th := w.th.(pc := w'.pc)) && Waking(PcOf(w.pc, t))
    requires StateOf(w.state, t) == Dead && ExitPc(PcOf(w'.pc, t)) && !PcOf(w'.pc, t).Away?
    ensures Fits(w', t)
  {
    ExitIsWaking(PcOf(w'.pc, t));
  }

  lemma LiveFits(w: World, w': World, t: nat)
    requires Fits(w, t) && Actor(w, t) && w' == w.(th := w.th.(pc := w'.pc)) && Waking(PcOf(w.pc, t))
    requires StateOf(w.state, t) == Running && LivePc(PcOf(w'.pc, t)) && Waking(PcOf(w'.pc, t))
    ensures Fits(w', t)
  {
    assert !ExitPc(PcOf(w'.pc, t));
  }

  lemma TakeKeeps(w: World, t: nat, q: Queue, u: nat, pc: Pc)
    requires Inv(w) && Actor(w, t) && Waking(PcOf(w.pc, t)) && Batch(PcOf(w.pc, t)) == []
    requires u in QueueOf(w.queues, q) && Batch(pc) == [u] && WakingNext(StateOf(w.state, t) == Dead, pc)
    ensures Inv(Goto(Take(w, q, u, t), t, pc))
  {
    Unfold(w);
    assert Lists(QueueOf(w.queues, q), w.hold, Node(q));
    ActorReadies(w, t, pc);
    TakenThreads(Goto(w, t, pc), Goto(Take(w, q, u, t), t, pc), [u], t);
    TakeHolds(w, t, q, u, pc);
  }

  lemma TakeHolds(w: World, t: nat, q: Queue, u: nat, pc: Pc)
    requires HoldsOk(w) && u in QueueOf(w.queues, q) && Batch(PcOf(w.pc, t)) == [] && Batch(pc) == [u]
    requires !PcOf(w.pc, t).ReapHold?
    ensures HoldsOk(Goto(Take(w, q, u, t), t, pc))
  {
    var w' := Goto(Take(w, q, u, t), t, pc);
    QueuesDrop(w.queues, w.hold, q, u, WokenBy(t));
    OthersKeep(w, u, WokenBy(t));
    forall v: nat ensures Lists(Batch(PcOf(w'.pc, v)), w'.hold, WokenBy(v)) {
      assert Lists(Batch(PcOf(w.pc, v)), w.hold, WokenBy(v));
    }
  }

  /** One pass of wake_matching: the batch holds matching waiters in list order, the rest keeps
      every other waiter, and a pass that reached the end leaves no matching waiter behind. */
  lemma {:induction false} CollectIs(list: seq<nat>, parked: imap<nat, Park>, sigs: set<nat>, room: nat)
    requires NoDup(list)
    ensures
      var p := Collect(list, parked, sigs, room);
      && NoDup(p.batch) && NoDup(p.rest)
      && (forall u :: u in list <==> u in p.batch || u in p.rest)
      && (forall u | u in p.batch :: u !in p.rest && MaskOf(parked, u) * sigs != {})
      && (p.scannedAll ==> forall u | u in p.rest :: MaskOf(parked, u) * sigs == {})
      && |p.batch| <= room && (!p.scannedAll ==> |p.batch| == room)
  {
    if list != [] && room != 0 {
      var rest := list[1..];
      assert list == [list[0]] + rest && NoDup(rest) && list[0] !in rest;
      if MaskOf(parked, list[0]) * sigs != {} {
        CollectIs(rest, parked, sigs, room - 1);
        PushFront(Collect(rest, parked, sigs, room - 1).batch, list[0]);
      } else {
        CollectIs(rest, parked, sigs, room);
        PushFront(Collect(rest, parked, sigs, room).rest, list[0]);
      }
    }
  }

  /** hold' differs from hold by moving the taken threads from h to the waker's hands. */
  ghost predicate Moved(hold: imap<nat, Hold>, hold': imap<nat, Hold>, taken: seq<nat>, h: Hold, waker: nat) {
    && (forall u: nat :: HoldOf(hold', u) == if u in taken then WokenBy(waker) else HoldOf(hold, u))
    && (forall u: nat | u in taken :: HoldOf(hold, u) == h)
  }

  lemma MovedLists(list: seq<nat>, hold: imap<nat, Hold>, hold': imap<nat, Hold>, taken: seq<nat>, h: Hold, waker: nat,
                   other: Hold)
    requires Moved(hold, hold', taken, h, waker) && Lists(list, hold, other)
    requires other != h && other != WokenBy(waker)
    ensures Lists(list, hold', other)
  {
  }

  lemma ScanHolds(w: World, w': World, t: nat, o: Obj, pass: Pass)
    requires HoldsOk(w) && Moved(w.hold, w'.hold, pass.batch, Node(ObjQ(o)), t)
    requires w' == w.(th := w.th.(hold := w'.hold, pc := w.pc[t := PcOf(w'.pc, t)]),
      ls := w.ls.(queues := w.queues[ObjQ(o) := pass.rest]))
    requires Batch(PcOf(w.pc, t)) == [] && Batch(PcOf(w'.pc, t)) == pass.batch
    requires NoDup(pass.batch) && NoDup(pass.rest)
    requires forall u :: u in QueueOf(w.queues, ObjQ(o)) <==> u in pass.batch || u in pass.rest
    requires forall u | u in pass.batch :: u !in pass.rest
    requires t == w.reaper ==> !PcOf(w.pc, t).ReapHold? && !PcOf(w'.pc, t).ReapHold?
    ensures HoldsOk(w')
  {
    var h := Node(ObjQ(o));
    MovedLists(w.runQ, w.hold, w'.hold, pass.batch, h, t, RunQueue);
    MovedLists(w.zombies, w.hold, w'.hold, pass.batch, h, t, Zombie);
    assert Lists(QueueOf(w.queues, ObjQ(o)), w.hold, h);
    assert Lists(Batch(PcOf(w.pc, t)), w.hold, WokenBy(t));
    ScanQueues(w.queues, w.hold, w'.hold, t, o, pass);
    ScanBatches(w.pc, w'.pc, w.hold, w'.hold, t, pass, h);
  }

  lemma ScanBatches(pc: imap<nat, Pc>, pc': imap<nat, Pc>, hold: imap<nat, Hold>, hold': imap<nat, Hold>, t: nat,
                    pass: Pass, h: Hold)
    requires BatchesOk(pc, hold) && Moved(hold, hold', pass.batch, h, t) && NoDup(pass.batch) && h.Node?
    requires pc' == pc[t := PcOf(pc', t)] && Batch(PcOf(pc, t)) == [] && Batch(PcOf(pc', t)) == pass.batch
    ensures BatchesOk(pc', hold')
  {
    forall v: nat ensures Lists(Batch(PcOf(pc', v)), hold', WokenBy(v)) {
      assert Lists(Batch(PcOf(pc, v)), hold, WokenBy(v));
      if v != t { MovedLists(Batch(PcOf(pc, v)), hold, hold', pass.batch, h, t, WokenBy(v)); }
      else { BatchLists(Batch(PcOf(pc, t)), pass.batch, hold, hold', h, t); }
    }
  }

  lemma ScanQueues(queues: imap<Queue, seq<nat>>, hold: imap<nat, Hold>, hold': imap<nat, Hold>, t: nat, o: Obj,
                   pass: Pass)
    requires QueuesOk(queues, hold) && Moved(hold, hold', pass.batch, Node(ObjQ(o)), t) && NoDup(pass.rest)
    requires forall u :: u in QueueOf(queues, ObjQ(o)) <==> u in pass.batch || u in pass.rest
    requires forall u | u in pass.batch :: u !in pass.rest
    ensures QueuesOk(queues[ObjQ(o) := pass.rest], hold')
  {
    var queues', h := queues[ObjQ(o) := pass.rest], Node(ObjQ(o));
    forall q ensures Lists(QueueOf(queues', q), hold', Node(q)) {
      assert Lists(QueueOf(queues, q), hold, Node(q));
      if q != ObjQ(o) { MovedLists(QueueOf(queues, q), hold, hold', pass.batch, h, t, Node(q)); }
      else { RestLists(QueueOf(queues, q), pass, hold, hold', h, t); }
    }
  }

  lemma RestLists(list: seq<nat>, pass: Pass, hold: imap<nat, Hold>, hold': imap<nat, Hold>, h: Hold, t: nat)
    requires Lists(list, hold, h) && Moved(hold, hold', pass.batch, h, t) && NoDup(pass.rest) && h.Node?
    requires forall u :: u in list <==> u in pass.batch || u in pass.rest
    requires forall u | u in pass.batch :: u !in pass.rest
    ensures Lists(pass.rest, hold', h)
  {
    forall u: nat ensures u in pass.rest <==> HoldOf(hold', u) == h { assert u in list <==> HoldOf(hold, u) == h; }
  }

  lemma BatchLists(none: seq<nat>, batch: seq<nat>, hold: imap<nat, Hold>, hold': imap<nat, Hold>, h: Hold, t: nat)
    requires Lists(none, hold, WokenBy(t)) && none == [] && Moved(hold, hold', batch, h, t) && NoDup(batch)
    ensures Lists(batch, hold', WokenBy(t))
  {
    forall u: nat ensures u in batch <==> HoldOf(hold', u) == WokenBy(t) {
      assert u in none <==> HoldOf(hold, u) == WokenBy(t);
    }
  }

  lemma ScanThreads(w: World, w': World, t: nat, o: Obj, pass: Pass, pc: Pc)
    requires CpuOk(w.cores, w.cpu) && ThreadsOk(w) && KillOk(w.killed, w.hold, w.parked)
    requires Actor(w, t) && Waking(PcOf(w.pc, t)) && WakingNext(StateOf(w.state, t) == Dead, pc)
    requires Moved(w.hold, w'.hold, pass.batch, Node(ObjQ(o)), t)
    requires w' == w.(th := w.th.(hold := w'.hold, pc := w.pc[t := pc]), ls := w.ls.(queues := w'.queues))
    ensures ThreadsOk(w') && KillOk(w'.killed, w'.hold, w'.parked)
  {
    ActorReadies(w, t, pc);
    TakenThreads(Goto(w, t, pc), w', pass.batch, t);
  }

  lemma ScanKeeps(w: World, t: nat, o: Obj, sigs: set<nat>, after: Pc)
    requires Inv(w) && Actor(w, t) && PcOf(w.pc, t) == SigScan(o, sigs, after)
    ensures Inv(ScanPass(w, t, o, sigs, after))
  {
    Unfold(w);
    var pass := Collect(QueueOf(w.queues, ObjQ(o)), w.parked, sigs, WAKE_BATCH);
    var pc' := Then(pass.batch, if pass.scannedAll then after else SigScan(o, sigs, after));
    assert Lists(QueueOf(w.queues, ObjQ(o)), w.hold, Node(ObjQ(o)));
    CollectIs(QueueOf(w.queues, ObjQ(o)), w.parked, sigs, WAKE_BATCH);
    Look(w, t);
    SigShape(PcOf(w.pc, t), StateOf(w.state, t) == Dead, pass);
    ScanMoves(w, t, o, pass, pc');
  }

  lemma ScanMoves(w: World, t: nat, o: Obj, pass: Pass, pc: Pc)
    requires Inv(w) && Actor(w, t) && Waking(PcOf(w.pc, t)) && WakingNext(StateOf(w.state, t) == Dead, pc)
    requires Batch(PcOf(w.pc, t)) == [] && Batch(pc) == pass.batch && !pc.ReapHold?
    requires NoDup(pass.batch) && NoDup(pass.rest)
    requires forall u :: u in QueueOf(w.queues, ObjQ(o)) <==> u in pass.batch || u in pass.rest
    requires forall u | u in pass.batch :: u !in pass.rest
    ensures Inv(Goto(w.(ls := w.ls.(queues := w.queues[ObjQ(o) := pass.rest]),
      th := w.th.(hold := w.hold + imap u | u in pass.batch :: WokenBy(t))), t, pc))
  {
    var hold := w.hold + imap u | u in pass.batch :: WokenBy(t);
    var w' := Goto(w.(ls := w.ls.(queues := w.queues[ObjQ(o) := pass.rest]), th := w.th.(hold := hold)), t, pc);
    ScanLists(w, w', t, o, pass, pc);
    Unfold(w);
    ScanThreads(w, w', t, o, pass, pc);
    Fold(w');
  }

  lemma ScanLists(w: World, w': World, t: nat, o: Obj, pass: Pass, pc: Pc)
    requires Inv(w) && Batch(PcOf(w.pc, t)) == [] && Batch(pc) == pass.batch && !pc.ReapHold? && Waking(PcOf(w.pc, t))
    requires w' == w.(th := w.th.(hold := w.hold + imap u | u in pass.batch :: WokenBy(t), pc := w.pc[t := pc]),
                      ls := w.ls.(queues := w.queues[ObjQ(o) := pass.rest]))
    requires NoDup(pass.batch) && NoDup(pass.rest)
    requires forall u :: u in QueueOf(w.queues, ObjQ(o)) <==> u in pass.batch || u in pass.rest
    requires forall u | u in pass.batch :: u !in pass.rest
    ensures HoldsOk(w') && Moved(w.hold, w'.hold, pass.batch, Node(ObjQ(o)), t)
  {
    assert Part(w, InLists);
    assert Lists(QueueOf(w.queues, ObjQ(o)), w.hold, Node(ObjQ(o)));
    BatchMoved(w.hold, QueueOf(w.queues, ObjQ(o)), pass, Node(ObjQ(o)), t);
    ScanHolds(w, w', t, o, pass);
  }

  lemma BatchMoved(hold: imap<nat, Hold>, list: seq<nat>, pass: Pass, h: Hold, t: nat)
    requires Lists(list, hold, h) && forall u | u in pass.batch :: u in list
    ensures Moved(hold, hold + imap u | u in pass.batch :: WokenBy(t), pass.batch, h, t)
  {
  }

  lemma ShorterLists(batch: seq<nat>, hold: imap<nat, Hold>, t: nat)
    requires batch != [] && Lists(batch, hold, WokenBy(t))
    ensures Lists(batch[..|batch| - 1], hold[batch[|batch| - 1] := RunQueue], WokenBy(t))
  {
    var u, rest := batch[|batch| - 1], batch[..|batch| - 1];
    assert batch == rest + [u];
    forall v: nat ensures v in rest <==> HoldOf(hold[u := RunQueue], v) == WokenBy(t) {
      assert v in batch <==> HoldOf(hold, v) == WokenBy(t);
    }
  }

  lemma ReadyNextHolds(w: World, t: nat, batch: seq<nat>, after: Pc)
    requires HoldsOk(w) && PcOf(w.pc, t) == Readying(batch, after) && batch != []
    requires Batch(after) == [] && !after.ReapHold?
    ensures HoldsOk(ReadyNext(w, t, batch, after))
  {
    var u, rest := batch[|batch| - 1], batch[..|batch| - 1];
    assert Lists(Batch(PcOf(w.pc, t)), w.hold, WokenBy(t)) && u in batch;
    Pushed(w.runQ, w.hold, u, RunQueue);
    OthersKeep(w, u, RunQueue);
    ReadyNextBatches(w, t, batch, after);
  }

  /** The batch is one shorter, and no other waker's has changed. */
  lemma ReadyNextBatches(w: World, t: nat, batch: seq<nat>, after: Pc)
    requires BatchesOk(w.pc, w.hold) && PcOf(w.pc, t) == Readying(batch, after) && batch != [] && Batch(after) == []
    ensures BatchesOk(ReadyNext(w, t, batch, after).pc, ReadyNext(w, t, batch, after).hold)
  {
    var u, rest := batch[|batch| - 1], batch[..|batch| - 1];
    var w' := ReadyNext(w, t, batch, after);
    assert Lists(Batch(PcOf(w.pc, t)), w.hold, WokenBy(t)) && u in batch;
    forall v: nat ensures Lists(Batch(PcOf(w'.pc, v)), w'.hold, WokenBy(v)) {
      assert Lists(Batch(PcOf(w.pc, v)), w.hold, WokenBy(v));
      if v == t {
        assert Batch(PcOf(w'.pc, t)) == rest;
        ShorterLists(batch, w.hold, t);
      } else {
        Kept(Batch(PcOf(w.pc, v)), w.hold, WokenBy(v), u, RunQueue);
      }
    }
  }

  lemma ReadyNextThreads(w: World, t: nat, batch: seq<nat>, after: Pc)
    requires CpuOk(w.cores, w.cpu) && ThreadsOk(w)
    requires Actor(w, t) && PcOf(w.pc, t) == Readying(batch, after) && batch != []
    requires HoldOf(w.hold, batch[|batch| - 1]) == WokenBy(t)
    ensures ThreadsOk(ReadyNext(w, t, batch, after))
  {
    var u := batch[|batch| - 1];
    var pc' := Then(batch[..|batch| - 1], after);
    assert ThreadsOk(Goto(w, t, pc')) by {
      Local(w, t);
      ReadyingShape(PcOf(w.pc, t), StateOf(w.state, t) == Dead);
      ActorReadies(w, t, pc');
    }
    assert StateOf(w.state, u) == Blocked by { Local(w, u); }
    ReadyThreads(Goto(w, t, pc'), ReadyNext(w, t, batch, after), u);
  }

  lemma ReadyNextShape(w: World, t: nat, batch: seq<nat>, after: Pc)
    requires ThreadsOk(w) && BatchesOk(w.pc, w.hold) && PcOf(w.pc, t) == Readying(batch, after)
    ensures batch != [] && Batch(after) == [] && !after.ReapHold? && HoldOf(w.hold, batch[|batch| - 1]) == WokenBy(t)
  {
    Local(w, t);
    ReadyingShape(PcOf(w.pc, t), StateOf(w.state, t) == Dead);
    assert Lists(Batch(PcOf(w.pc, t)), w.hold, WokenBy(t));
    assert batch[|batch| - 1] in batch;
  }

  lemma ReadyNextKeeps(w: World, t: nat, batch: seq<nat>, after: Pc)
    requires Inv(w) && Actor(w, t) && PcOf(w.pc, t) == Readying(batch, after)
    ensures Inv(ReadyNext(w, t, batch, after))
  {
    Unfold(w);
    ReadyNextShape(w, t, batch, after);
    var u := batch[|batch| - 1];
    ReadyNextHolds(w, t, batch, after);
    ReadyNextThreads(w, t, batch, after);
    ReadyKill(w, ReadyNext(w, t, batch, after), u);
  }
}
