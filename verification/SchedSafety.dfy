/** What holds in every run of the scheduler. */
module SchedSafety {
  import opened SchedModel
  import opened SchedInv
  import opened SchedSteps
  import opened SchedCores

  lemma WaitTopKeeps(w: World, t: nat)
    requires Inv(w) && Actor(w, t) && PcOf(w.pc, t).WaitTop?
    ensures Inv(Advance(w, t))
  {
    var pc := PcOf(w.pc, t);
    Look(w, t);
    GotoKeeps(w, t, AfterTest(w, t, pc));
  }

  lemma WaitParkKeeps(w: World, t: nat)
    requires Inv(w) && Actor(w, t) && PcOf(w.pc, t).WaitPark?
    ensures Inv(Advance(w, t))
  {
    var pc := PcOf(w.pc, t);
    Look(w, t);
    if Fired(w, t, pc) {
      GotoKeeps(w, t, WaitDone(pc.o, pc.mask, pc.deadline));
    } else {
      ParkKeeps(w, t, ObjQ(pc.o), pc.mask, WaitDone(pc.o, pc.mask, pc.deadline));
    }
  }

  lemma LockParkKeeps(w: World, t: nat)
    requires Inv(w) && Actor(w, t) && PcOf(w.pc, t).LockPark?
    ensures Inv(Advance(w, t))
  {
    var m := PcOf(w.pc, t).m;
    Look(w, t);
    if m !in w.mutex {
      Unrelated(w, w.sig, w.mutex[m := t], w.now);
      GotoKeeps(w.(sh := w.sh.(mutex := w.mutex[m := t])), t, Run);
    } else {
      ParkKeeps(w, t, MutexQ(m), {}, LockPark(m));
    }
  }

  /** signal_set's fetch_or, alive or on the way out. */
  lemma SignalKeeps(w: World, t: nat, o: Obj, bits: set<nat>, after: Pc)
    requires Inv(w) && Actor(w, t)
    requires if StateOf(w.state, t) == Dead then PcOf(w.pc, t).ExitSignal? && after == ExitKick
             else PcOf(w.pc, t).Run? && after == Run
    ensures Inv(Goto(w.(sh := w.sh.(sig := w.sig[o := SigOf(w.sig, o) + bits])), t, SigLoad(o, after)))
  {
    var w' := Goto(w.(sh := w.sh.(sig := w.sig[o := SigOf(w.sig, o) + bits])), t, SigLoad(o, after));
    Look(w, t);
    SignalFits(w, w', t, o, after);
    ActorMoves(w, w', t);
  }

  lemma SignalFits(w: World, w': World, t: nat, o: Obj, after: Pc)
    requires Fits(w, t) && Actor(w, t) && w' == Goto(w.(sh := w.sh.(sig := w'.sig)), t, SigLoad(o, after))
    requires if StateOf(w.state, t) == Dead then PcOf(w.pc, t).ExitSignal? && after == ExitKick
             else PcOf(w.pc, t).Run? && after == Run
    ensures Fits(w', t)
  {
  }

  lemma ReapTopKeeps(w: World, t: nat)
    requires Inv(w) && Actor(w, t) && PcOf(w.pc, t).ReapTop?
    ensures Inv(Goto(w, t, ReapPark))
  {
    assert StateOf(w.state, t) == Running by { Look(w, t); }
    GotoKeeps(w, t, ReapPark);
  }

  lemma ReapParkKeeps(w: World, t: nat)
    requires Inv(w) && Actor(w, t) && PcOf(w.pc, t).ReapPark?
    ensures w.zombies != [] ==> Inv(Goto(w, t, ReapTop))
    ensures w.zombies == [] ==> Inv(ParkOn(w, t, ReaperQ, {}, ReapTop))
  {
    if w.zombies != [] { ReapAgain(w, t); } else { ReapWaits(w, t); }
  }

  lemma ReapAgain(w: World, t: nat)
    requires Inv(w) && Actor(w, t) && PcOf(w.pc, t).ReapPark?
    ensures Inv(Goto(w, t, ReapTop))
  {
    assert StateOf(w.state, t) == Running by { Look(w, t); }
    GotoKeeps(w, t, ReapTop);
  }

  lemma ReapWaits(w: World, t: nat)
    requires Inv(w) && Actor(w, t) && PcOf(w.pc, t).ReapPark?
    ensures Inv(ParkOn(w, t, ReaperQ, {}, ReapTop))
  {
    assert StateOf(w.state, t) == Running by { Look(w, t); }
    ParkKeeps(w, t, ReaperQ, {}, ReapTop);
  }

  lemma AdvanceKeeps(w: World, t: nat)
    requires Inv(w) && Actor(w, t)
    ensures Inv(Advance(w, t))
  {
    var pc := PcOf(w.pc, t);
    assert PcFits(StateOf(w.state, t), HoldOf(w.hold, t), pc, ParkOf(w.parked, t)) by { Look(w, t); }
    match pc
    case WaitTop(_, _, _) => WaitTopKeeps(w, t);
    case WaitRegister(_, _, _) => RegisterKeeps(w, t);
    case WaitPark(_, _, _) => WaitParkKeeps(w, t);
    case WaitDone(_, _, _) => UnregisterKeeps(w, t);
    case LockPark(_) => LockParkKeeps(w, t);
    case Unlocked(m) => WakeOneKeeps(w, t, MutexQ(m), Run);
    case SigLoad(o, after) => GotoKeeps(w, t, SigScan(o, SigOf(w.sig, o), after));
    case SigScan(o, sigs, after) => ScanKeeps(w, t, o, sigs, after);
    case Readying(batch, after) => ReadyNextKeeps(w, t, batch, after);
    case ExitSignal => SignalKeeps(w, t, ThreadObj(t), {SIGNAL_TERMINATED}, ExitKick);
    case ExitKick => WakeOneKeeps(w, t, ReaperQ, Leaving(Halt));
    case ReapTop => if w.zombies == [] { ReapTopKeeps(w, t); } else { ReapTakes(w, t); }
    case ReapPark => ReapParkKeeps(w, t);
    case ReapHold(z) => if z !in w.cpu { ReapFrees(w, t, z); }
    case Away(_) => ResumeKeeps(w, t);
    case _ =>
  }

  lemma UnlockKeeps(w: World, t: nat, m: nat)
    requires Inv(w) && Actor(w, t) && PcOf(w.pc, t).Run? && StateOf(w.state, t) != Dead
    ensures Inv(Goto(w.(sh := w.sh.(mutex := w.mutex - {m})), t, Unlocked(m)))
  {
    Unrelated(w, w.sig, w.mutex - {m}, w.now);
    GotoKeeps(w.(sh := w.sh.(mutex := w.mutex - {m})), t, Unlocked(m));
  }

  lemma EnterKeeps(w: World, t: nat, pc: Pc)
    requires Inv(w) && Actor(w, t) && PcOf(w.pc, t).Run? && StateOf(w.state, t) != Dead
    requires pc.LockPark? || (pc.WaitTop? && pc.mask != {})
    ensures Inv(Goto(w, t, pc))
  {
    GotoKeeps(w, t, pc);
  }

  lemma StartWaiting(w: World, t: nat, call: Call)
    requires Inv(w) && Actor(w, t) && PcOf(w.pc, t).Run? && StateOf(w.state, t) != Dead
    requires call.Wait? || call.Lock? || call.Unlock?
    ensures Inv(Start(w, t, call))
  {
    match call
    case Wait(o, mask, dl) => if mask != {} { EnterKeeps(w, t, WaitTop(o, mask, dl)); }
    case Lock(m) => if m !in w.mutex {
      Unrelated(w, w.sig, w.mutex[m := t], w.now);
    } else {
      EnterKeeps(w, t, LockPark(m));
    }
    case Unlock(m) => UnlockKeeps(w, t, m);
  }

  lemma StartSignal(w: World, t: nat, call: Call)
    requires Inv(w) && Actor(w, t) && PcOf(w.pc, t).Run? && StateOf(w.state, t) != Dead && (call.Signal? || call.Clear?)
    ensures Inv(Start(w, t, call))
  {
    if call.Signal? { SignalKeeps(w, t, call.o, call.bits, Run); }
    else { Unrelated(w, w.sig[call.o := SigOf(w.sig, call.o) - call.bits], w.mutex, w.now); }
  }

  lemma StartSleep(w: World, t: nat, ticks: nat)
    requires Inv(w) && Actor(w, t) && PcOf(w.pc, t).Run?
    ensures Inv(Start(w, t, Sleep(ticks)))
  {
    if ticks == 0 || t in w.killed {
      assert Start(w, t, Sleep(ticks)) == w;
    } else {
      assert Start(w, t, Sleep(ticks)) == SleepUntil(w, t, w.now + ticks);
      SleepKeeps(w, t, w.now + ticks);
    }
  }

  lemma StartKeeps(w: World, t: nat, call: Call)
    requires Inv(w) && Actor(w, t) && PcOf(w.pc, t).Run?
    ensures Inv(Start(w, t, call))
  {
    LiveRun(w, t);
    if call.Signal? || call.Clear? { StartSignal(w, t, call); }
    else if call.Sleep? { StartSleep(w, t, call.ticks); }
    else if call.Exit? { ExitKeeps(w, t); }
    else { StartWaiting(w, t, call); }
  }

  lemma LiveRun(w: World, t: nat)
    requires Inv(w) && PcOf(w.pc, t).Run?
    ensures StateOf(w.state, t) != Dead
  {
    Look(w, t);
  }

  lemma CoreStepKeeps(w: World, a: Action)
    requires Inv(w) && (a.DoPick? || a.DoSwitch? || a.DoFinish? || a.DoYield?)
    ensures Inv(Step(w, a))
  {
    var c := a.core;
    match a
    case DoPick(_) => if Exec(w, c) && PcOf(w.pc, w.cores[c].current).Leaving? { PickKeeps(w, c); }
    case DoSwitch(_) => if c in w.cores && w.cores[c].picked.Some? { SwitchKeeps(w, c); }
    case DoFinish(_) => if c in w.cores && w.cores[c].previous.Some? { FinishKeeps(w, c); }
    case DoYield(_) =>
      if Exec(w, c) && StateOf(w.state, w.cores[c].current) == Running && !PcOf(w.pc, w.cores[c].current).Away? {
        YieldKeeps(w, c);
      }
  }

  lemma ThreadStepKeeps(w: World, a: Action)
    requires Inv(w) && (a.Go? || a.Begin?)
    ensures Inv(Step(w, a))
  {
    var c := a.core;
    if Acting(w, c) {
      ActingIsActor(w, c);
      if a.Go? { AdvanceKeeps(w, w.cores[c].current); }
      else if PcOf(w.pc, w.cores[c].current).Run? { StartKeeps(w, w.cores[c].current, a.call); }
    }
  }

  /** Every step of every core, of the tick, of the kill scan and of spawn keeps the invariant. */
  lemma StepKeeps(w: World, a: Action)
    requires Inv(w)
    ensures Inv(Step(w, a))
  {
    match a
    case Wake(t) => if t in w.sleepers { WakeSleeperKeeps(w, t); }
    case Expiry(t) => ExpireKeeps(w, t);
    case Clock(ticks) => Unrelated(w, w.sig, w.mutex, w.now + ticks);
    case Kill(t) => KillKeeps(w, t);
    case Spawn(t) => if StateOf(w.state, t) == Unborn { SpawnKeeps(w, t); }
    case Go(_) => ThreadStepKeeps(w, a);
    case Begin(_, _) => ThreadStepKeeps(w, a);
    case _ => CoreStepKeeps(w, a);
  }

  lemma {:induction false} RunKeeps(w: World, acts: seq<Action>)
    requires Initial(w)
    ensures Inv(Runs(w, acts))
  {
    if acts == [] {
      InitialOk(w);
    } else {
      RunKeeps(w, acts[..|acts| - 1]);
      StepKeeps(Runs(w, acts[..|acts| - 1]), acts[|acts| - 1]);
    }
  }
}
