/** The steps that start or end a thread's run, and the steps of cores. */
module SchedCores {
  import opened Basics
  import opened SchedModel
  import opened SchedInv
  import opened SchedSteps

  lemma SleepThread(w: World, t: nat, at: nat)
    requires CpuOk(w.cores, w.cpu) && ThreadsOk(w) && Actor(w, t) && PcOf(w.pc, t).Run?
    ensures ThreadsOk(SleepUntil(w, t, at)) && HoldOf(w.hold, t) == Nobody
  {
    Local(w, t);
    OneThread(w, SleepUntil(w, t, at), t);
  }

  lemma SleepKeeps(w: World, t: nat, at: nat)
    requires Inv(w) && Actor(w, t) && PcOf(w.pc, t).Run? && t !in w.killed
    ensures Inv(SleepUntil(w, t, at))
  {
    Unfold(w);
    var w' := SleepUntil(w, t, at);
    assert ThreadsOk(w') && HoldOf(w.hold, t) == Nobody by { SleepThread(w, t, at); }
    assert HoldsOk(w') by {
      PcKeeps(w, t, Leaving(Run));
      OthersKeep(Goto(w, t, Leaving(Run)), t, Asleep);
    }
    Fold(w');
  }

  lemma ExitThread(w: World, t: nat)
    requires CpuOk(w.cores, w.cpu) && ThreadsOk(w) && Actor(w, t) && PcOf(w.pc, t).Run?
    ensures ThreadsOk(w.(th := w.th.(state := w.state[t := Dead], hold := w.hold[t := Zombie],
      pc := w.pc[t := ExitSignal]), ls := w.ls.(zombies := w.zombies + [t])))
    ensures HoldOf(w.hold, t) == Nobody
  {
    var w' := w.(th := w.th.(state := w.state[t := Dead], hold := w.hold[t := Zombie], pc := w.pc[t := ExitSignal]),
                 ls := w.ls.(zombies := w.zombies + [t]));
    Local(w, t);
    ExitFits(w, w', t);
    OneThread(w, w', t);
  }

  lemma ExitFits(w: World, w': World, t: nat)
    requires Fits(w, t) && Actor(w, t) && PcOf(w.pc, t).Run?
    requires w' == w.(th := w.th.(state := w.state[t := Dead], hold := w.hold[t := Zombie],
                                  pc := w.pc[t := ExitSignal]), ls := w.ls.(zombies := w.zombies + [t]))
    ensures Fits(w', t) && HoldOf(w.hold, t) == Nobody
  {
  }

  lemma ExitKeeps(w: World, t: nat)
    requires Inv(w) && Actor(w, t) && PcOf(w.pc, t).Run?
    ensures Inv(Start(w, t, Exit))
  {
    Unfold(w);
    ExitThread(w, t);
    PcKeeps(w, t, ExitSignal);
    OthersKeep(Goto(w, t, ExitSignal), t, Zombie);
    Pushed(w.zombies, w.hold, t, Zombie);
  }

  // ---------------------------------------------------------------- the reaper

  lemma ReaperThread(w: World, t: nat, pc: Pc)
    requires CpuOk(w.cores, w.cpu) && ThreadsOk(w) && Actor(w, t) && ReaperPc(PcOf(w.pc, t)) && !PcOf(w.pc, t).Away?
    requires pc.ReapTop? || pc.ReapHold?
    ensures ThreadsOk(Goto(w, t, pc))
  {
    Local(w, t);
    ReaperFits(w, t, pc);
    OneThread(w, Goto(w, t, pc), t);
  }

  lemma ReaperFits(w: World, t: nat, pc: Pc)
    requires Fits(w, t) && Actor(w, t) && ReaperPc(PcOf(w.pc, t)) && !PcOf(w.pc, t).Away?
    requires (pc.ReapTop? || pc.ReapHold?)
    ensures Fits(Goto(w, t, pc), t)
  {
  }

  lemma DeadThread(w: World, w': World, z: nat, h: Hold)
    requires ThreadsOk(w) && StateOf(w.state, z) == Dead && (h == Reaping || (h == Freed && z !in w.cpu))
    requires w' == w.(th := w.th.(hold := w.hold[z := h]), ls := w.ls.(zombies := w'.zombies))
    ensures ThreadsOk(w')
  {
    Local(w, z);
    OneThread(w, w', z);
  }

  lemma ReapTakesHolds(w: World, t: nat)
    requires HoldsOk(w) && t == w.reaper && PcOf(w.pc, t).ReapTop? && w.zombies != []
    ensures HoldsOk(Goto(w.(ls := w.ls.(zombies := w.zombies[1..]),
      th := w.th.(hold := w.hold[w.zombies[0] := Reaping])), t,
                         ReapHold(w.zombies[0])))
  {
    var z := w.zombies[0];
    var w' := Goto(w.(ls := w.ls.(zombies := w.zombies[1..]), th := w.th.(hold := w.hold[z := Reaping])), t,
        ReapHold(z));
    assert z in w.zombies && w.zombies == [z] + w.zombies[1..];
    OthersKeep(w, z, Reaping);
    forall u: nat ensures u in w'.zombies <==> HoldOf(w'.hold, u) == Zombie {
      assert u in w.zombies <==> HoldOf(w.hold, u) == Zombie;
    }
    forall u: nat ensures Lists(Batch(PcOf(w'.pc, u)), w'.hold, WokenBy(u)) {
      assert Lists(Batch(PcOf(w.pc, u)), w.hold, WokenBy(u));
    }
  }

  lemma ReapTakes(w: World, t: nat)
    requires Inv(w) && Actor(w, t) && PcOf(w.pc, t).ReapTop? && w.zombies != []
    ensures Inv(Goto(w.(ls := w.ls.(zombies := w.zombies[1..]), th := w.th.(hold := w.hold[w.zombies[0] := Reaping])),
      t, ReapHold(w.zombies[0])))
  {
    Unfold(w);
    var z := w.zombies[0];
    var w' := Goto(w.(ls := w.ls.(zombies := w.zombies[1..]), th := w.th.(hold := w.hold[z := Reaping])), t,
        ReapHold(z));
    ZombieIsDead(w, t);
    ReaperThread(w, t, ReapHold(z));
    DeadThread(Goto(w, t, ReapHold(z)), w', z, Reaping);
    ReapTakesHolds(w, t);
  }

  lemma ZombieIsDead(w: World, t: nat)
    requires HoldsOk(w) && ThreadsOk(w) && PcOf(w.pc, t).ReapTop? && w.zombies != []
    ensures StateOf(w.state, w.zombies[0]) == Dead && t == w.reaper
  {
    assert w.zombies[0] in w.zombies;
    Local(w, w.zombies[0]);
    Local(w, t);
  }

  lemma ReapFreesHolds(w: World, t: nat, z: nat)
    requires HoldsOk(w) && t == w.reaper && PcOf(w.pc, t) == ReapHold(z)
    ensures HoldsOk(Goto(w.(th := w.th.(hold := w.hold[z := Freed])), t, ReapTop))
  {
    var w' := Goto(w.(th := w.th.(hold := w.hold[z := Freed])), t, ReapTop);
    OthersKeep(w, z, Freed);
    forall u: nat ensures Lists(Batch(PcOf(w'.pc, u)), w'.hold, WokenBy(u)) {
      assert Lists(Batch(PcOf(w.pc, u)), w.hold, WokenBy(u));
    }
  }

  /** The reaper frees a thread only once its last switch has finished. */
  lemma ReapFrees(w: World, t: nat, z: nat)
    requires Inv(w) && Actor(w, t) && PcOf(w.pc, t) == ReapHold(z) && z !in w.cpu
    ensures Inv(Goto(w.(th := w.th.(hold := w.hold[z := Freed])), t, ReapTop))
  {
    Unfold(w);
    var w' := Goto(w.(th := w.th.(hold := w.hold[z := Freed])), t, ReapTop);
    assert t == w.reaper by { Look(w, t); }
    assert HoldOf(w.hold, z) == Reaping;
    assert StateOf(w.state, z) == Dead by { Look(w, z); }
    ReaperThread(w, t, ReapTop);
    DeadThread(Goto(w, t, ReapTop), w', z, Freed);
    ReapFreesHolds(w, t, z);
  }

  // ---------------------------------------------------------------- choosing a successor

  /** What a core may pick: a queued thread no core is still switching out, or its idle thread. */
  predicate Pickable(w: World, c: nat, n: nat) {
    && n !in w.cpu
    && ((HoldOf(w.hold, n) == RunQueue) || (n == c && HoldOf(w.hold, n) == Nobody && StateOf(w.state, n) == Ready))
  }

  lemma PopIs(w: World, c: nat)
    requires Lists(w.runQ, w.hold, RunQueue)
    ensures
      var (found, rest) := PopReady(w.runQ, w.cpu);
      if found.None? then rest == w.runQ
      else found.value !in w.cpu && HoldOf(w.hold, found.value) == RunQueue
           && Lists(rest, w.hold[found.value := PickedBy(c)], RunQueue)
  {
    var i := FirstOff(w.runQ, w.cpu);
    if i < |w.runQ| {
      RotateIs(w.runQ, i);
      assert w.runQ[i] in w.runQ;
      var rest, hold := w.runQ[i + 1..] + w.runQ[..i], w.hold[w.runQ[i] := PickedBy(c)];
      assert Lists(rest, hold, RunQueue) by {
        forall t: nat ensures t in rest <==> HoldOf(hold, t) == RunQueue {
          assert t in rest <==> t in w.runQ && t != w.runQ[i];
        }
      }
    }
  }

  lemma PickedHolds(w: World, c: nat, n: nat, rest: seq<nat>)
    requires HoldsOk(w) && c in w.cores && w.cores[c].picked.None?
    requires HoldOf(w.hold, n) in {RunQueue, Nobody} && Lists(rest, w.hold[n := PickedBy(c)], RunQueue)
    ensures HoldsOk(w.(ls := w.ls.(runQ := rest), th := w.th.(hold := w.hold[n := PickedBy(c)]),
      cs := w.cs.(cores := w.cores[c := w.cores[c].(picked := Some(n))])))
  {
    OthersKeep(w, n, PickedBy(c));
    var cores' := w.cores[c := w.cores[c].(picked := Some(n))];
    assert PickedOk(cores', w.hold[n := PickedBy(c)]);
  }

  /** The world once core c has picked n and its current thread has moved to pc. */
  function Picked(w: World, c: nat, n: nat, rest: seq<nat>, pc: Pc): World
    requires c in w.cores
  {
    w.(ls := w.ls.(runQ := rest), th := w.th.(hold := w.hold[n := PickedBy(c)], pc := w.pc[w.cores[c].current := pc]),
        cs := w.cs.(cores := w.cores[c := w.cores[c].(picked := Some(n))]))
  }

  lemma PickedFits(w: World, c: nat, n: nat, rest: seq<nat>, pc: Pc, u: nat)
    requires CpuOk(w.cores, w.cpu) && ThreadsOk(w) && Exec(w, c) && Pickable(w, c, n)
    requires u != w.cores[c].current
    ensures Fits(Picked(w, c, n, rest, pc), u)
  {
    Local(w, u);
    assert CoreOk(w.cores[c], c, w.cpu);
    PickedPlaced(w, c, n, rest, pc, u);
  }

  lemma PickedPlaced(w: World, c: nat, n: nat, rest: seq<nat>, pc: Pc, u: nat)
    requires Exec(w, c) && Fits(w, u) && CoreOk(w.cores[c], c, w.cpu) && Pickable(w, c, n) && CpuOk(w.cores, w.cpu)
    requires u != w.cores[c].current
    ensures var w' := Picked(w, c, n, rest, pc);
      Placed(w'.cores, w'.cpu, u, StateOf(w'.state, u), HoldOf(w'.hold, u), PcOf(w'.pc, u))
  {
  }

  lemma PickedCurrent(w: World, w': World, c: nat, n: nat)
    requires Exec(w, c) && CoreOk(w.cores[c], c, w.cpu) && Fits(w, w.cores[c].current) && n !in w.cpu
    requires PcOf(w.pc, w.cores[c].current).Leaving?
    requires w' == Picked(w, c, n, w'.runQ, Away(PcOf(w.pc, w.cores[c].current).after))
    ensures Fits(w', w.cores[c].current)
  {
    var t := w.cores[c].current;
    assert PcOf(w'.pc, t) == Away(PcOf(w.pc, t).after) && HoldOf(w'.hold, t) == HoldOf(w.hold, t);
  }

  lemma PickedPhase(w: World, w': World, c: nat, n: nat, d: nat)
    requires CpuOk(w.cores, w.cpu) && Exec(w, c) && d in w.cores && PhaseOk(w.cores[d], d, w.state, w.pc)
    requires StateOf(w.state, w.cores[c].current) != Running || w.cores[c].current == c
    requires w' == Picked(w, c, n, w'.runQ, PcOf(w'.pc, w.cores[c].current))
    ensures PhaseOk(w'.cores[d], d, w'.state, w'.pc)
  {
    assert CoreOk(w.cores[d], d, w.cpu) && CoreOk(w.cores[c], c, w.cpu);
  }

  lemma PickedCpu(w: World, c: nat, n: nat)
    requires CpuOk(w.cores, w.cpu) && Exec(w, c) && n !in w.cpu
    ensures CpuOk(w.cores[c := w.cores[c].(picked := Some(n))], w.cpu)
  {
    var cores' := w.cores[c := w.cores[c].(picked := Some(n))];
    forall d | d in cores' ensures CoreOk(cores'[d], d, w.cpu) {
      assert CoreOk(w.cores[d], d, w.cpu);
    }
  }

  lemma IdlePickable(w: World, c: nat)
    requires Inv(w) && Exec(w, c) && PcOf(w.pc, w.cores[c].current).Leaving?
    ensures Pickable(w, c, c)
  {
    Unfold(w);
    assert CoreOk(w.cores[c], c, w.cpu);
    assert Fits(w, c) && Fits(w, w.cores[c].current);
  }

  lemma PickedThreads(w: World, w': World, c: nat, n: nat)
    requires CpuOk(w.cores, w.cpu) && ThreadsOk(w) && Exec(w, c) && Pickable(w, c, n)
    requires PcOf(w.pc, w.cores[c].current).Leaving?
    requires w' == Picked(w, c, n, w'.runQ, Away(PcOf(w.pc, w.cores[c].current).after))
    ensures ThreadsOk(w')
  {
    var t := w.cores[c].current;
    assert Fits(w, t) && CoreOk(w.cores[c], c, w.cpu);
    forall u: nat ensures Fits(w', u) {
      if u == t { PickedCurrent(w, w', c, n); } else { PickedFits(w, c, n, w'.runQ, PcOf(w'.pc, t), u); }
    }
    forall d | d in w'.cores ensures PhaseOk(w'.cores[d], d, w'.state, w'.pc) {
      PickedPhase(w, w', c, n, d);
    }
  }

  lemma PickedWorld(w: World, c: nat, n: nat, rest: seq<nat>)
    requires Inv(w) && Exec(w, c) && PcOf(w.pc, w.cores[c].current).Leaving? && Pickable(w, c, n)
    requires Lists(rest, w.hold[n := PickedBy(c)], RunQueue)
    ensures Inv(Picked(w, c, n, rest, Away(PcOf(w.pc, w.cores[c].current).after)))
  {
    Unfold(w);
    var t := w.cores[c].current;
    var pc := Away(PcOf(w.pc, t).after);
    PickedCpu(w, c, n);
    PickedThreads(w, Picked(w, c, n, rest, pc), c, n);
    PcKeeps(w, t, pc);
    PickedHolds(Goto(w, t, pc), c, n, rest);
    Fold(Picked(w, c, n, rest, pc));
  }

  lemma PickKeeps(w: World, c: nat)
    requires Inv(w) && Exec(w, c) && PcOf(w.pc, w.cores[c].current).Leaving?
    ensures Inv(Pick(Goto(w, w.cores[c].current, Away(PcOf(w.pc, w.cores[c].current).after)), c))
  {
    Unfold(w);
    var (found, rest) := PopReady(w.runQ, w.cpu);
    var n := if found.Some? then found.value else c;
    assert Pickable(w, c, n) && Lists(rest, w.hold[n := PickedBy(c)], RunQueue) by {
      PopIs(w, c);
      IdlePickable(w, c);
      if found.None? { OthersKeep(w, c, PickedBy(c)); }
    }
    PickedWorld(w, c, n, rest);
  }

  // ---------------------------------------------------------------- yield and preemption

  lemma LiveNotExit(pc: Pc)
    requires LivePc(pc)
    ensures !ExitPc(pc)
  {
  }

  /** Core c has picked n; its current thread went back to the run queue unless it is idle. */
  predicate Yielded(w: World, w': World, c: nat, n: nat) {
    && Exec(w, c)
    && w' == w.(th := w.th.(state := w'.state, hold := w'.hold), ls := w.ls.(runQ := w'.runQ),
       cs := w.cs.(cores := w.cores[c := w.cores[c].(picked := Some(n))]))
    && var t := w.cores[c].current;
       if t == c then w'.state == w.state && w'.hold == w.hold[n := PickedBy(c)]
       else w'.state == w.state[t := Ready] && w'.hold == w.hold[n := PickedBy(c)][t := RunQueue]
  }

  lemma YieldFits(w: World, w': World, c: nat, n: nat, u: nat)
    requires CpuOk(w.cores, w.cpu) && Yielded(w, w', c, n) && Pickable(w, c, n) && Fits(w, u)
    requires StateOf(w.state, w.cores[c].current) == Running && !PcOf(w.pc, w.cores[c].current).Away?
    ensures Fits(w', u)
  {
    assert CoreOk(w.cores[c], c, w.cpu);
    if u == w.cores[c].current { YieldCurrent(w, w', c, n); } else { YieldOther(w, w', c, n, u); }
  }

  lemma YieldCurrent(w: World, w': World, c: nat, n: nat)
    requires Yielded(w, w', c, n) && Pickable(w, c, n) && Fits(w, w.cores[c].current) && CoreOk(w.cores[c], c, w.cpu)
    requires StateOf(w.state, w.cores[c].current) == Running && !PcOf(w.pc, w.cores[c].current).Away?
    ensures Fits(w', w.cores[c].current)
  {
    var t := w.cores[c].current;
    LiveNotExit(PcOf(w.pc, t));
    assert !PcOf(w.pc, t).Leaving?;
  }

  lemma YieldOther(w: World, w': World, c: nat, n: nat, u: nat)
    requires CpuOk(w.cores, w.cpu) && Yielded(w, w', c, n) && Pickable(w, c, n) && Fits(w, u)
    requires u != w.cores[c].current && CoreOk(w.cores[c], c, w.cpu)
    ensures Fits(w', u)
  {
    assert StateOf(w'.state, u) == StateOf(w.state, u);
    YieldPlaced(w, w', c, n, u);
  }

  lemma YieldPlaced(w: World, w': World, c: nat, n: nat, u: nat)
    requires CpuOk(w.cores, w.cpu) && Yielded(w, w', c, n) && Pickable(w, c, n) && Fits(w, u)
    requires u != w.cores[c].current && CoreOk(w.cores[c], c, w.cpu)
    ensures Placed(w'.cores, w'.cpu, u, StateOf(w'.state, u), HoldOf(w'.hold, u), PcOf(w'.pc, u))
  {
  }

  lemma YieldPhase(w: World, w': World, c: nat, n: nat, d: nat)
    requires CpuOk(w.cores, w.cpu) && Yielded(w, w', c, n) && d in w.cores && PhaseOk(w.cores[d], d, w.state, w.pc)
    ensures PhaseOk(w'.cores[d], d, w'.state, w'.pc)
  {
    assert CoreOk(w.cores[d], d, w.cpu) && CoreOk(w.cores[c], c, w.cpu);
  }

  lemma YieldHolds(w: World, w': World, c: nat, n: nat, rest: seq<nat>)
    requires HoldsOk(w) && Yielded(w, w', c, n) && HoldOf(w.hold, n) == RunQueue && n != w.cores[c].current
    requires HoldOf(w.hold, w.cores[c].current) == Nobody && Lists(rest, w.hold[n := PickedBy(c)], RunQueue)
    requires w'.runQ == if w.cores[c].current == c then rest else rest + [w.cores[c].current]
    ensures HoldsOk(w')
  {
    var t := w.cores[c].current;
    PickedHolds(w, c, n, rest);
    var w1 := w.(ls := w.ls.(runQ := rest), th := w.th.(hold := w.hold[n := PickedBy(c)]),
        cs := w.cs.(cores := w.cores[c := w.cores[c].(picked := Some(n))]));
    if t != c {
      ReadyHolds(w1, t);
      assert w' == MakeReady(w1, t).(th := MakeReady(w1, t).th.(state := w'.state));
    }
  }

  lemma YieldThreads(w: World, w': World, c: nat, n: nat)
    requires CpuOk(w.cores, w.cpu) && ThreadsOk(w) && Yielded(w, w', c, n) && Pickable(w, c, n)
    requires StateOf(w.state, w.cores[c].current) == Running && !PcOf(w.pc, w.cores[c].current).Away?
    ensures ThreadsOk(w')
  {
    forall u: nat ensures Fits(w', u) {
      Local(w, u);
      YieldFits(w, w', c, n, u);
    }
    forall d | d in w'.cores ensures PhaseOk(w'.cores[d], d, w'.state, w'.pc) {
      YieldPhase(w, w', c, n, d);
    }
  }

  lemma YieldWorld(w: World, w': World, c: nat, n: nat, rest: seq<nat>)
    requires Inv(w) && Yielded(w, w', c, n) && n !in w.cpu && HoldOf(w.hold, n) == RunQueue
    requires StateOf(w.state, w.cores[c].current) == Running && !PcOf(w.pc, w.cores[c].current).Away?
    requires Lists(rest, w.hold[n := PickedBy(c)], RunQueue)
    requires w'.runQ == if w.cores[c].current == c then rest else rest + [w.cores[c].current]
    ensures Inv(w')
  {
    Unfold(w);
    var t := w.cores[c].current;
    assert HoldOf(w.hold, t) == Nobody && t in w.cpu by { assert Fits(w, t) && CoreOk(w.cores[c], c, w.cpu); }
    YieldHolds(w, w', c, n, rest);
    PickedCpu(w, c, n);
    YieldThreads(w, w', c, n);
    YieldKill(w, w', c, n);
  }

  lemma YieldKill(w: World, w': World, c: nat, n: nat)
    requires KillOk(w.killed, w.hold, w.parked) && Yielded(w, w', c, n)
    ensures KillOk(w'.killed, w'.hold, w'.parked)
  {
  }

  lemma YieldKeeps(w: World, c: nat)
    requires Inv(w) && Exec(w, c) && StateOf(w.state, w.cores[c].current) == Running
    requires !PcOf(w.pc, w.cores[c].current).Away?
    ensures Inv(Yield(w, c))
  {
    Unfold(w);
    var (found, rest) := PopReady(w.runQ, w.cpu);
    PopIs(w, c);
    if found.Some? { YieldWorld(w, Yield(w, c), c, found.value, rest); }
  }

  // ---------------------------------------------------------------- the switch

  lemma SwitchCpu(cores: imap<nat, Core>, cpu: imap<nat, nat>, hold: imap<nat, Hold>, c: nat)
    requires CpuOk(cores, cpu) && PickedOk(cores, hold) && c in cores && cores[c].picked.Some?
    ensures var core := cores[c];
            CpuOk(cores[c := core.(current := core.picked.value, previous := Some(core.current), picked := None)],
                  cpu[core.picked.value := c])
  {
    var core := cores[c];
    var n := core.picked.value;
    var cores' := cores[c := core.(current := n, previous := Some(core.current), picked := None)];
    assert CoreOk(core, c, cpu);
    forall d | d in cores' ensures CoreOk(cores'[d], d, cpu[n := c]) {
      assert CoreOk(cores[d], d, cpu);
    }
  }

  lemma SwitchOther(w: World, w': World, c: nat, u: nat)
    requires CpuOk(w.cores, w.cpu) && Fits(w, u) && c in w.cores && w.cores[c].picked.Some? && w' == Switch(w, c)
    requires u != w.cores[c].current && u != w.cores[c].picked.value
    ensures Fits(w', u)
  {
    assert CoreOk(w.cores[c], c, w.cpu);
    assert Same(w, w', u);
  }

  lemma SwitchIn(w: World, w': World, c: nat)
    requires CpuOk(w.cores, w.cpu) && c in w.cores && w.cores[c].picked.Some? && w' == Switch(w, c)
    requires Fits(w, w.cores[c].picked.value) && HoldOf(w.hold, w.cores[c].picked.value) == PickedBy(c)
    ensures Fits(w', w.cores[c].picked.value)
  {
    var n := w.cores[c].picked.value;
    assert CoreOk(w.cores[c], c, w.cpu);
    LiveNotExit(PcOf(w.pc, n));
  }

  lemma SwitchOut(w: World, w': World, c: nat)
    requires CpuOk(w.cores, w.cpu) && c in w.cores && w.cores[c].picked.Some? && w' == Switch(w, c)
    requires Fits(w, w.cores[c].current) && PhaseOk(w.cores[c], c, w.state, w.pc)
    ensures Fits(w', w.cores[c].current)
  {
    var t := w.cores[c].current;
    assert CoreOk(w.cores[c], c, w.cpu);
    assert HoldOf(w'.hold, t) == HoldOf(w.hold, t) && PcOf(w'.pc, t) == PcOf(w.pc, t);
  }

  lemma SwitchThreads(w: World, w': World, c: nat)
    requires CpuOk(w.cores, w.cpu) && ThreadsOk(w) && c in w.cores && w.cores[c].picked.Some? && w' == Switch(w, c)
    requires HoldOf(w.hold, w.cores[c].picked.value) == PickedBy(c)
    ensures ThreadsOk(w')
  {
    var t, n := w.cores[c].current, w.cores[c].picked.value;
    assert CoreOk(w.cores[c], c, w.cpu);
    forall u: nat ensures Fits(w', u) {
      Local(w, u);
      if u == t { SwitchOut(w, w', c); } else if u == n { SwitchIn(w, w', c); } else { SwitchOther(w, w', c, u); }
    }
    forall d | d in w'.cores ensures PhaseOk(w'.cores[d], d, w'.state, w'.pc) { SwitchPhase(w, c, d); }
  }

  lemma SwitchPhase(w: World, c: nat, d: nat)
    requires CpuOk(w.cores, w.cpu) && c in w.cores && w.cores[c].picked.Some?
    requires d in w.cores && PhaseOk(w.cores[d], d, w.state, w.pc)
    ensures PhaseOk(Switch(w, c).cores[d], d, Switch(w, c).state, Switch(w, c).pc)
  {
    assert CoreOk(w.cores[d], d, w.cpu) && CoreOk(w.cores[c], c, w.cpu);
  }

  lemma SwitchHolds(w: World, c: nat)
    requires HoldsOk(w) && c in w.cores && w.cores[c].picked.Some?
    ensures HoldsOk(Switch(w, c))
  {
    var n := w.cores[c].picked.value;
    OthersKeep(w, n, Nobody);
    assert PickedOk(Switch(w, c).cores, Switch(w, c).hold);
  }

  lemma SwitchKeeps(w: World, c: nat)
    requires Inv(w) && c in w.cores && w.cores[c].picked.Some?
    ensures Inv(Switch(w, c))
  {
    Unfold(w);
    SwitchCpu(w.cores, w.cpu, w.hold, c);
    SwitchHolds(w, c);
    SwitchThreads(w, Switch(w, c), c);
  }

  lemma FinishFits(w: World, c: nat, u: nat)
    requires CpuOk(w.cores, w.cpu) && ThreadsOk(w) && c in w.cores && w.cores[c].previous.Some?
    ensures Fits(Finish(w, c), u)
  {
    assert CoreOk(w.cores[c], c, w.cpu) && PhaseOk(w.cores[c], c, w.state, w.pc);
    assert Fits(w, u) && Fits(w, w.cores[c].previous.value) && Fits(w, w.cores[c].current);
  }

  lemma FinishKeeps(w: World, c: nat)
    requires Inv(w) && c in w.cores && w.cores[c].previous.Some?
    ensures Inv(Finish(w, c))
  {
    Unfold(w);
    FinishCpu(w, c);
    FinishThreads(w, c);
    FinishHolds(w, c);
    Fold(Finish(w, c));
  }

  lemma FinishCpu(w: World, c: nat)
    requires CpuOk(w.cores, w.cpu) && c in w.cores && w.cores[c].previous.Some?
    ensures CpuOk(Finish(w, c).cores, Finish(w, c).cpu)
  {
    var w' := Finish(w, c);
    assert CoreOk(w.cores[c], c, w.cpu);
    forall d | d in w'.cores ensures CoreOk(w'.cores[d], d, w'.cpu) { assert CoreOk(w.cores[d], d, w.cpu); }
  }

  lemma FinishThreads(w: World, c: nat)
    requires CpuOk(w.cores, w.cpu) && ThreadsOk(w) && c in w.cores && w.cores[c].previous.Some?
    ensures ThreadsOk(Finish(w, c))
  {
    var w' := Finish(w, c);
    forall u: nat ensures Fits(w', u) { FinishFits(w, c, u); }
    forall d | d in w'.cores ensures PhaseOk(w'.cores[d], d, w'.state, w'.pc) {
      assert PhaseOk(w.cores[d], d, w.state, w.pc);
    }
  }

  lemma FinishHolds(w: World, c: nat)
    requires HoldsOk(w) && c in w.cores && w.cores[c].previous.Some?
    ensures HoldsOk(Finish(w, c))
  {
  }
}
