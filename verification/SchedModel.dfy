/** The scheduler as a transition system: one shared run queue, the on-cpu hand-off between cores,
    wait nodes on the parked threads' own stacks, timed waits, the kill scan, mutexes and the
    reaper. A step is one locked block or one atomic access; what happens between two steps of a
    thread is any number of steps of every other core. */
module SchedModel {

  import opened Basics

  /** A waitable object: a thread's own object, or any other. */
  datatype Obj = ThreadObj(thread: nat) | OtherObj(id: nat)

  /** A wait queue: an object's, a mutex's, or the reaper's. */
  datatype Queue = ObjQ(o: Obj) | MutexQ(m: nat) | ReaperQ

  datatype TState = Unborn | Ready | Running | Blocked | Dead

  /** Who holds the counted reference that will run, wake or free a thread. */
  datatype Hold =
    | Nobody
    | RunQueue
    | PickedBy(core: nat)
    | Node(q: Queue)          // linked in q through the node on its own stack
    | Asleep                  // in the sleeper list
    | WokenBy(waker: nat)     // unlinked by a waker that has not called make_ready yet
    | Zombie
    | Reaping
    | Freed

  /** What a thread does next. `after` is where it continues. */
  datatype Pc =
    | Run
    | WaitTop(o: Obj, mask: set<nat>, deadline: Option<nat>)       // wait_signals loop head
    | WaitRegister(o: Obj, mask: set<nat>, deadline: Option<nat>)  // about to register the deadline
    | WaitPark(o: Obj, mask: set<nat>, deadline: Option<nat>)      // about to enter block_if
    | WaitDone(o: Obj, mask: set<nat>, deadline: Option<nat>)      // block_if returned
    | LockPark(m: nat)                                             // about to try, then park
    | Unlocked(m: nat)                                             // about to call wake_one
    | SigLoad(o: Obj, after: Pc)                                   // bits stored, signals not reloaded
    | SigScan(o: Obj, sigs: set<nat>, after: Pc)                   // about to collect a batch
    | Readying(batch: seq<nat>, after: Pc)                         // about to make_ready the batch
    | ExitSignal
    | ExitKick
    | Halt
    | ReapTop
    | ReapPark
    | ReapHold(zombie: nat)
    | Leaving(after: Pc)                                           // about to pick a successor
    | Away(after: Pc)                                              // successor picked or switched to

  /** A core is named by its idle thread. `picked` is the successor chosen but not yet switched to. */
  datatype Core = Core(current: nat, previous: Option<nat>, picked: Option<nat>)

  /** parked_queue and the mask of the node; a thread has one live node at a time, named by the
      thread itself. */
  datatype Park = Park(q: Queue, mask: set<nat>)

  datatype Timed = Timed(at: nat, q: Queue)

  /** What each thread is, by its number. */
  datatype ThreadTable = ThreadTable(state: imap<nat, TState>, hold: imap<nat, Hold>, pc: imap<nat, Pc>,
                                     parked: imap<nat, Park>, killed: set<nat>)

  datatype WaitLists = WaitLists(runQ: seq<nat>, queues: imap<Queue, seq<nat>>, sleepers: imap<nat, nat>,
                                 timed: imap<nat, Timed>, zombies: seq<nat>)

  /** cpu holds exactly the threads whose on_cpu flag is set, with the core that set it. */
  datatype CoreTable = CoreTable(cores: imap<nat, Core>, cpu: imap<nat, nat>)

  datatype Shared = Shared(sig: imap<Obj, set<nat>>, mutex: imap<nat, nat>, now: nat, reaper: nat)

  datatype World = World(th: ThreadTable, ls: WaitLists, cs: CoreTable, sh: Shared) {
    const state := th.state
    const hold := th.hold
    const pc := th.pc
    const parked := th.parked
    const killed := th.killed
    const runQ := ls.runQ
    const queues := ls.queues
    const sleepers := ls.sleepers
    const timed := ls.timed
    const zombies := ls.zombies
    const cores := cs.cores
    const cpu := cs.cpu
    const sig := sh.sig
    const mutex := sh.mutex
    const now := sh.now
    const reaper := sh.reaper
  }

  const WAKE_BATCH: nat := 8
  const SIGNAL_TERMINATED: nat := 0

  function StateOf(state: imap<nat, TState>, t: nat): TState { if t in state then state[t] else Unborn }

  function HoldOf(hold: imap<nat, Hold>, t: nat): Hold { if t in hold then hold[t] else Nobody }

  function PcOf(pc: imap<nat, Pc>, t: nat): Pc { if t in pc then pc[t] else Run }

  function SigOf(sig: imap<Obj, set<nat>>, o: Obj): set<nat> { if o in sig then sig[o] else {} }

  function QueueOf(queues: imap<Queue, seq<nat>>, q: Queue): seq<nat> { if q in queues then queues[q] else [] }

  function MaskOf(parked: imap<nat, Park>, t: nat): set<nat> { if t in parked then parked[t].mask else {} }

  /** A core that runs its current thread's code: no switch under way. */
  predicate Exec(w: World, c: nat) {
    c in w.cores && w.cores[c].previous.None? && w.cores[c].picked.None?
  }

  // ---------------------------------------------------------------- run queue and wait lists

  /** Index of the first queued thread whose previous core has finished with it. */
  function FirstOff(q: seq<nat>, cpu: imap<nat, nat>): (i: nat)
    ensures i <= |q| && (i < |q| ==> q[i] !in cpu) && forall j | 0 <= j < i :: q[j] in cpu
  {
    if q == [] || q[0] !in cpu then 0 else 1 + FirstOff(q[1..], cpu)
  }

  function PopReady(q: seq<nat>, cpu: imap<nat, nat>): (Option<nat>, seq<nat>) {
    var i := FirstOff(q, cpu);
    if i == |q| then (None, q) else (Some(q[i]), q[i + 1..] + q[..i])
  }

  function Unlink(q: seq<nat>, t: nat): seq<nat> {
    if q == [] then [] else if q[0] == t then q[1..] else [q[0]] + Unlink(q[1..], t)
  }

  /** wake_one: the first waiter with an empty mask. */
  function FirstPlain(q: seq<nat>, parked: imap<nat, Park>): Option<nat> {
    if q == [] then None else if MaskOf(parked, q[0]) == {} then Some(q[0]) else FirstPlain(q[1..], parked)
  }

  datatype Pass = Pass(batch: seq<nat>, rest: seq<nat>, scannedAll: bool)

  /** One pass of wake_matching over the list, with room for that many more threads. */
  function Collect(q: seq<nat>, parked: imap<nat, Park>, sigs: set<nat>, room: nat): Pass {
    if q == [] then Pass([], [], true)
    else if room == 0 then Pass([], q, false)
    else if MaskOf(parked, q[0]) * sigs != {} then
      var p := Collect(q[1..], parked, sigs, room - 1);
      p.(batch := [q[0]] + p.batch)
    else
      var p := Collect(q[1..], parked, sigs, room);
      p.(rest := [q[0]] + p.rest)
  }

  // ---------------------------------------------------------------- steps

  function Goto(w: World, t: nat, pc: Pc): World { w.(th := w.th.(pc := w.pc[t := pc])) }

  function Then(batch: seq<nat>, after: Pc): Pc { if batch == [] then after else Readying(batch, after) }

  function MakeReady(w: World, t: nat): World {
    w.(th := w.th.(state := w.state[t := Ready], hold := w.hold[t := RunQueue]), ls := w.ls.(runQ := w.runQ + [t]))
  }

  /** schedule_out: choose a successor, falling back to this core's idle thread. */
  function Pick(w: World, c: nat): World
    requires c in w.cores
  {
    var core := w.cores[c];
    var (found, rest) := PopReady(w.runQ, w.cpu);
    var next := if found.Some? then found.value else c;
    w.(ls := w.ls.(runQ := rest), th := w.th.(hold := w.hold[next := PickedBy(c)]),
        cs := w.cs.(cores := w.cores[c := core.(picked := Some(next))]))
  }

  /** yield and service_pending_preemption: re-queue the current thread, unless it is idle, only
      when a successor exists. */
  function Yield(w: World, c: nat): World
    requires c in w.cores
  {
    var core := w.cores[c];
    var t := core.current;
    var (found, rest) := PopReady(w.runQ, w.cpu);
    if found.None? then w
    else
      var picked := w.(th := w.th.(hold := w.hold[found.value := PickedBy(c)]), ls := w.ls.(runQ := rest),
          cs := w.cs.(cores := w.cores[c := core.(picked := found)]));
      if t == c then picked else MakeReady(picked, t)
  }

  /** switch_to under the scheduler lock. */
  function Switch(w: World, c: nat): World
    requires c in w.cores && w.cores[c].picked.Some?
  {
    var core := w.cores[c];
    var t, next := core.current, core.picked.value;
    var demoted := if StateOf(w.state, t) == Running then w.state[t := Ready] else w.state;
    w.(th := w.th.(state := demoted[next := Running], hold := w.hold[next := Nobody]),
        cs := w.cs.(cpu := w.cpu[next := c],
            cores := w.cores[c := core.(current := next, previous := Some(t), picked := None)]))
  }

  /** sched_finish_switch: the last touch of the outgoing thread. */
  function Finish(w: World, c: nat): World
    requires c in w.cores && w.cores[c].previous.Some?
  {
    w.(cs := w.cs.(cpu := w.cpu - {w.cores[c].previous.value}, cores := w.cores[c := w.cores[c].(previous := None)]))
  }

  /** The parking half of block_if. */
  function ParkOn(w: World, t: nat, q: Queue, mask: set<nat>, after: Pc): World {
    w.(th := w.th.(state := w.state[t := Blocked], hold := w.hold[t := Node(q)], parked := w.parked[t := Park(q, mask)],
        pc := w.pc[t := Leaving(after)]), ls := w.ls.(queues := w.queues[q := [t] + QueueOf(w.queues, q)]))
  }

  /** The parking half of sleep_ticks. */
  function SleepUntil(w: World, t: nat, at: nat): World {
    w.(th := w.th.(state := w.state[t := Blocked], hold := w.hold[t := Asleep], pc := w.pc[t := Leaving(Run)]),
        ls := w.ls.(sleepers := w.sleepers[t := at]))
  }

  /** A waker moves t out of its node and unlinks it. */
  function Take(w: World, q: Queue, t: nat, waker: nat): World {
    w.(th := w.th.(hold := w.hold[t := WokenBy(waker)]),
        ls := w.ls.(queues := w.queues[q := Unlink(QueueOf(w.queues, q), t)]))
  }

  /** claim followed by make_ready_locked, under the scheduler lock. */
  function Claim(w: World, q: Queue, t: nat): World {
    if t in QueueOf(w.queues, q)
        then MakeReady(w.(ls := w.ls.(queues := w.queues[q := Unlink(QueueOf(w.queues, q), t)])), t) else w
  }

  function WakeSleeper(w: World, t: nat): World {
    if t in w.sleepers then MakeReady(w.(ls := w.ls.(sleepers := w.sleepers - {t})), t) else w
  }

  /** One entry of the expiry scan: a failed claim leaves the entry. */
  function Expire(w: World, t: nat): World {
    if t in w.timed && w.timed[t].at <= w.now && t in QueueOf(w.queues, w.timed[t].q)
    then Claim(w.(ls := w.ls.(timed := w.timed - {t})), w.timed[t].q, t)
    else w
  }

  function KillOne(w: World, t: nat): World {
    if StateOf(w.state, t) in {Dead, Unborn} then w
    else
      var marked := w.(th := w.th.(killed := w.killed + {t}));
      if StateOf(w.state, t) != Blocked then marked
      else if t in w.parked then Claim(marked, w.parked[t].q, t)
      else WakeSleeper(marked, t)
  }

  function WakeOne(w: World, t: nat, q: Queue, after: Pc): World {
    var found := FirstPlain(QueueOf(w.queues, q), w.parked);
    if found.None? then Goto(w, t, after)
    else Goto(Take(w, q, found.value, t), t, Readying([found.value], after))
  }

  /** wait_signals has nothing left to wait for: a wanted bit is set, the thread was killed or the
      deadline has passed. */
  predicate Fired(w: World, t: nat, pc: Pc)
    requires pc.WaitTop? || pc.WaitPark?
  {
    SigOf(w.sig, pc.o) * pc.mask != {} || t in w.killed || (pc.deadline.Some? && pc.deadline.value <= w.now)
  }

  /** block_if with wait_signals' condition, both under the queue's lock. */
  function BlockIf(w: World, t: nat, pc: Pc): World
    requires pc.WaitPark?
  {
    var done := WaitDone(pc.o, pc.mask, pc.deadline);
    if Fired(w, t, pc) then Goto(w, t, done) else ParkOn(w, t, ObjQ(pc.o), pc.mask, done)
  }

  /** The thread's next locked block or atomic access, at its pc. */
  function Advance(w: World, t: nat): World {
    var pc := PcOf(w.pc, t);
    if pc.WaitTop? then Goto(w, t, AfterTest(w, t, pc))
    else if pc.WaitRegister? then Register(w, t, pc)
    else if pc.WaitPark? then BlockIf(w, t, pc)
    else if pc.WaitDone? then Goto(w.(ls := w.ls.(timed := w.timed - {t})), t, WaitTop(pc.o, pc.mask, pc.deadline))
    else if pc.LockPark? then TryLock(w, t, pc.m)
    else if pc.Unlocked? then WakeOne(w, t, MutexQ(pc.m), Run)
    else if pc.SigLoad? then Goto(w, t, SigScan(pc.o, SigOf(w.sig, pc.o), pc.after))
    else if pc.SigScan? then ScanPass(w, t, pc.o, pc.sigs, pc.after)
    else if pc.Readying? then ReadyNext(w, t, pc.batch, pc.after)
    else if pc.ExitSignal? then Terminate(w, t)
    else if pc.ExitKick? then WakeOne(w, t, ReaperQ, Leaving(Halt))
    else if pc.ReapTop? then ReapNext(w, t)
    else if pc.ReapPark? then ReapWait(w, t)
    else if pc.ReapHold? then ReapFree(w, t, pc.zombie)
    else if pc.Away? then Goto(w.(th := w.th.(parked := w.parked - {t})), t, pc.after)
    else w
  }

  function AfterTest(w: World, t: nat, pc: Pc): Pc
    requires pc.WaitTop?
  {
    if Fired(w, t, pc) then Run
    else if pc.deadline.Some? then WaitRegister(pc.o, pc.mask, pc.deadline)
    else WaitPark(pc.o, pc.mask, pc.deadline)
  }

  function Register(w: World, t: nat, pc: Pc): World
    requires pc.WaitRegister?
  {
    if pc.deadline.None? then w
    else Goto(w.(ls := w.ls.(timed := w.timed[t := Timed(pc.deadline.value, ObjQ(pc.o))])), t,
        WaitPark(pc.o, pc.mask, pc.deadline))
  }

  function TryLock(w: World, t: nat, m: nat): World {
    if m !in w.mutex then Goto(w.(sh := w.sh.(mutex := w.mutex[m := t])), t, Run)
        else ParkOn(w, t, MutexQ(m), {}, LockPark(m))
  }

  /** The thread object's TERMINATED bit is stored; its waiters are scanned next. */
  function Terminate(w: World, t: nat): World {
    Goto(w.(sh := w.sh.(sig := w.sig[ThreadObj(t) := SigOf(w.sig, ThreadObj(t)) + {SIGNAL_TERMINATED}])), t,
         SigLoad(ThreadObj(t), ExitKick))
  }

  function ReapNext(w: World, t: nat): World {
    if w.zombies == [] then Goto(w, t, ReapPark)
    else Goto(w.(ls := w.ls.(zombies := w.zombies[1..]), th := w.th.(hold := w.hold[w.zombies[0] := Reaping])), t,
        ReapHold(w.zombies[0]))
  }

  function ReapWait(w: World, t: nat): World {
    if w.zombies != [] then Goto(w, t, ReapTop) else ParkOn(w, t, ReaperQ, {}, ReapTop)
  }

  /** The reaper spins until the zombie's last core has left its stack. */
  function ReapFree(w: World, t: nat, z: nat): World {
    if z in w.cpu then w else Goto(w.(th := w.th.(hold := w.hold[z := Freed])), t, ReapTop)
  }

  /** make_ready of the batch's last thread. */
  function ReadyNext(w: World, t: nat, batch: seq<nat>, after: Pc): World {
    if batch == [] then w
    else MakeReady(Goto(w, t, Then(batch[..|batch| - 1], after)), batch[|batch| - 1])
  }

  function ScanPass(w: World, t: nat, o: Obj, sigs: set<nat>, after: Pc): World {
    var pass := Collect(QueueOf(w.queues, ObjQ(o)), w.parked, sigs, WAKE_BATCH);
    Goto(w.(ls := w.ls.(queues := w.queues[ObjQ(o) := pass.rest]),
        th := w.th.(hold := w.hold + imap u | u in pass.batch :: WokenBy(t))),
         t, Then(pass.batch, if pass.scannedAll then after else SigScan(o, sigs, after)))
  }

  /** What a thread outside every primitive may start. */
  datatype Call =
    | Wait(o: Obj, mask: set<nat>, deadline: Option<nat>)
    | Lock(m: nat)
    | Unlock(m: nat)
    | Signal(o: Obj, bits: set<nat>)
    | Clear(o: Obj, bits: set<nat>)
    | Sleep(ticks: nat)
    | Exit

  function Start(w: World, t: nat, call: Call): World {
    match call
    case Wait(o, mask, dl) => if mask == {} then w else Goto(w, t, WaitTop(o, mask, dl))
    case Lock(m) => if m !in w.mutex then w.(sh := w.sh.(mutex := w.mutex[m := t])) else Goto(w, t, LockPark(m))
    case Unlock(m) =>
      if m in w.mutex && w.mutex[m] == t then Goto(w.(sh := w.sh.(mutex := w.mutex - {m})), t, Unlocked(m)) else w
    case Signal(o, bits) => Goto(w.(sh := w.sh.(sig := w.sig[o := SigOf(w.sig, o) + bits])), t, SigLoad(o, Run))
    case Clear(o, bits) => w.(sh := w.sh.(sig := w.sig[o := SigOf(w.sig, o) - bits]))
    case Sleep(ticks) =>
      if ticks == 0 || t in w.killed then w else SleepUntil(w, t, w.now + ticks)
    case Exit =>
      w.(th := w.th.(state := w.state[t := Dead], hold := w.hold[t := Zombie], pc := w.pc[t := ExitSignal]),
          ls := w.ls.(zombies := w.zombies + [t]))
  }

  datatype Action =
    | Go(core: nat)                        // the current thread's next block
    | Begin(core: nat, call: Call)
    | DoPick(core: nat)
    | DoSwitch(core: nat)
    | DoFinish(core: nat)
    | DoYield(core: nat)
    | Wake(thread: nat)                    // the tick's sleeper scan reaches a due entry
    | Expiry(thread: nat)                  // the tick's timed-wait scan reaches an entry
    | Clock(ticks: nat)
    | Kill(thread: nat)                    // the kill scan reaches a thread
    | Spawn(thread: nat)

  /** A thread executing ordinary code on core c: not idle, not about to switch. */
  predicate Acting(w: World, c: nat) {
    Exec(w, c) && w.cores[c].current != c && !PcOf(w.pc, w.cores[c].current).Leaving?
  }

  function Step(w: World, a: Action): World {
    match a
    case Go(c) => if Acting(w, c) then Advance(w, w.cores[c].current) else w
    case Begin(c, call) =>
      if Acting(w, c) && PcOf(w.pc, w.cores[c].current).Run? && !(call.Exit? && w.cores[c].current == w.reaper)
      then Start(w, w.cores[c].current, call)
      else w
    case DoPick(c) =>
      if Exec(w, c) && PcOf(w.pc, w.cores[c].current).Leaving?
      then Pick(Goto(w, w.cores[c].current, Away(PcOf(w.pc, w.cores[c].current).after)), c)
      else w
    case DoSwitch(c) => if c in w.cores && w.cores[c].picked.Some? then Switch(w, c) else w
    case DoFinish(c) => if c in w.cores && w.cores[c].previous.Some? then Finish(w, c) else w
    case DoYield(c) =>
      if Exec(w, c) && StateOf(w.state, w.cores[c].current) == Running && !PcOf(w.pc, w.cores[c].current).Away?
      then Yield(w, c)
      else w
    case Wake(t) => if t in w.sleepers && w.sleepers[t] <= w.now then WakeSleeper(w, t) else w
    case Expiry(t) => Expire(w, t)
    case Clock(ticks) => w.(sh := w.sh.(now := w.now + ticks))
    case Kill(t) => if t == w.reaper || t in w.cores then w else KillOne(w, t)
    case Spawn(t) => if StateOf(w.state, t) == Unborn then MakeReady(w, t) else w
  }

  function Runs(w: World, acts: seq<Action>): World {
    if acts == [] then w else Step(Runs(w, acts[..|acts| - 1]), acts[|acts| - 1])
  }

  /** Every core runs its own idle thread and the reaper waits in the run queue. */
  ghost predicate Initial(w: World) {
    && (forall c | c in w.cores :: w.cores[c] == Core(c, None, None))
    && w.reaper !in w.cores
    && w.state == (imap c | c in w.cores :: Running)[w.reaper := Ready]
    && w.cpu == (imap c | c in w.cores :: c)
    && w.hold == imap[w.reaper := RunQueue] && w.runQ == [w.reaper] && w.pc == imap[w.reaper := ReapTop]
    && w.parked == imap[] && w.killed == {} && w.queues == imap[] && w.sleepers == imap[] && w.timed == imap[]
    && w.zombies == [] && w.mutex == imap[]
  }
}
