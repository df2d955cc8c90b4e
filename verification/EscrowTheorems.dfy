/** What the escrow promises over whole runs: where a handle is, what a message delivers, and that a
    message that dies takes its handles with it. */
module EscrowTheorems {

  import opened Basics
  import opened Escrow
  import HandleTable

  // ---------------------------------------------------------------- the entries the sender gave up, in order

  /** The ids name these entries from some point on. */
  ghost predicate Matches(s: State, ids: seq<HandleId>, gave: seq<Item>, from: nat) {
    |gave| == from + |ids| && forall i | 0 <= i < |ids| ::
        LiveIn(s, KERNEL, ids[i]) && ItemIn(s, KERNEL, ids[i]) == gave[from + i]
  }

  /** What the sender named and gave, as far as the thread has got with it. */
  ghost predicate OnCourse(s: State, pc: Pc) {
    match pc
    case Idle => true
    case Staging(_, _, m, todo) =>
      var gave, asked := GaveOf(s.ms.gave, m), CargoOf(s.ms.asked, m);
      Matches(s, CargoOf(s.ms.cargo, m), gave, 0) && |gave| <= |asked| && todo == asked[|gave|..]
    case Moving(_, _, m, todo, x) =>
      var gave, asked := GaveOf(s.ms.gave, m), CargoOf(s.ms.asked, m);
      && 0 < |gave| <= |asked| && todo == asked[|gave|..] && gave[|gave| - 1] == x
      && Matches(s, CargoOf(s.ms.cargo, m), gave[..|gave| - 1], 0)
    case Writing(_, m) => Matches(s, CargoOf(s.ms.cargo, m), GaveOf(s.ms.gave, m), 0)
      && |GaveOf(s.ms.gave, m)| == |CargoOf(s.ms.asked, m)|
    case Unpacking(_, _, m) =>
      var c, gave := CargoOf(s.ms.cargo, m), GaveOf(s.ms.gave, m);
      |c| <= |gave| == |CargoOf(s.ms.asked, m)| && Matches(s, c, gave, |gave| - |c|)
    case Delivering(_, _, m, x) =>
      var c, gave := CargoOf(s.ms.cargo, m), GaveOf(s.ms.gave, m);
      |c| < |gave| == |CargoOf(s.ms.asked, m)| && Matches(s, c, gave, |gave| - |c|) && x == gave[|gave| - |c| - 1]
  }

  ghost predicate CourseOk(s: State, t: nat) { OnCourse(s, PcOf(s.pc, t)) }

  /** What is queued is all that was asked. */
  ghost predicate WholeOk(s: State, m: nat) {
    StageOf(s.ms.stage, m).Queued? ==>
      Matches(s, CargoOf(s.ms.cargo, m), GaveOf(s.ms.gave, m), 0) && |GaveOf(s.ms.gave, m)| == |CargoOf(s.ms.asked, m)|
  }

  ghost predicate Course(s: State) {
    && (forall t: nat {:trigger CourseOk(s, t)} :: CourseOk(s, t))
    && (forall m: nat {:trigger WholeOk(s, m)} :: WholeOk(s, m))
  }

  /** The entries of other messages are untouched. */
  ghost predicate ItemsKept(s: State, s': State, m: nat) {
    forall id: HandleId | LiveIn(s, KERNEL, id) && id in s.ms.owner && s.ms.owner[id] != m ::
      LiveIn(s', KERNEL, id) && ItemIn(s', KERNEL, id) == ItemIn(s, KERNEL, id)
  }

  ghost predicate SameMessage(s: State, s': State, n: nat) {
    && CargoOf(s'.ms.cargo, n) == CargoOf(s.ms.cargo, n) && GaveOf(s'.ms.gave, n) == GaveOf(s.ms.gave, n)
    && CargoOf(s'.ms.asked, n) == CargoOf(s.ms.asked, n)
  }

  lemma MatchesStay(s: State, s': State, m: nat, n: nat, gave: seq<Item>, from: nat)
    requires Inv(s) && n != m && ItemsKept(s, s', m) && Matches(s, CargoOf(s.ms.cargo, n), gave, from)
    ensures Matches(s', CargoOf(s.ms.cargo, n), gave, from)
  {
    assert MessageOk(s, n);
    var c := CargoOf(s.ms.cargo, n);
    forall i | 0 <= i < |c| ensures LiveIn(s', KERNEL, c[i]) && ItemIn(s', KERNEL, c[i]) == gave[from + i] {
      assert c[i] in c;
    }
  }

  lemma CourseStays(s: State, s': State, m: nat, pc: Pc)
    requires Inv(s) && ItemsKept(s, s', m) && OnCourse(s, pc)
    requires MsgOf(pc).Some? ==> MsgOf(pc).value != m && SameMessage(s, s', MsgOf(pc).value)
    ensures OnCourse(s', pc)
  {
    if MsgOf(pc).Some? {
      var n := MsgOf(pc).value;
      var c, gave := CargoOf(s.ms.cargo, n), GaveOf(s.ms.gave, n);
      if pc.Moving? { MatchesStay(s, s', m, n, gave[..|gave| - 1], 0); }
      else if pc.Staging? || pc.Writing? { MatchesStay(s, s', m, n, gave, 0); }
      else { MatchesStay(s, s', m, n, gave, |gave| - |c|); }
    }
  }

  /** A step of thread t with message m disturbs no other thread and no other message. */
  lemma OthersOnCourse(s: State, s': State, t: nat, m: nat)
    requires Inv(s) && Course(s) && CourseOk(s', t) && WholeOk(s', m) && ItemsKept(s, s', m)
    requires forall u: nat | u != t :: PcOf(s'.pc, u) == PcOf(s.pc, u)
    requires forall n: nat | n != m :: SameMessage(s, s', n) && StageOf(s'.ms.stage, n) == StageOf(s.ms.stage, n)
    requires StageOf(s.ms.stage, m).Held? ==> StageOf(s.ms.stage, m) == Held(t)
    ensures Course(s')
  {
    forall u: nat ensures CourseOk(s', u) {
      if u != t {
        assert CourseOk(s, u) && ThreadOk(s, u);
        CourseStays(s, s', m, PcOf(s.pc, u));
      }
    }
    forall n: nat ensures WholeOk(s', n) {
      if n != m && StageOf(s.ms.stage, n).Queued? {
        assert WholeOk(s, n);
        MatchesStay(s, s', m, n, GaveOf(s.ms.gave, n), 0);
      }
    }
  }

  lemma SameCourse(s: State, s': State)
    requires Course(s) && s'.pc == s.pc && s'.ms == s.ms && TabOf(s'.hs.tabs, KERNEL) == TabOf(s.hs.tabs, KERNEL)
    ensures Course(s')
  {
    forall u: nat ensures CourseOk(s', u) { assert CourseOk(s, u); SameOn(s, s', PcOf(s.pc, u)); }
    forall n: nat ensures WholeOk(s', n) {
      assert WholeOk(s, n);
      SameMatches(s, s', CargoOf(s.ms.cargo, n), GaveOf(s.ms.gave, n), 0);
    }
  }

  lemma SameMatches(s: State, s': State, ids: seq<HandleId>, gave: seq<Item>, from: nat)
    requires TabOf(s'.hs.tabs, KERNEL) == TabOf(s.hs.tabs, KERNEL)
    ensures Matches(s', ids, gave, from) <==> Matches(s, ids, gave, from)
  {
  }

  lemma SameOn(s: State, s': State, pc: Pc)
    requires s'.ms == s.ms && TabOf(s'.hs.tabs, KERNEL) == TabOf(s.hs.tabs, KERNEL) && OnCourse(s, pc)
    ensures OnCourse(s', pc)
  {
  }

  // ---------------------------------------------------------------- every step keeps to it

  lemma KernelUntouched(s: State, s': State, m: nat)
    requires TabOf(s'.hs.tabs, KERNEL) == TabOf(s.hs.tabs, KERNEL)
    ensures ItemsKept(s, s', m)
  {
  }

  lemma StagingCourse(s: State, t: nat)
    requires Inv(s) && Course(s) && PcOf(s.pc, t).Staging?
    ensures Course(Advance(s, t, true, HandleTable.HandleId(0, 0)))
    ensures forall ok, id :: Advance(s, t, ok, id) == Advance(s, t, true, HandleTable.HandleId(0, 0))
  {
    var s', pc := Advance(s, t, true, HandleTable.HandleId(0, 0)), PcOf(s.pc, t);
    assert ThreadOk(s, t) && CourseOk(s, t) && WholeOk(s, pc.msg);
    KernelUntouched(s, s', pc.msg);
    if pc.todo != [] && LiveIn(s, pc.task, pc.todo[0]) {
      var gave := GaveOf(s.ms.gave, pc.msg);
      assert GaveOf(s'.ms.gave, pc.msg)[..|gave|] == gave;
      assert pc.todo[1..] == CargoOf(s.ms.asked, pc.msg)[|gave| + 1..];
      SameMatches(s, s', CargoOf(s.ms.cargo, pc.msg), gave, 0);
    }
    OthersOnCourse(s, s', t, pc.msg);
  }

  lemma MovingCourse(s: State, t: nat, ok: bool, id: HandleId)
    requires Inv(s) && Course(s) && PcOf(s.pc, t).Moving?
    ensures Course(EscrowNext(s, t, ok, id))
  {
    var s', pc := EscrowNext(s, t, ok, id), PcOf(s.pc, t);
    assert ThreadOk(s, t) && CourseOk(s, t) && WholeOk(s, pc.msg);
    if ok && NewIn(s, KERNEL, id) {
      assert EntryOk(s, KERNEL, id);
      var c, gave := CargoOf(s.ms.cargo, pc.msg), GaveOf(s.ms.gave, pc.msg);
      var c' := c + [id];
      forall i | 0 <= i < |c'| ensures LiveIn(s', KERNEL, c'[i]) && ItemIn(s', KERNEL, c'[i]) == gave[i] {
        if i < |c| {
          assert gave[..|gave| - 1][i] == gave[i] && LiveIn(s, KERNEL, c[i])
              && ItemIn(s, KERNEL, c[i]) == gave[..|gave| - 1][0 + i];
        }
      }
    }
    if s' != s { OthersOnCourse(s, s', t, pc.msg); }
  }

  lemma WritingCourse(s: State, t: nat)
    requires Inv(s) && Course(s) && PcOf(s.pc, t).Writing?
    ensures Course(Write(s, t))
  {
    var pc := PcOf(s.pc, t);
    var s' := Write(s, t);
    assert ThreadOk(s, t) && CourseOk(s, t) && WholeOk(s, pc.msg);
    KernelUntouched(s, s', pc.msg);
    SameMatches(s, s', CargoOf(s.ms.cargo, pc.msg), GaveOf(s.ms.gave, pc.msg), 0);
    OthersOnCourse(s, s', t, pc.msg);
  }

  lemma UnpackingCourse(s: State, t: nat)
    requires Inv(s) && Course(s) && PcOf(s.pc, t).Unpacking?
    ensures Course(UnpackNext(s, t))
  {
    var s', pc := UnpackNext(s, t), PcOf(s.pc, t);
    assert ThreadOk(s, t) && CourseOk(s, t) && WholeOk(s, pc.msg) && MessageOk(s, pc.msg);
    if CargoOf(s.ms.cargo, pc.msg) != [] { UnpackedCourse(s, t); }
    else {
      KernelUntouched(s, s', pc.msg);
      OthersOnCourse(s, s', t, pc.msg);
    }
  }

  lemma UnpackedCourse(s: State, t: nat)
    requires Inv(s) && Course(s) && PcOf(s.pc, t).Unpacking? && CargoOf(s.ms.cargo, PcOf(s.pc, t).msg) != []
    ensures Course(UnpackNext(s, t))
  {
    var s', pc := UnpackNext(s, t), PcOf(s.pc, t);
    var c, gave := CargoOf(s.ms.cargo, pc.msg), GaveOf(s.ms.gave, pc.msg);
    assert ThreadOk(s, t) && CourseOk(s, t) && WholeOk(s, pc.msg) && MessageOk(s, pc.msg);
    CargoIsLive(s, pc.msg);
    assert c[0] in c && ItemIn(s, KERNEL, c[0]) == gave[|gave| - |c| + 0];
    MatchesTail(s, s', c, gave);
    OthersOnCourse(s, s', t, pc.msg);
  }

  /** The first id is out of the table; the rest match as before. */
  lemma MatchesTail(s: State, s': State, c: seq<HandleId>, gave: seq<Item>)
    requires c != [] && NoDup(c) && |c| <= |gave| && Matches(s, c, gave, |gave| - |c|)
    requires TabOf(s'.hs.tabs, KERNEL).live == TabOf(s.hs.tabs, KERNEL).live - {c[0]}
    ensures Matches(s', c[1..], gave, |gave| - |c| + 1)
  {
    TailOf(c);
    var d := c[1..];
    forall i | 0 <= i < |d| ensures LiveIn(s', KERNEL, d[i]) && ItemIn(s', KERNEL, d[i]) == gave[|gave| - |d| + i] {
      assert d[i] == c[i + 1] && d[i] in d && LiveIn(s, KERNEL, c[i + 1])
          && ItemIn(s, KERNEL, c[i + 1]) == gave[|gave| - |c| + (i + 1)];
    }
  }

  lemma DeliveringCourse(s: State, t: nat, ok: bool, id: HandleId)
    requires Inv(s) && Course(s) && PcOf(s.pc, t).Delivering?
    ensures Course(Deliver(s, t, ok, id))
  {
    var s', pc := Deliver(s, t, ok, id), PcOf(s.pc, t);
    assert ThreadOk(s, t) && CourseOk(s, t) && WholeOk(s, pc.msg);
    KernelUntouched(s, s', pc.msg);
    var c, gave := CargoOf(s.ms.cargo, pc.msg), GaveOf(s.ms.gave, pc.msg);
    SameMatches(s, s', c, gave, |gave| - |c|);
    if s' != s { OthersOnCourse(s, s', t, pc.msg); }
  }

  lemma ReadCourse(s: State, t: nat, task: nat, e: End, fits: bool)
    requires Inv(s) && Course(s) && PcOf(s.pc, t).Idle?
    ensures Course(Read(s, t, task, e, fits))
  {
    var q, s' := ListOf(s.cs.inbound, e), Read(s, t, task, e, fits);
    if q != [] {
      assert QueueOk(s, e) && q[0] in q && WholeOk(s, q[0]);
      KernelUntouched(s, s', q[0]);
      SameMatches(s, s', CargoOf(s.ms.cargo, q[0]), GaveOf(s.ms.gave, q[0]), 0);
      OthersOnCourse(s, s', t, q[0]);
    }
  }

  /** A message nobody holds and no queue has, or is about to have, is on no course. */
  lemma DyingCourse(s: State, s': State, m: nat)
    requires Inv(s) && Course(s) && s'.pc == s.pc && ItemsKept(s, s', m)
    requires forall n: nat | n != m :: SameMessage(s, s', n) && StageOf(s'.ms.stage, n) == StageOf(s.ms.stage, n)
    requires !StageOf(s.ms.stage, m).Held? && StageOf(s'.ms.stage, m).Dying?
    ensures Course(s')
  {
    forall u: nat ensures CourseOk(s', u) {
      assert CourseOk(s, u) && ThreadOk(s, u);
      CourseStays(s, s', m, PcOf(s.pc, u));
    }
    forall n: nat ensures WholeOk(s', n) {
      if n != m && StageOf(s.ms.stage, n).Queued? {
        assert WholeOk(s, n);
        MatchesStay(s, s', m, n, GaveOf(s.ms.gave, n), 0);
      }
    }
  }

  lemma BuryCourse(s: State, m: nat)
    requires Inv(s) && Course(s) && StageOf(s.ms.stage, m).Dying? && CargoOf(s.ms.cargo, m) != []
    ensures Course(BuryNext(s, m))
  {
    CargoIsLive(s, m);
    assert MessageOk(s, m) && CargoOf(s.ms.cargo, m)[0] in CargoOf(s.ms.cargo, m);
    DyingCourse(s, BuryNext(s, m), m);
  }

  lemma SendCourse(s: State, t: nat, e: End, task: nat, m: nat, todo: seq<HandleId>)
    requires Inv(s) && Course(s) && PcOf(s.pc, t).Idle? && StageOf(s.ms.stage, m).Unused?
    ensures Course(StartSend(s, t, e, task, m, todo))
  {
    var s' := StartSend(s, t, e, task, m, todo);
    assert MessageOk(s, m);
    KernelUntouched(s, s', m);
    assert todo[0..] == todo;
    OthersOnCourse(s, s', t, m);
  }

  lemma AdvanceCourse(s: State, t: nat, ok: bool, id: HandleId)
    requires Inv(s) && Course(s)
    ensures Course(Advance(s, t, ok, id))
  {
    var pc := PcOf(s.pc, t);
    if pc.Staging? { StagingCourse(s, t); }
    else if pc.Moving? { MovingCourse(s, t, ok, id); }
    else if pc.Writing? { WritingCourse(s, t); }
    else if pc.Unpacking? { UnpackingCourse(s, t); }
    else if pc.Delivering? { DeliveringCourse(s, t, ok, id); }
  }

  lemma StepCourse(s: State, a: Action)
    requires Inv(s) && Course(s)
    ensures Course(Step(s, a))
  {
    match a
    case Mint(_, _, _, _) => SameCourse(s, Step(s, a));
    case NewPair(_, _, _, _, _, _) => SameCourse(s, Step(s, a));
    case CloseHandle(_, _) => SameCourse(s, Step(s, a));
    case Destroy(_) => SameCourse(s, Step(s, a));
    case Send(t, task, via, m, todo) =>
      if PcOf(s.pc, t).Idle? && StageOf(s.ms.stage, m).Unused? && Holds(s, task, via, SendRights(todo)) {
        SendCourse(s, t, ViaEnd(s, task, via, SendRights(todo)), task, m, todo);
      }
    case Go(t, ok, id) => AdvanceCourse(s, t, ok, id);
    case Receive(t, task, via, fits) =>
      if PcOf(s.pc, t).Idle? && Holds(s, task, via, {READ}) {
        ReadCourse(s, t, task, ViaEnd(s, task, via, {READ}), fits);
      }
    case Bury(m) => if StageOf(s.ms.stage, m).Dying? && CargoOf(s.ms.cargo, m) != [] { BuryCourse(s, m); }
    case Discard(e) =>
      var q := ListOf(s.cs.inbound, e);
      if e in s.cs.dead && Peer(e) in s.cs.dead && q != [] {
        assert QueueOk(s, e) && q[0] in q;
        KernelUntouched(s, Step(s, a), q[0]);
        DyingCourse(s, Step(s, a), q[0]);
      }
  }

  lemma {:induction false} RunCourse(acts: seq<Action>)
    ensures Course(Runs(Initial(), acts))
  {
    if acts == [] {
      forall t: nat ensures CourseOk(Initial(), t) {}
      forall m: nat ensures WholeOk(Initial(), m) {}
    } else {
      RunKeeps(acts[..|acts| - 1]);
      RunCourse(acts[..|acts| - 1]);
      StepCourse(Runs(Initial(), acts[..|acts| - 1]), acts[|acts| - 1]);
    }
  }

  // ---------------------------------------------------------------- where a handle is

  /** One thread has the message, or one queue, or it is being taken apart; and it names no id twice. */
  ghost predicate OnItsWay(s: State, m: nat) {
    var st := StageOf(s.ms.stage, m);
    && NoDup(CargoOf(s.ms.cargo, m))
    && (st.Held? || st.Queued? || st.Dying?)
    && (forall t: nat :: MsgOf(PcOf(s.pc, t)) == Some(m) <==> st == Held(t))
    && (forall e: End :: m in ListOf(s.cs.inbound, e) <==> st == Queued(e))
  }

  lemma WhereMessage(s: State, m: nat)
    requires Inv(s) && CargoOf(s.ms.cargo, m) != []
    ensures OnItsWay(s, m)
  {
    assert MessageOk(s, m);
    forall t: nat ensures MsgOf(PcOf(s.pc, t)) == Some(m) <==> StageOf(s.ms.stage, m) == Held(t) {
      assert ThreadOk(s, t);
    }
    forall e: End ensures m in ListOf(s.cs.inbound, e) <==> StageOf(s.ms.stage, m) == Queued(e) {
      assert QueueOk(s, e);
    }
  }

  /** The handle is under this id of this table. */
  ghost predicate Under(s: State, g: nat, t: nat, id: HandleId) { LiveIn(s, t, id) && ItemIn(s, t, id).tag == g }

  ghost predicate OnHand(s: State, g: nat, t: nat) {
    HandOf(PcOf(s.pc, t)).Some? && HandOf(PcOf(s.pc, t)).value.tag == g
  }

  /** A handle that was made is under one id of one table, or in one thread's hand, or closed, and never in
      two places. In the kernel's table its id is named by exactly one message, once, and that message is
      on its way. */
  lemma Conserved(acts: seq<Action>, g: nat)
    ensures var s := Runs(Initial(), acts);
      && (g in s.hs.place ==> || s.hs.place[g] == Closed || (exists t: nat :: OnHand(s, g, t))
                              || (exists t: nat, id: HandleId :: Under(s, g, t, id)))
      && (g in s.hs.place && s.hs.place[g] == Closed ==>
            (forall t: nat :: !OnHand(s, g, t)) && (forall t: nat, id: HandleId :: !Under(s, g, t, id)))
      && (forall t: nat, id: HandleId, u: nat, d: HandleId | Under(s, g, t, id) && Under(s, g, u, d) ::
         t == u && id == d)
      && (forall t: nat, id: HandleId, u: nat | Under(s, g, t, id) :: !OnHand(s, g, u))
      && (forall t: nat, u: nat | OnHand(s, g, t) && OnHand(s, g, u) :: t == u)
      && (forall id: HandleId | Under(s, g, KERNEL, id) :: NamedOnce(s, id))
  {
    var s := Runs(Initial(), acts);
    RunKeeps(acts);
    assert PlaceOk(s, g);
    if g in s.hs.place && s.hs.place[g].At? { assert Under(s, g, s.hs.place[g].table, s.hs.place[g].id); }
    if g in s.hs.place && s.hs.place[g].InHand? { assert OnHand(s, g, s.hs.place[g].thread); }
    forall t: nat, id: HandleId | Under(s, g, t, id) ensures g in s.hs.place && s.hs.place[g] == At(t, id) {
      assert EntryOk(s, t, id);
    }
    forall t: nat | OnHand(s, g, t) ensures g in s.hs.place && s.hs.place[g] == InHand(t) { assert ThreadOk(s, t); }
    forall id: HandleId | Under(s, g, KERNEL, id) ensures NamedOnce(s, id) { Names(s, id); }
  }

  ghost predicate NamedOnce(s: State, id: HandleId) {
    && id in s.ms.owner && OnItsWay(s, s.ms.owner[id])
    && forall m: nat :: id in CargoOf(s.ms.cargo, m) <==> m == s.ms.owner[id]
  }

  lemma Names(s: State, id: HandleId)
    requires Inv(s) && LiveIn(s, KERNEL, id)
    ensures NamedOnce(s, id)
  {
    assert EscrowOk(s, id);
    WhereMessage(s, s.ms.owner[id]);
    forall m: nat ensures id in CargoOf(s.ms.cargo, m) <==> m == s.ms.owner[id] { assert MessageOk(s, m); }
  }

  /** The receiver's take of an escrowed id never fails, nor does the close of one when a message dies: the
      kernel's table has every id a message names. */
  lemma TakeNeverFails(acts: seq<Action>, m: nat)
    ensures var s := Runs(Initial(), acts); forall id | id in CargoOf(s.ms.cargo, m) :: LiveIn(s, KERNEL, id)
  {
    RunKeeps(acts);
    assert MessageOk(Runs(Initial(), acts), m);
  }

  /** Messages leave a queue in the order they joined it, none skipped, and none is thrown away while
      either end lives; the queue never outgrows its slots. */
  lemma InOrder(acts: seq<Action>, e: End)
    ensures var cs := Runs(Initial(), acts).cs;
      && ListOf(cs.sent, e) == ListOf(cs.taken, e) + ListOf(cs.lost, e) + ListOf(cs.inbound, e)
      && (e !in cs.dead || Peer(e) !in cs.dead ==>
         ListOf(cs.taken, e) <= ListOf(cs.sent, e) && ListOf(cs.lost, e) == [])
      && |ListOf(cs.inbound, e)| <= QUEUE_DEPTH
  {
    RunKeeps(acts);
    assert QueueOk(Runs(Initial(), acts), e);
  }

  /** No table and no thread refers to an endpoint that has been destroyed, and no channel's queue holds a
      handle to either end of the same channel. */
  lemma NoDeadEnds(acts: seq<Action>, t: nat, id: HandleId, u: nat)
    ensures var s := Runs(Initial(), acts);
      && (EndOf(PcOf(s.pc, u)).Some? ==> EndOf(PcOf(s.pc, u)).value !in s.cs.dead)
      && (LiveIn(s, t, id) && EndAt(ItemIn(s, t, id).cap.target).Some? ==>
            var e := EndAt(ItemIn(s, t, id).cap.target).value;
            && e !in s.cs.dead
            && (t == KERNEL && id in s.ms.owner && StageOf(s.ms.stage, s.ms.owner[id]).Queued? ==>
               StageOf(s.ms.stage, s.ms.owner[id]).end.pair != e.pair))
  {
    var s := Runs(Initial(), acts);
    RunKeeps(acts);
    assert EntryOk(s, t, id) && ThreadOk(s, u) && EscrowOk(s, id);
    if LiveIn(s, KERNEL, id) && StageOf(s.ms.stage, s.ms.owner[id]).Queued? {
      var m := s.ms.owner[id];
      assert MessageOk(s, m) && QueueOk(s, StageOf(s.ms.stage, m).end);
      assert !Carries(s, m, StageOf(s.ms.stage, m).end.pair);
    }
  }

  // ---------------------------------------------------------------- what a handle stands for

  lemma StepMinted(s: State, a: Action, g: nat)
    requires Inv(s) && g in s.hs.place
    ensures var s' := Step(s, a);
      g in s'.hs.place && g in s.hs.minted && g in s'.hs.minted && s'.hs.minted[g] == s.hs.minted[g]
    ensures s.hs.place[g] == Closed ==> Step(s, a).hs.place[g] == Closed
  {
    assert PlaceOk(s, g);
    match a
    case CloseHandle(task, id) => assert EntryOk(s, task, id);
    case Go(t, ok, id) => GoMinted(s, t, ok, id, g);
    case Bury(m) => if CargoOf(s.ms.cargo, m) != [] { assert EntryOk(s, KERNEL, CargoOf(s.ms.cargo, m)[0]); }
    case _ =>
  }

  lemma GoMinted(s: State, t: nat, ok: bool, id: HandleId, g: nat)
    requires Inv(s) && g in s.hs.place
    ensures var s' := Advance(s, t, ok, id);
      g in s'.hs.place && s'.hs.minted == s.hs.minted && (s.hs.place[g] == Closed ==> s'.hs.place[g] == Closed)
  {
    var pc := PcOf(s.pc, t);
    assert ThreadOk(s, t);
    if pc.Staging? && pc.todo != [] { assert EntryOk(s, pc.task, pc.todo[0]); }
    if pc.Unpacking? && CargoOf(s.ms.cargo, pc.msg) != [] { assert EntryOk(s, KERNEL, CargoOf(s.ms.cargo, pc.msg)[0]); }
  }

  /** However often a handle is moved, every entry and every hand that has it has the object and the rights
      it was made with; and once closed it is never anywhere again. */
  lemma {:induction false} GrantsLast(acts: seq<Action>, more: seq<Action>, g: nat)
    requires g in Runs(Initial(), acts).hs.place
    ensures var s, s' := Runs(Initial(), acts), Runs(Initial(), acts + more);
      && g in s'.hs.place && g in s.hs.minted && g in s'.hs.minted && s'.hs.minted[g] == s.hs.minted[g]
      && (s.hs.place[g] == Closed ==> s'.hs.place[g] == Closed)
      && (forall t: nat, id: HandleId | Under(s', g, t, id) :: ItemIn(s', t, id).cap == s.hs.minted[g])
      && (forall t: nat | OnHand(s', g, t) :: HandOf(PcOf(s'.pc, t)).value.cap == s.hs.minted[g])
    decreases |more|
  {
    RunKeeps(acts);
    RunKeeps(acts + more);
    var s' := Runs(Initial(), acts + more);
    if more == [] {
      assert acts + more == acts;
      assert PlaceOk(s', g);
    } else {
      var fewer := more[..|more| - 1];
      GrantsLast(acts, fewer, g);
      RunKeeps(acts + fewer);
      assert (acts + more)[..|acts + more| - 1] == acts + fewer;
      StepMinted(Runs(Initial(), acts + fewer), more[|more| - 1], g);
    }
    forall t: nat, id: HandleId | Under(s', g, t, id) ensures ItemIn(s', t, id).cap == s'.hs.minted[g] {
      assert EntryOk(s', t, id);
    }
    forall t: nat | OnHand(s', g, t) ensures HandOf(PcOf(s'.pc, t)).value.cap == s'.hs.minted[g] {
      assert ThreadOk(s', t);
    }
  }

  /** Once a message is in use, what its sender asked for stays, and what it gave up is only added to. */
  ghost predicate Continues(s: State, s': State, m: nat) {
    && !StageOf(s'.ms.stage, m).Unused? && CargoOf(s'.ms.asked, m) == CargoOf(s.ms.asked, m)
    && GaveOf(s.ms.gave, m) <= GaveOf(s'.ms.gave, m)
  }

  lemma StepContinues(s: State, a: Action, m: nat)
    requires Inv(s) && !StageOf(s.ms.stage, m).Unused?
    ensures Continues(s, Step(s, a), m)
  {
    if a.Go? { GoContinues(s, a.thread, a.ok, a.id, m); } else { OtherContinues(s, a, m); }
  }

  lemma OtherContinues(s: State, a: Action, m: nat)
    requires !a.Go? && !StageOf(s.ms.stage, m).Unused?
    ensures Continues(s, Step(s, a), m)
  {
    if a.Receive? && PcOf(s.pc, a.thread).Idle? && Holds(s, a.task, a.via, {READ}) {
      ReadContinues(s, a.thread, a.task, ViaEnd(s, a.task, a.via, {READ}), a.fits, m);
    }
  }

  lemma ReadContinues(s: State, t: nat, task: nat, e: End, fits: bool, m: nat)
    requires !StageOf(s.ms.stage, m).Unused?
    ensures Continues(s, Read(s, t, task, e, fits), m)
  {
  }

  lemma GoContinues(s: State, t: nat, ok: bool, id: HandleId, m: nat)
    requires Inv(s) && !StageOf(s.ms.stage, m).Unused?
    ensures Continues(s, Advance(s, t, ok, id), m)
  {
    var pc := PcOf(s.pc, t);
    if pc.Staging? && pc.todo != [] { TakeContinues(s, t, m); }
    else if pc.Moving? {
      assert EscrowNext(s, t, ok, id).ms.asked == s.ms.asked && EscrowNext(s, t, ok, id).ms.gave == s.ms.gave;
    }
    else { SendsContinue(s, t, ok, id, m); }
  }

  lemma SendsContinue(s: State, t: nat, ok: bool, id: HandleId, m: nat)
    requires !StageOf(s.ms.stage, m).Unused? && !PcOf(s.pc, t).Moving?
    requires !(PcOf(s.pc, t).Staging? && PcOf(s.pc, t).todo != [])
    ensures Continues(s, Advance(s, t, ok, id), m)
  {
    var pc := PcOf(s.pc, t);
    if pc.Writing? { WriteContinues(s, t, m); }
    else if pc.Unpacking? { UnpackContinues(s, t, m); }
  }

  lemma WriteContinues(s: State, t: nat, m: nat)
    requires PcOf(s.pc, t).Writing? && !StageOf(s.ms.stage, m).Unused?
    ensures Continues(s, Write(s, t), m)
  {
  }

  lemma UnpackContinues(s: State, t: nat, m: nat)
    requires PcOf(s.pc, t).Unpacking? && !StageOf(s.ms.stage, m).Unused?
    ensures Continues(s, UnpackNext(s, t), m)
  {
  }

  lemma TakeContinues(s: State, t: nat, m: nat)
    requires PcOf(s.pc, t).Staging? && PcOf(s.pc, t).todo != [] && !StageOf(s.ms.stage, m).Unused?
    ensures Continues(s, TakeNext(s, t), m)
  {
  }

  lemma ContinuesOn(s: State, s1: State, s2: State, m: nat)
    requires Continues(s, s1, m) && Continues(s1, s2, m)
    ensures Continues(s, s2, m)
  {
    var a, b := GaveOf(s.ms.gave, m), GaveOf(s1.ms.gave, m);
    assert a == b[..|a|];
  }

  lemma {:induction false} StoryLasts(acts: seq<Action>, more: seq<Action>, m: nat)
    requires !StageOf(Runs(Initial(), acts).ms.stage, m).Unused?
    ensures Continues(Runs(Initial(), acts), Runs(Initial(), acts + more), m)
    decreases |more|
  {
    if more == [] {
      assert acts + more == acts;
    } else {
      var fewer := more[..|more| - 1];
      StoryLasts(acts, fewer, m);
      RunKeeps(acts + fewer);
      assert (acts + more)[..|acts + more| - 1] == acts + fewer && (acts + more)[|acts + more| - 1] == more[|more| - 1];
      var s := Runs(Initial(), acts + fewer);
      StepContinues(s, more[|more| - 1], m);
      ContinuesOn(Runs(Initial(), acts), s, Step(s, more[|more| - 1]), m);
    }
  }

  /** The entry that leaves the sender's table for the k-th handle of a message is, object, rights and
      identity, the entry a receiver's table gets for it, whatever happened in between. */
  lemma EndToEnd(acts: seq<Action>, t: nat, ok: bool, id: HandleId, more: seq<Action>, u: nat, id': HandleId)
    requires var s := Runs(Initial(), acts); var pc := PcOf(s.pc, t);
      pc.Staging? && pc.todo != [] && LiveIn(s, pc.task, pc.todo[0])
    requires var s, z := Runs(Initial(), acts), Runs(Initial(), acts + [Go(t, ok, id)] + more);
      var pc, pc' := PcOf(s.pc, t), PcOf(z.pc, u);
      && pc'.Delivering? && pc'.msg == pc.msg && NewIn(z, pc'.task, id')
      && |GaveOf(z.ms.gave, pc.msg)| - |CargoOf(z.ms.cargo, pc.msg)| - 1 == |GaveOf(s.ms.gave, pc.msg)|
    ensures var s, z := Runs(Initial(), acts), Runs(Initial(), acts + [Go(t, ok, id)] + more);
      var pc, task' := PcOf(s.pc, t), PcOf(z.pc, u).task;
      var z' := Step(z, Go(u, true, id'));
      && LiveIn(z', task', id') && ItemIn(z', task', id') == ItemIn(s, pc.task, pc.todo[0])
      && |GaveOf(s.ms.gave, pc.msg)| < |CargoOf(z.ms.asked, pc.msg)|
      && pc.todo[0] == CargoOf(z.ms.asked, pc.msg)[|GaveOf(s.ms.gave, pc.msg)|]
  {
    var first := acts + [Go(t, ok, id)];
    var s, s1, z := Runs(Initial(), acts), Runs(Initial(), first), Runs(Initial(), first + more);
    var m := PcOf(s.pc, t).msg;
    RunKeeps(acts);
    RunCourse(acts);
    assert first[..|acts|] == acts && s1 == Step(s, Go(t, ok, id)) == Took(s, t);
    assert ThreadOk(s, t) && CourseOk(s, t);
    StoryLasts(first, more, m);
    RunCourse(first + more);
    assert CourseOk(z, u);
  }

  /** A queued message holds an entry for every id its sender named, in the order named. */
  lemma AllThatWasAsked(acts: seq<Action>, e: End, m: nat)
    requires m in ListOf(Runs(Initial(), acts).cs.inbound, e)
    ensures var s := Runs(Initial(), acts);
      && |CargoOf(s.ms.cargo, m)| == |CargoOf(s.ms.asked, m)| == |GaveOf(s.ms.gave, m)|
      && Matches(s, CargoOf(s.ms.cargo, m), GaveOf(s.ms.gave, m), 0)
  {
    var s := Runs(Initial(), acts);
    RunKeeps(acts);
    RunCourse(acts);
    assert QueueOk(s, e) && WholeOk(s, m);
  }

  // ---------------------------------------------------------------- what a step adds

  /** Only a new handle, a new pair and a send add to what there is. */
  lemma StepWithin(s: State, a: Action)
    requires Inv(s)
    ensures var s' := Step(s, a);
      && (forall n: nat | n in s'.hs.place ::
         n in s.hs.place || (a.Mint? && n == a.tag) || (a.NewPair? && n in {a.tag, a.tag'}))
      && (forall m: nat | !StageOf(s'.ms.stage, m).Unused? ::
         !StageOf(s.ms.stage, m).Unused? || (a.Send? && m == a.msg))
      && (forall p: nat | p in s'.cs.made :: p in s.cs.made || (a.NewPair? && p == a.pair))
  {
    if a.Go? { GoWithin(s, a.thread, a.ok, a.id); }
    else if a.Receive? { ReceiveWithin(s, a); }
    else if a.CloseHandle? { assert EntryOk(s, a.task, a.id); }
    else if a.Bury? {
      if CargoOf(s.ms.cargo, a.msg) != [] { assert EntryOk(s, KERNEL, CargoOf(s.ms.cargo, a.msg)[0]); }
    }
    else if a.Discard? { DiscardWithin(s, a.end); }
  }

  lemma DiscardWithin(s: State, e: End)
    requires Inv(s)
    ensures var s' := DiscardNext(s, e);
      && s'.hs == s.hs && s'.cs.made == s.cs.made
      && forall m: nat | !StageOf(s'.ms.stage, m).Unused? :: !StageOf(s.ms.stage, m).Unused?
  {
    var q := ListOf(s.cs.inbound, e);
    assert QueueOk(s, e);
    if q != [] { assert q[0] in q; }
  }

  lemma ReceiveWithin(s: State, a: Action)
    requires Inv(s) && a.Receive?
    ensures var s' := Step(s, a);
      && s'.hs == s.hs && s'.cs.made == s.cs.made
      && forall m: nat | !StageOf(s'.ms.stage, m).Unused? :: !StageOf(s.ms.stage, m).Unused?
  {
    if PcOf(s.pc, a.thread).Idle? && Holds(s, a.task, a.via, {READ}) {
      var e := ViaEnd(s, a.task, a.via, {READ});
      assert QueueOk(s, e);
      if ListOf(s.cs.inbound, e) != [] { assert ListOf(s.cs.inbound, e)[0] in ListOf(s.cs.inbound, e); }
    }
  }

  lemma GoWithin(s: State, t: nat, ok: bool, id: HandleId)
    requires Inv(s)
    ensures var s' := Advance(s, t, ok, id);
      && (forall n: nat | n in s'.hs.place :: n in s.hs.place) && s'.cs.made == s.cs.made
      && forall m: nat | !StageOf(s'.ms.stage, m).Unused? :: !StageOf(s.ms.stage, m).Unused?
  {
    var pc := PcOf(s.pc, t);
    assert ThreadOk(s, t);
    if pc.Staging? && pc.todo != [] { assert EntryOk(s, pc.task, pc.todo[0]); }
    if pc.Unpacking? && CargoOf(s.ms.cargo, pc.msg) != [] { assert EntryOk(s, KERNEL, CargoOf(s.ms.cargo, pc.msg)[0]); }
  }
}
