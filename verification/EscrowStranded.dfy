/** Two runs that end with nobody busy and no task holding anything, and with handles queued for good. */
module EscrowStranded {

  import opened Basics
  import opened Escrow
  import opened EscrowTheorems
  import opened EscrowReach
  import opened EscrowReceive
  import opened EscrowWatch
  import opened EscrowKnot
  import HandleTable

  // ---------------------------------------------------------------- two channels that carry each other

  function Id(n: nat): HandleId { HandleTable.HandleId(n, 0) }

  /** channel_send with one handle, start to finish. */
  function SendOne(task: nat, via: HandleId, m: nat, id: HandleId, kid: HandleId): seq<Action> {
    [Send(0, task, via, m, [id]), Go(0, true, kid), Go(0, true, kid), Go(0, true, kid), Go(0, true, kid)]
  }

  /** One handle goes from a task's table into a new message at the end of the peer's queue. */
  ghost predicate SentOne(s: State, s': State, task: nat, to: End, m: nat, id: HandleId, kid: HandleId) {
    && LiveIn(s, task, id) && task != KERNEL
    && s'.hs.tabs == s.hs.tabs[task := Tab(TabOf(s.hs.tabs, task).live - {id}, TabOf(s.hs.tabs, task).issued)]
                              [KERNEL := Tab(TabOf(s.hs.tabs, KERNEL).live[kid := ItemIn(s, task, id)],
                                  TabOf(s.hs.tabs, KERNEL).issued + {kid})]
    && s'.ms.cargo == s.ms.cargo[m := [kid]] && s'.ms.stage[m := Unused] == s.ms.stage[m := Unused]
    && StageOf(s'.ms.stage, m) == Queued(to)
    && s'.cs.inbound == s.cs.inbound[to := ListOf(s.cs.inbound, to) + [m]] && s'.cs.made == s.cs.made
    && s'.cs.dead == s.cs.dead
    && (forall t: nat :: PcOf(s'.pc, t) == PcOf(s.pc, t))
  }

  lemma SendOneWorks(s: State, task: nat, via: HandleId, m: nat, id: HandleId, kid: HandleId)
    requires PcOf(s.pc, 0).Idle? && StageOf(s.ms.stage, m).Unused? && CargoOf(s.ms.cargo, m) == []
    requires Holds(s, task, via, {WRITE, TRANSFER})
    requires LiveIn(s, task, id) && NewIn(s, KERNEL, kid)
    requires var e, x := ViaEnd(s, task, via, {WRITE, TRANSFER}), EndAt(ItemIn(s, task, id).cap.target);
      (x.Some? ==> x.value.pair != e.pair) && Peer(e) !in s.cs.dead && |ListOf(s.cs.inbound, Peer(e))| < QUEUE_DEPTH
    ensures SentOne(s, Runs(s, SendOne(task, via, m, id, kid)), task, Peer(ViaEnd(s, task, via, {WRITE, TRANSFER})), m,
      id, kid)
  {
    var e := ViaEnd(s, task, via, {WRITE, TRANSFER});
    var s1 := StartSend(s, 0, e, task, m, [id]);
    var s2 := Took(s1, 0);
    var s3 := Stowed(s2, 0, kid);
    var s4 := Goto(s3, 0, Writing(e, m));
    SendOneBegins(s, task, via, m, id, kid);
    SendOneMay(s, task, via, m, id, kid);
    WriteStep(s4, kid);
    var a, b := [Send(0, task, via, m, [id]), Go(0, true, kid)], [Go(0, true, kid), Go(0, true, kid)];
    RunsThree(s, a, b, Go(0, true, kid));
    assert SendOne(task, via, m, id, kid) == a + b + [Go(0, true, kid)];
    SendOneEnds(s, task, via, m, id, kid);
  }

  lemma WriteStep(s: State, kid: HandleId)
    requires PcOf(s.pc, 0).Writing?
    requires var pc := PcOf(s.pc, 0); var to := Peer(pc.end);
      !Carries(s, pc.msg, pc.end.pair) && to !in s.cs.dead && |ListOf(s.cs.inbound, to)| < QUEUE_DEPTH
    ensures Step(s, Go(0, true, kid)) == Enqueue(s, 0)
  {
  }

  lemma RunsThree(s: State, a: seq<Action>, b: seq<Action>, c: Action)
    ensures Runs(s, a + b + [c]) == Step(Runs(Runs(s, a), b), c)
  {
    RunsAppend(s, a, b);
    RunsAppend(s, a + b, [c]);
    RunsOne(Runs(s, a + b), c);
  }

  lemma SendOneMay(s: State, task: nat, via: HandleId, m: nat, id: HandleId, kid: HandleId)
    requires CargoOf(s.ms.cargo, m) == [] && Holds(s, task, via, {WRITE, TRANSFER}) && LiveIn(s, task, id)
    requires var e, x := ViaEnd(s, task, via, {WRITE, TRANSFER}), EndAt(ItemIn(s, task, id).cap.target);
      x.Some? ==> x.value.pair != e.pair
    ensures var e := ViaEnd(s, task, via, {WRITE, TRANSFER});
      var s4 := Goto(Stowed(Took(StartSend(s, 0, e, task, m, [id]), 0), 0, kid), 0, Writing(e, m));
      s4.cs == s.cs && !Carries(s4, m, e.pair)
  {
    var e := ViaEnd(s, task, via, {WRITE, TRANSFER});
    var s2 := Took(StartSend(s, 0, e, task, m, [id]), 0);
    var s3 := Stowed(s2, 0, kid);
    assert CargoOf(s2.ms.cargo, m) + [kid] == [kid];
    assert CargoOf(s3.ms.cargo, m) == [kid] && ItemIn(s3, KERNEL, kid) == ItemIn(s, task, id);
  }

  lemma SendOneEnds(s: State, task: nat, via: HandleId, m: nat, id: HandleId, kid: HandleId)
    requires PcOf(s.pc, 0).Idle? && CargoOf(s.ms.cargo, m) == [] && Holds(s, task, via, {WRITE, TRANSFER})
    requires LiveIn(s, task, id)
    ensures var e := ViaEnd(s, task, via, {WRITE, TRANSFER});
      var s4 := Goto(Stowed(Took(StartSend(s, 0, e, task, m, [id]), 0), 0, kid), 0, Writing(e, m));
      SentOne(s, Enqueue(s4, 0), task, Peer(e), m, id, kid)
  {
    var e := ViaEnd(s, task, via, {WRITE, TRANSFER});
    var s2 := Took(StartSend(s, 0, e, task, m, [id]), 0);
    var s4 := Goto(Stowed(s2, 0, kid), 0, Writing(e, m));
    assert TabOf(s2.hs.tabs, KERNEL) == TabOf(s.hs.tabs, KERNEL);
    var z := Enqueue(s4, 0);
    assert CargoOf(s2.ms.cargo, m) + [kid] == [kid];
    assert z.ms.stage[m := Unused] == s.ms.stage[m := Unused];
    assert z.ms.cargo == s.ms.cargo[m := [kid]];
    assert TabOf(s2.hs.tabs, task).live == TabOf(s.hs.tabs, task).live - {id};
  }

  lemma SendOneBegins(s: State, task: nat, via: HandleId, m: nat, id: HandleId, kid: HandleId)
    requires PcOf(s.pc, 0).Idle? && StageOf(s.ms.stage, m).Unused? && Holds(s, task, via, {WRITE, TRANSFER})
    requires LiveIn(s, task, id) && NewIn(s, KERNEL, kid)
    ensures var e := ViaEnd(s, task, via, {WRITE, TRANSFER});
      var s2 := Took(StartSend(s, 0, e, task, m, [id]), 0);
      && Runs(s, [Send(0, task, via, m, [id]), Go(0, true, kid)]) == s2 && PcOf(s2.pc, 0).Moving?
      && Runs(s2, [Go(0, true, kid), Go(0, true, kid)]) == Goto(Stowed(s2, 0, kid), 0, Writing(e, m))
  {
    var e := ViaEnd(s, task, via, {WRITE, TRANSFER});
    var s1 := StartSend(s, 0, e, task, m, [id]);
    var s2 := Took(s1, 0);
    var s3 := Stowed(s2, 0, kid);
    assert Step(s, Send(0, task, via, m, [id])) == s1;
    assert Step(s1, Go(0, true, kid)) == s2 && PcOf(s2.pc, 0).Moving?;
    assert Step(s2, Go(0, true, kid)) == s3 && PcOf(s3.pc, 0).todo == [];
    assert Step(s3, Go(0, true, kid)) == Goto(s3, 0, Writing(e, m));
    RunsTwo(s, Send(0, task, via, m, [id]), Go(0, true, kid));
    RunsTwo(s2, Go(0, true, kid), Go(0, true, kid));
  }

  const A0 := End(0, false)
  const A1 := End(0, true)
  const B0 := End(1, false)
  const B1 := End(1, true)

  function MakeBoth(): seq<Action> { [NewPair(1, 0, Id(0), Id(1), 0, 1), NewPair(1, 1, Id(2), Id(3), 2, 3)] }

  function SendBoth(): seq<Action> { SendOne(1, Id(2), 0, Id(0), Id(0)) + SendOne(1, Id(1), 1, Id(3), Id(1)) }

  function CloseBoth(): seq<Action> { [CloseHandle(1, Id(1)), CloseHandle(1, Id(2))] }

  function DestroyBoth(): seq<Action> { [Destroy(A1), Destroy(B0)] }

  /** A task makes two pairs, sends A0 over B0 and B1 over A1, and closes what it has left. */
  function CrossRun(): seq<Action> { MakeBoth() + SendBoth() + CloseBoth() + DestroyBoth() }

  /** The n-th handle that task 1 gets. */
  function Nth(n: nat): Item { EndItem(n, End(n / 2, n % 2 == 1)) }

  /** Task 1 has these of its four handles left. */
  ghost predicate TaskHas(s: State, mine: set<HandleId>) {
    forall id: HandleId ::
        (LiveIn(s, 1, id) <==> id in mine) && (LiveIn(s, 1, id) ==> ItemIn(s, 1, id) == Nth(id.index))
  }

  /** The kernel has these of the two that are sent. */
  ghost predicate KernelHas(s: State, kernel: set<HandleId>) {
    && (forall id: HandleId :: LiveIn(s, KERNEL, id) <==> id in kernel) && TabOf(s.hs.tabs, KERNEL).issued == kernel
    && (Id(0) in kernel ==> ItemIn(s, KERNEL, Id(0)) == Nth(0)) && (Id(1) in kernel ==>
       ItemIn(s, KERNEL, Id(1)) == Nth(3))
  }

  /** And nobody else has anything, or is doing anything. */
  ghost predicate Stand(s: State, mine: set<HandleId>, kernel: set<HandleId>) {
    && TaskHas(s, mine) && KernelHas(s, kernel) && (forall t: nat, id: HandleId | t > 1 :: !LiveIn(s, t, id))
    && (forall t: nat :: PcOf(s.pc, t).Idle?) && s.cs.made == {0, 1}
  }

  lemma StandSend(s: State, s': State, to: End, m: nat, id: HandleId, kid: HandleId, mine: set<HandleId>,
                  kernel: set<HandleId>)
    requires Stand(s, mine, kernel) && SentOne(s, s', 1, to, m, id, kid) && kid !in kernel
    requires (id == Id(0) && kid == Id(0)) || (id == Id(3) && kid == Id(1))
    ensures Stand(s', mine - {id}, kernel + {kid})
  {
    TablesAfter(s, s', 1, to, m, id, kid);
    assert TaskHas(s', mine - {id});
    assert KernelHas(s', kernel + {kid});
    forall t: nat, d: HandleId | t > 1 ensures !LiveIn(s', t, d) {
      assert TabOf(s'.hs.tabs, t) == TabOf(s.hs.tabs, t) && !LiveIn(s, t, d);
    }
  }

  lemma StandClose(s: State, id: HandleId, mine: set<HandleId>, kernel: set<HandleId>)
    requires Stand(s, mine, kernel) && id in mine
    ensures LiveIn(s, 1, id) && Stand(TakeOut(s, 1, id, Closed), mine - {id}, kernel)
  {
    var s' := TakeOut(s, 1, id, Closed);
    assert TaskHas(s', mine - {id});
    assert TabOf(s'.hs.tabs, KERNEL) == TabOf(s.hs.tabs, KERNEL) && KernelHas(s', kernel);
    forall t: nat, d: HandleId | t > 1 ensures !LiveIn(s', t, d) {
      assert TabOf(s'.hs.tabs, t) == TabOf(s.hs.tabs, t) && !LiveIn(s, t, d);
    }
  }

  lemma StandDestroy(s: State, e: End, mine: set<HandleId>, kernel: set<HandleId>)
    requires Stand(s, mine, kernel)
    ensures Stand(s.(cs := s.cs.(dead := s.cs.dead + {e})), mine, kernel)
  {
    var s' := s.(cs := s.cs.(dead := s.cs.dead + {e}));
    assert TaskHas(s', mine) && KernelHas(s', kernel);
    forall t: nat, d: HandleId | t > 1 ensures !LiveIn(s', t, d) { assert !LiveIn(s, t, d); }
  }

  lemma EndNumbers()
    ensures EndAt(Nth(0).cap.target) == Some(A0) && EndAt(Nth(1).cap.target) == Some(A1)
    ensures EndAt(Nth(2).cap.target) == Some(B0) && EndAt(Nth(3).cap.target) == Some(B1)
  {
    NumberBack(A0);
    NumberBack(A1);
    NumberBack(B0);
    NumberBack(B1);
  }

  lemma BothMade()
    ensures var s := Runs(Initial(), MakeBoth());
      Stand(s, {Id(0), Id(1), Id(2), Id(3)}, {}) && s.ms == Initial().ms && s.cs.inbound == imap[] && s.cs.dead == {}
  {
    RunsTwo(Initial(), MakeBoth()[0], MakeBoth()[1]);
    FirstMade();
    SecondMade(Paired(Initial(), 1, 0, Id(0), Id(1), 0, 1));
  }

  lemma FirstMade()
    ensures MayPair(Initial(), 1, 0, Id(0), Id(1), 0, 1)
    ensures var s := Paired(Initial(), 1, 0, Id(0), Id(1), 0, 1);
      && TaskHas(s, {Id(0), Id(1)}) && TabOf(s.hs.tabs, 1).issued == {Id(0), Id(1)}
      && (forall t: nat | t != 1 :: TabOf(s.hs.tabs, t) == Tab(imap[], {}))
      && s.pc == imap[] && s.cs.made == {0} && forall n: nat | n in s.hs.place :: n < 2
  {
    var s := Paired(Initial(), 1, 0, Id(0), Id(1), 0, 1);
    assert TaskHas(s, {Id(0), Id(1)});
    forall t: nat | t != 1 ensures TabOf(s.hs.tabs, t) == Tab(imap[], {}) { assert t !in s.hs.tabs; }
  }

  lemma SecondMade(s: State)
    requires TaskHas(s, {Id(0), Id(1)}) && TabOf(s.hs.tabs, 1).issued == {Id(0), Id(1)}
    requires forall t: nat | t != 1 :: TabOf(s.hs.tabs, t) == Tab(imap[], {})
    requires s.pc == imap[] && s.cs.made == {0} && forall n: nat | n in s.hs.place :: n < 2
    ensures MayPair(s, 1, 1, Id(2), Id(3), 2, 3)
    ensures Stand(Paired(s, 1, 1, Id(2), Id(3), 2, 3), {Id(0), Id(1), Id(2), Id(3)}, {})
  {
    var s' := Paired(s, 1, 1, Id(2), Id(3), 2, 3);
    assert TaskHas(s', {Id(0), Id(1), Id(2), Id(3)});
    forall t: nat | t != 1 ensures TabOf(s'.hs.tabs, t) == Tab(imap[], {}) {
      assert TabOf(s'.hs.tabs, t) == TabOf(s.hs.tabs, t);
    }
    assert KernelHas(s', {});
  }

  /** A0 waits for B1, and B1 for A0. */
  ghost predicate Crossed(s: State) {
    FirstWaits(s) && SecondWaits(s) && forall m: nat | m > 1 :: StageOf(s.ms.stage, m).Unused?
  }

  ghost predicate FirstWaits(s: State) {
    ListOf(s.cs.inbound, B1) == [0] && CargoOf(s.ms.cargo, 0) == [Id(0)] && StageOf(s.ms.stage, 0) == Queued(B1)
  }

  ghost predicate SecondWaits(s: State) {
    ListOf(s.cs.inbound, A0) == [1] && CargoOf(s.ms.cargo, 1) == [Id(1)] && StageOf(s.ms.stage, 1) == Queued(A0)
  }

  lemma FirstSent()
    ensures var s := Runs(Initial(), MakeBoth() + SendOne(1, Id(2), 0, Id(0), Id(0)));
      && Stand(s, {Id(1), Id(2), Id(3)}, {Id(0)}) && FirstWaits(s) && s.cs.dead == {} && ListOf(s.cs.inbound, A0) == []
      && forall m: nat | m > 0 :: StageOf(s.ms.stage, m).Unused? && CargoOf(s.ms.cargo, m) == []
  {
    BothMade();
    EndNumbers();
    var s := Runs(Initial(), MakeBoth());
    RunsAppend(Initial(), MakeBoth(), SendOne(1, Id(2), 0, Id(0), Id(0)));
    assert Holds(s, 1, Id(2), {WRITE, TRANSFER}) && ViaEnd(s, 1, Id(2), {WRITE, TRANSFER}) == B0;
    SendOneWorks(s, 1, Id(2), 0, Id(0), Id(0));
    AfterFirst(s, Runs(s, SendOne(1, Id(2), 0, Id(0), Id(0))));
  }

  lemma AfterFirst(s: State, s': State)
    requires Stand(s, {Id(0), Id(1), Id(2), Id(3)}, {}) && s.ms == Initial().ms && s.cs.inbound == imap[]
    requires SentOne(s, s', 1, B1, 0, Id(0), Id(0))
    ensures Stand(s', {Id(1), Id(2), Id(3)}, {Id(0)}) && FirstWaits(s') && ListOf(s'.cs.inbound, A0) == []
    ensures forall m: nat | m > 0 :: StageOf(s'.ms.stage, m).Unused? && CargoOf(s'.ms.cargo, m) == []
  {
    StageElsewhere(s, s', 0);
    StandSend(s, s', B1, 0, Id(0), Id(0), {Id(0), Id(1), Id(2), Id(3)}, {});
    assert {Id(0), Id(1), Id(2), Id(3)} - {Id(0)} == {Id(1), Id(2), Id(3)};
    assert ListOf(s.cs.inbound, B1) + [0] == [0];
  }

  lemma SecondSent()
    ensures var s := Runs(Initial(), MakeBoth() + SendBoth());
      Stand(s, {Id(1), Id(2)}, {Id(0), Id(1)}) && Crossed(s) && s.cs.dead == {}
  {
    FirstSent();
    EndNumbers();
    var first, second := SendOne(1, Id(2), 0, Id(0), Id(0)), SendOne(1, Id(1), 1, Id(3), Id(1));
    var s := Runs(Initial(), MakeBoth() + first);
    RunsAppend(Initial(), MakeBoth() + first, second);
    assert MakeBoth() + first + second == MakeBoth() + SendBoth();
    assert Holds(s, 1, Id(1), {WRITE, TRANSFER}) && ViaEnd(s, 1, Id(1), {WRITE, TRANSFER}) == A1;
    SendOneWorks(s, 1, Id(1), 1, Id(3), Id(1));
    AfterSecond(s, Runs(s, second));
  }

  lemma AfterSecond(s: State, s': State)
    requires Stand(s, {Id(1), Id(2), Id(3)}, {Id(0)}) && FirstWaits(s) && ListOf(s.cs.inbound, A0) == []
    requires forall m: nat | m > 0 :: StageOf(s.ms.stage, m).Unused?
    requires SentOne(s, s', 1, A0, 1, Id(3), Id(1))
    ensures Stand(s', {Id(1), Id(2)}, {Id(0), Id(1)}) && Crossed(s')
  {
    StageElsewhere(s, s', 1);
    StandSend(s, s', A0, 1, Id(3), Id(1), {Id(1), Id(2), Id(3)}, {Id(0)});
    assert {Id(1), Id(2), Id(3)} - {Id(3)} == {Id(1), Id(2)} && {Id(0)} + {Id(1)} == {Id(0), Id(1)};
    assert ListOf(s.cs.inbound, A0) + [1] == [1];
  }

  lemma TablesAfter(s: State, s': State, task: nat, to: End, m: nat, id: HandleId, kid: HandleId)
    requires SentOne(s, s', task, to, m, id, kid)
    ensures TabOf(s'.hs.tabs, task).live == TabOf(s.hs.tabs, task).live - {id}
    ensures TabOf(s'.hs.tabs, KERNEL).live == TabOf(s.hs.tabs, KERNEL).live[kid := ItemIn(s, task, id)]
    ensures TabOf(s'.hs.tabs, KERNEL).issued == TabOf(s.hs.tabs, KERNEL).issued + {kid}
    ensures forall v: nat | v != task && v != KERNEL :: TabOf(s'.hs.tabs, v) == TabOf(s.hs.tabs, v)
  {
  }

  lemma StageElsewhere(s: State, s': State, m: nat)
    requires s'.ms.stage[m := Unused] == s.ms.stage[m := Unused]
    ensures forall n: nat | n != m :: StageOf(s'.ms.stage, n) == StageOf(s.ms.stage, n)
  {
    forall n: nat | n != m ensures StageOf(s'.ms.stage, n) == StageOf(s.ms.stage, n) {
      assert n in s'.ms.stage <==> n in s'.ms.stage[m := Unused];
      assert n in s.ms.stage <==> n in s.ms.stage[m := Unused];
      if n in s.ms.stage { assert s'.ms.stage[m := Unused][n] == s.ms.stage[m := Unused][n]; }
    }
  }

  lemma BothClosed()
    ensures var s := Runs(Initial(), MakeBoth() + SendBoth() + CloseBoth());
      Stand(s, {}, {Id(0), Id(1)}) && Crossed(s) && s.cs.dead == {}
  {
    SecondSent();
    var s := Runs(Initial(), MakeBoth() + SendBoth());
    RunsAppend(Initial(), MakeBoth() + SendBoth(), CloseBoth());
    RunsTwo(s, CloseHandle(1, Id(1)), CloseHandle(1, Id(2)));
    StandClose(s, Id(1), {Id(1), Id(2)}, {Id(0), Id(1)});
    assert {Id(1), Id(2)} - {Id(1)} == {Id(2)};
    var s1 := TakeOut(s, 1, Id(1), Closed);
    StandClose(s1, Id(2), {Id(2)}, {Id(0), Id(1)});
    assert {Id(2)} - {Id(2)} == {};
  }

  lemma BothDestroyed()
    ensures var s := Runs(Initial(), CrossRun()); Stand(s, {}, {Id(0), Id(1)}) && Crossed(s) && s.cs.dead == {A1, B0}
  {
    BothClosed();
    EndNumbers();
    var s := Runs(Initial(), MakeBoth() + SendBoth() + CloseBoth());
    RunsAppend(Initial(), MakeBoth() + SendBoth() + CloseBoth(), DestroyBoth());
    RunsTwo(s, Destroy(A1), Destroy(B0));
    LastGone(s, A1);
    StandDestroy(s, A1, {}, {Id(0), Id(1)});
    var s1 := Step(s, Destroy(A1));
    assert s1 == s.(cs := s.cs.(dead := s.cs.dead + {A1}));
    LastGone(s1, B0);
    StandDestroy(s1, B0, {}, {Id(0), Id(1)});
  }

  lemma LastGone(s: State, e: End)
    requires Stand(s, {}, {Id(0), Id(1)}) && (e == A1 || e == B0)
    ensures Unreferenced(s, e)
  {
    EndNumbers();
  }

  /** No queue holds an endpoint of its own pair, so each of a knot of two is in the other's. */
  lemma TwoTied(w: World, k: iset<End>, e: End, f: End)
    requires Whole(w) && Knot(w, k, k, iset{}) && e in k && forall g: End | g in k :: g == e || g == f
    ensures Leads(w.s, f, e)
  {
    var s := w.s;
    assert Tied(w, k, k, iset{}, NumberOf(e));
    var g: End :| Ties(k, k, g) && Fetches(s, g, NumberOf(e));
    LeadsBack(s, g, e);
    var m: nat, id: HandleId :| m in ListOf(s.cs.inbound, g) && id in CargoOf(s.ms.cargo, m)
        && Carried(s, id) == Some(e);
    assert QueueOk(s, g) && Carries(s, m, e.pair);
  }

  /** No thread is busy, no message is dying, and no task holds anything. */
  ghost predicate AtRest(s: State) {
    && (forall t: nat :: PcOf(s.pc, t).Idle?) && (forall m: nat :: !StageOf(s.ms.stage, m).Dying?)
    && (forall t: nat, id: HandleId | t != KERNEL :: !LiveIn(s, t, id))
  }

  /** In no task's table, and not destroyed. */
  ghost predicate Untouched(s: State, e: End) { !InTable(s, e) && e !in s.cs.dead }

  /** A run in which no thread is left busy, nothing is dying and no task holds anything, and two handles
      wait on each other's queues. Whatever happens next, neither ever reaches a task and neither is ever
      closed: the two endpoints and their messages are there for good. */
  lemma CrossedForEver(more: seq<Act>)
    ensures var s := Turns(Start(), Lift(CrossRun())).s; AtRest(s) && WaitsOn(s, B1, 0) && WaitsOn(s, A0, 3)
    ensures var z := Turns(Turns(Start(), Lift(CrossRun())), more).s;
      Untouched(z, A0) && Untouched(z, B1) && Leads(z, A0, B1) && Leads(z, B1, A0)
  {
    CrossedHere();
    CrossedStays(Turns(Start(), Lift(CrossRun())), more);
  }

  lemma CrossedHere()
    ensures var w := Turns(Start(), Lift(CrossRun()));
      Whole(w) && w.ps == NONE && Stand(w.s, {}, {Id(0), Id(1)}) && Crossed(w.s)
  {
    BothDestroyed();
    NothingMinted();
    LiftRuns(Start(), CrossRun());
    TurnsFromStart(Lift(CrossRun()));
  }

  lemma NothingMinted()
    ensures forall a | a in CrossRun() :: !a.Mint?
  {
    assert forall a | a in SendBoth() :: !a.Mint?;
  }

  lemma CrossedRests(s: State)
    requires Stand(s, {}, {Id(0), Id(1)}) && Crossed(s)
    ensures AtRest(s)
  {
    forall m: nat ensures !StageOf(s.ms.stage, m).Dying? { assert m == 0 || m == 1 || m > 1; }
  }

  lemma CrossedStays(w: World, more: seq<Act>)
    requires Whole(w) && w.ps == NONE && Stand(w.s, {}, {Id(0), Id(1)}) && Crossed(w.s)
    ensures AtRest(w.s) && WaitsOn(w.s, B1, 0) && WaitsOn(w.s, A0, 3)
    ensures var z := Turns(w, more).s; Untouched(z, A0) && Untouched(z, B1) && Leads(z, A0, B1) && Leads(z, B1, A0)
  {
    var k, z := iset{A0, B1}, Turns(w, more);
    CrossedRests(w.s);
    CrossedIsKnot(w);
    KnotForEver(w, more, k, k, iset{});
    SealedUnheld(z.s, k, PortTags(z.s, iset{}), A0);
    SealedUnheld(z.s, k, PortTags(z.s, iset{}), B1);
    TurnsKeep(w, more);
    TwoTied(z, k, A0, B1);
    TwoTied(z, k, B1, A0);
  }

  lemma CrossedIsKnot(w: World)
    requires Whole(w) && w.ps == NONE && Stand(w.s, {}, {Id(0), Id(1)}) && Crossed(w.s)
    ensures WaitsOn(w.s, B1, 0) && WaitsOn(w.s, A0, 3) && Knot(w, iset{A0, B1}, iset{A0, B1}, iset{})
  {
    CrossedTied(w);
    CrossedSealed(w.s);
    TwoMakeKnot(w, iset{A0, B1});
  }

  lemma TwoMakeKnot(w: World, k: iset<End>)
    requires Sealed(w.s, k, iset{}) && k == iset{A0, B1}
    requires Tied(w, k, k, iset{}, NumberOf(A0)) && Tied(w, k, k, iset{}, NumberOf(B1))
    ensures Knot(w, k, k, iset{})
  {
    NoTags(w.s);
  }

  lemma NoTags(s: State)
    ensures PortTags(s, iset{}) == iset{}
  {
  }

  lemma CrossedSealed(s: State)
    requires Inv(s) && Stand(s, {}, {Id(0), Id(1)}) && Crossed(s)
    ensures Sealed(s, iset{A0, B1}, iset{})
  {
    EndNumbers();
    var k := iset{A0, B1};
    forall t: nat, id: HandleId ensures SealedAt(s, k, iset{}, t, id) {
      assert EscrowOk(s, id) && MessageOk(s, 0) && MessageOk(s, 1);
    }
    forall t: nat ensures HandClear(s, k, iset{}, t) { }
  }

  lemma CrossedTied(w: World)
    requires Stand(w.s, {}, {Id(0), Id(1)}) && Crossed(w.s)
    ensures WaitsOn(w.s, B1, 0) && WaitsOn(w.s, A0, 3)
    ensures var k := iset{A0, B1}; Tied(w, k, k, iset{}, NumberOf(A0)) && Tied(w, k, k, iset{}, NumberOf(B1))
  {
    var s := w.s;
    EndNumbers();
    var k := iset{A0, B1};
    assert 0 in ListOf(s.cs.inbound, B1) && Id(0) in CargoOf(s.ms.cargo, 0) && Under(s, 0, KERNEL, Id(0));
    assert 1 in ListOf(s.cs.inbound, A0) && Id(1) in CargoOf(s.ms.cargo, 1) && Under(s, 3, KERNEL, Id(1));
    assert Carried(s, Id(0)) == Some(A0) && Carried(s, Id(1)) == Some(B1);
    assert Leads(s, B1, A0) && Leads(s, A0, B1);
    LeadsBack(s, B1, A0);
    LeadsBack(s, A0, B1);
    assert Ties(k, k, B1) && Ties(k, k, A0);
  }

  // ---------------------------------------------------------------- a port that ties one

  const PORT := HandleTable.Capability(PortNumber(0), PORT_RIGHTS)

  const WATCH := Bond(0, 9, NumberOf(A0))

  const WATCHING := Ports({0}, {}, {WATCH}, {}, map[])

  /** A task makes a pair and a port, */
  function Opening(): seq<Act> { [Base(NewPair(1, 0, Id(0), Id(1), 0, 1)), Base(Mint(1, Id(2), 2, PORT))] }

  /** binds A0 to the port, */
  function Watching(): seq<Act> {
    [Port(BindPort(0, 1, Id(2))), Port(BindObject(0, Id(0))), Port(BindEnd(0, 9)), Port(Return(0))]
  }

  /** sends the port over A1, and closes what it has left. */
  function Leaving(): seq<Action> {
    SendOne(1, Id(1), 0, Id(2), Id(0)) + [CloseHandle(1, Id(0)), CloseHandle(1, Id(1))]
  }

  function WatchRun(): seq<Act> { Opening() + Watching() + Lift(Leaving()) }

  function Its(n: nat): Item { if n == 2 then Item(2, PORT) else Nth(n) }

  ghost predicate Mine(s: State, mine: set<HandleId>) {
    forall id: HandleId ::
        (LiveIn(s, 1, id) <==> id in mine) && (LiveIn(s, 1, id) ==> ItemIn(s, 1, id) == Its(id.index))
  }

  ghost predicate Kernels(s: State, kernel: set<HandleId>) {
    && (forall id: HandleId :: LiveIn(s, KERNEL, id) <==> id in kernel) && TabOf(s.hs.tabs, KERNEL).issued == kernel
    && (Id(0) in kernel ==> ItemIn(s, KERNEL, Id(0)) == Its(2))
  }

  /** Task 1 has these of its three handles, the kernel these, and nobody else has or does anything. */
  ghost predicate Setting(s: State, mine: set<HandleId>, kernel: set<HandleId>) {
    && Mine(s, mine) && Kernels(s, kernel) && (forall t: nat, id: HandleId | t > 1 :: !LiveIn(s, t, id))
    && (forall t: nat :: PcOf(s.pc, t).Idle?) && s.cs.made == {0}
  }

  lemma Opened()
    ensures var w := Turns(Start(), Opening());
      && w.ps == NONE.(made := {0}) && Setting(w.s, {Id(0), Id(1), Id(2)}, {}) && w.s.ms == Initial().ms
      && w.s.cs.inbound == imap[] && w.s.cs.dead == {}
  {
    FirstMade();
    var s := Paired(Initial(), 1, 0, Id(0), Id(1), 0, 1);
    TurnsTwo(Start(), Opening()[0], Opening()[1]);
    assert Turn(Start(), Opening()[0]) == World(s, NONE);
    PortBack(0);
    PortMade(s);
    assert NONE.made + {0} == {0};
  }

  lemma PortMade(s: State)
    requires TaskHas(s, {Id(0), Id(1)}) && TabOf(s.hs.tabs, 1).issued == {Id(0), Id(1)}
    requires forall t: nat | t != 1 :: TabOf(s.hs.tabs, t) == Tab(imap[], {})
    requires s.pc == imap[] && s.cs.made == {0} && forall n: nat | n in s.hs.place :: n < 2
    ensures MayMint(s, 1, Id(2), 2, PORT) && Setting(Born(s, 1, Id(2), Item(2, PORT)), {Id(0), Id(1), Id(2)}, {})
  {
    var s' := Born(s, 1, Id(2), Item(2, PORT));
    PortBack(0);
    forall t: nat | t != 1 ensures TabOf(s'.hs.tabs, t) == Tab(imap[], {}) {
      assert TabOf(s'.hs.tabs, t) == TabOf(s.hs.tabs, t);
    }
    assert Mine(s', {Id(0), Id(1), Id(2)}) && Kernels(s', {});
  }

  lemma FoundPort(w: World)
    requires w.ps == NONE.(made := {0}) && LiveIn(w.s, 1, Id(2)) && ItemIn(w.s, 1, Id(2)).cap == PORT
    ensures Turn(w, Port(BindPort(0, 1, Id(2)))) == World(w.s, Calls(w.ps, 0, Binding(1, 0, None)))
  {
    PortBack(0);
  }

  lemma FoundObject(w: World)
    requires w.ps == NONE.(made := {0}, calls := map[0 := Binding(1, 0, None)]) && LiveIn(w.s, 1, Id(0))
    requires ItemIn(w.s, 1, Id(0)) == Nth(0)
    ensures Turn(w, Port(BindObject(0, Id(0)))) == World(w.s, Calls(w.ps, 0, Binding(1, 0, Some(NumberOf(A0)))))
  {
  }

  lemma Found(w: World)
    requires w.ps == NONE.(made := {0}) && Setting(w.s, {Id(0), Id(1), Id(2)}, {})
    ensures Turns(w, [Port(BindPort(0, 1, Id(2))), Port(BindObject(0, Id(0)))])
      == World(w.s, Calls(w.ps, 0, Binding(1, 0, Some(NumberOf(A0)))))
  {
    assert LiveIn(w.s, 1, Id(2)) && LiveIn(w.s, 1, Id(0));
    FoundPort(w);
    FoundObject(Turn(w, Port(BindPort(0, 1, Id(2)))));
    TurnsTwo(w, Port(BindPort(0, 1, Id(2))), Port(BindObject(0, Id(0))));
  }

  lemma BoundNow(w: World)
    requires w.ps == NONE.(made := {0}, calls := map[0 := Binding(1, 0, Some(NumberOf(A0)))])
    ensures Turns(w, [Port(BindEnd(0, 9)), Port(Return(0))]) == World(w.s, WATCHING)
  {
    TurnsTwo(w, Port(BindEnd(0, 9)), Port(Return(0)));
    assert {} + {WATCH} == {WATCH};
  }

  lemma Watched(w: World)
    requires w.ps == NONE.(made := {0}) && Setting(w.s, {Id(0), Id(1), Id(2)}, {})
    ensures Turns(w, Watching()) == World(w.s, WATCHING)
  {
    var a, b := [Port(BindPort(0, 1, Id(2))), Port(BindObject(0, Id(0)))], [Port(BindEnd(0, 9)), Port(Return(0))];
    assert Watching() == a + b;
    Found(w);
    BoundNow(Turns(w, a));
    TurnsAppend(w, a, b);
  }

  lemma Sent(s: State)
    requires Setting(s, {Id(0), Id(1), Id(2)}, {}) && s.ms == Initial().ms && s.cs.inbound == imap[] && s.cs.dead == {}
    ensures var s' := Runs(s, SendOne(1, Id(1), 0, Id(2), Id(0)));
      && Setting(s', {Id(0), Id(1)}, {Id(0)}) && ListOf(s'.cs.inbound, A0) == [0] && CargoOf(s'.ms.cargo, 0) == [Id(0)]
      && StageOf(s'.ms.stage, 0) == Queued(A0) && forall m: nat | m > 0 :: StageOf(s'.ms.stage, m).Unused?
  {
    var s' := Runs(s, SendOne(1, Id(1), 0, Id(2), Id(0)));
    EndNumbers();
    PortBack(0);
    assert LiveIn(s, 1, Id(1)) && LiveIn(s, 1, Id(2));
    assert Holds(s, 1, Id(1), {WRITE, TRANSFER}) && ViaEnd(s, 1, Id(1), {WRITE, TRANSFER}) == A1;
    SendOneWorks(s, 1, Id(1), 0, Id(2), Id(0));
    StageElsewhere(s, s', 0);
    SentSetting(s, s');
    assert ListOf(s.cs.inbound, A0) + [0] == [0];
  }

  lemma SentSetting(s: State, s': State)
    requires Setting(s, {Id(0), Id(1), Id(2)}, {}) && SentOne(s, s', 1, A0, 0, Id(2), Id(0))
    ensures Setting(s', {Id(0), Id(1)}, {Id(0)})
  {
    TablesAfter(s, s', 1, A0, 0, Id(2), Id(0));
    assert {Id(0), Id(1), Id(2)} - {Id(2)} == {Id(0), Id(1)};
    forall id: HandleId ensures LiveIn(s', 1, id) <==> LiveIn(s, 1, id) && id != Id(2) {}
    assert Mine(s', {Id(0), Id(1)}) && Kernels(s', {Id(0)});
    forall t: nat, d: HandleId | t > 1 ensures !LiveIn(s', t, d) {
      assert TabOf(s'.hs.tabs, t) == TabOf(s.hs.tabs, t) && !LiveIn(s, t, d);
    }
  }

  lemma SettingClose(s: State, id: HandleId, mine: set<HandleId>)
    requires Setting(s, mine, {Id(0)}) && id in mine
    ensures LiveIn(s, 1, id) && Setting(TakeOut(s, 1, id, Closed), mine - {id}, {Id(0)})
  {
    var s' := TakeOut(s, 1, id, Closed);
    assert Mine(s', mine - {id});
    assert TabOf(s'.hs.tabs, KERNEL) == TabOf(s.hs.tabs, KERNEL) && Kernels(s', {Id(0)});
    forall t: nat, d: HandleId | t > 1 ensures !LiveIn(s', t, d) {
      assert TabOf(s'.hs.tabs, t) == TabOf(s.hs.tabs, t) && !LiveIn(s, t, d);
    }
  }

  /** The port's handle waits on A0's queue, and the port watches A0. */
  ghost predicate SelfKept(s: State) {
    && Setting(s, {}, {Id(0)}) && ListOf(s.cs.inbound, A0) == [0] && CargoOf(s.ms.cargo, 0) == [Id(0)]
    && StageOf(s.ms.stage, 0) == Queued(A0) && forall m: nat | m > 0 :: StageOf(s.ms.stage, m).Unused?
  }

  lemma HasLeft(s: State)
    requires Setting(s, {Id(0), Id(1), Id(2)}, {}) && s.ms == Initial().ms && s.cs.inbound == imap[] && s.cs.dead == {}
    ensures SelfKept(Runs(s, Leaving()))
  {
    var first, close := SendOne(1, Id(1), 0, Id(2), Id(0)), [CloseHandle(1, Id(0)), CloseHandle(1, Id(1))];
    Sent(s);
    var s1 := Runs(s, first);
    RunsAppend(s, first, close);
    RunsTwo(s1, close[0], close[1]);
    SettingClose(s1, Id(0), {Id(0), Id(1)});
    assert {Id(0), Id(1)} - {Id(0)} == {Id(1)} && {Id(1)} - {Id(1)} == {};
    SettingClose(TakeOut(s1, 1, Id(0), Closed), Id(1), {Id(1)});
  }

  lemma LeavingFree()
    ensures forall a | a in Leaving() :: Free(a)
  {
  }

  lemma WatchedHere()
    ensures var w := Turns(Start(), WatchRun()); Whole(w) && w.ps == WATCHING && SelfKept(w.s)
  {
    var w := Turns(Start(), Opening());
    Opened();
    Watched(w);
    HasLeft(w.s);
    LeavingFree();
    LiftRuns(World(w.s, WATCHING), Leaving());
    TurnsAppend(Start(), Opening(), Watching());
    TurnsAppend(Start(), Opening() + Watching(), Lift(Leaving()));
    TurnsFromStart(WatchRun());
  }

  lemma SelfKeptSealed(s: State)
    requires Inv(s) && SelfKept(s)
    ensures Sealed(s, iset{A0}, PortTags(s, iset{0}))
  {
    var u, g := iset{A0}, PortTags(s, iset{0});
    forall t: nat, id: HandleId ensures SealedAt(s, u, g, t, id) { assert EscrowOk(s, id) && MessageOk(s, 0); }
    forall t: nat ensures HandClear(s, u, g, t) { }
  }

  lemma SelfKeptKnot(w: World)
    requires Whole(w) && w.ps == WATCHING && SelfKept(w.s)
    ensures WaitsOn(w.s, A0, 2) && Knot(w, iset{A0}, iset{A0}, iset{0})
  {
    var s := w.s;
    SelfKeptSealed(s);
    assert 0 in ListOf(s.cs.inbound, A0) && Id(0) in CargoOf(s.ms.cargo, 0) && Under(s, 2, KERNEL, Id(0));
    assert Fetches(s, A0, PortNumber(0)) && Ties(iset{A0}, iset{A0}, A0);
    assert Firm(w.ps, WATCH);
  }

  /** A run in which no thread is left busy, nothing is dying and no task holds anything, and a port's only
      handle waits on the queue of an endpoint that the port watches. Whatever happens next, it is there for
      good, and so are the port and the endpoint. */
  lemma WatchedForEver(more: seq<Act>)
    ensures var w := Turns(Start(), WatchRun()); AtRest(w.s) && w.ps.calls == map[] && WaitsOn(w.s, A0, 2)
    ensures var z := Turns(Turns(Start(), WatchRun()), more);
      Untouched(z.s, A0) && 0 !in z.ps.dead && WaitsOn(z.s, A0, 2)
  {
    WatchedHere();
    WatchedStays(Turns(Start(), WatchRun()), more);
  }

  lemma WatchedStays(w: World, more: seq<Act>)
    requires Whole(w) && w.ps == WATCHING && SelfKept(w.s)
    ensures AtRest(w.s) && WaitsOn(w.s, A0, 2)
    ensures var z := Turns(w, more); Untouched(z.s, A0) && 0 !in z.ps.dead && WaitsOn(z.s, A0, 2)
  {
    var u, v, z := iset{A0}, iset{0}, Turns(w, more);
    SelfKeptKnot(w);
    KnotForEver(w, more, u, u, v);
    SealedUnheld(z.s, u, PortTags(z.s, v), A0);
    PortWaits(w, more);
    SelfKeptRests(w.s);
  }

  lemma SelfKeptRests(s: State)
    requires SelfKept(s)
    ensures AtRest(s)
  {
    forall m: nat ensures !StageOf(s.ms.stage, m).Dying? { assert m == 0 || m > 0; }
  }

  lemma PortWaits(w: World, more: seq<Act>)
    requires Whole(w) && SelfKept(w.s) && Knot(w, iset{A0}, iset{A0}, iset{0})
    ensures WaitsOn(Turns(w, more).s, A0, 2)
  {
    KeptForEver(w, more, iset{A0}, iset{A0}, iset{0}, A0, 0);
    assert Id(0) in CargoOf(w.s.ms.cargo, 0) && Under(Turns(w, more).s, 2, KERNEL, Id(0));
  }
}
