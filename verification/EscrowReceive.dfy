/** The other half: what can be reached can be received, by a run that walks the queues to it. */
module EscrowReceive {

  import opened Basics
  import opened Escrow
  import opened EscrowTheorems
  import opened EscrowReach
  import HandleTable

  const ANY := HandleTable.HandleId(0, 0)

  lemma {:induction false} RunsAppend(s: State, a: seq<Action>, b: seq<Action>)
    ensures Runs(s, a + b) == Runs(Runs(s, a), b)
    decreases |b|
  {
    if b == [] { assert a + b == a; }
    else {
      RunsAppend(s, a, b[..|b| - 1]);
      assert (a + b)[..|a + b| - 1] == a + b[..|b| - 1];
    }
  }

  lemma RunsOne(s: State, a: Action)
    ensures Runs(s, [a]) == Step(s, a)
  {
    assert [a][..0] == [] && Runs(s, []) == s;
  }

  /** Steps of threads that receive. */
  predicate Receives(acts: seq<Action>) {
    acts == [] || ((acts[|acts| - 1].Go? || acts[|acts| - 1].Receive?) && Receives(acts[..|acts| - 1]))
  }

  lemma {:induction false} ReceivesJoin(a: seq<Action>, b: seq<Action>)
    requires Receives(a) && Receives(b)
    ensures Receives(a + b)
    decreases |b|
  {
    if b == [] {
      assert a + b == a;
    } else {
      ReceivesJoin(a, b[..|b| - 1]);
      assert (a + b)[..|a + b| - 1] == a + b[..|b| - 1];
    }
  }

  lemma ReceivesOne(a: Action)
    requires a.Go? || a.Receive?
    ensures Receives([a])
  {
    assert [a][..0] == [];
  }

  lemma ReceivesTwo(a: Action, b: Action)
    requires (a.Go? || a.Receive?) && (b.Go? || b.Receive?)
    ensures Receives([a, b])
  {
    assert [a, b][..1] == [a];
    ReceivesOne(a);
  }

  lemma {:induction false} ReceivesAll(acts: seq<Action>, a: Action)
    requires Receives(acts) && a in acts
    ensures a.Go? || a.Receive?
  {
    if a != acts[|acts| - 1] { ReceivesAll(acts[..|acts| - 1], a); }
  }

  /** A table never runs out of ids. */
  lemma {:induction false} Bounded(issued: set<HandleId>) returns (n: nat)
    ensures forall id: HandleId | id in issued :: id.index < n
  {
    if issued == {} { n := 0; }
    else {
      var d :| d in issued;
      n := Bounded(issued - {d});
      n := if n > d.index then n else d.index + 1;
    }
  }

  lemma FreshId(s: State, t: nat) returns (id: HandleId)
    ensures NewIn(s, t, id)
  {
    var n := Bounded(TabOf(s.hs.tabs, t).issued);
    id := HandleTable.HandleId(n, 0);
  }

  /** The entry is in this task's table. */
  ghost predicate Arrived(s: State, task: nat, x: Item) {
    exists d: HandleId :: LiveIn(s, task, d) && ItemIn(s, task, d) == x
  }

  ghost predicate TasksKeep(s: State, s': State) {
    forall v: nat, d: HandleId | v != KERNEL && LiveIn(s, v, d) ::
        LiveIn(s', v, d) && ItemIn(s', v, d) == ItemIn(s, v, d)
  }

  lemma ArrivedStays(s: State, s': State, task: nat, x: Item)
    requires Arrived(s, task, x) && TasksKeep(s, s') && task != KERNEL
    ensures Arrived(s', task, x)
  {
    var d :| LiveIn(s, task, d) && ItemIn(s, task, d) == x;
    assert LiveIn(s', task, d);
  }

  /** The messages other than m, and their entries, are as they were; no handle and no endpoint is new or gone. */
  ghost predicate Kept(s: State, s': State, m: nat) {
    && TasksKeep(s, s') && ItemsKept(s, s', m) && s'.ms.owner == s.ms.owner && SameBounds(s, s')
    && forall n: nat | n != m ::
         CargoOf(s'.ms.cargo, n) == CargoOf(s.ms.cargo, n) && StageOf(s'.ms.stage, n) == StageOf(s.ms.stage, n)
  }

  ghost predicate SameBounds(s: State, s': State) {
    && SameEnds(s, s') && (forall n: nat :: n in s'.hs.place <==> n in s.hs.place)
    && forall m: nat :: StageOf(s'.ms.stage, m).Unused? <==> StageOf(s.ms.stage, m).Unused?
  }

  /** The message's handles are all in the receiver's table, and the thread is idle again. */
  ghost predicate UnpackedAll(s: State, s': State, t: nat) {
    var pc := PcOf(s.pc, t);
    && pc.Unpacking? && PcOf(s'.pc, t).Idle? && ThreadsBut(s, s', t) && s'.cs.inbound == s.cs.inbound
    && Kept(s, s', pc.msg) && StageOf(s'.ms.stage, pc.msg).Spent?
    && forall id | id in CargoOf(s.ms.cargo, pc.msg) ::
         LiveIn(s, KERNEL, id) && Arrived(s', pc.task, ItemIn(s, KERNEL, id))
  }

  /** A thread that has a message unpacks it all. */
  lemma {:induction false} UnpackAll(s: State, t: nat) returns (acts: seq<Action>)
    requires Inv(s) && PcOf(s.pc, t).Unpacking?
    ensures Receives(acts) && UnpackedAll(s, Runs(s, acts), t)
    decreases |CargoOf(s.ms.cargo, PcOf(s.pc, t).msg)|
  {
    if CargoOf(s.ms.cargo, PcOf(s.pc, t).msg) == [] {
      acts := [Go(t, true, ANY)];
      ReceivesOne(acts[0]);
      RunsOne(s, acts[0]);
      NothingToUnpack(s, t);
    } else {
      var id, s2 := UnpackOne(s, t);
      var rest := UnpackAll(s2, t);
      acts := [Go(t, true, ANY), Go(t, true, id)] + rest;
      ReceivesTwo(Go(t, true, ANY), Go(t, true, id));
      ReceivesJoin([Go(t, true, ANY), Go(t, true, id)], rest);
      RunsTwo(s, Go(t, true, ANY), Go(t, true, id));
      RunsAppend(s, [Go(t, true, ANY), Go(t, true, id)], rest);
      UnpackOn(s, s2, Runs(s2, rest), t);
    }
  }

  lemma NothingToUnpack(s: State, t: nat)
    requires Inv(s) && PcOf(s.pc, t).Unpacking? && CargoOf(s.ms.cargo, PcOf(s.pc, t).msg) == []
    ensures UnpackedAll(s, Step(s, Go(t, true, ANY)), t)
  {
    assert ThreadOk(s, t) && MessageOk(s, PcOf(s.pc, t).msg);
    SpentKeeps(s, t);
  }

  lemma RunsTwo(s: State, a: Action, b: Action)
    ensures Runs(s, [a, b]) == Step(Step(s, a), b)
  {
    RunsAppend(s, [a], [b]);
    RunsOne(s, a);
    RunsOne(Step(s, a), b);
    assert [a] + [b] == [a, b];
  }

  /** The message's first handle is in the receiver's table; all else is as it was. */
  ghost predicate TookOne(s: State, s2: State, t: nat) {
    var pc := PcOf(s.pc, t);
    && pc.Unpacking? && CargoOf(s.ms.cargo, pc.msg) != [] && PcOf(s2.pc, t) == pc && ThreadsBut(s, s2, t)
    && s2.cs == s.cs && s2.ms.owner == s.ms.owner && s2.ms.stage == s.ms.stage && SameBounds(s, s2) && TasksKeep(s, s2)
    && var c := CargoOf(s.ms.cargo, pc.msg);
       && CargoOf(s2.ms.cargo, pc.msg) == c[1..] && (forall n: nat | n != pc.msg ::
          CargoOf(s2.ms.cargo, n) == CargoOf(s.ms.cargo, n))
       && LiveIn(s, KERNEL, c[0]) && Arrived(s2, pc.task, ItemIn(s, KERNEL, c[0]))
       && TabOf(s2.hs.tabs, KERNEL).live == TabOf(s.hs.tabs, KERNEL).live - {c[0]}
  }

  /** One handle goes from the kernel's table to the receiver's. */
  lemma UnpackOne(s: State, t: nat) returns (id: HandleId, s2: State)
    requires Inv(s) && PcOf(s.pc, t).Unpacking? && CargoOf(s.ms.cargo, PcOf(s.pc, t).msg) != []
    ensures s2 == Step(Step(s, Go(t, true, ANY)), Go(t, true, id)) && TookOne(s, s2, t) && Inv(s2)
  {
    var pc := PcOf(s.pc, t);
    CargoIsLive(s, pc.msg);
    var s1 := Unpacked(s, t);
    PickedUp(s, t);
    id := FreshId(s1, pc.task);
    DeliveredKeeps(s1, t, id);
    s2 := Deliver(s1, t, true, id);
    LaidDown(s1, t, id);
  }

  /** The first entry of the message is in the thread's hand. */
  lemma PickedUp(s: State, t: nat)
    requires Inv(s) && PcOf(s.pc, t).Unpacking? && CargoOf(s.ms.cargo, PcOf(s.pc, t).msg) != []
    requires LiveIn(s, KERNEL, CargoOf(s.ms.cargo, PcOf(s.pc, t).msg)[0])
    ensures var pc, s1 := PcOf(s.pc, t), Unpacked(s, t); var c := CargoOf(s.ms.cargo, pc.msg);
      && Inv(s1) && s1 == Step(s, Go(t, true, ANY)) && SameBounds(s, s1) && TasksKeep(s, s1) && ThreadsBut(s, s1, t)
      && PcOf(s1.pc, t) == Delivering(pc.end, pc.task, pc.msg, ItemIn(s, KERNEL, c[0])) && s1.cs == s.cs
      && s1.ms == s.ms.(cargo := s.ms.cargo[pc.msg := c[1..]])
      && TabOf(s1.hs.tabs, KERNEL).live == TabOf(s.hs.tabs, KERNEL).live - {c[0]} && pc.task != KERNEL
  {
    assert ThreadOk(s, t) && EntryOk(s, KERNEL, CargoOf(s.ms.cargo, PcOf(s.pc, t).msg)[0]);
    UnpackedKeeps(s, t);
  }

  /** The entry in hand is in the receiver's table, and the other tables are as they were. */
  lemma LaidDown(s: State, t: nat, id: HandleId)
    requires Inv(s) && PcOf(s.pc, t).Delivering? && NewIn(s, PcOf(s.pc, t).task, id)
    ensures var s', pc := Deliver(s, t, true, id), PcOf(s.pc, t);
      && Arrived(s', pc.task, pc.item) && TasksKeep(s, s') && SameBounds(s, s')
      && TabOf(s'.hs.tabs, KERNEL) == TabOf(s.hs.tabs, KERNEL)
  {
    var s', pc := Deliver(s, t, true, id), PcOf(s.pc, t);
    assert ThreadOk(s, t) && EntryOk(s, pc.task, id) && LiveIn(s', pc.task, id);
  }

  lemma UnpackOn(s: State, s2: State, z: State, t: nat)
    requires Inv(s) && TookOne(s, s2, t) && UnpackedAll(s2, z, t)
    ensures UnpackedAll(s, z, t)
  {
    var pc := PcOf(s.pc, t);
    var c := CargoOf(s.ms.cargo, pc.msg);
    assert MessageOk(s, pc.msg) && ThreadOk(s, t);
    TailOf(c);
    ArrivedStays(s2, z, pc.task, ItemIn(s, KERNEL, c[0]));
    assert c[0] in c && s.ms.owner[c[0]] == pc.msg;
    ItemsOn(s, s2, z, pc.msg, c[0]);
  }

  lemma ItemsOn(s: State, s2: State, z: State, m: nat, d: HandleId)
    requires TabOf(s2.hs.tabs, KERNEL).live == TabOf(s.hs.tabs, KERNEL).live - {d} && s2.ms.owner == s.ms.owner
    requires d in s.ms.owner && s.ms.owner[d] == m && ItemsKept(s2, z, m)
    ensures ItemsKept(s, z, m)
  {
    forall id: HandleId | LiveIn(s, KERNEL, id) && id in s.ms.owner && s.ms.owner[id] != m
      ensures LiveIn(z, KERNEL, id) && ItemIn(z, KERNEL, id) == ItemIn(s, KERNEL, id)
    {
      assert LiveIn(s2, KERNEL, id) && ItemIn(s2, KERNEL, id) == ItemIn(s, KERNEL, id);
    }
  }

  // ---------------------------------------------------------------- receiving

  /** An endpoint's queue, and all that its messages carry. */
  ghost predicate SameQueue(s: State, s': State, f: End) {
    && ListOf(s'.cs.inbound, f) == ListOf(s.cs.inbound, f)
    && forall n | n in ListOf(s.cs.inbound, f) :: SameCarried(s, s', n)
  }

  ghost predicate SameCarried(s: State, s': State, n: nat) {
    && CargoOf(s'.ms.cargo, n) == CargoOf(s.ms.cargo, n)
    && forall id | id in CargoOf(s.ms.cargo, n) ::
       LiveIn(s, KERNEL, id) && LiveIn(s', KERNEL, id) && ItemIn(s', KERNEL, id) == ItemIn(s, KERNEL, id)
  }

  lemma CarriedStays(s: State, s': State, m: nat, n: nat)
    requires Inv(s) && Kept(s, s', m) && n != m
    ensures SameCarried(s, s', n)
  {
    assert MessageOk(s, n);
  }

  ghost predicate MayReceive(s: State, t: nat, task: nat, via: HandleId) {
    Inv(s) && PcOf(s.pc, t).Idle? && Holds(s, task, via, {READ})
  }

  /** The thread has received the endpoint's first message, with all its handles, and is idle again. */
  ghost predicate ReceivedOne(s: State, s': State, t: nat, task: nat, e: End) {
    var q := ListOf(s.cs.inbound, e);
    && q != [] && Inv(s') && PcOf(s'.pc, t).Idle? && ThreadsBut(s, s', t) && TasksKeep(s, s') && SameBounds(s, s')
    && StageOf(s'.ms.stage, q[0]).Spent? && s'.ms.owner == s.ms.owner
    && (forall n: nat | n != q[0] :: StageOf(s'.ms.stage, n) == StageOf(s.ms.stage, n))
    && ListOf(s'.cs.inbound, e) == q[1..] && (forall f: End | f != e ::
       ListOf(s'.cs.inbound, f) == ListOf(s.cs.inbound, f))
    && (forall n: nat | n != q[0] :: SameCarried(s, s', n))
    && (forall id | id in CargoOf(s.ms.cargo, q[0]) ::
       LiveIn(s, KERNEL, id) && Arrived(s', task, ItemIn(s, KERNEL, id)))
  }

  lemma ReceiveOne(s: State, t: nat, task: nat, via: HandleId) returns (acts: seq<Action>)
    requires MayReceive(s, t, task, via) && ListOf(s.cs.inbound, ViaEnd(s, task, via, {READ})) != []
    ensures Receives(acts) && ReceivedOne(s, Runs(s, acts), t, task, ViaEnd(s, task, via, {READ}))
  {
    var e := ViaEnd(s, task, via, {READ});
    var q := ListOf(s.cs.inbound, e);
    ViaAlive(s, task, via, {READ});
    assert QueueOk(s, e) && q[0] in q;
    var s1 := Read(s, t, task, e, true);
    ReadKeeps(s, t, task, e, true);
    var rest := UnpackAll(s1, t);
    acts := [Receive(t, task, via, true)] + rest;
    ReceivesOne(Receive(t, task, via, true));
    ReceivesJoin([Receive(t, task, via, true)], rest);
    RunsOne(s, Receive(t, task, via, true));
    RunsAppend(s, [Receive(t, task, via, true)], rest);
    RunsKeep(s1, rest);
    ReadThenUnpacked(s, Runs(s1, rest), t, task, e);
  }

  lemma ReadThenUnpacked(s: State, z: State, t: nat, task: nat, e: End)
    requires Inv(s) && PcOf(s.pc, t).Idle? && ListOf(s.cs.inbound, e) != []
    requires Inv(Read(s, t, task, e, true)) && UnpackedAll(Read(s, t, task, e, true), z, t) && Inv(z)
    ensures ReceivedOne(s, z, t, task, e)
  {
    var q, s1 := ListOf(s.cs.inbound, e), Read(s, t, task, e, true);
    ReadFacts(s, t, task, e);
    forall n: nat | n != q[0] ensures SameCarried(s, z, n) { ReadCarried(s, s1, z, q[0], n); }
  }

  lemma ReadFacts(s: State, t: nat, task: nat, e: End)
    requires Inv(s) && PcOf(s.pc, t).Idle? && ListOf(s.cs.inbound, e) != []
    ensures var s1, q := Read(s, t, task, e, true), ListOf(s.cs.inbound, e);
      && s1.hs == s.hs && s1.ms == s.ms.(stage := s.ms.stage[q[0] := Held(t)]) && SameBounds(s, s1)
      && ThreadsBut(s, s1, t) && ListOf(s1.cs.inbound, e) == q[1..]
      && forall f: End | f != e :: ListOf(s1.cs.inbound, f) == ListOf(s.cs.inbound, f)
  {
    assert QueueOk(s, e) && ListOf(s.cs.inbound, e)[0] in ListOf(s.cs.inbound, e);
  }

  lemma ReadCarried(s: State, s1: State, z: State, m: nat, n: nat)
    requires Inv(s1) && s1.hs == s.hs && s1.ms.cargo == s.ms.cargo && Kept(s1, z, m) && n != m
    ensures SameCarried(s, z, n)
  {
    CarriedStays(s1, z, m, n);
  }

  /** What must hold to go on. */
  lemma StillHolds(s: State, s': State, t: nat, task: nat, via: HandleId)
    requires MayReceive(s, t, task, via) && Inv(s') && PcOf(s'.pc, t).Idle? && TasksKeep(s, s')
    ensures MayReceive(s', t, task, via) && ViaEnd(s', task, via, {READ}) == ViaEnd(s, task, via, {READ})
  {
  }

  /** Receiving one message after another brings the j-th. */
  ghost predicate ReceivedUpTo(s: State, s': State, t: nat, task: nat, e: End, j: nat) {
    var q := ListOf(s.cs.inbound, e);
    && j < |q| && Inv(s') && PcOf(s'.pc, t).Idle? && TasksKeep(s, s') && (forall f: End | f != e :: SameQueue(s, s', f))
    && (forall id | id in CargoOf(s.ms.cargo, q[j]) ::
       LiveIn(s, KERNEL, id) && Arrived(s', task, ItemIn(s, KERNEL, id)))
  }

  lemma OtherQueue(s: State, s1: State, t: nat, task: nat, e: End, f: End)
    requires Inv(s) && ReceivedOne(s, s1, t, task, e) && f != e
    ensures SameQueue(s, s1, f)
  {
    var q := ListOf(s.cs.inbound, e);
    assert QueueOk(s, e) && QueueOk(s, f) && q[0] in q;
  }

  lemma {:induction false} ReceiveUpTo(s: State, t: nat, task: nat, via: HandleId, j: nat) returns (acts: seq<Action>)
    requires MayReceive(s, t, task, via) && j < |ListOf(s.cs.inbound, ViaEnd(s, task, via, {READ}))|
    ensures Receives(acts) && ReceivedUpTo(s, Runs(s, acts), t, task, ViaEnd(s, task, via, {READ}), j)
    decreases j
  {
    var e := ViaEnd(s, task, via, {READ});
    var q := ListOf(s.cs.inbound, e);
    var first := ReceiveOne(s, t, task, via);
    var s1 := Runs(s, first);
    if j == 0 {
      acts := first;
      forall f: End | f != e ensures SameQueue(s, s1, f) { OtherQueue(s, s1, t, task, e, f); }
    } else {
      StillHolds(s, s1, t, task, via);
      var rest := ReceiveUpTo(s1, t, task, via, j - 1);
      acts := first + rest;
      ReceivesJoin(first, rest);
      RunsAppend(s, first, rest);
      UpToNext(s, s1, Runs(s1, rest), t, task, e, j);
    }
  }

  lemma UpToNext(s: State, s1: State, z: State, t: nat, task: nat, e: End, j: nat)
    requires Inv(s) && ReceivedOne(s, s1, t, task, e) && j > 0 && ReceivedUpTo(s1, z, t, task, e, j - 1)
    ensures ReceivedUpTo(s, z, t, task, e, j)
  {
    var q := ListOf(s.cs.inbound, e);
    assert QueueOk(s, e) && q[0] in q;
    assert q[1..][j - 1] == q[j] && q[j] != q[0] && SameCarried(s, s1, q[j]);
    forall f: End | f != e ensures SameQueue(s, z, f) {
      OtherQueue(s, s1, t, task, e, f);
      SameOnward(s, s1, z, f);
    }
  }

  // ---------------------------------------------------------------- walking the queues

  /** No queue has changed, nor what its messages carry. */
  ghost predicate QueuesKept(s: State, s': State) { forall f: End :: SameQueue(s, s', f) }

  ghost predicate Resumed(s: State, s': State, t: nat) {
    && Inv(s') && PcOf(s'.pc, t).Idle? && ThreadsBut(s, s', t) && TasksKeep(s, s') && QueuesKept(s, s')
    && SameBounds(s, s') && OthersCarry(s, s', t)
  }

  /** Every message but the one t is busy with is where it was, and so is what it carries. */
  ghost predicate OthersCarry(s: State, s': State, t: nat) {
    s'.ms.owner == s.ms.owner && forall n: nat | MsgOf(PcOf(s.pc, t)) != Some(n) :: Aside(s, s', n)
  }

  ghost predicate Aside(s: State, s': State, n: nat) {
    SameCarried(s, s', n) && StageOf(s'.ms.stage, n) == StageOf(s.ms.stage, n)
  }

  /** A thread that is receiving can end its call, with everything in its task's table. */
  lemma Finish(s: State, t: nat) returns (acts: seq<Action>)
    requires Inv(s) && !Sending(PcOf(s.pc, t))
    ensures Receives(acts) && Resumed(s, Runs(s, acts), t)
    ensures var pc := PcOf(s.pc, t); Receiving(pc) ==>
      && (HandOf(pc).Some? ==> Arrived(Runs(s, acts), pc.task, HandOf(pc).value))
      && forall id | id in CargoOf(s.ms.cargo, pc.msg) ::
         LiveIn(s, KERNEL, id) && Arrived(Runs(s, acts), pc.task, ItemIn(s, KERNEL, id))
  {
    var pc := PcOf(s.pc, t);
    if pc.Idle? {
      acts := [];
      ResumedSelf(s, t);
    } else if pc.Unpacking? {
      acts := FinishUnpacking(s, t);
    } else {
      acts := FinishDelivering(s, t);
    }
  }

  lemma ResumedSelf(s: State, t: nat)
    requires Inv(s) && PcOf(s.pc, t).Idle?
    ensures Resumed(s, s, t)
  {
    forall f: End ensures SameQueue(s, s, f) { WholeQueue(s, f); }
    forall n: nat ensures Aside(s, s, n) { assert MessageOk(s, n); }
  }

  lemma FinishDelivering(s: State, t: nat) returns (acts: seq<Action>)
    requires Inv(s) && PcOf(s.pc, t).Delivering?
    ensures Receives(acts) && Resumed(s, Runs(s, acts), t)
    ensures var pc := PcOf(s.pc, t);
      && Arrived(Runs(s, acts), pc.task, pc.item)
      && forall id | id in CargoOf(s.ms.cargo, pc.msg) ::
         LiveIn(s, KERNEL, id) && Arrived(Runs(s, acts), pc.task, ItemIn(s, KERNEL, id))
  {
    var pc := PcOf(s.pc, t);
    assert ThreadOk(s, t);
    var id := FreshId(s, pc.task);
    DeliveredKeeps(s, t, id);
    var s1 := Deliver(s, t, true, id);
    DeliverApart(s, t, id);
    var rest := FinishUnpacking(s1, t);
    acts := [Go(t, true, id)] + rest;
    ReceivesOne(Go(t, true, id));
    ReceivesJoin([Go(t, true, id)], rest);
    RunsOne(s, Go(t, true, id));
    RunsAppend(s, [Go(t, true, id)], rest);
    ResumedOn(s, s1, Runs(s, acts), t);
    ArrivedStays(s1, Runs(s, acts), pc.task, pc.item);
  }

  lemma ResumedOn(s: State, s1: State, z: State, t: nat)
    requires ThreadsBut(s, s1, t) && TasksKeep(s, s1) && QueuesKept(s, s1) && SameBounds(s, s1) && OthersCarry(s, s1, t)
    requires Resumed(s1, z, t) && MsgOf(PcOf(s1.pc, t)) == MsgOf(PcOf(s.pc, t))
    ensures Resumed(s, z, t)
  {
    QueuesOn(s, s1, z);
    forall n: nat | MsgOf(PcOf(s.pc, t)) != Some(n) ensures Aside(s, z, n) {
      assert Aside(s, s1, n) && Aside(s1, z, n);
    }
  }

  lemma WholeQueue(s: State, f: End)
    requires Inv(s)
    ensures SameQueue(s, s, f)
  {
    forall n | n in ListOf(s.cs.inbound, f) ensures SameCarried(s, s, n) { assert MessageOk(s, n); }
  }

  lemma DeliverApart(s: State, t: nat, id: HandleId)
    requires Inv(s) && PcOf(s.pc, t).Delivering? && NewIn(s, PcOf(s.pc, t).task, id)
    ensures var s1 := Deliver(s, t, true, id);
      && TasksKeep(s, s1) && QueuesKept(s, s1) && SameBounds(s, s1) && OthersCarry(s, s1, t) && ThreadsBut(s, s1, t)
      && Arrived(s1, PcOf(s.pc, t).task, PcOf(s.pc, t).item)
      && TabOf(s1.hs.tabs, KERNEL) == TabOf(s.hs.tabs, KERNEL)
  {
    var s1 := Deliver(s, t, true, id);
    assert ThreadOk(s, t);
    LaidDown(s, t, id);
    forall f: End ensures SameQueue(s, s1, f) { WholeQueue(s, f); }
    forall n: nat ensures Aside(s, s1, n) { assert MessageOk(s, n); }
  }

  lemma QueuesOn(s: State, s1: State, z: State)
    requires QueuesKept(s, s1) && QueuesKept(s1, z)
    ensures QueuesKept(s, z)
  {
    forall f: End ensures SameQueue(s, z, f) {
      assert SameQueue(s, s1, f) && SameQueue(s1, z, f);
      forall n | n in ListOf(s.cs.inbound, f) ensures SameCarried(s, z, n) {
        assert SameCarried(s, s1, n) && SameCarried(s1, z, n);
      }
    }
  }

  lemma FinishUnpacking(s: State, t: nat) returns (acts: seq<Action>)
    requires Inv(s) && PcOf(s.pc, t).Unpacking?
    ensures Receives(acts) && Resumed(s, Runs(s, acts), t)
    ensures var pc := PcOf(s.pc, t);
      forall id | id in CargoOf(s.ms.cargo, pc.msg) ::
          LiveIn(s, KERNEL, id) && Arrived(Runs(s, acts), pc.task, ItemIn(s, KERNEL, id))
  {
    acts := UnpackAll(s, t);
    RunsKeep(s, acts);
    var z, m := Runs(s, acts), PcOf(s.pc, t).msg;
    assert ThreadOk(s, t);
    forall n: nat | n != m ensures Aside(s, z, n) { CarriedStays(s, z, m, n); }
    forall f: End ensures SameQueue(s, z, f) {
      assert QueueOk(s, f);
      forall n | n in ListOf(s.cs.inbound, f) ensures SameCarried(s, z, n) { CarriedStays(s, z, m, n); }
    }
  }

  /** An entry that arrived can be received with. */
  lemma Opens(s: State, task: nat, x: Item) returns (via: HandleId)
    requires Inv(s) && Arrived(s, task, x) && task != KERNEL && EndAt(x.cap.target).Some?
    ensures Holds(s, task, via, {READ}) && ViaEnd(s, task, via, {READ}) == EndAt(x.cap.target).value
  {
    via :| LiveIn(s, task, via) && ItemIn(s, task, via) == x;
    assert EntryOk(s, task, via);
  }

  /** What a task or a thread holds, a task can come to hold with an idle thread to receive on it. */
  lemma Home(s: State, e: End, idle: nat) returns (acts: seq<Action>, t: nat, task: nat, via: HandleId)
    requires Inv(s) && InReach(s, e) && PcOf(s.pc, idle).Idle?
    ensures Receives(acts)
    ensures var z := Runs(s, acts); MayReceive(z, t, task, via) && ViaEnd(z, task, via, {READ}) == e && QueuesKept(s, z)
  {
    if InTable(s, e) {
      var v: nat, id: HandleId :| v != KERNEL && LiveIn(s, v, id) && EndAt(ItemIn(s, v, id).cap.target) == Some(e);
      t, task := idle, v;
      acts := Finish(s, t);
      assert Arrived(s, v, ItemIn(s, v, id));
      ArrivedStays(s, Runs(s, acts), v, ItemIn(s, v, id));
      via := Opens(Runs(s, acts), v, ItemIn(s, v, id));
    } else {
      t :| Brings(s, t, e);
      var pc := PcOf(s.pc, t);
      assert ThreadOk(s, t);
      task := pc.task;
      acts := Finish(s, t);
      if HandOf(pc).Some? && EndAt(HandOf(pc).value.cap.target) == Some(e) {
        via := Opens(Runs(s, acts), task, HandOf(pc).value);
      }
      else {
        var id :| id in CargoOf(s.ms.cargo, pc.msg) && Carried(s, id) == Some(e);
        via := Opens(Runs(s, acts), task, ItemIn(s, KERNEL, id));
      }
    }
  }

  /** Each next endpoint is in the queue of the one before. */
  ghost predicate Chain(s: State, p: seq<End>) {
    p != [] && NoDup(p) && forall i | 0 <= i < |p| - 1 :: Leads(s, p[i], p[i + 1])
  }

  lemma LeadsStays(s: State, s': State, e: End, f: End)
    requires Leads(s, e, f) && SameQueue(s, s', e)
    ensures Leads(s', e, f)
  {
    var m: nat, id: HandleId :| m in ListOf(s.cs.inbound, e) && id in CargoOf(s.ms.cargo, m)
        && Carried(s, id) == Some(f);
    assert SameCarried(s, s', m);
    assert m in ListOf(s'.cs.inbound, e) && id in CargoOf(s'.ms.cargo, m) && Carried(s', id) == Some(f);
  }

  lemma ChainStays(s: State, s': State, p: seq<End>)
    requires Chain(s, p) && |p| > 1 && forall f: End | f != p[0] :: SameQueue(s, s', f)
    ensures Chain(s', p[1..])
  {
    var r := p[1..];
    forall i | 0 <= i < |r| - 1 ensures Leads(s', r[i], r[i + 1]) {
      assert Leads(s, p[i + 1], p[i + 1 + 1]) && p[i + 1] != p[0];
      LeadsStays(s, s', p[i + 1], p[i + 2]);
    }
  }

  /** From one endpoint of a chain to the next. */
  lemma Hop(s: State, t: nat, task: nat, via: HandleId, f: End) returns (acts: seq<Action>, via': HandleId)
    requires MayReceive(s, t, task, via) && Leads(s, ViaEnd(s, task, via, {READ}), f)
    ensures Receives(acts)
    ensures var z := Runs(s, acts); MayReceive(z, t, task, via') && ViaEnd(z, task, via', {READ}) == f
    ensures forall g: End | g != ViaEnd(s, task, via, {READ}) :: SameQueue(s, Runs(s, acts), g)
  {
    var e := ViaEnd(s, task, via, {READ});
    var m: nat, id: HandleId :| m in ListOf(s.cs.inbound, e) && id in CargoOf(s.ms.cargo, m)
        && Carried(s, id) == Some(f);
    var j :| 0 <= j < |ListOf(s.cs.inbound, e)| && ListOf(s.cs.inbound, e)[j] == m;
    acts := ReceiveUpTo(s, t, task, via, j);
    via' := Opens(Runs(s, acts), task, ItemIn(s, KERNEL, id));
  }

  /** A task that holds the first endpoint of a chain can come to hold the last. */
  lemma {:induction false} Follow(s: State, t: nat, task: nat, via: HandleId, p: seq<End>)
      returns (acts: seq<Action>, via': HandleId)
    requires MayReceive(s, t, task, via) && Chain(s, p) && p[0] == ViaEnd(s, task, via, {READ})
    ensures Receives(acts)
    ensures var z := Runs(s, acts);
      MayReceive(z, t, task, via') && ViaEnd(z, task, via', {READ}) == p[|p| - 1] && SameQueue(s, z, p[|p| - 1])
    decreases |p|
  {
    if |p| == 1 {
      acts, via' := [], via;
      WholeQueue(s, p[0]);
    } else {
      assert Leads(s, p[0], p[0 + 1]);
      var first, via1 := Hop(s, t, task, via, p[1]);
      var s1 := Runs(s, first);
      ChainStays(s, s1, p);
      var rest;
      rest, via' := Follow(s1, t, task, via1, p[1..]);
      acts := first + rest;
      ReceivesJoin(first, rest);
      RunsAppend(s, first, rest);
      var last := p[|p| - 1];
      assert last == p[1..][|p| - 2] && last != p[0];
      SameOnward(s, s1, Runs(s1, rest), last);
    }
  }

  lemma SameOnward(s: State, s1: State, z: State, f: End)
    requires SameQueue(s, s1, f) && SameQueue(s1, z, f)
    ensures SameQueue(s, z, f)
  {
    forall n | n in ListOf(s.cs.inbound, f) ensures SameCarried(s, z, n) {
      assert SameCarried(s, s1, n) && SameCarried(s1, z, n);
    }
  }

  /** What waits on a queue that can be reached can be received, whatever else is going on. */
  lemma CanBeReceived(s: State, e: End, m: nat, id: HandleId, idle: nat)
    returns (acts: seq<Action>, task: nat, d: HandleId)
    requires Inv(s) && Reach(s, e) && m in ListOf(s.cs.inbound, e) && id in CargoOf(s.ms.cargo, m)
    requires LiveIn(s, KERNEL, id) && PcOf(s.pc, idle).Idle?
    ensures Receives(acts) && task != KERNEL && Under(Runs(s, acts), ItemIn(s, KERNEL, id).tag, task, d)
  {
    var p :| Path(s, p, false) && p[|p| - 1] == e;
    var a1, t, via;
    a1, t, task, via := Home(s, p[0], idle);
    var s1 := Runs(s, a1);
    forall i | 0 <= i < |p| - 1 ensures Leads(s1, p[i], p[i + 1]) {
      assert Edge(s, p[i], p[i + 1], false) && SameQueue(s, s1, p[i]);
      LeadsStays(s, s1, p[i], p[i + 1]);
    }
    var a2, via' := Follow(s1, t, task, via, p);
    var s2 := Runs(s1, a2);
    assert SameQueue(s, s1, e);
    SameOnward(s, s1, s2, e);
    var j :| 0 <= j < |ListOf(s.cs.inbound, e)| && ListOf(s.cs.inbound, e)[j] == m;
    assert SameCarried(s, s2, m);
    var a3 := ReceiveUpTo(s2, t, task, via', j);
    ReceivesJoin(a1, a2);
    ReceivesJoin(a1 + a2, a3);
    RunsAppend(s, a1, a2);
    RunsAppend(s, a1 + a2, a3);
    acts := a1 + a2 + a3;
    var x := ItemIn(s, KERNEL, id);
    assert Arrived(Runs(s2, a3), task, x);
    d :| LiveIn(Runs(s2, a3), task, d) && ItemIn(Runs(s2, a3), task, d) == x;
  }

  /** In every run there is always a thread that is doing nothing. */
  lemma {:induction false} IdleBeyond(acts: seq<Action>) returns (n: nat)
    ensures forall t: nat | t >= n :: PcOf(Runs(Initial(), acts).pc, t).Idle?
  {
    n := 0;
    if acts != [] {
      n := IdleBeyond(acts[..|acts| - 1]);
      var s, a := Runs(Initial(), acts[..|acts| - 1]), acts[|acts| - 1];
      if (a.Send? || a.Receive? || a.Go?) && a.thread >= n { n := a.thread + 1; }
      OtherThreads(s, a);
    }
  }

  lemma OtherThreads(s: State, a: Action)
    ensures forall t: nat | !((a.Send? || a.Receive? || a.Go?) && a.thread == t) ::
      PcOf(Step(s, a).pc, t) == PcOf(s.pc, t)
  {
    if a.Go? { OtherGoes(s, a.thread, a.ok, a.id); }
  }

  lemma OtherGoes(s: State, u: nat, ok: bool, id: HandleId)
    ensures forall t: nat | t != u :: PcOf(Advance(s, u, ok, id).pc, t) == PcOf(s.pc, t)
  {
  }

  /** Some run from here brings the handle into a task's table. */
  ghost predicate Receivable(s: State, n: nat) {
    exists acts: seq<Action>, task: nat, d: HandleId :: task != KERNEL && Under(Runs(s, acts), n, task, d)
  }

  /** In every state of every run: a queued handle can still be received if its queue's endpoint can be
      reached, through queues, from an endpoint a task or a thread holds, and only if it can be reached so or
      through what is being sent. While no send is half done the two are the same. */
  lemma ReceivableIffReached(acts: seq<Action>, e: End, m: nat, id: HandleId)
    requires var s := Runs(Initial(), acts); m in ListOf(s.cs.inbound, e) && id in CargoOf(s.ms.cargo, m)
    ensures var s := Runs(Initial(), acts); LiveIn(s, KERNEL, id)
    ensures var s := Runs(Initial(), acts); Reach(s, e) ==> Receivable(s, ItemIn(s, KERNEL, id).tag)
    ensures var s := Runs(Initial(), acts); Receivable(s, ItemIn(s, KERNEL, id).tag) ==> MayReach(s, e)
    ensures var s := Runs(Initial(), acts); Calm(s) ==> (Reach(s, e) <==> MayReach(s, e))
  {
    RunKeeps(acts);
    var s := Runs(Initial(), acts);
    assert MessageOk(s, m) && QueueOk(s, e);
    var n := ItemIn(s, KERNEL, id).tag;
    if Reach(s, e) {
      var idle := IdleBeyond(acts);
      var more, task, d := CanBeReceived(s, e, m, id, idle);
    }
    if Receivable(s, n) && !MayReach(s, e) {
      var more: seq<Action>, task: nat, d: HandleId :| task != KERNEL && Under(Runs(s, more), n, task, d);
      NeverReceived(s, e, m, id, more, task, d);
    }
    if Calm(s) { CalmReach(s, e); }
  }
}
