/** What the packets of racing producers say: when one transition queues a binding more than once, and when a
    packet reports a signal that is not up. */
module PortPackets {

  import opened Basics
  import opened PortModel
  import opened PortRace

  // ---------------------------------------------------------------- a packet leaves

  /** The step dequeues the binding's packet, or unbinds it. */
  ghost predicate TakesOff(s: State, a: Action, b: nat) {
    || (a.Take? && a.p in s.sys.ports && ReadyOf(s.sys, a.p) != [] && ReadyOf(s.sys, a.p)[0] == b)
    || (a.Forget? && a.p in s.sys.ports && b in s.sys.info && s.sys.info[b].port == a.p && s.sys.info[b].key == a.key)
  }

  lemma {:induction false} UnboundExactly(s: Sys, list: seq<nat>, key: nat, b: nat)
    requires NoDup(list)
    ensures var u := Unbound(s, list, key);
      u.info == s.info && (b in u.live <==> b in s.live && !(b in list && b in s.info && s.info[b].key == key))
      && (b in u.pending <==> b in s.pending && !(b in list && b in s.info && s.info[b].key == key))
      && (b in s.pending && b in u.pending ==> u.pending[b] == s.pending[b])
    decreases |list|
  {
    if list != [] {
      var c, rest := list[0], list[1..];
      assert list == [c] + rest && c !in rest && NoDup(rest);
      UnboundExactly(if c in s.info && s.info[c].key == key then Detach(Withdraw(s, c), c) else s, rest, key, b);
    }
  }

  /** A packet that waits stays until it is dequeued or its binding is unbound. */
  lemma LeavesExactly(s: State, a: Action, b: nat)
    requires PortRace.Inv(s) && b in s.sys.pending
    ensures b !in Step(s, a).sys.pending <==> TakesOff(s, a, b)
  {
    assert InfoOk(s.sys, b);
    if a.Go? && StackOf(s, a.t) != [] && Top(s, a.t).Scan? {
      var f := Top(s, a.t);
      assert ListOk(s.sys, f.o);
      ScanIs(s.sys, ListOf(s.sys, f.o), f.o, f.prev, f.cur);
    } else if a.Forget? && a.p in s.sys.ports {
      assert OwnedOk(s.sys, a.p);
      UnboundExactly(s.sys, OwnedOf(s.sys, a.p), a.key, b);
    } else if a.Take? && a.p in s.sys.ports && ReadyOf(s.sys, a.p) != [] {
      assert QueueOk(s.sys, a.p) && ReadyOf(s.sys, a.p)[0] in ReadyOf(s.sys, a.p);
    }
  }

  lemma {:induction false} RunsOnKeep(s: State, acts: seq<Action>)
    requires PortRace.Inv(s)
    ensures PortRace.Inv(Runs(s, acts))
  {
    if acts != [] {
      RunsOnKeep(s, acts[..|acts| - 1]);
      StepKeeps(Runs(s, acts[..|acts| - 1]), acts[|acts| - 1]);
    }
  }

  /** The i-th step takes the packet off, and none is queued again up to the n-th. */
  ghost predicate OffSince(s: State, acts: seq<Action>, b: nat, i: nat, n: nat) {
    && i < n <= |acts| && TakesOff(Runs(s, acts[..i]), acts[i], b)
    && forall j: nat | i < j <= n :: b !in Runs(s, acts[..j]).sys.pending
  }

  ghost predicate Off(s: State, acts: seq<Action>, b: nat, n: nat) { exists i: nat :: OffSince(s, acts, b, i, n) }

  /** A binding that had a packet has none exactly when one was taken off and none was queued since. */
  lemma {:induction false} NoneWaits(s: State, acts: seq<Action>, b: nat, n: nat)
    requires PortRace.Inv(s) && b in s.sys.pending && n <= |acts|
    ensures b !in Runs(s, acts[..n]).sys.pending <==> Off(s, acts, b, n)
  {
    if n == 0 {
      assert acts[..0] == [];
    } else {
      NoneWaits(s, acts, b, n - 1);
      assert acts[..n][..n - 1] == acts[..n - 1] && acts[..n][n - 1] == acts[n - 1];
      RunsOnKeep(s, acts[..n - 1]);
      if b !in Runs(s, acts[..n]).sys.pending { NoneWaitsNow(s, acts, b, n); }
    }
  }

  lemma NoneWaitsNow(s: State, acts: seq<Action>, b: nat, n: nat)
    requires 0 < n <= |acts| && PortRace.Inv(Runs(s, acts[..n - 1])) && b !in Runs(s, acts[..n]).sys.pending
    requires Runs(s, acts[..n]) == Step(Runs(s, acts[..n - 1]), acts[n - 1])
    requires b !in Runs(s, acts[..n - 1]).sys.pending ==> Off(s, acts, b, n - 1)
    ensures Off(s, acts, b, n)
  {
    if b in Runs(s, acts[..n - 1]).sys.pending {
      LeavesExactly(Runs(s, acts[..n - 1]), acts[n - 1], b);
      assert OffSince(s, acts, b, n - 1, n);
    } else {
      var i: nat :| OffSince(s, acts, b, i, n - 1);
      assert OffSince(s, acts, b, i, n);
    }
  }

  /** The thread is at a scan that queues the binding. */
  ghost predicate Hits(s: State, t: nat, b: nat) {
    && StackOf(s, t) != [] && Top(s, t).Scan?
    && var f := Top(s, t); ScanFrom(s.sys, ListOf(s.sys, f.o), f.prev, f.cur).1 == Some(b)
  }

  /** One transition queues a binding again exactly when, at a later scan for it, the binding is the first on
      its object's list that is due; and then the earlier packet has been dequeued, or the binding unbound, and
      nothing has been queued for it since. */
  lemma QueuedAgain(s: State, t: nat, b: nat, more: seq<Action>)
    requires PortRace.Inv(s) && Hits(s, t, b)
    requires var z := Runs(Step(s, Go(t)), more); StackOf(z, t) != [] && Top(z, t) == Top(s, t)
    ensures var z, f := Runs(Step(s, Go(t)), more), Top(s, t);
      Hits(z, t, b) <==> FirstDue(z.sys, ListOf(z.sys, f.o), f.prev, f.cur, b)
    ensures Hits(Runs(Step(s, Go(t)), more), t, b) ==> Off(Step(s, Go(t)), more, b, |more|)
  {
    var s1, f := Step(s, Go(t)), Top(s, t);
    var z := Runs(s1, more);
    assert ListOk(s.sys, f.o);
    ScanIs(s.sys, ListOf(s.sys, f.o), f.o, f.prev, f.cur);
    StepKeeps(s, Go(t));
    RunsOnKeep(s1, more);
    assert ListOk(z.sys, f.o);
    HitExactly(z.sys, ListOf(z.sys, f.o), f.prev, f.cur, b);
    NoneWaits(s1, more, b, |more|);
    assert more[..|more|] == more;
  }

  // ---------------------------------------------------------------- what a scan reports

  /** The scan comes as far as the i-th of the list, and has something to report to it. */
  predicate ReachedAt(s: Sys, list: seq<nat>, prev: set<nat>, cur: set<nat>, i: nat) {
    && i < |list| && (forall j | 0 <= j < i :: !Due(s, prev, cur, list[j])) && list[i] in s.info
    && cur * s.info[list[i]].mask != {} && (list[i] in s.pending || prev * s.info[list[i]].mask == {})
  }

  ghost predicate Reached(s: Sys, list: seq<nat>, prev: set<nat>, cur: set<nat>, b: nat) {
    exists i: nat :: ReachedAt(s, list, prev, cur, i) && list[i] == b
  }

  lemma ShiftReached(s: Sys, s1: Sys, list: seq<nat>, prev: set<nat>, cur: set<nat>, b: nat)
    requires list != [] && !Due(s, prev, cur, list[0]) && list[0] != b
    requires s1.info == s.info && forall x: nat :: x in s1.pending <==> x in s.pending
    ensures Reached(s1, list[1..], prev, cur, b) <==> Reached(s, list, prev, cur, b)
  {
    var rest := list[1..];
    forall x: nat ensures Due(s1, prev, cur, x) <==> Due(s, prev, cur, x) {}
    if Reached(s, list, prev, cur, b) {
      var i: nat :| ReachedAt(s, list, prev, cur, i) && list[i] == b;
      forall j | 0 <= j < i - 1 ensures !Due(s1, prev, cur, rest[j]) { assert rest[j] == list[j + 1]; }
      assert ReachedAt(s1, rest, prev, cur, i - 1) && rest[i - 1] == b;
    }
    if Reached(s1, rest, prev, cur, b) {
      var i: nat :| ReachedAt(s1, rest, prev, cur, i) && rest[i] == b;
      forall j | 0 <= j < i + 1 ensures !Due(s, prev, cur, list[j]) { if j > 0 { assert list[j] == rest[j - 1]; } }
      assert ReachedAt(s, list, prev, cur, i + 1) && list[i + 1] == b;
    }
  }

  /** A scan adds to a binding's packet the signals of its transition, as far as it comes, and nothing else. */
  lemma {:induction false} ScanAdds(s: Sys, list: seq<nat>, prev: set<nat>, cur: set<nat>, b: nat)
    requires NoDup(list)
    ensures var s' := ScanFrom(s, list, prev, cur).0;
      PacketOf(s', b)
      == PacketOf(s, b) + if Reached(s, list, prev, cur, b) && b in s.info then cur * s.info[b].mask else {}
    decreases |list|
  {
    if list != [] {
      var c, rest := list[0], list[1..];
      assert list == [c] + rest && c !in rest && NoDup(rest);
      if Due(s, prev, cur, c) {
        assert b == c ==> ReachedAt(s, list, prev, cur, 0);
      } else {
        var s1 := if c in s.info && cur * s.info[c].mask != {} && c in s.pending
                  then Coalesce(s, c, cur * s.info[c].mask) else s;
        ScanAdds(s1, rest, prev, cur, b);
        if b != c { ShiftReached(s, s1, list, prev, cur, b); } else { HeadReached(s, s1, list, prev, cur); }
      }
    }
  }

  lemma HeadReached(s: Sys, s1: Sys, list: seq<nat>, prev: set<nat>, cur: set<nat>)
    requires list != [] && NoDup(list) && !Due(s, prev, cur, list[0])
    ensures !Reached(s1, list[1..], prev, cur, list[0])
    ensures Reached(s, list, prev, cur, list[0]) <==>
      list[0] in s.info && cur * s.info[list[0]].mask != {} && list[0] in s.pending
  {
    if Reached(s, list, prev, cur, list[0]) {
      var i: nat :| ReachedAt(s, list, prev, cur, i) && list[i] == list[0];
      assert i == 0;
    }
    if list[0] in s.info && cur * s.info[list[0]].mask != {} && list[0] in s.pending {
      assert ReachedAt(s, list, prev, cur, 0);
    }
    forall i | 0 <= i < |list[1..]| ensures list[1..][i] != list[0] { assert list[1..][i] == list[i + 1]; }
  }

  /** A scan reports a signal that is not up exactly when it comes to a binding that wants a signal of the
      transition which has been cleared since. */
  lemma StaleExactly(s: State, t: nat, b: nat)
    requires PortRace.Inv(s) && StackOf(s, t) != [] && Top(s, t).Scan? && b in s.sys.info
    ensures var f, m, s' := Top(s, t), s.sys.info[b].mask, Step(s, Go(t)); var up := SigOf(s.sys, f.o);
      !(PacketOf(s'.sys, b) <= PacketOf(s.sys, b) + up) <==>
      Reached(s.sys, ListOf(s.sys, f.o), f.prev, f.cur, b) && !(f.cur * m <= PacketOf(s.sys, b) + up)
  {
    var f := Top(s, t);
    assert ListOk(s.sys, f.o);
    ScanAdds(s.sys, ListOf(s.sys, f.o), f.prev, f.cur, b);
  }

  // ---------------------------------------------------------------- nothing is made up

  /** No thread is about to report the signal as the object's, and the binding's packet does not. */
  ghost predicate Unsaid(s: State, o: nat, x: nat, b: nat) {
    && (forall t: nat, f: Frame | f in StackOf(s, t) && !f.Set? && f.o == o :: x !in f.cur)
    && (b in s.sys.pending && b in s.sys.info && s.sys.info[b].target == o ==> x !in s.sys.pending[b])
  }

  /** The signal is not the object's at any point of the run. */
  ghost predicate NeverUp(s: State, acts: seq<Action>, o: nat, x: nat) {
    forall i: nat {:trigger Runs(s, acts[..i])} | i <= |acts| :: x !in SigOf(Runs(s, acts[..i]).sys, o)
  }

  /** Every frame there is now was there before, but for these. */
  lemma FramesUnsaid(s: State, s': State, t: nat, o: nat, x: nat, b: nat)
    requires Unsaid(s, o, x, b) && forall u: nat | u != t :: StackOf(s', u) == StackOf(s, u)
    requires forall f | f in StackOf(s', t) :: f in StackOf(s, t) || f.Set? || f.o != o || x !in f.cur
    ensures forall u: nat, f: Frame | f in StackOf(s', u) && !f.Set? && f.o == o :: x !in f.cur
  {
  }

  lemma AdvanceUnsaid(s: State, t: nat, o: nat, x: nat, b: nat)
    requires PortRace.Inv(s) && StackOf(s, t) != [] && Unsaid(s, o, x, b) && x !in SigOf(Advance(s, t).sys, o)
    ensures Unsaid(Advance(s, t), o, x, b)
  {
    var s' := Advance(s, t);
    FramesTop(s, t);
    assert StackOf(s, t) == Below(s, t) + [Top(s, t)];
    match Top(s, t)
    case Set(p) =>
      assert StackOf(s', t) == Below(s, t) + [Check(p, SigOf(s.sys, p), SigOf(s.sys, p) + {READABLE})];
      FramesUnsaid(s, s', t, o, x, b);
    case Check(q, prev, cur) =>
      assert StackOf(s', t) == Below(s, t) + if ListOf(s.sys, q) == [] then [] else [Scan(q, prev, cur)];
      FramesUnsaid(s, s', t, o, x, b);
    case Scan(q, prev, cur) => ScanUnsaid(s, t, o, x, b);
  }

  lemma ScanUnsaid(s: State, t: nat, o: nat, x: nat, b: nat)
    requires PortRace.Inv(s) && StackOf(s, t) != [] && Unsaid(s, o, x, b) && Top(s, t).Scan?
    ensures Unsaid(Advance(s, t), o, x, b)
  {
    var s', f := Advance(s, t), Top(s, t);
    var (sys, hit) := ScanFrom(s.sys, ListOf(s.sys, f.o), f.prev, f.cur);
    assert ListOk(s.sys, f.o);
    FramesTop(s, t);
    ScanIs(s.sys, ListOf(s.sys, f.o), f.o, f.prev, f.cur);
    if hit.Some? { assert StackOf(s', t) == StackOf(s, t) + [Set(sys.info[hit.value].port)]; }
    else { assert StackOf(s', t) == Below(s, t); }
    FramesUnsaid(s, s', t, o, x, b);
    ScanAdds(s.sys, ListOf(s.sys, f.o), f.prev, f.cur, b);
    if Reached(s.sys, ListOf(s.sys, f.o), f.prev, f.cur, b) {
      var i: nat :| ReachedAt(s.sys, ListOf(s.sys, f.o), f.prev, f.cur, i) && ListOf(s.sys, f.o)[i] == b;
      assert b in ListOf(s.sys, f.o) && f in StackOf(s, t);
    }
  }

  lemma BindUnsaid(s: State, t: nat, slot: nat, info: Binding, o: nat, x: nat, b: nat)
    requires PortRace.Inv(s) && StackOf(s, t) == [] && slot !in s.sys.live && Unsaid(s, o, x, b)
    requires x !in SigOf(s.sys, o)
    ensures Unsaid(PortRace.Bound(s, t, slot, info), o, x, b)
  {
    var s', a := PortRace.Bound(s, t, slot, info), PortModel.Attach(s.sys, slot, info);
    var asserted := SigOf(a, info.target) * info.mask;
    assert InfoOk(s.sys, slot);
    assert StackOf(s', t) == if asserted == {} then [] else [Set(info.port)];
    FramesUnsaid(s, s', t, o, x, b);
  }

  lemma ForgetUnsaid(s: State, p: nat, key: nat, o: nat, x: nat, b: nat)
    requires PortRace.Inv(s) && Unsaid(s, o, x, b)
    ensures Unsaid(Forgotten(s, p, key), o, x, b)
  {
    var s' := Forgotten(s, p, key);
    assert OwnedOk(s.sys, p);
    forall u: nat ensures StackOf(s', u) == StackOf(s, u) {}
    UnboundExactly(s.sys, OwnedOf(s.sys, p), key, b);
  }

  lemma StepUnsaid(s: State, a: Action, o: nat, x: nat, b: nat)
    requires PortRace.Inv(s) && Unsaid(s, o, x, b) && x !in SigOf(s.sys, o) && x !in SigOf(Step(s, a).sys, o)
    ensures Unsaid(Step(s, a), o, x, b)
  {
    match a
    case Go(t) => if StackOf(s, t) != [] { AdvanceUnsaid(s, t, o, x, b); }
    case Attach(t, slot, info) =>
      if StackOf(s, t) == [] && slot !in s.sys.live && info.mask != {} && info.port in s.sys.ports {
        BindUnsaid(s, t, slot, info, o, x, b);
      }
    case Forget(p, key) => if p in s.sys.ports { ForgetUnsaid(s, p, key, o, x, b); }
    case Signal(t, q, bits) =>
      if StackOf(s, t) == [] && q !in s.sys.ports { SignalUnsaid(s, t, q, bits, o, x, b); }
    case _ => QuietUnsaid(s, a, o, x, b);
  }

  lemma QuietUnsaid(s: State, a: Action, o: nat, x: nat, b: nat)
    requires Unsaid(s, o, x, b) && (a.Make? || a.Clear? || a.Take?)
    ensures Unsaid(Step(s, a), o, x, b)
  {
    forall u: nat ensures StackOf(Step(s, a), u) == StackOf(s, u) {}
  }

  lemma SignalUnsaid(s: State, t: nat, q: nat, bits: set<nat>, o: nat, x: nat, b: nat)
    requires StackOf(s, t) == [] && q !in s.sys.ports && Unsaid(s, o, x, b)
    requires x !in SigOf(Step(s, Signal(t, q, bits)).sys, o)
    ensures Unsaid(Step(s, Signal(t, q, bits)), o, x, b)
  {
    var s' := Step(s, Signal(t, q, bits));
    assert StackOf(s', t) == [Check(q, SigOf(s.sys, q), SigOf(s.sys, q) + bits)];
    FramesUnsaid(s, s', t, o, x, b);
  }

  /** No packet reports a signal that its object has not had: from a state in which a binding's packet does not
      have it and no thread is about to report it, it comes to have it only after it is raised. */
  lemma {:induction false} NothingMadeUp(s: State, acts: seq<Action>, o: nat, x: nat, b: nat)
    requires PortRace.Inv(s) && Unsaid(s, o, x, b) && NeverUp(s, acts, o, x)
    ensures Unsaid(Runs(s, acts), o, x, b)
  {
    if acts != [] {
      var fewer := acts[..|acts| - 1];
      forall i: nat | i <= |fewer| ensures x !in SigOf(Runs(s, fewer[..i]).sys, o) { assert fewer[..i] == acts[..i]; }
      NothingMadeUp(s, fewer, o, x, b);
      RunsOnKeep(s, fewer);
      assert acts[..|fewer|] == fewer && acts[..|acts|] == acts;
      assert x !in SigOf(Runs(s, acts[..|fewer|]).sys, o) && x !in SigOf(Runs(s, acts[..|acts|]).sys, o);
      StepUnsaid(Runs(s, fewer), acts[|acts| - 1], o, x, b);
    }
  }

  /** If no thread is notifying the object when a binding to it is made, the binding's packets report only what
      has been up since. */
  lemma SinceBound(s: State, t: nat, slot: nat, info: Binding, more: seq<Action>, x: nat)
    requires PortRace.Inv(s) && StackOf(s, t) == [] && slot !in s.sys.live && info.mask != {}
    requires info.port in s.sys.ports
    requires forall u: nat, f: Frame | f in StackOf(s, u) :: f.Set? || f.o != info.target
    requires var s1 := Step(s, Attach(t, slot, info)); var z := Runs(s1, more).sys;
      slot in z.pending && slot in z.info && z.info[slot].target == info.target && x in z.pending[slot]
    ensures !NeverUp(Step(s, Attach(t, slot, info)), more, info.target, x)
  {
    var s1, o := Step(s, Attach(t, slot, info)), info.target;
    if NeverUp(s1, more, o, x) {
      StepKeeps(s, Attach(t, slot, info));
      assert more[..0] == [] && Runs(s1, more[..0]) == s1 && x !in SigOf(s1.sys, o);
      NewUnsaid(s, t, slot, info, x);
      NothingMadeUp(s1, more, o, x, slot);
    }
  }

  lemma NewUnsaid(s: State, t: nat, slot: nat, info: Binding, x: nat)
    requires PortRace.Inv(s) && StackOf(s, t) == [] && slot !in s.sys.live && info.mask != {}
    requires info.port in s.sys.ports
    requires forall u: nat, f: Frame | f in StackOf(s, u) :: f.Set? || f.o != info.target
    requires x !in SigOf(Step(s, Attach(t, slot, info)).sys, info.target)
    ensures Unsaid(Step(s, Attach(t, slot, info)), info.target, x, slot)
  {
    assert InfoOk(s.sys, slot);
    assert Unsaid(s, info.target, x, slot);
    BindUnsaid(s, t, slot, info, info.target, x, slot);
  }

  /** In every run, a signal that a packet reports was up at some point of it. */
  lemma EverUp(acts: seq<Action>, b: nat, x: nat)
    requires var s := Runs(Initial(), acts).sys; b in s.pending && b in s.info && x in s.pending[b]
    ensures !NeverUp(Initial(), acts, Runs(Initial(), acts).sys.info[b].target, x)
  {
    var o := Runs(Initial(), acts).sys.info[b].target;
    if NeverUp(Initial(), acts, o, x) {
      InitialInv();
      NothingMadeUp(Initial(), acts, o, x, b);
    }
  }

  // ---------------------------------------------------------------- a packet about the past

  /** After the first packet is queued: its binding is unbound, the signal is cleared, and another binding is
      made in its place. */
  function Replaced(): seq<Action> { [Forget(1, 9), Clear(2, {5}), Attach(1, 7, INFO)] }

  /** Object 2's bindings and signals, whether binding 7 has a packet, and what the two threads have to do. */
  ghost predicate Stage(s: State, list: seq<nat>, up: set<nat>, waits: bool, frames: seq<Frame>) {
    && 1 in s.sys.ports && 2 !in s.sys.ports && 7 in s.sys.info && s.sys.info[7] == INFO && ListOf(s.sys, 2) == list
    && ListOf(s.sys, 1) == [] && SigOf(s.sys, 2) == up && (7 in s.sys.pending <==> waits) && StackOf(s, 0) == frames
    && StackOf(s, 1) == []
  }

  lemma OtherStack(s: State, a: Action, u: nat)
    requires (a.Signal? || a.Go? || a.Attach?) ==> a.t != u
    ensures StackOf(Step(s, a), u) == StackOf(s, u)
  {
  }

  lemma FirstStage()
    ensures Stage(Runs(Initial(), FirstPacket()), [7], {5}, true, [EDGE, Set(1)])
  {
    OneEdgeTwoPackets();
    SecondIdle(FirstPacket());
  }

  lemma {:induction false} SecondIdle(acts: seq<Action>)
    requires forall a | a in acts :: (a.Signal? || a.Go? || a.Attach?) ==> a.t != 1
    ensures StackOf(Runs(Initial(), acts), 1) == []
  {
    if acts != [] {
      SecondIdle(acts[..|acts| - 1]);
      assert acts[|acts| - 1] in acts;
      OtherStack(Runs(Initial(), acts[..|acts| - 1]), acts[|acts| - 1], 1);
    }
  }

  lemma SomebodyThere(q: seq<nat>)
    ensures q == [] || exists b: nat :: b in q
  {
    if q != [] { assert q[0] in q; }
  }

  lemma NowForgotten(s: State)
    requires PortRace.Inv(s) && Stage(s, [7], {5}, true, [EDGE, Set(1)])
    ensures var s' := Step(s, Forget(1, 9)); 7 !in s'.sys.live && Stage(s', [], {5}, false, [EDGE, Set(1)])
  {
    var s' := Step(s, Forget(1, 9));
    StepKeeps(s, Forget(1, 9));
    assert OwnedOk(s.sys, 1) && ListOk(s.sys, 2) && ListOk(s.sys, 1) && ListOk(s'.sys, 2) && ListOk(s'.sys, 1);
    assert 7 in ListOf(s.sys, 2);
    forall b: nat ensures b !in ListOf(s'.sys, 2) && b !in ListOf(s'.sys, 1) {
      UnboundExactly(s.sys, OwnedOf(s.sys, 1), 9, b);
    }
    UnboundExactly(s.sys, OwnedOf(s.sys, 1), 9, 7);
    SomebodyThere(ListOf(s'.sys, 2));
    SomebodyThere(ListOf(s'.sys, 1));
    SignalsUnbound(s.sys, OwnedOf(s.sys, 1), 9);
  }

  lemma {:induction false} SignalsUnbound(s: Sys, list: seq<nat>, key: nat)
    ensures Unbound(s, list, key).signals == s.signals && Unbound(s, list, key).ports == s.ports
    decreases |list|
  {
    if list != [] {
      var b := list[0];
      SignalsUnbound(if b in s.info && s.info[b].key == key then Detach(Withdraw(s, b), b) else s, list[1..], key);
    }
  }

  lemma NowReplaced(s: State)
    requires 7 !in s.sys.live && Stage(s, [], {5}, false, [EDGE, Set(1)])
    ensures Stage(Step(Step(s, Clear(2, {5})), Attach(1, 7, INFO)), [7], {}, false, [EDGE, Set(1)])
  {
    var s1 := Step(s, Clear(2, {5}));
    assert {5} - {5} == {} && Stage(s1, [], {}, false, [EDGE, Set(1)]);
    var a := PortModel.Attach(s1.sys, 7, INFO);
    assert [7] + ListOf(s1.sys, 2) == [7] && SigOf(a, 2) * {5} == {};
    assert Step(s1, Attach(1, 7, INFO)) == Next(s1, a, 1, []);
  }

  lemma NowSignalled(s: State)
    requires Stage(s, [7], {}, false, [EDGE, Set(1)])
    ensures Stage(Step(Step(s, Go(0)), Go(0)), [7], {}, false, [EDGE])
  {
    var s1 := Step(s, Go(0));
    var f := Check(1, SigOf(s.sys, 1), SigOf(s.sys, 1) + {READABLE});
    assert Top(s, 0) == Set(1) && Below(s, 0) == [EDGE] && [EDGE] + [f] == [EDGE, f];
    assert s1 == Next(s, Raise(s.sys, 1, {READABLE}), 0, [EDGE, f]);
    assert Stage(s1, [7], {}, false, [EDGE, f]);
    assert Top(s1, 0) == f && Below(s1, 0) == [EDGE] && [EDGE] + [] == [EDGE];
    assert Step(s1, Go(0)) == Next(s1, s1.sys, 0, [EDGE]);
  }

  lemma NowStale(s: State)
    requires Stage(s, [7], {}, false, [EDGE])
    ensures Stage(Step(s, Go(0)), [7], {}, true, [EDGE, Set(1)]) && PacketOf(Step(s, Go(0)).sys, 7) == {5}
  {
    var list := ListOf(s.sys, 2);
    assert {} * {5} == {} && {5} * {5} == {5} && list == [7] && ScanFrom(s.sys, list, {}, {5}).1 == Some(7);
    assert ScanFrom(s.sys, list, {}, {5}).0 == Enqueue(s.sys, 7, {5});
    assert Top(s, 0) == EDGE && [EDGE] + [Set(1)] == [EDGE, Set(1)];
    assert Step(s, Go(0)) == Next(s, Enqueue(s.sys, 7, {5}), 0, [EDGE, Set(1)]);
  }

  lemma {:induction false} RunsJoin(a: seq<Action>, b: seq<Action>)
    ensures Runs(Initial(), a + b) == Runs(Runs(Initial(), a), b)
    decreases |b|
  {
    if b == [] {
      assert a + b == a;
    } else {
      RunsJoin(a, b[..|b| - 1]);
      assert (a + b)[..|a + b| - 1] == a + b[..|b| - 1];
    }
  }

  lemma RunsLast(s: State, acts: seq<Action>, a: Action)
    ensures Runs(s, acts + [a]) == Step(Runs(s, acts), a)
  {
    assert (acts + [a])[..|acts|] == acts;
  }

  lemma RunsThree(s: State, a: Action, b: Action, c: Action)
    ensures Runs(s, [a, b, c]) == Step(Step(Step(s, a), b), c)
  {
    RunsLast(s, [], a);
    RunsLast(s, [a], b);
    RunsLast(s, [a, b], c);
    assert [] + [a] == [a] && [a] + [b] == [a, b] && [a, b] + [c] == [a, b, c];
  }

  /** A binding can get a packet about a signal that is not up and has not been since it was made: the
      notification of a transition before its time comes to it all the same. */
  lemma StalePacket()
    ensures Stage(Runs(Initial(), FirstPacket() + Replaced()), [7], {}, false, [EDGE, Set(1)])
    ensures var s := Runs(Initial(), FirstPacket() + Replaced() + Onward());
      Stage(s, [7], {}, true, [EDGE, Set(1)]) && PacketOf(s.sys, 7) == {5}
  {
    var s := Runs(Initial(), FirstPacket());
    FirstStage();
    RunKeeps(FirstPacket());
    NowForgotten(s);
    NowReplaced(Step(s, Forget(1, 9)));
    RunsJoin(FirstPacket(), Replaced());
    RunsThree(s, Forget(1, 9), Clear(2, {5}), Attach(1, 7, INFO));
    var s1 := Runs(Initial(), FirstPacket() + Replaced());
    NowSignalled(s1);
    NowStale(Step(Step(s1, Go(0)), Go(0)));
    RunsJoin(FirstPacket() + Replaced(), Onward());
    RunsThree(s1, Go(0), Go(0), Go(0));
  }
}
