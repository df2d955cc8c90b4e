/** Ports with any number of threads: producers that signal, binders, and the consumer, interleaved at every
    point where the port lock is not held. A step is one locked block or one atomic access. */
module PortRace {

  import opened Basics
  import opened PortModel

  /** What a thread has still to do, innermost call last: set READABLE on a port, look whether an object has
      bindings, or scan them for a transition. */
  datatype Frame = Set(p: nat) | Check(o: nat, prev: set<nat>, cur: set<nat>)
      | Scan(o: nat, prev: set<nat>, cur: set<nat>)

  /** told has the bindings whose packet was taken since their object's signals came into their mask. */
  datatype State = State(sys: Sys, stack: imap<nat, seq<Frame>>, told: iset<nat>)

  function StackOf(s: State, t: nat): seq<Frame> { if t in s.stack then s.stack[t] else [] }

  predicate Inside(s: Sys, b: nat) { b in s.info && SigOf(s, s.info[b].target) * s.info[b].mask != {} }

  /** After a step: what the consumer took is told, and what went outside its mask is not any more. */
  ghost function Told(was: iset<nat>, taken: iset<nat>, sys: Sys): iset<nat> {
    iset b: nat | (b in was || b in taken) && Inside(sys, b)
  }

  ghost function Next(s: State, sys: Sys, t: nat, frames: seq<Frame>): State {
    State(sys, s.stack[t := frames], Told(s.told, iset{}, sys))
  }

  // ---------------------------------------------------------------- the steps

  datatype Action =
    | Make(p: nat)
    | Signal(t: nat, o: nat, bits: set<nat>)      // signal_set's fetch_or, by anyone on any object but a port
    | Clear(o: nat, bits: set<nat>)
    | Go(t: nat)                                  // the thread's next block or access
    | Attach(t: nat, slot: nat, info: Binding)    // bind's locked block
    | Take(p: nat)                                // dequeue
    | Forget(p: nat, key: nat)                    // unbind's locked block

  ghost function Top(s: State, t: nat): Frame
    requires StackOf(s, t) != []
  {
    StackOf(s, t)[|StackOf(s, t)| - 1]
  }

  ghost function Below(s: State, t: nat): seq<Frame>
    requires StackOf(s, t) != []
  {
    StackOf(s, t)[..|StackOf(s, t)| - 1]
  }

  ghost function Advance(s: State, t: nat): State
    requires StackOf(s, t) != []
  {
    match Top(s, t)
    case Set(p) => Raised(s, t, p)
    case Check(o, prev, cur) => Next(s, s.sys, t, Below(s, t) + if ListOf(s.sys, o) == [] then []
      else [Scan(o, prev, cur)])
    case Scan(o, prev, cur) => Scanned(s, t, o, prev, cur)
  }

  /** signal_set(READABLE) on a port. */
  ghost function Raised(s: State, t: nat, p: nat): State
    requires StackOf(s, t) != []
  {
    Next(s, Raise(s.sys, p, {READABLE}), t, Below(s, t) + [Check(p, SigOf(s.sys, p), SigOf(s.sys, p) + {READABLE})])
  }

  /** One locked scan; the binding it queued, if any, has its port still to be signalled. */
  ghost function Scanned(s: State, t: nat, o: nat, prev: set<nat>, cur: set<nat>): State
    requires StackOf(s, t) != []
  {
    var (sys, hit) := ScanFrom(s.sys, ListOf(s.sys, o), prev, cur);
    if hit.None? || hit.value !in sys.info then Next(s, sys, t, Below(s, t))
    else Next(s, sys, t, StackOf(s, t) + [Set(sys.info[hit.value].port)])
  }

  ghost function Bound(s: State, t: nat, slot: nat, info: Binding): State {
    var a := PortModel.Attach(s.sys, slot, info);
    var asserted := SigOf(a, info.target) * info.mask;
    if asserted == {} then Next(s, a, t, []) else Next(s, Enqueue(a, slot, asserted), t, [Set(info.port)])
  }

  /** The head packet comes off and READABLE goes with the last, all under the lock. */
  ghost function Taken(s: State, p: nat): State {
    var q := ReadyOf(s.sys, p);
    if q == [] then s.(sys := Lower(s.sys, p, {READABLE}), told := Told(s.told, iset{}, Lower(s.sys, p, {READABLE})))
    else if q[0] !in s.sys.info then s
    else
      var w := Withdraw(s.sys, q[0]);
      var sys := if ReadyOf(w, p) == [] then Lower(w, p, {READABLE}) else w;
      s.(sys := sys, told := Told(s.told, iset{q[0]}, sys))
  }

  /** Every binding of p under the key leaves every list, one after the other. */
  function Unbound(s: Sys, list: seq<nat>, key: nat): Sys
    decreases |list|
  {
    if list == [] then s
    else
      var b := list[0];
      var rest := if b in s.info && s.info[b].key == key then Detach(Withdraw(s, b), b) else s;
      Unbound(rest, list[1..], key)
  }

  ghost function Forgotten(s: State, p: nat, key: nat): State {
    var u := Unbound(s.sys, OwnedOf(s.sys, p), key);
    var sys := if ReadyOf(u, p) == [] then Lower(u, p, {READABLE}) else u;
    s.(sys := sys, told := Told(s.told, iset{}, sys))
  }

  ghost function Step(s: State, a: Action): State {
    match a
    case Make(p) =>
      if p !in s.sys.ports && SigOf(s.sys, p) == {} then s.(sys := s.sys.(ports := s.sys.ports + {p})) else s
    case Signal(t, o, bits) =>
      if StackOf(s, t) == [] && o !in s.sys.ports
      then Next(s, Raise(s.sys, o, bits), t, [Check(o, SigOf(s.sys, o), SigOf(s.sys, o) + bits)])
      else s
    case Clear(o, bits) =>
      if o in s.sys.ports then s
          else s.(sys := Lower(s.sys, o, bits), told := Told(s.told, iset{}, Lower(s.sys, o, bits)))
    case Go(t) => if StackOf(s, t) == [] then s else Advance(s, t)
    case Attach(t, slot, info) =>
      if StackOf(s, t) == [] && slot !in s.sys.live && info.mask != {} && info.port in s.sys.ports
      then Bound(s, t, slot, info)
      else s
    case Take(p) => if p in s.sys.ports then Taken(s, p) else s
    case Forget(p, key) => if p in s.sys.ports then Forgotten(s, p, key) else s
  }

  ghost function Runs(s: State, acts: seq<Action>): State {
    if acts == [] then s else Step(Runs(s, acts[..|acts| - 1]), acts[|acts| - 1])
  }

  function Initial(): State {
    State(Sys({}, {}, imap[], imap[], imap[], imap[], imap[], imap[]), imap[], iset{})
  }

  // ---------------------------------------------------------------- what every step keeps

  /** Some thread has still to set READABLE on the port. */
  ghost predicate ToSet(s: State, p: nat) { exists t: nat :: Set(p) in StackOf(s, t) }

  /** The frame is of a transition into the binding's mask. */
  predicate Owes(f: Frame, info: Binding) {
    !f.Set? && f.o == info.target && f.prev * info.mask == {} && f.cur * info.mask != {}
  }

  /** Some thread has still to scan for a transition that queues the binding. */
  ghost predicate ToQueue(s: State, info: Binding) { exists t: nat, f: Frame :: f in StackOf(s, t) && Owes(f, info) }

  ghost predicate Loud(s: State, p: nat) {
    p in s.sys.ports && ReadyOf(s.sys, p) != [] ==> READABLE in SigOf(s.sys, p) || ToSet(s, p)
  }

  ghost predicate Heard(s: State, b: nat) {
    b in s.sys.live && Inside(s.sys, b) ==> b in s.sys.pending || b in s.told || ToQueue(s, s.sys.info[b])
  }

  ghost predicate FramesOk(s: State, t: nat) { forall f | f in StackOf(s, t) && f.Set? :: f.p in s.sys.ports }

  ghost predicate Inv(s: State) {
    && Ok(s.sys) && (forall p: nat {:trigger Loud(s, p)} :: Loud(s, p))
    && (forall b: nat {:trigger Heard(s, b)} :: Heard(s, b))
    && (forall t: nat {:trigger FramesOk(s, t)} :: FramesOk(s, t))
  }

  // ---------------------------------------------------------------- one scan

  ghost predicate AllListed(s: Sys, list: seq<nat>, o: nat) {
    forall b | b in list :: b in s.live && b in s.info && s.info[b].target == o
  }

  /** A scan changes packets and queues only, loses none, and queues at most the binding it reports; when it
      reports none, every listed binding that the transition owes a packet has one. */
  ghost predicate ScanDid(s: Sys, list: seq<nat>, prev: set<nat>, cur: set<nat>, s': Sys, hit: Option<nat>) {
    && s' == s.(pending := s'.pending, ready := s'.ready) && (forall b: nat | b in s.pending :: b in s'.pending)
    && (hit.Some? ==> hit.value in list && hit.value in s.info && hit.value !in s.pending && hit.value in s'.pending)
    && (forall p: nat | hit.None? || s.info[hit.value].port != p :: ReadyOf(s', p) == ReadyOf(s, p))
    && (hit.None? ==>
       forall b | b in list && b in s.info && prev * s.info[b].mask == {} && cur * s.info[b].mask != {} ::
          b in s'.pending)
  }

  lemma {:induction false} ScanIs(s: Sys, list: seq<nat>, o: nat, prev: set<nat>, cur: set<nat>)
    requires Ok(s) && AllListed(s, list, o)
    ensures var (s', hit) := ScanFrom(s, list, prev, cur); Ok(s') && ScanDid(s, list, prev, cur, s', hit)
    decreases |list|
  {
    if list != [] {
      var b := list[0];
      assert list == [b] + list[1..];
      var hits := cur * s.info[b].mask;
      if hits != {} && b in s.pending {
        CoalesceOk(s, b, hits);
        ScanIs(Coalesce(s, b, hits), list[1..], o, prev, cur);
      } else if hits != {} && prev * s.info[b].mask == {} {
        EnqueueOk(s, b, hits);
      } else {
        ScanIs(s, list[1..], o, prev, cur);
      }
    }
  }

  // ---------------------------------------------------------------- every step keeps it

  /** No thread's frames are gone, but perhaps the last of t's. */
  ghost predicate KeepsFrames(s: State, s': State, t: nat) {
    && (forall u: nat | u != t :: StackOf(s', u) == StackOf(s, u))
    && forall f | f in StackOf(s, t) :: f in StackOf(s', t) || (StackOf(s, t) != [] && f == Top(s, t))
  }

  lemma SetsStay(s: State, s': State, t: nat, p: nat)
    requires KeepsFrames(s, s', t) && ToSet(s, p) && (StackOf(s, t) == [] || Top(s, t) != Set(p))
    ensures ToSet(s', p)
  {
    var u: nat :| Set(p) in StackOf(s, u);
    assert Set(p) in StackOf(s', u);
  }

  lemma QueuesStay(s: State, s': State, t: nat, info: Binding)
    requires KeepsFrames(s, s', t) && ToQueue(s, info)
    requires StackOf(s, t) == [] || !Owes(Top(s, t), info) || Top(s, t) in StackOf(s', t)
             || exists f :: f in StackOf(s', t) && Owes(f, info)
    ensures ToQueue(s', info)
  {
    var u: nat, f: Frame :| f in StackOf(s, u) && Owes(f, info);
    if u != t || f in StackOf(s', t) { assert f in StackOf(s', u); }
  }

  /** An object's signals grow, and the frame of the transition is on the stack. */
  lemma RaiseInv(s: State, s': State, t: nat, o: nat, bits: set<nat>)
    requires Inv(s) && (o in s.sys.ports ==> bits == {READABLE}) && s'.sys == Raise(s.sys, o, bits)
    requires s'.told == Told(s.told, iset{}, s'.sys) && KeepsFrames(s, s', t)
    requires Check(o, SigOf(s.sys, o), SigOf(s.sys, o) + bits) in StackOf(s', t) && FramesOk(s', t)
    requires StackOf(s, t) == [] || Top(s, t) == Set(o)
    ensures Inv(s')
  {
    var f := Check(o, SigOf(s.sys, o), SigOf(s.sys, o) + bits);
    RaiseKeeps(s.sys, o, bits);
    forall p: nat ensures Loud(s', p) {
      assert Loud(s, p);
      if ToSet(s, p) && p != o { SetsStay(s, s', t, p); }
      if p == o && StackOf(s, t) == [] && ToSet(s, p) { SetsStay(s, s', t, p); }
    }
    forall b: nat ensures Heard(s', b) {
      assert Heard(s, b);
      if b in s'.sys.live && Inside(s'.sys, b) {
        var info := s'.sys.info[b];
        if !Inside(s.sys, b) { assert Owes(f, info) && f in StackOf(s', t); }
        else if ToQueue(s, info) { QueuesStay(s, s', t, info); }
      }
    }
    forall u: nat ensures FramesOk(s', u) { assert FramesOk(s, u); }
  }

  lemma SignalInv(s: State, t: nat, o: nat, bits: set<nat>)
    requires Inv(s) && StackOf(s, t) == [] && o !in s.sys.ports
    ensures Inv(Step(s, Signal(t, o, bits)))
  {
    var s' := Step(s, Signal(t, o, bits));
    assert StackOf(s', t) == [Check(o, SigOf(s.sys, o), SigOf(s.sys, o) + bits)];
    RaiseInv(s, s', t, o, bits);
  }

  lemma SetInv(s: State, t: nat, p: nat)
    requires Inv(s) && StackOf(s, t) != [] && Top(s, t) == Set(p)
    ensures Inv(Raised(s, t, p))
  {
    var s' := Raised(s, t, p);
    assert FramesOk(s, t) && Top(s, t) in StackOf(s, t);
    FramesTop(s, t);
    assert StackOf(s', t) == Below(s, t) + [Check(p, SigOf(s.sys, p), SigOf(s.sys, p) + {READABLE})];
    RaiseInv(s, s', t, p, {READABLE});
  }

  lemma FramesTop(s: State, t: nat)
    requires StackOf(s, t) != []
    ensures forall f :: f in StackOf(s, t) <==> f in Below(s, t) || f == Top(s, t)
  {
    assert StackOf(s, t) == Below(s, t) + [Top(s, t)];
  }

  lemma CheckInv(s: State, t: nat, o: nat, prev: set<nat>, cur: set<nat>)
    requires Inv(s) && StackOf(s, t) != [] && Top(s, t) == Check(o, prev, cur)
    ensures Inv(Advance(s, t))
  {
    var s', f := Advance(s, t), Scan(o, prev, cur);
    FramesTop(s, t);
    assert StackOf(s', t) == Below(s, t) + if ListOf(s.sys, o) == [] then [] else [f];
    forall p: nat ensures Loud(s', p) {
      assert Loud(s, p);
      if ToSet(s, p) { SetsStay(s, s', t, p); }
    }
    forall b: nat ensures Heard(s', b) {
      assert Heard(s, b);
      if b in s'.sys.live && Inside(s'.sys, b) && ToQueue(s, s'.sys.info[b]) {
        var info := s'.sys.info[b];
        assert ListOk(s.sys, info.target);
        if Owes(Top(s, t), info) { assert Owes(f, info) && f in StackOf(s', t); }
        QueuesStay(s, s', t, info);
      }
    }
    forall u: nat ensures FramesOk(s', u) { assert FramesOk(s, u); }
  }

  lemma ScanInv(s: State, t: nat, o: nat, prev: set<nat>, cur: set<nat>)
    requires Inv(s) && StackOf(s, t) != [] && Top(s, t) == Scan(o, prev, cur)
    ensures Inv(Scanned(s, t, o, prev, cur))
  {
    var (sys, hit) := ScanFrom(s.sys, ListOf(s.sys, o), prev, cur);
    var s' := Scanned(s, t, o, prev, cur);
    assert ListOk(s.sys, o);
    ScanIs(s.sys, ListOf(s.sys, o), o, prev, cur);
    FramesTop(s, t);
    if hit.Some? { assert InfoOk(sys, hit.value) && StackOf(s', t) == StackOf(s, t) + [Set(sys.info[hit.value].port)]; }
    else { assert StackOf(s', t) == Below(s, t); }
    forall p: nat ensures Loud(s', p) {
      assert Loud(s, p);
      if ToSet(s, p) { SetsStay(s, s', t, p); }
      if hit.Some? && p == sys.info[hit.value].port { assert Set(p) in StackOf(s', t); }
    }
    forall b: nat ensures Heard(s', b) {
      assert Heard(s, b);
      if b in s'.sys.live && Inside(s'.sys, b) && b !in s'.sys.pending && ToQueue(s, s'.sys.info[b]) {
        assert ListOk(s.sys, s'.sys.info[b].target);
        QueuesStay(s, s', t, s'.sys.info[b]);
      }
    }
    forall u: nat ensures FramesOk(s', u) { assert FramesOk(s, u); }
  }

  /** Stacks as they were, signals no higher, and bindings only fewer. */
  lemma LowerInv(s: State, s': State, taken: iset<nat>)
    requires Inv(s) && Ok(s'.sys) && s'.stack == s.stack && s'.told == Told(s.told, taken, s'.sys)
    requires s'.sys.ports == s.sys.ports && s'.sys.info == s.sys.info && s'.sys.live <= s.sys.live
    requires forall o: nat :: SigOf(s'.sys, o) <= SigOf(s.sys, o)
    requires forall b: nat | b in s.sys.pending && b in s'.sys.live :: b in s'.sys.pending || b in taken
    requires forall p: nat | p in s.sys.ports && ReadyOf(s'.sys, p) != [] ::
      ReadyOf(s.sys, p) != [] && (READABLE in SigOf(s.sys, p) ==> READABLE in SigOf(s'.sys, p))
    ensures Inv(s')
  {
    forall t: nat ensures StackOf(s', t) == StackOf(s, t) {}
    forall p: nat ensures Loud(s', p) {
      assert Loud(s, p);
      if ToSet(s, p) {
        var t: nat :| Set(p) in StackOf(s, t);
        assert Set(p) in StackOf(s', t);
      }
    }
    forall b: nat ensures Heard(s', b) {
      assert Heard(s, b);
      if b in s'.sys.live && Inside(s'.sys, b) {
        assert Inside(s.sys, b);
        if ToQueue(s, s.sys.info[b]) {
          var t: nat, f: Frame :| f in StackOf(s, t) && Owes(f, s.sys.info[b]);
          assert f in StackOf(s', t);
        }
      }
    }
    forall u: nat ensures FramesOk(s', u) { assert FramesOk(s, u); }
  }

  lemma TakeInv(s: State, p: nat)
    requires Inv(s) && p in s.sys.ports
    ensures Inv(Taken(s, p))
  {
    var q := ReadyOf(s.sys, p);
    if q == [] {
      LowerOk(s.sys, p, {READABLE});
      LowerInv(s, Taken(s, p), iset{});
    } else {
      assert QueueOk(s.sys, p) && q[0] in q;
      var w := Withdraw(s.sys, q[0]);
      WithdrawKeeps(s.sys, q[0]);
      LowerOk(w, p, {READABLE});
      LowerInv(s, Taken(s, p), iset{q[0]});
    }
  }

  /** Some bindings are gone, each with its packet. */
  ghost predicate Fewer(s: Sys, s': Sys) {
    && s' == s.(live := s'.live, lists := s'.lists, owned := s'.owned, pending := s'.pending, ready := s'.ready)
    && s'.live <= s.live && (forall b: nat | b in s.pending && b in s'.live :: b in s'.pending)
    && forall p: nat | ReadyOf(s', p) != [] :: ReadyOf(s, p) != []
  }

  lemma {:induction false} UnboundIs(s: Sys, list: seq<nat>, key: nat)
    requires Ok(s) && NoDup(list) && forall b | b in list :: b in s.live && b in s.info
    ensures Ok(Unbound(s, list, key)) && Fewer(s, Unbound(s, list, key))
    decreases |list|
  {
    if list != [] {
      var b := list[0];
      assert list == [b] + list[1..] && b !in list[1..] && NoDup(list[1..]);
      if s.info[b].key == key {
        var w := Withdraw(s, b);
        WithdrawKeeps(s, b);
        DetachKeeps(w, b);
        UnboundIs(Detach(w, b), list[1..], key);
      } else {
        UnboundIs(s, list[1..], key);
      }
    }
  }

  lemma ForgetInv(s: State, p: nat, key: nat)
    requires Inv(s) && p in s.sys.ports
    ensures Inv(Forgotten(s, p, key))
  {
    assert OwnedOk(s.sys, p);
    UnboundIs(s.sys, OwnedOf(s.sys, p), key);
    LowerOk(Unbound(s.sys, OwnedOf(s.sys, p), key), p, {READABLE});
    LowerInv(s, Forgotten(s, p, key), iset{});
  }

  lemma BindInv(s: State, t: nat, slot: nat, info: Binding)
    requires Inv(s) && StackOf(s, t) == [] && slot !in s.sys.live && info.mask != {} && info.port in s.sys.ports
    ensures Inv(Bound(s, t, slot, info))
  {
    var s', a := Bound(s, t, slot, info), PortModel.Attach(s.sys, slot, info);
    var asserted := SigOf(a, info.target) * info.mask;
    AttachKeeps(s.sys, slot, info);
    if asserted != {} { EnqueueOk(a, slot, asserted); }
    assert StackOf(s', t) == if asserted == {} then [] else [Set(info.port)];
    forall p: nat ensures Loud(s', p) {
      assert Loud(s, p);
      if ToSet(s, p) { SetsStay(s, s', t, p); }
      if p == info.port && asserted != {} { assert Set(p) in StackOf(s', t); }
    }
    forall b: nat ensures Heard(s', b) {
      assert Heard(s, b);
      if b != slot && b in s'.sys.live && Inside(s'.sys, b) && ToQueue(s, s'.sys.info[b]) {
        QueuesStay(s, s', t, s'.sys.info[b]);
      }
    }
    forall u: nat ensures FramesOk(s', u) { assert FramesOk(s, u); }
  }

  lemma MakeInv(s: State, p: nat)
    requires Inv(s) && p !in s.sys.ports && SigOf(s.sys, p) == {}
    ensures Inv(s.(sys := s.sys.(ports := s.sys.ports + {p})))
  {
    var s' := s.(sys := s.sys.(ports := s.sys.ports + {p}));
    CreateOk(s.sys, p);
    forall t: nat ensures StackOf(s', t) == StackOf(s, t) {}
    forall q: nat ensures Loud(s', q) {
      assert Loud(s, q);
      if ToSet(s, q) {
        var t: nat :| Set(q) in StackOf(s, t);
        assert Set(q) in StackOf(s', t);
      }
    }
    forall b: nat ensures Heard(s', b) {
      assert Heard(s, b);
      if b in s.sys.live && Inside(s.sys, b) && ToQueue(s, s.sys.info[b]) {
        var t: nat, f: Frame :| f in StackOf(s, t) && Owes(f, s.sys.info[b]);
        assert f in StackOf(s', t);
      }
    }
    forall u: nat ensures FramesOk(s', u) { assert FramesOk(s, u); }
  }

  lemma StepKeeps(s: State, a: Action)
    requires Inv(s)
    ensures Inv(Step(s, a))
  {
    match a
    case Make(p) => if p !in s.sys.ports && SigOf(s.sys, p) == {} { MakeInv(s, p); }
    case Signal(t, o, bits) => if StackOf(s, t) == [] && o !in s.sys.ports { SignalInv(s, t, o, bits); }
    case Clear(o, bits) => if o !in s.sys.ports { ClearInv(s, o, bits); }
    case Go(t) => if StackOf(s, t) != [] { AdvanceInv(s, t); }
    case Attach(t, slot, info) =>
      if StackOf(s, t) == [] && slot !in s.sys.live && info.mask != {} && info.port in s.sys.ports {
        BindInv(s, t, slot, info);
      }
    case Take(p) => if p in s.sys.ports { TakeInv(s, p); }
    case Forget(p, key) => if p in s.sys.ports { ForgetInv(s, p, key); }
  }

  lemma ClearInv(s: State, o: nat, bits: set<nat>)
    requires Inv(s) && o !in s.sys.ports
    ensures Inv(Step(s, Clear(o, bits)))
  {
    LowerOk(s.sys, o, bits);
    LowerInv(s, Step(s, Clear(o, bits)), iset{});
  }

  lemma AdvanceInv(s: State, t: nat)
    requires Inv(s) && StackOf(s, t) != []
    ensures Inv(Advance(s, t))
  {
    match Top(s, t)
    case Set(p) => SetInv(s, t, p);
    case Check(o, prev, cur) => CheckInv(s, t, o, prev, cur);
    case Scan(o, prev, cur) => ScanInv(s, t, o, prev, cur);
  }

  lemma {:induction false} RunKeeps(acts: seq<Action>)
    ensures Inv(Runs(Initial(), acts))
  {
    if acts == [] {
      InitialInv();
    } else {
      RunKeeps(acts[..|acts| - 1]);
      StepKeeps(Runs(Initial(), acts[..|acts| - 1]), acts[|acts| - 1]);
    }
  }

  lemma InitialInv()
    ensures Inv(Initial())
  {
    var s := Initial();
    forall b: nat ensures InfoOk(s.sys, b) {}
    forall o: nat ensures ListOk(s.sys, o) {}
    forall p: nat ensures QueueOk(s.sys, p) && OwnedOk(s.sys, p) && Loud(s, p) {}
    forall t: nat ensures FramesOk(s, t) {}
  }

  // ---------------------------------------------------------------- what every run guarantees

  /** READABLE is never left low on a queue with packets: if it is low, a producer has still to set it. */
  lemma NeverLeftLow(acts: seq<Action>, p: nat)
    requires var s := Runs(Initial(), acts); p in s.sys.ports && ReadyOf(s.sys, p) != []
    ensures var s := Runs(Initial(), acts); READABLE in SigOf(s.sys, p) || ToSet(s, p)
  {
    RunKeeps(acts);
    assert Loud(Runs(Initial(), acts), p);
  }

  /** No transition is lost: while an object's signals are inside a binding's mask a packet waits, or the
      consumer has taken one since they came inside, or a producer has still to queue one. */
  lemma NoLostEdge(acts: seq<Action>, b: nat)
    requires var s := Runs(Initial(), acts); b in s.sys.live && Inside(s.sys, b)
    ensures var s := Runs(Initial(), acts); b in s.sys.pending || b in s.told || ToQueue(s, s.sys.info[b])
  {
    RunKeeps(acts);
    assert Heard(Runs(Initial(), acts), b);
  }

  // ---------------------------------------------------------------- one transition, two packets

  /** The transition owes the binding a packet, and it has none waiting. */
  predicate Due(s: Sys, prev: set<nat>, cur: set<nat>, b: nat) {
    b in s.info && b !in s.pending && prev * s.info[b].mask == {} && cur * s.info[b].mask != {}
  }

  /** The i-th of the list is due and none before it is. */
  predicate DueAt(s: Sys, list: seq<nat>, prev: set<nat>, cur: set<nat>, i: nat) {
    i < |list| && Due(s, prev, cur, list[i]) && forall j | 0 <= j < i :: !Due(s, prev, cur, list[j])
  }

  ghost predicate FirstDue(s: Sys, list: seq<nat>, prev: set<nat>, cur: set<nat>, b: nat) {
    exists i: nat :: DueAt(s, list, prev, cur, i) && list[i] == b
  }

  /** What a scan queues: exactly the first binding that is due. */
  lemma {:induction false} HitExactly(s: Sys, list: seq<nat>, prev: set<nat>, cur: set<nat>, b: nat)
    requires NoDup(list)
    ensures ScanFrom(s, list, prev, cur).1 == Some(b) <==> FirstDue(s, list, prev, cur, b)
    decreases |list|
  {
    if list != [] {
      var c, rest := list[0], list[1..];
      assert list == [c] + rest && c !in rest && NoDup(rest);
      if Due(s, prev, cur, c) {
        assert DueAt(s, list, prev, cur, 0);
      } else {
        var s1 := if c in s.info && cur * s.info[c].mask != {} && c in s.pending
                  then Coalesce(s, c, cur * s.info[c].mask) else s;
        HitExactly(s1, rest, prev, cur, b);
        SameDue(s, s1, rest, prev, cur, b);
        ShiftDue(s, list, prev, cur, b);
      }
    }
  }

  lemma SameDue(s: Sys, s1: Sys, list: seq<nat>, prev: set<nat>, cur: set<nat>, b: nat)
    requires s1.info == s.info && forall x: nat :: x in s1.pending <==> x in s.pending
    ensures FirstDue(s1, list, prev, cur, b) <==> FirstDue(s, list, prev, cur, b)
  {
    forall i: nat ensures DueAt(s1, list, prev, cur, i) <==> DueAt(s, list, prev, cur, i) {
      forall x: nat ensures Due(s1, prev, cur, x) <==> Due(s, prev, cur, x) {}
    }
  }

  lemma ShiftDue(s: Sys, list: seq<nat>, prev: set<nat>, cur: set<nat>, b: nat)
    requires list != [] && !Due(s, prev, cur, list[0])
    ensures FirstDue(s, list, prev, cur, b) <==> FirstDue(s, list[1..], prev, cur, b)
  {
    var rest := list[1..];
    if FirstDue(s, list, prev, cur, b) {
      var i: nat :| DueAt(s, list, prev, cur, i) && list[i] == b;
      forall j | 0 <= j < i - 1 ensures !Due(s, prev, cur, rest[j]) { assert rest[j] == list[j + 1]; }
      assert DueAt(s, rest, prev, cur, i - 1) && rest[i - 1] == b;
    }
    if FirstDue(s, rest, prev, cur, b) {
      var i: nat :| DueAt(s, rest, prev, cur, i) && rest[i] == b;
      forall j | 0 <= j < i + 1 ensures !Due(s, prev, cur, list[j]) { if j > 0 { assert list[j] == rest[j - 1]; } }
      assert DueAt(s, list, prev, cur, i + 1) && list[i + 1] == b;
    }
  }

  const INFO := Binding(9, {5}, 2, 1)

  /** Port 1 watches object 2, and object 2 has just been signalled and scanned. */
  function FirstPacket(): seq<Action> { [Make(1), Attach(0, 7, INFO), Signal(0, 2, {5}), Go(0), Go(0)] }

  /** The producer goes on: it signals the port, finds nobody bound to that, and scans again. */
  function Onward(): seq<Action> { [Go(0), Go(0), Go(0)] }

  lemma RunsOn(acts: seq<Action>, a: Action)
    ensures Runs(Initial(), acts + [a]) == Step(Runs(Initial(), acts), a)
  {
    assert (acts + [a])[..|acts|] == acts;
  }

  /** Binding 7 is the only one, and object 2 has signalled. */
  ghost predicate Scene(s: State, ready: seq<nat>, frames: seq<Frame>) {
    && 1 in s.sys.ports && 2 !in s.sys.ports && 7 in s.sys.info && s.sys.info[7] == INFO
    && ListOf(s.sys, 2) == [7] && ListOf(s.sys, 1) == [] && SigOf(s.sys, 2) == {5}
    && ReadyOf(s.sys, 1) == ready && (7 in s.sys.pending <==> ready == [7]) && StackOf(s, 0) == frames
  }

  const EDGE := Scan(2, {}, {5})

  lemma Watched()
    ensures var s := Runs(Initial(), [Make(1), Attach(0, 7, INFO)]);
      && 1 in s.sys.ports && 2 !in s.sys.ports && 7 in s.sys.info && s.sys.info[7] == INFO
      && ListOf(s.sys, 2) == [7] && ListOf(s.sys, 1) == [] && SigOf(s.sys, 2) == {}
      && ReadyOf(s.sys, 1) == [] && 7 !in s.sys.pending && StackOf(s, 0) == []
  {
    var s0 := Initial();
    RunsOn([], Make(1));
    RunsOn([Make(1)], Attach(0, 7, INFO));
    assert [] + [Make(1)] == [Make(1)] && [Make(1)] + [Attach(0, 7, INFO)] == [Make(1), Attach(0, 7, INFO)];
    var s1 := s0.(sys := s0.sys.(ports := {1}));
    assert s0.sys.ports + {1} == {1};
    assert Step(s0, Make(1)) == s1;
    var a := PortModel.Attach(s1.sys, 7, INFO);
    assert [7] + ListOf(s1.sys, 2) == [7] && SigOf(a, 2) * {5} == {};
    assert Step(s1, Attach(0, 7, INFO)) == Next(s1, a, 0, []);
  }

  lemma Signalled()
    ensures Scene(Runs(Initial(), [Make(1), Attach(0, 7, INFO), Signal(0, 2, {5}), Go(0)]), [], [EDGE])
  {
    Watched();
    var a := [Make(1), Attach(0, 7, INFO)];
    var s := Runs(Initial(), a);
    RunsOn(a, Signal(0, 2, {5}));
    var s1 := Step(s, Signal(0, 2, {5}));
    assert {} + {5} == {5} && StackOf(s1, 0) == [Check(2, {}, {5})] && s1.sys == Raise(s.sys, 2, {5});
    assert a + [Signal(0, 2, {5})] == [Make(1), Attach(0, 7, INFO), Signal(0, 2, {5})];
    RunsOn([Make(1), Attach(0, 7, INFO), Signal(0, 2, {5})], Go(0));
    assert [Make(1), Attach(0, 7, INFO), Signal(0, 2, {5})] + [Go(0)]
        == [Make(1), Attach(0, 7, INFO), Signal(0, 2, {5}), Go(0)];
    assert Below(s1, 0) == [] && Step(s1, Go(0)) == Next(s1, s1.sys, 0, [] + [EDGE]);
    assert [] + [EDGE] == [EDGE];
  }

  /** The scan queues binding 7 whenever it has no packet waiting. */
  lemma ScanAgain(s: State)
    requires Scene(s, [], [EDGE])
    ensures Scene(Step(s, Go(0)), [7], [EDGE, Set(1)])
  {
    var list := ListOf(s.sys, 2);
    assert {} * {5} == {} && {5} * {5} == {5} && list == [7] && ScanFrom(s.sys, list, {}, {5}).1 == Some(7);
    assert ScanFrom(s.sys, list, {}, {5}).0 == Enqueue(s.sys, 7, {5}) && [] + [7] == [7];
    assert Top(s, 0) == EDGE && [EDGE] + [Set(1)] == [EDGE, Set(1)];
    assert Step(s, Go(0)) == Next(s, Enqueue(s.sys, 7, {5}), 0, [EDGE, Set(1)]);
  }

  lemma Consumed(s: State)
    requires Scene(s, [7], [EDGE, Set(1)])
    ensures Scene(Step(s, Take(1)), [], [EDGE, Set(1)])
  {
    assert Without([7], 7) == [];
  }

  lemma GoesOn(s: State)
    requires Scene(s, [], [EDGE, Set(1)])
    ensures Scene(Step(Step(s, Go(0)), Go(0)), [], [EDGE])
  {
    var s1 := Step(s, Go(0));
    var f := Check(1, SigOf(s.sys, 1), SigOf(s.sys, 1) + {READABLE});
    assert Top(s, 0) == Set(1) && Below(s, 0) == [EDGE] && [EDGE] + [f] == [EDGE, f];
    assert s1 == Next(s, Raise(s.sys, 1, {READABLE}), 0, [EDGE, f]);
    assert Scene(s1, [], [EDGE, f]);
    assert Top(s1, 0) == f && Below(s1, 0) == [EDGE] && [EDGE] + [] == [EDGE];
    assert Step(s1, Go(0)) == Next(s1, s1.sys, 0, [EDGE]);
  }

  /** One transition of the object's signals can deliver two packets: if the consumer takes the first before
      the producer has scanned again, the same transition queues the binding once more. */
  lemma OneEdgeTwoPackets()
    ensures Scene(Runs(Initial(), FirstPacket()), [7], [EDGE, Set(1)])
    ensures Scene(Runs(Initial(), FirstPacket() + [Take(1)]), [], [EDGE, Set(1)])
    ensures Scene(Runs(Initial(), FirstPacket() + [Take(1)] + Onward()), [7], [EDGE, Set(1)])
  {
    var a, b := [Make(1), Attach(0, 7, INFO), Signal(0, 2, {5}), Go(0)], FirstPacket() + [Take(1)];
    Signalled();
    ScanAgain(Runs(Initial(), a));
    RunsOn(a, Go(0));
    assert a + [Go(0)] == FirstPacket();
    Consumed(Runs(Initial(), FirstPacket()));
    RunsOn(FirstPacket(), Take(1));
    GoesOn(Runs(Initial(), b));
    RunsOn(b, Go(0));
    RunsOn(b + [Go(0)], Go(0));
    RunsOn(b + [Go(0)] + [Go(0)], Go(0));
    ScanAgain(Runs(Initial(), b + [Go(0)] + [Go(0)]));
    assert b + [Go(0)] + [Go(0)] + [Go(0)] == b + Onward();
  }
}
