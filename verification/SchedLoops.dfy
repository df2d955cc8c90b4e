/** The scheduler's loops as the code runs them: rotation of the run queue, the wake passes over a
    wait list, and the tick's scans of the two unordered vectors. Each is tied to what the transition
    system of SchedModel says happens. */
module SchedLoops {
  import opened Basics
  import opened SchedModel

  // ---------------------------------------------------------------- run queue

  lemma {:induction false} FirstOffIs(q: seq<nat>, cpu: imap<nat, nat>, i: nat)
    requires i <= |q| && (forall j | 0 <= j < i :: q[j] in cpu) && (i < |q| ==> q[i] !in cpu)
    ensures FirstOff(q, cpu) == i
  {
    if i > 0 { FirstOffIs(q[1..], cpu, i - 1); }
  }

  /** t leaves the queue; those before it, all on a cpu, go behind those after it. */
  ghost predicate Rotated(q: seq<nat>, cpu: imap<nat, nat>, rest: seq<nat>, skipped: seq<nat>, t: nat,
                          behind: seq<nat>) {
    && q == skipped + [t] + behind && rest == behind + skipped
    && t !in cpu && forall s | s in skipped :: s in cpu
  }

  /** The oldest thread whose core has let go of it leaves the queue; every thread that was skipped
      goes behind the ones never looked at, both in their old order. */
  lemma PopReadyIs(q: seq<nat>, cpu: imap<nat, nat>)
    ensures
      var (found, rest) := PopReady(q, cpu);
      if forall t | t in q :: t in cpu then found == None && rest == q
      else found.Some? && exists skipped, behind :: Rotated(q, cpu, rest, skipped, found.value, behind)
  {
    var i := FirstOff(q, cpu);
    if i < |q| {
      assert q[i] in q;
      RotatedAt(q, cpu, i);
    }
  }

  lemma RotatedAt(q: seq<nat>, cpu: imap<nat, nat>, i: nat)
    requires i < |q| && q[i] !in cpu && forall j | 0 <= j < i :: q[j] in cpu
    ensures Rotated(q, cpu, q[i + 1..] + q[..i], q[..i], q[i], q[i + 1..])
  {
    assert q == q[..i] + [q[i]] + q[i + 1..];
  }

  class RunQueue {
    var threads: seq<nat>

    constructor ()
      ensures threads == []
    {
      threads := [];
    }

    method Pop(cpu: imap<nat, nat>) returns (thread: Option<nat>)
      modifies this
      ensures (thread, threads) == PopReady(old(threads), cpu)
    {
      var n := |threads|;
      ghost var was := threads;
      while n > 0
        invariant 0 <= n <= |was| == |threads|
        invariant threads == was[|was| - n..] + was[..|was| - n]
        invariant forall j | 0 <= j < |was| - n :: was[j] in cpu
      {
        var first := threads[0];
        if first !in cpu {
          FirstOffIs(was, cpu, |was| - n);
          assert threads[1..] == was[|was| - n + 1..] + was[..|was| - n];
          threads := threads[1..];
          return Some(first);
        }
        threads := threads[1..] + [first];
        n := n - 1;
      }
      FirstOffIs(was, cpu, |was|);
      assert was[|was|..] + was[..|was|] == was;
      return None;
    }

    /** make_ready of each thread of a batch, taken from its far end. */
    method Ready(batch: seq<nat>)
      modifies this
      ensures threads == old(threads) + Backwards(batch)
    {
      var left := batch;
      while left != []
        invariant threads + Backwards(left) == old(threads) + Backwards(batch)
        decreases |left|
      {
        threads := threads + [left[|left| - 1]];
        left := left[..|left| - 1];
      }
    }
  }

  function Backwards(s: seq<nat>): seq<nat> {
    if s == [] then [] else [s[|s| - 1]] + Backwards(s[..|s| - 1])
  }

  lemma {:induction false} BackwardsKeeps(s: seq<nat>)
    ensures multiset(Backwards(s)) == multiset(s)
  {
    if s != [] {
      BackwardsKeeps(s[..|s| - 1]);
      assert s == s[..|s| - 1] + [s[|s| - 1]];
    }
  }

  // ---------------------------------------------------------------- wait queues

  function Matching(list: seq<nat>, parked: imap<nat, Park>, signals: set<nat>): seq<nat> {
    if list == [] then []
    else (if MaskOf(parked, list[0]) * signals != {} then [list[0]] else []) + Matching(list[1..], parked, signals)
  }

  function Others(list: seq<nat>, parked: imap<nat, Park>, signals: set<nat>): seq<nat> {
    if list == [] then []
    else (if MaskOf(parked, list[0]) * signals != {} then [] else [list[0]]) + Others(list[1..], parked, signals)
  }

  /** A pass takes a prefix of the matching threads, leaves the others alone, and stops short only
      with a full batch. */
  ghost predicate Splits(q: seq<nat>, parked: imap<nat, Park>, signals: set<nat>, room: nat, p: Pass) {
    && p.batch + Matching(p.rest, parked, signals) == Matching(q, parked, signals)
    && Others(p.rest, parked, signals) == Others(q, parked, signals)
    && (p.scannedAll ==> Matching(p.rest, parked, signals) == [])
    && |p.batch| <= room && (!p.scannedAll ==> |p.batch| == room)
    && |p.batch| + |p.rest| == |q|
  }

  lemma {:induction false} CollectSplits(q: seq<nat>, parked: imap<nat, Park>, signals: set<nat>, room: nat)
    ensures Splits(q, parked, signals, room, Collect(q, parked, signals, room))
  {
    if q != [] && room > 0 {
      if MaskOf(parked, q[0]) * signals != {} {
        CollectSplits(q[1..], parked, signals, room - 1);
        SplitsTaken(q, parked, signals, room, Collect(q[1..], parked, signals, room - 1));
      } else {
        CollectSplits(q[1..], parked, signals, room);
        SplitsLeft(q, parked, signals, room, Collect(q[1..], parked, signals, room));
      }
    }
  }

  lemma SplitsTaken(q: seq<nat>, parked: imap<nat, Park>, signals: set<nat>, room: nat, p: Pass)
    requires q != [] && room > 0 && MaskOf(parked, q[0]) * signals != {} && Splits(q[1..], parked, signals, room - 1, p)
    ensures Splits(q, parked, signals, room, p.(batch := [q[0]] + p.batch))
  {
    assert [q[0]] + (p.batch + Matching(p.rest, parked, signals))
        == [q[0]] + p.batch + Matching(p.rest, parked, signals);
  }

  lemma SplitsLeft(q: seq<nat>, parked: imap<nat, Park>, signals: set<nat>, room: nat, p: Pass)
    requires q != [] && MaskOf(parked, q[0]) * signals == {} && Splits(q[1..], parked, signals, room, p)
    ensures Splits(q, parked, signals, room, p.(rest := [q[0]] + p.rest))
  {
    assert ([q[0]] + p.rest)[1..] == p.rest;
  }

  /** With the cursor at i, the batch and the list are what is left of the pass to do. */
  ghost predicate Resumes(pass: Pass, batch: seq<nat>, q: seq<nat>, i: nat, parked: imap<nat, Park>, signals: set<nat>)
    requires i <= |q| && |batch| <= WAKE_BATCH
  {
    var p := Collect(q[i..], parked, signals, WAKE_BATCH - |batch|);
    pass == Pass(batch + p.batch, q[..i] + p.rest, p.scannedAll)
  }

  lemma ResumesStep(pass: Pass, batch: seq<nat>, q: seq<nat>, i: nat, parked: imap<nat, Park>, signals: set<nat>)
    requires i < |q| && |batch| < WAKE_BATCH && Resumes(pass, batch, q, i, parked, signals)
    ensures if MaskOf(parked, q[i]) * signals != {}
            then Resumes(pass, batch + [q[i]], q[..i] + q[i + 1..], i, parked, signals)
            else Resumes(pass, batch, q, i + 1, parked, signals)
  {
    var p := Collect(q[i..], parked, signals, WAKE_BATCH - |batch|);
    assert q[i..][1..] == q[i + 1..];
    if MaskOf(parked, q[i]) * signals != {} {
      var cut := q[..i] + q[i + 1..];
      assert cut[i..] == q[i + 1..] && cut[..i] == q[..i];
      var p' := Collect(q[i + 1..], parked, signals, WAKE_BATCH - |batch| - 1);
      assert batch + [q[i]] + p'.batch == batch + ([q[i]] + p'.batch);
    } else {
      var p' := Collect(q[i + 1..], parked, signals, WAKE_BATCH - |batch|);
      assert q[..i + 1] + p'.rest == q[..i] + ([q[i]] + p'.rest);
    }
  }

  lemma {:induction false} NoneMatch(list: seq<nat>, parked: imap<nat, Park>, signals: set<nat>)
    requires Matching(list, parked, signals) == []
    ensures Others(list, parked, signals) == list
  {
    if list != [] { NoneMatch(list[1..], parked, signals); }
  }

  lemma {:induction false} UnlinkAt(list: seq<nat>, i: nat)
    requires i < |list| && list[i] !in list[..i]
    ensures Unlink(list, list[i]) == list[..i] + list[i + 1..]
  {
    if i > 0 {
      var tail := list[1..];
      assert list[..i] == [list[0]] + tail[..i - 1];
      assert list[i] == tail[i - 1] && list[0] in list[..i] && tail[i..] == list[i + 1..];
      UnlinkAt(tail, i - 1);
    }
  }

  /** A wait list, newest first; parked holds the mask each thread's node carries. */
  class WaitQueue {
    var threads: seq<nat>
    const parked: imap<nat, Park>

    constructor (list: seq<nat>, parked: imap<nat, Park>)
      ensures threads == list && this.parked == parked
    {
      this.threads := list;
      this.parked := parked;
    }

    method TakePlain() returns (woken: Option<nat>)
      requires NoDup(threads)
      modifies this
      ensures woken == FirstPlain(old(threads), parked)
      ensures threads == if woken.Some? then Unlink(old(threads), woken.value) else old(threads)
    {
      var i := 0;
      while i < |threads|
        invariant i <= |threads| && threads == old(threads)
        invariant FirstPlain(threads, parked) == FirstPlain(threads[i..], parked)
      {
        if MaskOf(parked, threads[i]) == {} {
          woken := Some(threads[i]);
          UnlinkAt(threads, i);
          threads := threads[..i] + threads[i + 1..];
          return;
        }
        i := i + 1;
      }
      return None;
    }

    /** One locked pass of wake_matching. */
    method CollectBatch(signals: set<nat>) returns (batch: seq<nat>, scannedAll: bool)
      modifies this
      ensures Pass(batch, threads, scannedAll) == Collect(old(threads), parked, signals, WAKE_BATCH)
    {
      batch := [];
      var i := 0;
      ghost var pass := Collect(threads, parked, signals, WAKE_BATCH);
      while i < |threads| && |batch| < WAKE_BATCH
        invariant i <= |threads| && |batch| <= WAKE_BATCH && Resumes(pass, batch, threads, i, parked, signals)
        decreases |threads| - i
      {
        var t := threads[i];
        ResumesStep(pass, batch, threads, i, parked, signals);
        if MaskOf(parked, t) != {} && MaskOf(parked, t) * signals != {} {
          batch := batch + [t];
          threads := threads[..i] + threads[i + 1..];
        } else {
          i := i + 1;
        }
      }
      scannedAll := i == |threads|;
      assert threads[..i] + threads[i..] == threads && batch + [] == batch;
    }

    method OnePass(signals: set<nat>, ready: RunQueue, ghost all: seq<nat>, ghost woken: seq<nat>)
        returns (batch: seq<nat>, scannedAll: bool)
      requires ready as object != this && Drained(all, parked, signals, woken, threads)
      modifies this, ready
      ensures Drained(all, parked, signals, woken + Backwards(batch), threads) && |Backwards(batch)| == |batch|
      ensures ready.threads == old(ready.threads) + Backwards(batch)
      ensures if scannedAll then Matching(threads, parked, signals) == [] else |threads| < |old(threads)|
    {
      DrainPass(all, parked, signals, woken, threads);
      batch, scannedAll := CollectBatch(signals);
      ready.Ready(batch);
    }

    /** With nothing else running, every matching waiter and no other leaves the list and is made
        ready, whatever the number of passes. */
    method WakeMatching(signals: set<nat>, ready: RunQueue) returns (count: nat, ghost woken: seq<nat>)
      requires ready as object != this
      modifies this, ready
      ensures threads == Others(old(threads), parked, signals)
      ensures count == |Matching(old(threads), parked, signals)|
      ensures ready.threads == old(ready.threads) + woken
      ensures multiset(woken) == multiset(Matching(old(threads), parked, signals))
    {
      count, woken := 0, [];
      var scannedAll := false;
      while !scannedAll
        invariant Drained(old(threads), parked, signals, woken, threads) && count == |woken|
        invariant scannedAll ==> Matching(threads, parked, signals) == []
        invariant ready.threads == old(ready.threads) + woken
        decreases !scannedAll, |threads|
      {
        var batch;
        batch, scannedAll := OnePass(signals, ready, old(threads), woken);
        count := count + |batch|;
        woken := woken + Backwards(batch);
      }
      NoneMatch(threads, parked, signals);
    }
  }

  /** Part-way through wake_matching: woken and the matching threads of list make up those of all. */
  ghost predicate Drained(all: seq<nat>, parked: imap<nat, Park>, signals: set<nat>, woken: seq<nat>, list: seq<nat>) {
    && multiset(woken) + multiset(Matching(list, parked, signals)) == multiset(Matching(all, parked, signals))
    && |woken| + |Matching(list, parked, signals)| == |Matching(all, parked, signals)|
    && Others(list, parked, signals) == Others(all, parked, signals)
  }

  lemma DrainPass(all: seq<nat>, parked: imap<nat, Park>, signals: set<nat>, woken: seq<nat>, list: seq<nat>)
    requires Drained(all, parked, signals, woken, list)
    ensures
      var p := Collect(list, parked, signals, WAKE_BATCH);
      && Drained(all, parked, signals, woken + Backwards(p.batch), p.rest) && |Backwards(p.batch)| == |p.batch|
      && (p.scannedAll ==> Matching(p.rest, parked, signals) == [])
      && (!p.scannedAll ==> |p.rest| < |list|)
  {
    var p := Collect(list, parked, signals, WAKE_BATCH);
    CollectSplits(list, parked, signals, WAKE_BATCH);
    BackwardsKeeps(p.batch);
    assert |Backwards(p.batch)| == |multiset(Backwards(p.batch))| == |p.batch|;
    assert multiset(Matching(list, parked, signals)) == multiset(p.batch) + multiset(Matching(p.rest, parked, signals));
  }

  // ---------------------------------------------------------------- the tick's scans

  datatype Sleeper = Sleeper(wakeAt: nat, thread: nat)

  class Sleepers {
    var list: seq<Sleeper>

    constructor ()
      ensures list == []
    {
      list := [];
    }

    /** swap_remove moves the last entry into the hole and looks at it next. Exactly the due entries
        leave, and exactly their threads are made ready. */
    method WakeDue(now: nat, ready: RunQueue) returns (ghost due: seq<Sleeper>)
      requires ready as object != this
      modifies this, ready
      ensures (forall s | s in list :: s.wakeAt > now) && DueSplit(old(list), now, due, list)
      ensures ready.threads == old(ready.threads) + ThreadsOf(due)
    {
      var i := 0;
      due := [];
      while i < |list|
        invariant Slept(old(list), now, due, list, i) && ready.threads == old(ready.threads) + ThreadsOf(due)
        decreases |list| - i
      {
        SleptOne(old(list), now, due, list, i);
        if list[i].wakeAt <= now {
          var s := list[i];
          list := SwapRemove(list, i);
          ready.threads := ready.threads + [s.thread];
          due := due + [s];
        } else {
          i := i + 1;
        }
      }
    }

    /** wake_sleeper: the kill scan's early wake. */
    method WakeThread(thread: nat, ready: RunQueue) returns (found: bool)
      requires ready as object != this
      modifies this, ready
      ensures found <==> exists s :: s in old(list) && s.thread == thread
      ensures !found ==> list == old(list) && ready.threads == old(ready.threads)
      ensures found ==> ready.threads == old(ready.threads) + [thread]
      ensures found ==> exists s: Sleeper :: s.thread == thread && multiset(list) + multiset{s} == multiset(old(list))
    {
      var i := 0;
      while i < |list|
        invariant i <= |list| && list == old(list) && ready.threads == old(ready.threads)
        invariant forall s | s in list[..i] :: s.thread != thread
      {
        if list[i].thread == thread {
          SwapRemoveKeeps(list, i);
          assert list[i] in old(list);
          list := SwapRemove(list, i);
          ready.threads := ready.threads + [thread];
          return true;
        }
        i := i + 1;
      }
      return false;
    }
  }

  /** A registered deadline; the node is named by the thread whose stack it is on. */
  datatype TimedWait = TimedWait(wakeAt: nat, node: nat)

  function Nodes(list: seq<TimedWait>): seq<nat> {
    if list == [] then [] else Nodes(list[..|list| - 1]) + [list[|list| - 1].node]
  }

  lemma NodesAppend(list: seq<TimedWait>, e: TimedWait)
    ensures Nodes(list + [e]) == Nodes(list) + [e.node]
  {
    assert (list + [e])[..|list|] == list;
  }

  predicate OwnNodes(list: seq<TimedWait>) { forall i, j | 0 <= i < j < |list| :: list[i].node != list[j].node }

  class TimedWaits {
    var list: seq<TimedWait>
    var linked: set<nat>  // the nodes that hold a thread

    constructor (linked: set<nat>)
      ensures list == [] && this.linked == linked
    {
      this.list := [];
      this.linked := linked;
    }

    method Claim(node: nat) returns (won: bool)
      modifies this`linked
      ensures won <==> node in old(linked)
      ensures linked == old(linked) - {node}
    {
      won := node in linked;
      linked := linked - {node};
    }

    /** An entry leaves the registry exactly when it is due and its node still holds the thread;
        those threads and no others are made ready. */
    method WakeDue(now: nat, ready: RunQueue) returns (ghost won: seq<TimedWait>)
      requires ready as object != this && OwnNodes(list)
      modifies this, ready
      ensures forall e | e in list :: e.wakeAt > now || e.node !in old(linked)
      ensures Expired(old(list), old(linked), now, won, list, linked)
      ensures ready.threads == old(ready.threads) + Nodes(won)
    {
      var i: nat := 0;
      won := [];
      while i < |list|
        invariant Waited(old(list), old(linked), now, won, list, linked, i)
        invariant ready.threads == old(ready.threads) + Nodes(won)
        decreases |list| - i
      {
        i, won := Look(i, now, ready, old(list), old(linked), won, old(ready.threads));
      }
      WaitedAll(old(list), old(linked), now, won, list, linked);
    }

    /** The i-th entry: passed over, or claimed, removed and its thread made ready. */
    method Look(i: nat, now: nat, ready: RunQueue, ghost all: seq<TimedWait>, ghost was: set<nat>,
                ghost won: seq<TimedWait>, ghost pre: seq<nat>)
      returns (next: nat, ghost won': seq<TimedWait>)
      requires ready as object != this && Waited(all, was, now, won, list, linked, i) && i < |list|
      requires ready.threads == pre + Nodes(won)
      modifies this, ready
      ensures Waited(all, was, now, won', list, linked, next) && |list| - next < |old(list)| - i
      ensures ready.threads == pre + Nodes(won')
    {
      var e := list[i];
      WaitedOne(all, was, now, won, list, linked, i);
      if e.wakeAt > now { return i + 1, won; }
      var claimed := Claim(e.node);
      if !claimed { return i + 1, won; }
      list := SwapRemove(list, i);
      ready.threads := ready.threads + [e.node];
      return i, won + [e];
    }
  }

  /** The entries of all are split between won and list; the won ones were due and their nodes held a
      thread, which they no longer do. */
  ghost predicate Expired(all: seq<TimedWait>, was: set<nat>, now: nat, won: seq<TimedWait>, list: seq<TimedWait>,
                          linked: set<nat>) {
    && multiset(list) + multiset(won) == multiset(all) && OwnNodes(list)
    && (forall e | e in won :: e.wakeAt <= now && e.node in was)
    && (forall n :: n in linked <==> n in was && n !in Nodes(won))
    && (forall e | e in list :: e.node !in Nodes(won))
  }

  /** And of list the first i are not due, or lost their node to someone else. */
  ghost predicate Waited(all: seq<TimedWait>, was: set<nat>, now: nat, won: seq<TimedWait>, list: seq<TimedWait>,
                         linked: set<nat>, i: nat) {
    && i <= |list| && Expired(all, was, now, won, list, linked)
    && forall k | 0 <= k < i :: list[k].wakeAt > now || list[k].node !in was
  }

  lemma WaitedAll(all: seq<TimedWait>, was: set<nat>, now: nat, won: seq<TimedWait>, list: seq<TimedWait>,
                  linked: set<nat>)
    requires Waited(all, was, now, won, list, linked, |list|)
    ensures forall e | e in list :: e.wakeAt > now || e.node !in was
  {
  }

  lemma WaitedOne(all: seq<TimedWait>, was: set<nat>, now: nat, won: seq<TimedWait>, list: seq<TimedWait>,
                  linked: set<nat>, i: nat)
    requires Waited(all, was, now, won, list, linked, i) && i < |list|
    ensures list[i].wakeAt > now ==> Waited(all, was, now, won, list, linked, i + 1)
    ensures list[i].wakeAt <= now && list[i].node !in linked ==>
      linked - {list[i].node} == linked && Waited(all, was, now, won, list, linked, i + 1)
    ensures list[i].wakeAt <= now && list[i].node in linked ==>
      && Waited(all, was, now, won + [list[i]], SwapRemove(list, i), linked - {list[i].node}, i)
      && Nodes(won + [list[i]]) == Nodes(won) + [list[i].node]
  {
    assert list[i] in list;
    SwapRemoveFirst(list, i);
    if list[i].wakeAt <= now && list[i].node in linked { ExpireOne(all, was, now, won, list, linked, i); }
  }

  lemma ExpireOne(all: seq<TimedWait>, was: set<nat>, now: nat, won: seq<TimedWait>, list: seq<TimedWait>,
                  linked: set<nat>, i: nat)
    requires Expired(all, was, now, won, list, linked) && i < |list| && list[i].wakeAt <= now && list[i].node in linked
    ensures Expired(all, was, now, won + [list[i]], SwapRemove(list, i), linked - {list[i].node})
    ensures Nodes(won + [list[i]]) == Nodes(won) + [list[i].node]
  {
    SwapRemoveKeeps(list, i);
    OwnAfter(list, i);
    NodesAppend(won, list[i]);
  }

  lemma OwnAfter(list: seq<TimedWait>, i: nat)
    requires OwnNodes(list) && i < |list|
    ensures OwnNodes(SwapRemove(list, i))
    ensures forall e | e in SwapRemove(list, i) :: e in list && e.node != list[i].node
  {
  }

  /** The entries of all are split between due, which are due, and list. */
  ghost predicate DueSplit(all: seq<Sleeper>, now: nat, due: seq<Sleeper>, list: seq<Sleeper>) {
    multiset(list) + multiset(due) == multiset(all) && forall s | s in due :: s.wakeAt <= now
  }

  /** And of list the first i are not due. */
  ghost predicate Slept(all: seq<Sleeper>, now: nat, due: seq<Sleeper>, list: seq<Sleeper>, i: nat) {
    i <= |list| && DueSplit(all, now, due, list) && forall k | 0 <= k < i :: list[k].wakeAt > now
  }

  lemma SleptOne(all: seq<Sleeper>, now: nat, due: seq<Sleeper>, list: seq<Sleeper>, i: nat)
    requires Slept(all, now, due, list, i) && i < |list|
    ensures list[i].wakeAt > now ==> Slept(all, now, due, list, i + 1)
    ensures list[i].wakeAt <= now ==>
      Slept(all, now, due + [list[i]], SwapRemove(list, i), i)
          && ThreadsOf(due + [list[i]]) == ThreadsOf(due) + [list[i].thread]
  {
    SwapRemoveKeeps(list, i);
    SwapRemoveFirst(list, i);
    ThreadsAppend(due, list[i]);
  }

  lemma SwapRemoveFirst<T>(s: seq<T>, i: nat)
    requires i < |s|
    ensures |SwapRemove(s, i)| == |s| - 1 && forall k | 0 <= k < i :: SwapRemove(s, i)[k] == s[k]
  {
  }

  function SwapRemove<T>(s: seq<T>, i: nat): seq<T>
    requires i < |s|
  {
    s[i := s[|s| - 1]][..|s| - 1]
  }

  lemma SwapOut<T>(a: seq<T>, x: T, b: seq<T>, y: T)
    ensures multiset(a + [y] + b) + multiset{x} == multiset(a + [x] + b + [y])
  {
  }

  lemma SwapRemoveKeeps<T>(s: seq<T>, i: nat)
    requires i < |s|
    ensures multiset(SwapRemove(s, i)) + multiset{s[i]} == multiset(s)
    ensures SwapRemove(s, i)[..i] == s[..i]
  {
    var n := |s| - 1;
    if i < n {
      assert s == s[..i] + [s[i]] + s[i + 1..n] + [s[n]];
      assert SwapRemove(s, i) == s[..i] + [s[n]] + s[i + 1..n];
      SwapOut(s[..i], s[i], s[i + 1..n], s[n]);
    } else {
      assert s == SwapRemove(s, i) + [s[i]];
    }
  }

  function ThreadsOf(list: seq<Sleeper>): seq<nat> {
    if list == [] then [] else ThreadsOf(list[..|list| - 1]) + [list[|list| - 1].thread]
  }

  lemma ThreadsAppend(list: seq<Sleeper>, s: Sleeper)
    ensures ThreadsOf(list + [s]) == ThreadsOf(list) + [s.thread]
  {
    assert (list + [s])[..|list|] == list;
  }
}
