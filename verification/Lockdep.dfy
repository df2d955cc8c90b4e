/** The lock-order checker: a bounded graph of "held while acquiring" edges that every acquisition
    may extend, kept free of cycles or the kernel panics. */
module Lockdep {

  import opened Basics

  datatype Edge = Edge(from: nat, to: nat)

  const MAX_LOCKS: nat := 128
  const MAX_EDGES: nat := 512
  const MAX_HELD: nat := 16

  // ---------------------------------------------------------------- paths

  ghost predicate Path(edges: seq<Edge>, p: seq<nat>) {
    p != [] && forall i | 0 <= i < |p| - 1 :: Edge(p[i], p[i + 1]) in edges
  }

  ghost predicate Leads(edges: seq<Edge>, p: seq<nat>, a: nat, b: nat) {
    Path(edges, p) && p[0] == a && p[|p| - 1] == b
  }

  /** b can be reached from a; every lock reaches itself. */
  ghost predicate Reach(edges: seq<Edge>, a: nat, b: nat) { exists p :: Leads(edges, p, a, b) }

  /** No edge closes a way back to its start. */
  ghost predicate Acyclic(edges: seq<Edge>) { forall e | e in edges :: !Reach(edges, e.to, e.from) }

  lemma ReachSelf(edges: seq<Edge>, a: nat)
    ensures Reach(edges, a, a)
  {
    assert Leads(edges, [a], a, a);
  }

  lemma ReachStep(edges: seq<Edge>, a: nat, b: nat, c: nat)
    requires Edge(a, b) in edges && Reach(edges, b, c)
    ensures Reach(edges, a, c)
  {
    var p :| Leads(edges, p, b, c);
    assert Leads(edges, [a] + p, a, c);
  }

  lemma {:induction false} ReachVia(edges: seq<Edge>, p: seq<nat>, a: nat, b: nat, c: nat)
    requires Leads(edges, p, a, b) && Reach(edges, b, c)
    ensures Reach(edges, a, c)
    decreases |p|
  {
    if |p| > 1 {
      assert Leads(edges, p[1..], p[1], b);
      ReachVia(edges, p[1..], p[1], b, c);
      ReachStep(edges, a, p[1], c);
    }
  }

  lemma ReachTrans(edges: seq<Edge>, a: nat, b: nat, c: nat)
    requires Reach(edges, a, b) && Reach(edges, b, c)
    ensures Reach(edges, a, c)
  {
    var p :| Leads(edges, p, a, b);
    ReachVia(edges, p, a, b, c);
  }

  lemma ReachMore(edges: seq<Edge>, more: seq<Edge>, a: nat, b: nat)
    requires Reach(edges, a, b) && forall e | e in edges :: e in more
    ensures Reach(more, a, b)
  {
    var p :| Leads(edges, p, a, b);
    assert Leads(more, p, a, b);
  }

  /** A path in a graph with one more edge either never uses it or splits around it. */
  lemma {:induction false} SplitPath(edges: seq<Edge>, e: Edge, p: seq<nat>, a: nat, b: nat)
    requires Leads(edges + [e], p, a, b)
    ensures Reach(edges, a, b) || (Reach(edges, a, e.from) && Reach(edges, e.to, b))
    decreases |p|
  {
    if |p| == 1 { ReachSelf(edges, a); }
    else {
      assert Leads(edges + [e], p[1..], p[1], b);
      SplitPath(edges, e, p[1..], p[1], b);
      var step := Edge(a, p[1]);
      if step in edges {
        if Reach(edges, p[1], b) { ReachStep(edges, a, p[1], b); } else { ReachStep(edges, a, p[1], e.from); }
      } else {
        ReachSelf(edges, a);
      }
    }
  }

  /** The test the checker makes is exact: a new edge keeps the graph acyclic if and only if its
      start cannot be reached from its end. */
  lemma AddKeepsAcyclic(edges: seq<Edge>, e: Edge)
    requires Acyclic(edges)
    ensures Acyclic(edges + [e]) <==> !Reach(edges, e.to, e.from)
  {
    var more := edges + [e];
    if Reach(edges, e.to, e.from) {
      ReachMore(edges, more, e.to, e.from);
      assert e in more;
    } else {
      forall d | d in more ensures !Reach(more, d.to, d.from) {
        if Reach(more, d.to, d.from) {
          var p :| Leads(more, p, d.to, d.from);
          SplitPath(edges, e, p, d.to, d.from);
          if d in edges { ReachStep2(edges, e, d); }
        }
      }
    }
  }

  lemma ReachStep2(edges: seq<Edge>, e: Edge, d: Edge)
    requires d in edges && Acyclic(edges) && !Reach(edges, e.to, e.from)
    ensures !(Reach(edges, d.to, e.from) && Reach(edges, e.to, d.from))
  {
    if Reach(edges, d.to, e.from) && Reach(edges, e.to, d.from) {
      ReachStep(edges, d.from, d.to, e.from);
      ReachTrans(edges, e.to, d.from, e.from);
    }
  }

  lemma FewerKeepAcyclic(edges: seq<Edge>, fewer: seq<Edge>)
    requires Acyclic(edges) && forall e | e in fewer :: e in edges
    ensures Acyclic(fewer)
  {
    forall e | e in fewer ensures !Reach(fewer, e.to, e.from) {
      if Reach(fewer, e.to, e.from) { ReachMore(fewer, edges, e.to, e.from); }
    }
  }

  /** A set of locks that contains a, not b, and everything its edges lead to shows b out of reach. */
  lemma {:induction false} ClosedBlocks(edges: seq<Edge>, seen: seq<bool>, p: seq<nat>, a: nat, b: nat)
    requires Leads(edges, p, a, b) && Marked(seen, a) && Closed(edges, seen, b)
    ensures false
    decreases |p|
  {
    if |p| > 1 {
      assert Edge(p[0], p[1]) in edges && Leads(edges, p[1..], p[1], b) && SuccessorsSeen(edges, seen, a);
      ClosedBlocks(edges, seen, p[1..], p[1], b);
    }
  }

  ghost predicate InRange(edges: seq<Edge>) {
    forall e | e in edges :: 1 <= e.from <= MAX_LOCKS && 1 <= e.to <= MAX_LOCKS
  }

  /** Lock v is marked in the visited array. */
  ghost predicate Marked(seen: seq<bool>, v: nat) { 1 <= v <= |seen| && seen[v - 1] }

  ghost predicate Closed(edges: seq<Edge>, seen: seq<bool>, b: nat) {
    forall v: nat | Marked(seen, v) :: v != b && SuccessorsSeen(edges, seen, v)
  }

  ghost predicate SuccessorsSeen(edges: seq<Edge>, seen: seq<bool>, v: nat) {
    forall e | e in edges && e.from == v :: Marked(seen, e.to)
  }

  // ---------------------------------------------------------------- the search

  ghost function Unseen(seen: seq<bool>): set<nat> { set v: nat | 1 <= v <= |seen| && !Marked(seen, v) }

  ghost predicate Grew(before: seq<bool>, after: seq<bool>) {
    |before| == |after| && forall v: nat | Marked(before, v) :: Marked(after, v)
  }

  /** What the search marked since before, but for skip, it has finished with. */
  ghost predicate Finished(edges: seq<Edge>, before: seq<bool>, after: seq<bool>, to: nat, skip: nat) {
    forall v: nat | Marked(after, v) && !Marked(before, v) && v != skip :: v != to && SuccessorsSeen(edges, after, v)
  }

  lemma FinishedGrows(edges: seq<Edge>, before: seq<bool>, mid: seq<bool>, after: seq<bool>, to: nat, skip: nat)
    requires Grew(before, mid) && Grew(mid, after)
    requires Finished(edges, before, mid, to, skip) && Finished(edges, mid, after, to, 0)
    ensures Finished(edges, before, after, to, skip) && Grew(before, after)
  {
    forall v: nat | Marked(after, v) && !Marked(before, v) && v != skip
        ensures v != to && SuccessorsSeen(edges, after, v) {
      if Marked(mid, v) { assert SuccessorsSeen(edges, mid, v); }
    }
  }

  /** path_exists: the depth-first search with one visited array for the whole search. */
  method PathExists(edges: seq<Edge>, from: nat, to: nat, visited: array<bool>) returns (found: bool)
    requires visited.Length == MAX_LOCKS && InRange(edges) && 1 <= from <= MAX_LOCKS
    modifies visited
    ensures Grew(old(visited[..]), visited[..])
    ensures found ==> Reach(edges, from, to)
    ensures !found ==> Marked(visited[..], from) && Finished(edges, old(visited[..]), visited[..], to, 0)
    decreases Unseen(visited[..])
  {
    if from == to { ReachSelf(edges, from); return true; }
    if visited[from - 1] { return false; }
    ghost var before := visited[..];
    visited[from - 1] := true;
    assert from in Unseen(before) && from !in Unseen(visited[..]);
    var i := 0;
    while i < |edges|
      invariant i <= |edges| && Grew(before, visited[..]) && Marked(visited[..], from)
      invariant Unseen(visited[..]) < Unseen(before)
      invariant Finished(edges, before, visited[..], to, from)
      invariant forall j | 0 <= j < i && edges[j].from == from :: Marked(visited[..], edges[j].to)
    {
      if edges[i].from == from {
        assert edges[i] in edges;
        ghost var mid := visited[..];
        var below := PathExists(edges, edges[i].to, to, visited);
        if below {
          ReachStep(edges, from, edges[i].to, to);
          return true;
        }
        FinishedGrows(edges, before, mid, visited[..], to, from);
        assert Unseen(visited[..]) <= Unseen(mid);
      }
      i := i + 1;
    }
    assert SuccessorsSeen(edges, visited[..], from);
    return false;
  }

  /** The search from a clean array answers exactly whether to can be reached. */
  method CanReach(edges: seq<Edge>, from: nat, to: nat) returns (found: bool)
    requires InRange(edges) && 1 <= from <= MAX_LOCKS
    ensures found <==> Reach(edges, from, to)
  {
    var visited := new bool[MAX_LOCKS](_ => false);
    found := PathExists(edges, from, to, visited);
    if !found && Reach(edges, from, to) {
      var p :| Leads(edges, p, from, to);
      ClosedBlocks(edges, visited[..], p, from, to);
    }
  }

  // ---------------------------------------------------------------- the tables

  datatype Held = Held(address: nat, identity: nat)

  /** What the checker answers; everything but Fine stops the kernel. */
  datatype Verdict = Fine | Cycle | EdgesFull | Recursive | HeldFull | AlreadyOwned | OutOfOrder | NotOwner | StillOwned

  /** The orders a thread's held locks were taken in are all edges. */
  ghost predicate Ordered(edges: seq<Edge>, held: seq<Held>) {
    forall i, j | 0 <= i < j < |held| && held[i].identity != 0 && held[j].identity != 0 ::
      Edge(held[i].identity, held[j].identity) in edges
  }

  lemma OrderedMore(edges: seq<Edge>, more: seq<Edge>, held: seq<Held>)
    requires Ordered(edges, held) && edges <= more
    ensures Ordered(more, held)
  {
    forall i, j | 0 <= i < j < |held| && held[i].identity != 0 && held[j].identity != 0
      ensures Edge(held[i].identity, held[j].identity) in more
    {
      var e := Edge(held[i].identity, held[j].identity);
      var k :| 0 <= k < |edges| && edges[k] == e;
      assert more[k] == e;
    }
  }

  lemma OrderedWithout(edges: seq<Edge>, fewer: seq<Edge>, held: seq<Held>, id: nat)
    requires Ordered(edges, held) && forall h | h in held :: h.identity != id
    requires forall e | e in edges && e.from != id && e.to != id :: e in fewer
    ensures Ordered(fewer, held)
  {
    forall i, j | 0 <= i < j < |held| && held[i].identity != 0 && held[j].identity != 0
      ensures Edge(held[i].identity, held[j].identity) in fewer
    {
      assert held[i] in held && held[j] in held;
    }
  }

  lemma SwapOut(s: seq<Edge>, i: nat)
    requires i < |s| && NoDup(s)
    ensures var r := s[i := s[|s| - 1]][..|s| - 1];
            NoDup(r) && r[..i] == s[..i] && forall e :: e in r <==> e in s && e != s[i]
  {
    var r := s[i := s[|s| - 1]][..|s| - 1];
    forall e | e in s && e != s[i] ensures e in r {
      var k :| 0 <= k < |s| && s[k] == e;
      if k == |s| - 1 { assert r[i] == e; } else { assert r[k] == e; }
    }
  }

  predicate InUse(next: nat, free: seq<nat>, id: nat) { 1 <= id < next && id !in free }

  ghost predicate IdsOk(next: nat, free: seq<nat>) {
    1 <= next <= MAX_LOCKS + 1 && NoDup(free) && forall id | id in free :: 1 <= id < next
  }

  ghost predicate GraphOk(edges: seq<Edge>, next: nat, free: seq<nat>) {
    |edges| <= MAX_EDGES && NoDup(edges) && Acyclic(edges) && forall e | e in edges ::
        InUse(next, free, e.from) && InUse(next, free, e.to)
  }

  /** What t holds was taken in a known order, is in use and is owned by t. */
  ghost predicate ThreadOk(edges: seq<Edge>, next: nat, free: seq<nat>, owner: imap<nat, nat>, t: nat,
                           held: seq<Held>) {
    && Ordered(edges, held) && |held| <= MAX_HELD
    && forall h | h in held && h.identity != 0 ::
       InUse(next, free, h.identity) && h.identity in owner && owner[h.identity] == t
  }

  function HeldOf(held: imap<nat, seq<Held>>, t: nat): seq<Held> { if t in held then held[t] else [] }

  ghost predicate TablesOk(edges: seq<Edge>, next: nat, free: seq<nat>, owner: imap<nat, nat>, held: imap<nat,
                           seq<Held>>) {
    && IdsOk(next, free) && GraphOk(edges, next, free)
    && forall t: nat {:trigger HeldOf(held, t)} :: ThreadOk(edges, next, free, owner, t, HeldOf(held, t))
  }

  /** A thread holds no lock twice: that would be an edge from the lock to itself. */
  lemma HeldOnce(edges: seq<Edge>, held: seq<Held>, i: nat, j: nat)
    requires Acyclic(edges) && Ordered(edges, held) && i < j < |held| && held[i].identity != 0
    ensures held[i].identity != held[j].identity
  {
    if held[i].identity == held[j].identity { ReachSelf(edges, held[i].identity); }
  }

  /** With the newest lock gone no entry names it any more. */
  lemma PopKeeps(edges: seq<Edge>, next: nat, free: seq<nat>, owner: imap<nat, nat>, t: nat, held: seq<Held>)
    requires Acyclic(edges) && ThreadOk(edges, next, free, owner, t, held) && held != []
    ensures ThreadOk(edges, next, free, owner - {held[|held| - 1].identity}, t, held[..|held| - 1])
  {
    var top, rest := held[|held| - 1], held[..|held| - 1];
    forall h | h in rest && h.identity != 0 ensures h.identity != top.identity {
      var k :| 0 <= k < |rest| && rest[k] == h;
      HeldOnce(edges, held, k, |held| - 1);
    }
  }

  lemma PushKeeps(edges: seq<Edge>, next: nat, free: seq<nat>, owner: imap<nat, nat>, t: nat, held: seq<Held>, h: Held)
    requires ThreadOk(edges, next, free, owner, t, held) && |held| < MAX_HELD
    requires (h.identity != 0 ==> InUse(next, free, h.identity))
    requires forall j | 0 <= j < |held| && held[j].identity != 0 && h.identity != 0 ::
      Edge(held[j].identity, h.identity) in edges
    ensures ThreadOk(edges, next, free, if h.identity != 0 then owner[h.identity := t] else owner, t, held + [h])
  {
  }

  lemma MoreEdges(edges: seq<Edge>, e: Edge, next: nat, free: seq<nat>, owner: imap<nat, nat>, held: imap<nat,
                  seq<Held>>)
    requires TablesOk(edges, next, free, owner, held) && e !in edges && Acyclic(edges + [e]) && |edges| < MAX_EDGES
    requires InUse(next, free, e.from) && InUse(next, free, e.to)
    ensures TablesOk(edges + [e], next, free, owner, held)
  {
    forall t: nat ensures ThreadOk(edges + [e], next, free, owner, t, HeldOf(held, t)) {
      OrderedMore(edges, edges + [e], HeldOf(held, t));
    }
  }

  lemma FewerEdges(edges: seq<Edge>, fewer: seq<Edge>, id: nat, next: nat, free: seq<nat>, owner: imap<nat, nat>,
                   held: imap<nat, seq<Held>>)
    requires TablesOk(edges, next, free, owner, held) && InUse(next, free, id) && id !in owner
    requires |fewer| <= MAX_EDGES && NoDup(fewer)
    requires forall e :: e in fewer <==> e in edges && e.from != id && e.to != id
    ensures TablesOk(fewer, next, free + [id], owner, held)
  {
    FewerKeepAcyclic(edges, fewer);
    forall t: nat ensures ThreadOk(fewer, next, free + [id], owner, t, HeldOf(held, t)) {
      assert ThreadOk(edges, next, free, owner, t, HeldOf(held, t));
      OrderedWithout(edges, fewer, HeldOf(held, t), id);
    }
  }

  /** The edges there were, and perhaps edges from held locks to this one. */
  ghost predicate Learned(was: seq<Edge>, now: seq<Edge>, held: seq<Held>, id: nat) {
    && was <= now
    && forall e | e in now :: e in was || (e.to == id && exists h :: h in held && h.identity == e.from)
  }

  class Checker {
    var edges: seq<Edge>
    var next: nat                    // the lowest identity never handed out
    var free: seq<nat>               // identities given back, last first out
    var owner: imap<nat, nat>        // the thread that owns a lock, by identity
    var held: imap<nat, seq<Held>>   // what each thread holds, oldest first

    ghost predicate Valid()
      reads this
    {
      TablesOk(edges, next, free, owner, held)
    }

    /** Nothing is known of any lock yet. */
    constructor ()
      ensures Valid() && edges == [] && (forall t: nat :: HeldOf(held, t) == [])
      ensures forall id: nat :: !InUse(next, free, id) && id !in owner
    {
      edges, next, free, owner, held := [], 1, [], imap[], imap[];
    }

    /** learn_edge: a new order is refused exactly when it would close a cycle, or when there is no
        room for it. */
    method LearnEdge(from: nat, to: nat) returns (v: Verdict)
      requires Valid() && (from != 0 ==> InUse(next, free, from)) && (to != 0 ==> InUse(next, free, to))
      modifies this`edges
      ensures Valid() && v in {Fine, Cycle, EdgesFull}
      ensures v == Fine <==> from == 0 || to == 0 || Edge(from, to) in old(edges)
                              || (Acyclic(old(edges) + [Edge(from, to)]) && |old(edges)| < MAX_EDGES)
      ensures v == Cycle <==>
        from != 0 && to != 0 && Edge(from, to) !in old(edges) && !Acyclic(old(edges) + [Edge(from, to)])
      ensures edges == old(edges) || (v == Fine && edges == old(edges) + [Edge(from, to)])
      ensures v == Fine && from != 0 && to != 0 ==> Edge(from, to) in edges
    {
      if from == 0 || to == 0 { return Fine; }
      var i := 0;
      while i < |edges|
        invariant i <= |edges| && Edge(from, to) !in edges[..i]
      {
        if edges[i] == Edge(from, to) { return Fine; }
        i := i + 1;
      }
      assert edges[..i] == edges;
      AddKeepsAcyclic(edges, Edge(from, to));
      var closes := CanReach(edges, to, from);
      if closes { return Cycle; }
      if |edges| == MAX_EDGES { return EdgesFull; }
      MoreEdges(edges, Edge(from, to), next, free, owner, held);
      edges := edges + [Edge(from, to)];
      return Fine;
    }

    /** allocate_identity: an identity not in use, and so named by no edge and by no held lock. Zero
        when the table is full, which stops the kernel. */
    method Allocate() returns (id: nat)
      requires Valid()
      modifies this`next, this`free, this`owner
      ensures Valid()
      ensures id == 0 <==> old(free) == [] && old(next) > MAX_LOCKS
      ensures id == 0 ==> next == old(next) && free == old(free) && owner == old(owner)
      ensures id != 0 ==> !InUse(old(next), old(free), id) && InUse(next, free, id) && id !in owner
      ensures id != 0 ==> forall e | e in edges :: e.from != id && e.to != id
      ensures forall other: nat | other != id :: InUse(next, free, other) <==> InUse(old(next), old(free), other)
    {
      if free != [] {
        id := free[|free| - 1];
        assert id in free;
        free := free[..|free| - 1];
        assert old(free) == free + [id];
      } else {
        if next > MAX_LOCKS { return 0; }
        id := next;
        next := next + 1;
      }
      owner := owner - {id};
      assert forall x | x in free :: x in old(free);
      assert IdsOk(next, free);
      assert !InUse(old(next), old(free), id);
      assert forall other: nat | other != id :: InUse(next, free, other) <==> InUse(old(next), old(free), other);
      forall t: nat ensures ThreadOk(edges, next, free, owner, t, HeldOf(held, t)) {
        assert ThreadOk(edges, old(next), old(free), old(owner), t, HeldOf(held, t));
      }
    }

    /** release_identity of a lock nobody owns: its edges go, the others stay, and the graph stays
        acyclic. The last edge fills each hole. */
    method Release(id: nat)
      requires Valid() && (id != 0 ==> InUse(next, free, id) && id !in owner)
      modifies this`edges, this`free
      ensures Valid()
      ensures id == 0 ==> edges == old(edges) && free == old(free)
      ensures id != 0 ==> free == old(free) + [id]
      ensures forall e :: e in edges <==> e in old(edges) && (id == 0 || (e.from != id && e.to != id))
    {
      if id == 0 { return; }
      var i := 0;
      while i < |edges|
        invariant i <= |edges| <= |old(edges)| && NoDup(edges)
        invariant forall e | e in edges[..i] :: e.from != id && e.to != id
        invariant forall e :: e in edges ==> e in old(edges)
        invariant forall e :: e in old(edges) && e.from != id && e.to != id ==> e in edges
        modifies this`edges
        decreases |edges| - i
      {
        if edges[i].from == id || edges[i].to == id {
          SwapOut(edges, i);
          edges := edges[i := edges[|edges| - 1]][..|edges| - 1];
        } else {
          i := i + 1;
        }
      }
      assert edges[..i] == edges;
      FewerEdges(old(edges), edges, id, next, free, owner, held);
      free := free + [id];
    }

    /** acquired: every lock already held is from now on known to come before this one. */
    method Acquired(t: nat, address: nat, id: nat) returns (v: Verdict)
      requires Valid() && (id != 0 ==> InUse(next, free, id))
      modifies this`edges, this`held, this`owner
      ensures Valid()
      ensures v != Fine ==> held == old(held) && owner == old(owner)
      ensures v == Fine ==> held == old(held)[t := HeldOf(old(held), t) + [Held(address, id)]]
      ensures v == Fine && id != 0 ==> id !in old(owner) && owner == old(owner)[id := t]
      ensures v == Fine ==> forall h | h in HeldOf(old(held), t) :: h.address != address
      ensures v == Recursive ==> exists h :: h in HeldOf(old(held), t) && h.address == address
      ensures v == HeldFull ==> |HeldOf(old(held), t)| == MAX_HELD
      ensures v == AlreadyOwned ==> id != 0 && id in old(owner)
      ensures v == Cycle ==> exists h :: h in HeldOf(old(held), t) && !Acyclic(edges + [Edge(h.identity, id)])
      ensures v == EdgesFull ==> |edges| == MAX_EDGES
      ensures v in {Fine, Recursive, HeldFull, AlreadyOwned, Cycle, EdgesFull}
      ensures Learned(old(edges), edges, HeldOf(old(held), t), id)
    {
      var mine, i := HeldOf(held, t), 0;
      while i < |mine|
        invariant i <= |mine| && Valid() && held == old(held) && owner == old(owner)
        invariant forall j | 0 <= j < i :: mine[j].address != address
        invariant Learned(old(edges), edges, mine, id)
        invariant forall j | 0 <= j < i && mine[j].identity != 0 && id != 0 :: Edge(mine[j].identity, id) in edges
      {
        assert mine[i] in HeldOf(held, t);
        if mine[i].address == address { return Recursive; }
        v := LearnEdge(mine[i].identity, id);
        if v != Fine { return; }
        i := i + 1;
      }
      if |mine| == MAX_HELD { return HeldFull; }
      if id != 0 && id in owner { return AlreadyOwned; }
      PushKeeps(edges, next, free, owner, t, mine, Held(address, id));
      held := held[t := mine + [Held(address, id)]];
      if id != 0 { owner := owner[id := t]; }
      forall u: nat ensures ThreadOk(edges, next, free, owner, u, HeldOf(held, u)) {
        assert ThreadOk(edges, next, free, old(owner), u, HeldOf(old(held), u));
      }
      return Fine;
    }

    /** released: locks come off in the opposite order, by the thread that took them. A caller that gives the
        identity it took the lock with, as the guards do, is never told it is not the owner, and the tables
        stay in order. */
    method Released(t: nat, address: nat, id: nat) returns (v: Verdict)
      requires Valid()
      modifies this`held, this`owner
      ensures var mine := HeldOf(old(held), t);
        && (v == OutOfOrder <==> mine == [] || mine[|mine| - 1].address != address)
        && (v == NotOwner <==> v != OutOfOrder && id != 0 && !(id in old(owner) && old(owner)[id] == t))
        && (v != OutOfOrder && mine[|mine| - 1].identity == id ==> v == Fine && Valid())
      ensures v in {Fine, OutOfOrder, NotOwner}
      ensures v == OutOfOrder ==> held == old(held)
      ensures v != OutOfOrder ==> held == old(held)[t := HeldOf(old(held), t)[..|HeldOf(old(held), t)| - 1]]
      ensures owner == if v == Fine then old(owner) - {id} else old(owner)
    {
      var mine := HeldOf(held, t);
      if mine == [] || mine[|mine| - 1].address != address { return OutOfOrder; }
      assert mine[|mine| - 1] in mine;
      PopKeeps(edges, next, free, owner, t, mine);
      held := held[t := mine[..|mine| - 1]];
      if id != 0 && (id !in owner || owner[id] != t) { return NotOwner; }
      owner := owner - {id};
      if mine[|mine| - 1].identity == id {
        forall u: nat ensures ThreadOk(edges, next, free, owner, u, HeldOf(held, u)) {
          assert ThreadOk(edges, next, free, old(owner), u, HeldOf(old(held), u));
        }
      }
      return Fine;
    }

    /** A lock goes: assert_not_owned, which stops the kernel for one somebody holds, then release_identity. */
    method Destroy(id: nat) returns (v: Verdict)
      requires Valid() && (id != 0 ==> InUse(next, free, id))
      modifies this`edges, this`free
      ensures Valid() && (v == StillOwned <==> id != 0 && id in owner) && v in {Fine, StillOwned}
      ensures v == StillOwned ==> edges == old(edges) && free == old(free)
      ensures v == Fine && id != 0 ==> !InUse(next, free, id) && forall e | e in edges :: e.from != id && e.to != id
      ensures v == Fine ==> forall e | e in old(edges) && e.from != id && e.to != id :: e in edges
    {
      if id != 0 && id in owner { return StillOwned; }
      Release(id);
      return Fine;
    }
  }

  // ---------------------------------------------------------------- what the checker buys

  /** A ring of threads, each holding one lock and having been let through to the next. */
  ghost predicate Ring(edges: seq<Edge>, locks: seq<nat>) {
    locks != [] && forall i | 0 <= i < |locks| :: Edge(locks[i], locks[if i + 1 < |locks| then i + 1 else 0]) in edges
  }

  /** Threads that only wait for locks in orders the checker has let through never wait in a ring. */
  lemma NoRing(edges: seq<Edge>, locks: seq<nat>)
    requires Acyclic(edges)
    ensures !Ring(edges, locks)
  {
    if Ring(edges, locks) {
      var last := |locks| - 1;
      assert Edge(locks[last], locks[0]) in edges;
      assert Leads(edges, locks, locks[0], locks[last]);
    }
  }
}
