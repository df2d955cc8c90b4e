/** The physical frame allocator: two stacks threaded through the free frames themselves, and untouched
    regions eaten from their ends. Frames are numbered, not addressed. */
module Pmm {

  import opened Basics

  /** A frame's first word, and the rest of it as one number that is zero exactly when every byte is. */
  datatype Words = Words(first: nat, rest: nat)

  const BLANK := Words(0, 0)
  const NIL: nat := 0xFFFF_FFFF_FFFF_FFFF

  datatype Extent = Extent(start: nat, count: nat, zeroed: nat) {
    predicate Has(f: nat) { start <= f < start + count }

    /** The top of an extent may be zeroed already. */
    predicate Ready(f: nat) { start + count - zeroed <= f < start + count }
  }

  datatype State = Mmio | Wired | Free | Zeroed | Active

  function At(mem: imap<nat, Words>, f: nat): Words { if f in mem then mem[f] else BLANK }

  /** Each frame on the stack holds the number of the next. */
  ghost predicate Linked(mem: imap<nat, Words>, head: nat, items: seq<nat>)
    decreases items
  {
    if items == [] then head == NIL
    else head == items[0] != NIL && Linked(mem, At(mem, head).first, items[1..])
  }

  lemma {:induction false} LinkedStays(mem: imap<nat, Words>, mem': imap<nat, Words>, head: nat, items: seq<nat>)
    requires Linked(mem, head, items) && forall f: nat | f in items :: At(mem', f).first == At(mem, f).first
    ensures Linked(mem', head, items)
    decreases items
  {
    if items != [] { LinkedStays(mem, mem', At(mem, head).first, items[1..]); }
  }

  /** The frames in way lead from head to f. */
  ghost predicate LeadsTo(mem: imap<nat, Words>, head: nat, way: seq<nat>, f: nat)
    decreases way
  {
    if way == [] then head == f else head == way[0] != NIL && LeadsTo(mem, At(mem, head).first, way[1..], f)
  }

  /** A stack that comes back to f has no end. */
  lemma {:induction false} Endless(mem: imap<nat, Words>, f: nat, way: seq<nat>, items: seq<nat>)
    requires f != NIL && LeadsTo(mem, At(mem, f).first, way, f)
    ensures !Linked(mem, f, items)
    decreases |items|
  {
    if items != [] && Linked(mem, f, items) {
      var rest := Further(mem, At(mem, f).first, way, f, items[1..]);
      Endless(mem, f, way, rest);
    }
  }

  lemma {:induction false} Further(mem: imap<nat, Words>, head: nat, way: seq<nat>, f: nat, items: seq<nat>)
      returns (rest: seq<nat>)
    requires LeadsTo(mem, head, way, f) && Linked(mem, head, items) && f != NIL
    ensures Linked(mem, f, rest) && |rest| <= |items|
    decreases way
  {
    rest := items;
    if way != [] && items != [] { rest := Further(mem, At(mem, head).first, way[1..], f, items[1..]); }
  }

  /** The first frames of a stack lead to the one at i, and go on doing so when that one changes. */
  lemma {:induction false} LeadsWhere(mem: imap<nat, Words>, mem': imap<nat, Words>, head: nat, items: seq<nat>, i: nat)
    requires Linked(mem, head, items) && i < |items|
    requires forall j | 0 <= j < i :: At(mem', items[j]).first == At(mem, items[j]).first
    ensures LeadsTo(mem', head, items[..i], items[i])
    decreases items
  {
    if i > 0 {
      LeadsWhere(mem, mem', At(mem, head).first, items[1..], i - 1);
      assert items[..i][1..] == items[1..][..i - 1];
    }
  }

  class Memory {
    var words: imap<nat, Words>
  }

  class FrameStack {
    const mem: Memory
    var head: nat
    var count: nat
    ghost var items: seq<nat>

    ghost predicate Valid()
      reads this, mem
    {
      count == |items| && NoDup(items) && Linked(mem.words, head, items)
    }

    constructor (m: Memory)
      ensures Valid() && mem == m && items == []
    {
      mem, head, count, items := m, NIL, 0, [];
    }

    method Push(f: nat)
      requires Valid() && f != NIL
      modifies this, mem
      ensures items == [f] + old(items) && (Valid() <==> f !in old(items))
      ensures f in old(items) ==> forall xs: seq<nat> :: !Linked(mem.words, head, xs)
      ensures mem.words == old(mem.words)[f := Words(old(head), At(old(mem.words), f).rest)]
    {
      ghost var was := mem.words;
      mem.words := mem.words[f := Words(head, At(mem.words, f).rest)];
      if f !in items { LinkedStays(was, mem.words, head, items); }
      head, count, items := f, count + 1, [f] + items;
      assert items[1..] == old(items);
      if f in old(items) {
        var i :| 0 <= i < |old(items)| && old(items)[i] == f;
        assert items[0] == items[i + 1];
        LeadsWhere(was, mem.words, old(head), old(items), i);
        forall xs: seq<nat> { Endless(mem.words, f, old(items)[..i], xs); }
      }
    }

    /** The word that held the link is zero again. */
    method Pop() returns (r: Option<nat>)
      requires Valid()
      modifies this, mem
      ensures Valid() && (r.None? <==> old(items) == [])
      ensures r.None? ==> items == [] && mem.words == old(mem.words) && head == old(head) && count == old(count)
      ensures r.Some? ==> old(items) == [r.value] + items && r.value != NIL && r.value !in items
      ensures r.Some? ==> mem.words == old(mem.words)[r.value := Words(0, At(old(mem.words), r.value).rest)]
    {
      if head == NIL { return None; }
      var f := head;
      ghost var was := mem.words;
      head := At(mem.words, f).first;
      mem.words := mem.words[f := Words(0, At(mem.words, f).rest)];
      count, items := count - 1, items[1..];
      assert old(items) == [f] + items;
      LinkedStays(was, mem.words, head, items);
      return Some(f);
    }
  }

  // ---------------------------------------------------------------- extents

  function Total(x: seq<Extent>): nat { if x == [] then 0 else Total(x[..|x| - 1]) + x[|x| - 1].count }

  function TotalZeroed(x: seq<Extent>): nat { if x == [] then 0 else TotalZeroed(x[..|x| - 1]) + x[|x| - 1].zeroed }

  ghost predicate ExtentsOk(x: seq<Extent>) {
    && (forall i | 0 <= i < |x| :: x[i].zeroed <= x[i].count && x[i].start + x[i].count <= NIL)
    && (forall i, j | 0 <= i < j < |x| :: Disjoint(x[i], x[j]))
  }

  predicate Disjoint(a: Extent, b: Extent) {
    a.start + a.count <= b.start || b.start + b.count <= a.start || a.count == 0 || b.count == 0
  }

  ghost predicate Covers(x: seq<Extent>, f: nat) { x != [] && (x[|x| - 1].Has(f) || Covers(x[..|x| - 1], f)) }

  ghost predicate Ready(x: seq<Extent>, f: nat) { x != [] && (x[|x| - 1].Ready(f) || Ready(x[..|x| - 1], f)) }

  lemma {:induction false} CoversIs(x: seq<Extent>, f: nat)
    ensures Covers(x, f) <==> exists i | 0 <= i < |x| :: x[i].Has(f)
  {
    if x != [] {
      var y := x[..|x| - 1];
      CoversIs(y, f);
      if Covers(y, f) { var i :| 0 <= i < |y| && y[i].Has(f); assert x[i].Has(f); }
      if i :| 0 <= i < |x| && x[i].Has(f) { assert i == |x| - 1 || y[i].Has(f); }
    }
  }

  lemma {:induction false} ReadyIs(x: seq<Extent>, f: nat)
    ensures Ready(x, f) <==> exists i | 0 <= i < |x| :: x[i].Ready(f)
  {
    if x != [] {
      var y := x[..|x| - 1];
      ReadyIs(y, f);
      if Ready(y, f) { var i :| 0 <= i < |y| && y[i].Ready(f); assert x[i].Ready(f); }
      if i :| 0 <= i < |x| && x[i].Ready(f) { assert i == |x| - 1 || y[i].Ready(f); }
    }
  }

  lemma ReadyCovers(x: seq<Extent>, f: nat)
    requires ExtentsOk(x) && Ready(x, f)
    ensures Covers(x, f)
  {
    ReadyIs(x, f);
    CoversIs(x, f);
    var i :| 0 <= i < |x| && x[i].Ready(f);
    assert x[i].Has(f);
  }

  lemma HasCovers(x: seq<Extent>, i: nat, f: nat)
    requires i < |x| && x[i].Has(f)
    ensures Covers(x, f)
  {
    CoversIs(x, f);
  }

  lemma ReadyAt(x: seq<Extent>, i: nat, f: nat)
    requires i < |x| && x[i].Ready(f)
    ensures Ready(x, f)
  {
    ReadyIs(x, f);
  }

  /** One extent changed: both totals move by what it did. */
  lemma {:induction false} TotalsMove(x: seq<Extent>, i: nat, e: Extent)
    requires i < |x|
    ensures Total(x[i := e]) == Total(x) - x[i].count + e.count
    ensures TotalZeroed(x[i := e]) == TotalZeroed(x) - x[i].zeroed + e.zeroed
  {
    var y := x[i := e];
    if i == |x| - 1 { assert y[..i] == x[..i]; }
    else {
      assert y[..|x| - 1] == x[..|x| - 1][i := e];
      TotalsMove(x[..|x| - 1], i, e);
    }
  }

  lemma {:induction false} ZeroedWithin(x: seq<Extent>)
    requires forall i | 0 <= i < |x| :: x[i].zeroed <= x[i].count
    ensures TotalZeroed(x) <= Total(x)
    ensures TotalZeroed(x) == Total(x) <==> forall i | 0 <= i < |x| :: x[i].zeroed == x[i].count
  {
    if x != [] {
      var y := x[..|x| - 1];
      ZeroedWithin(y);
      assert forall i | 0 <= i < |y| :: y[i] == x[i];
      assert (forall i | 0 <= i < |x| :: x[i].zeroed == x[i].count) ==>
          forall i | 0 <= i < |y| :: y[i].zeroed == y[i].count;
    }
  }

  function Shorter(e: Extent, n: nat): Extent
    requires n <= e.count
  {
    Extent(e.start, e.count - n, if e.zeroed < n then 0 else e.zeroed - n)
  }

  /** An extent's last n frames taken: exactly those are no longer untouched, and what was ready is. */
  lemma Carve(x: seq<Extent>, i: nat, n: nat)
    requires ExtentsOk(x) && i < |x| && n <= x[i].count
    ensures var y := x[i := Shorter(x[i], n)]; var lo := x[i].start + x[i].count - n;
      && ExtentsOk(y) && Total(y) == Total(x) - n
      && TotalZeroed(y) == TotalZeroed(x) - (if x[i].zeroed < n then x[i].zeroed else n)
      && (forall g: nat :: Covers(y, g) <==> Covers(x, g) && !(lo <= g < lo + n))
      && (forall g: nat | Ready(y, g) :: Ready(x, g))
  {
    var y, lo := x[i := Shorter(x[i], n)], x[i].start + x[i].count - n;
    TotalsMove(x, i, Shorter(x[i], n));
    forall g: nat ensures Covers(y, g) <==> Covers(x, g) && !(lo <= g < lo + n) { CarveCovers(x, i, n, g); }
    forall g: nat | Ready(y, g) ensures Ready(x, g) {
      ReadyIs(y, g);
      var j :| 0 <= j < |y| && y[j].Ready(g);
      ReadyAt(x, j, g);
    }
  }

  lemma TakeLast(x: seq<Extent>)
    requires ExtentsOk(x) && x != [] && x[|x| - 1].count > 0
    ensures var e := x[|x| - 1]; var y, f := x[|x| - 1 := Shorter(e, 1)], e.start + e.count - 1;
      && ExtentsOk(y) && f != NIL && Covers(x, f) && (e.zeroed > 0 ==> Ready(x, f))
      && Total(y) == Total(x) - 1 && TotalZeroed(y) == TotalZeroed(x) - (if e.zeroed > 0 then 1 else 0)
      && (forall g: nat :: Covers(y, g) <==> Covers(x, g) && g != f)
      && (forall g: nat | Ready(y, g) :: Ready(x, g))
  {
    Carve(x, |x| - 1, 1);
  }

  lemma CarveCovers(x: seq<Extent>, i: nat, n: nat, g: nat)
    requires ExtentsOk(x) && i < |x| && n <= x[i].count
    ensures var lo := x[i].start + x[i].count - n;
      Covers(x[i := Shorter(x[i], n)], g) <==> Covers(x, g) && !(lo <= g < lo + n)
  {
    var y, lo := x[i := Shorter(x[i], n)], x[i].start + x[i].count - n;
    CoversIs(x, g);
    CoversIs(y, g);
    if Covers(y, g) {
      var j :| 0 <= j < |y| && y[j].Has(g);
      assert x[j].Has(g);
    }
    if Covers(x, g) && !(lo <= g < lo + n) {
      var j :| 0 <= j < |x| && x[j].Has(g);
      assert y[j].Has(g);
    }
  }

  lemma SameCovers(x: seq<Extent>, y: seq<Extent>, g: nat)
    requires |y| == |x| && forall j | 0 <= j < |x| :: y[j].start == x[j].start && y[j].count == x[j].count
    ensures Covers(y, g) <==> Covers(x, g)
  {
    CoversIs(x, g);
    CoversIs(y, g);
    if Covers(x, g) { var j :| 0 <= j < |x| && x[j].Has(g); assert y[j].Has(g); }
    if Covers(y, g) { var j :| 0 <= j < |y| && y[j].Has(g); assert x[j].Has(g); }
  }

  lemma MoreReady(x: seq<Extent>, i: nat)
    requires ExtentsOk(x) && i < |x| && x[i].zeroed < x[i].count
    ensures var y := x[i := x[i].(zeroed := x[i].zeroed + 1)]; var f := x[i].start + (x[i].count - x[i].zeroed - 1);
      && ExtentsOk(y) && Total(y) == Total(x) && TotalZeroed(y) == TotalZeroed(x) + 1
      && (forall g: nat :: Covers(y, g) <==> Covers(x, g)) && forall g: nat | Ready(y, g) :: g == f || Ready(x, g)
  {
    var y := x[i := x[i].(zeroed := x[i].zeroed + 1)];
    TotalsMove(x, i, y[i]);
    forall g: nat ensures Covers(y, g) <==> Covers(x, g) { SameCovers(x, y, g); }
    forall g: nat | Ready(y, g) && !Ready(x, g) ensures g == x[i].start + (x[i].count - x[i].zeroed - 1) {
      ReadyIs(x, g);
      ReadyIs(y, g);
      var j :| 0 <= j < |y| && y[j].Ready(g);
      assert !x[j].Ready(g);
    }
  }

  lemma OneMore(x: seq<Extent>, e: Extent)
    requires ExtentsOk(x) && e.zeroed == 0 && e.start + e.count <= NIL && forall f: nat | e.Has(f) :: !Covers(x, f)
    ensures var y := x + [e];
      && ExtentsOk(y) && Total(y) == Total(x) + e.count && TotalZeroed(y) == TotalZeroed(x)
      && (forall g: nat :: Covers(y, g) <==> Covers(x, g) || e.Has(g)) && forall g: nat | Ready(y, g) :: Ready(x, g)
  {
    var y := x + [e];
    assert y[..|x|] == x;
    forall i | 0 <= i < |x|
      ensures x[i].start + x[i].count <= e.start || e.start + e.count <= x[i].start || x[i].count == 0 || e.count == 0
    {
      var f := if x[i].start < e.start then e.start else x[i].start;
      if x[i].Has(f) && e.Has(f) { HasCovers(x, i, f); }
    }
  }

  /** The last frame of the last extent that has one. */
  function LastFrame(x: seq<Extent>): Option<nat> {
    if x == [] then None
    else if x[|x| - 1].count > 0 then Some(x[|x| - 1].start + x[|x| - 1].count - 1)
    else LastFrame(x[..|x| - 1])
  }

  /** The frame an allocation gives: a zeroed one first, then a freed one, then an untouched one. */
  function First(zeroed: seq<nat>, dirty: seq<nat>, x: seq<Extent>): Option<nat> {
    if zeroed != [] then Some(zeroed[0]) else if dirty != [] then Some(dirty[0]) else LastFrame(x)
  }

  /** An empty extent at the end is no loss. */
  lemma DropEmpty(x: seq<Extent>)
    requires ExtentsOk(x) && x != [] && x[|x| - 1].count == 0
    ensures var y := x[..|x| - 1];
      && LastFrame(y) == LastFrame(x) && ExtentsOk(y) && Total(y) == Total(x) && TotalZeroed(y) == TotalZeroed(x)
      && (forall g: nat :: Covers(y, g) <==> Covers(x, g)) && forall g: nat :: Ready(y, g) <==> Ready(x, g)
  {
    var y := x[..|x| - 1];
  }

  // ---------------------------------------------------------------- descriptors

  const DESCRIPTOR_BYTES: nat := 24
  const PAGE_BYTES: nat := 4096

  function ArrayPages(n: nat): nat { (n * DESCRIPTOR_BYTES + PAGE_BYTES - 1) / PAGE_BYTES }

  /** One past the highest frame of any extent. */
  function Top(x: seq<Extent>): nat {
    if x == [] then 0
    else
      var e, rest := x[|x| - 1], Top(x[..|x| - 1]);
      if e.start + e.count > rest then e.start + e.count else rest
  }

  lemma {:induction false} BelowTop(usable: seq<Extent>, wired: seq<Extent>, f: nat)
    requires Covers(usable, f)
    ensures f < Top(usable + wired)
  {
    var x := usable + wired;
    var k := |x| - 1;
    if wired == [] {
      assert x == usable;
      if !usable[k].Has(f) {
        assert usable[..k] + [] == usable[..k];
        BelowTop(usable[..k], [], f);
      }
    } else {
      assert x[..k] == usable + wired[..|wired| - 1];
      BelowTop(usable, wired[..|wired| - 1], f);
    }
  }

  // ---------------------------------------------------------------- the allocator

  ghost predicate InPool(z: seq<nat>, d: seq<nat>, x: seq<Extent>, f: nat) { f in z || f in d || Covers(x, f) }

  /** Every free frame is in one place only. */
  ghost predicate OnePlace(z: seq<nat>, d: seq<nat>, x: seq<Extent>) {
    (forall f: nat | f in z :: f !in d && !Covers(x, f)) && forall f: nat | f in d :: !Covers(x, f)
  }

  /** What is said to be zeroed is: a stack frame but for its link, an extent's top entirely. */
  ghost predicate TrulyZero(mem: imap<nat, Words>, z: seq<nat>, x: seq<Extent>) {
    (forall f: nat | f in z :: At(mem, f).rest == 0) && forall f: nat | Ready(x, f) :: At(mem, f) == BLANK
  }

  predicate CalledFree(st: State) { st.Free? || st.Zeroed? }

  /** A descriptor calls a frame free exactly when it is in a pool, or is one of the early frames: those
      handed out before there were descriptors, which their first labelling called free as well. */
  ghost predicate Labelled(states: imap<nat, State>, early: iset<nat>, z: seq<nat>, d: seq<nat>, x: seq<Extent>) {
    && (forall f: nat | f in states :: CalledFree(states[f]) <==> InPool(z, d, x, f) || f in early)
    && (forall f: nat | f in early :: f in states && !InPool(z, d, x, f))
  }

  function Mark(states: imap<nat, State>, f: nat, st: State): imap<nat, State> {
    if f in states then states[f := st] else states
  }

  /** Usable, not wired, and not under the descriptor array. */
  ghost predicate Spare(usable: seq<Extent>, wired: seq<Extent>, base: nat, count: nat, f: nat) {
    Covers(usable, f) && !Covers(wired, f) && !(base <= f < base + count)
  }

  lemma LabelSound(states: imap<nat, State>, early: iset<nat>, z: seq<nat>, d: seq<nat>, x: seq<Extent>,
                   usable: seq<Extent>, wired: seq<Extent>, base: nat, count: nat)
    requires forall f: nat | f in states :: CalledFree(states[f]) <==> Spare(usable, wired, base, count, f)
    requires forall f: nat | InPool(z, d, x, f) :: Spare(usable, wired, base, count, f)
    requires forall f: nat | Covers(usable, f) :: f in states
    requires forall f: nat :: f in early <==> Spare(usable, wired, base, count, f) && !InPool(z, d, x, f)
    ensures Labelled(states, early, z, d, x)
  {
  }

  lemma AddKeeps(mem: imap<nat, Words>, states: imap<nat, State>, early: iset<nat>, z: seq<nat>, d: seq<nat>,
                 x: seq<Extent>, e: Extent)
    requires ExtentsOk(x) && OnePlace(z, d, x) && TrulyZero(mem, z, x) && Labelled(states, early, z, d, x)
    requires e.zeroed == 0 && e.start + e.count <= NIL
    requires forall f: nat | e.Has(f) :: !InPool(z, d, x, f) && f !in states
    ensures var y := x + [e];
      && ExtentsOk(y) && Total(y) == Total(x) + e.count && TotalZeroed(y) == TotalZeroed(x)
      && OnePlace(z, d, y) && TrulyZero(mem, z, y) && Labelled(states, early, z, d, y)
      && forall g: nat :: InPool(z, d, y, g) <==> InPool(z, d, x, g) || e.Has(g)
  {
    OneMore(x, e);
    var y := x + [e];
    forall f: nat | f in z ensures f !in d && !Covers(y, f) { assert InPool(z, d, x, f); }
    forall f: nat | f in d ensures !Covers(y, f) { assert InPool(z, d, x, f); }
    forall f: nat | f in states ensures CalledFree(states[f]) <==> InPool(z, d, y, f) || f in early {
      assert !e.Has(f);
    }
    forall f: nat | f in early ensures !InPool(z, d, y, f) { assert f in states; }
  }

  ghost predicate Sound(mem: imap<nat, Words>, states: imap<nat, State>, early: iset<nat>, z: seq<nat>, d: seq<nat>,
                        x: seq<Extent>) {
    OnePlace(z, d, x) && TrulyZero(mem, z, x) && Labelled(states, early, z, d, x)
  }

  ghost predicate SamePool(z: seq<nat>, d: seq<nat>, x: seq<Extent>, y: seq<Extent>) {
    forall g: nat :: InPool(z, d, y, g) <==> InPool(z, d, x, g)
  }

  lemma ReadyKeeps(mem: imap<nat, Words>, states: imap<nat, State>, early: iset<nat>, z: seq<nat>, d: seq<nat>,
                   x: seq<Extent>, i: nat)
    requires ExtentsOk(x) && i < |x| && x[i].zeroed < x[i].count && OnePlace(z, d, x) && TrulyZero(mem, z, x)
    requires Labelled(states, early, z, d, x)
    ensures var y := x[i := x[i].(zeroed := x[i].zeroed + 1)]; var f := x[i].start + (x[i].count - x[i].zeroed - 1);
      && ExtentsOk(y) && Total(y) == Total(x) && TotalZeroed(y) == TotalZeroed(x) + 1
      && f !in z && f !in d && InPool(z, d, x, f) && Sound(mem[f := BLANK], Mark(states, f, Zeroed), early, z, d, y)
      && SamePool(z, d, x, y)
  {
    MoreReady(x, i);
    HasCovers(x, i, x[i].start + (x[i].count - x[i].zeroed - 1));
  }

  class Allocator {
    const mem: Memory
    const zeroed: FrameStack
    const dirty: FrameStack
    var extents: seq<Extent>
    var freePages: nat
    var extentZeroed: nat
    var states: imap<nat, State>
    ghost var early: iset<nat>

    ghost predicate Shape()
      reads this, zeroed, dirty, mem
    {
      && zeroed != dirty && zeroed.mem == mem && dirty.mem == mem && zeroed.Valid() && dirty.Valid()
      && ExtentsOk(extents)
      && freePages == |zeroed.items| + |dirty.items| + Total(extents) && extentZeroed == TotalZeroed(extents)
    }

    ghost predicate Apart()
      reads this, zeroed, dirty
    {
      OnePlace(zeroed.items, dirty.items, extents)
    }

    ghost predicate Pooled(f: nat)
      reads this, zeroed, dirty
    {
      InPool(zeroed.items, dirty.items, extents, f)
    }

    ghost predicate Clean()
      reads this, zeroed, mem
    {
      TrulyZero(mem.words, zeroed.items, extents)
    }

    ghost predicate Described()
      reads this, zeroed, dirty
    {
      Labelled(states, early, zeroed.items, dirty.items, extents)
    }

    ghost predicate Valid()
      reads this, zeroed, dirty, mem
    {
      Shape() && Apart() && Clean() && Described()
    }

    constructor ()
      ensures Valid() && freePages == 0 && fresh(mem) && fresh(zeroed) && fresh(dirty) && forall f: nat :: !Pooled(f)
      ensures states == imap[] && early == iset{} && extents == [] && zeroed.items == dirty.items == []
    {
      var m := new Memory;
      mem := m;
      zeroed := new FrameStack(m);
      dirty := new FrameStack(m);
      extents, freePages, extentZeroed, states, early := [], 0, 0, imap[], iset{};
    }

    method DropEmptyExtents()
      requires ExtentsOk(extents)
      modifies this`extents
      ensures ExtentsOk(extents) && (extents == [] || extents[|extents| - 1].count > 0)
      ensures LastFrame(extents) == LastFrame(old(extents))
      ensures Total(extents) == Total(old(extents)) && TotalZeroed(extents) == TotalZeroed(old(extents))
      ensures forall g: nat :: Covers(extents, g) <==> Covers(old(extents), g)
      ensures forall g: nat :: Ready(extents, g) <==> Ready(old(extents), g)
    {
      while extents != [] && extents[|extents| - 1].count == 0
        invariant ExtentsOk(extents) && LastFrame(extents) == LastFrame(old(extents))
        invariant Total(extents) == Total(old(extents)) && TotalZeroed(extents) == TotalZeroed(old(extents))
        invariant forall g: nat :: Covers(extents, g) <==> Covers(old(extents), g)
        invariant forall g: nat :: Ready(extents, g) <==> Ready(old(extents), g)
        decreases |extents|
      {
        DropEmpty(extents);
        extents := extents[..|extents| - 1];
      }
    }

    /** The last frame of the last extent that has one. */
    method PopExtent() returns (r: Option<nat>, clean: bool)
      requires ExtentsOk(extents) && extentZeroed == TotalZeroed(extents)
      modifies this`extents, this`extentZeroed
      ensures ExtentsOk(extents) && extentZeroed == TotalZeroed(extents)
      ensures (r.None? <==> Total(old(extents)) == 0) && r == LastFrame(old(extents))
      ensures Total(extents) == Total(old(extents)) - (if r.Some? then 1 else 0)
      ensures r.Some? ==> r.value != NIL && Covers(old(extents), r.value)
      ensures r.Some? && clean ==> Ready(old(extents), r.value)
      ensures forall g: nat :: Covers(extents, g) <==> Covers(old(extents), g) && Some(g) != r
      ensures forall g: nat | Ready(extents, g) :: Ready(old(extents), g)
    {
      DropEmptyExtents();
      if extents == [] { return None, false; }
      var e := extents[|extents| - 1];
      TakeLast(extents);
      var f := e.start + e.count - 1;
      clean := e.zeroed > 0;
      if clean { extentZeroed := extentZeroed - 1; }
      extents := extents[|extents| - 1 := Shorter(e, 1)];
      return Some(f), clean;
    }

    method PopDirty() returns (r: Option<nat>)
      requires zeroed.mem == mem && dirty.mem == mem && zeroed != dirty && zeroed.Valid() && dirty.Valid()
      requires ExtentsOk(extents) && Apart() && Clean()
      modifies dirty, mem
      ensures zeroed.Valid() && dirty.Valid() && Apart() && Clean() && (r.None? <==> old(dirty.items) == [])
      ensures old(dirty.items) == (if r.Some? then [r.value] else []) + dirty.items
      ensures r.Some? ==> r.value != NIL && !Pooled(r.value)
      ensures forall g: nat | Some(g) != r :: At(mem.words, g) == At(old(mem.words), g)
    {
      r := dirty.Pop();
      LinkedStays(old(mem.words), mem.words, zeroed.head, zeroed.items);
      if r.Some? {
        forall f: nat | Ready(extents, f) ensures f != r.value { ReadyCovers(extents, f); }
      }
    }

    /** pop_free_page: a dirty frame if there is one, or else an untouched one. */
    method PopFreePage() returns (r: Option<nat>, clean: bool)
      requires Valid()
      modifies this`extents, this`extentZeroed, dirty, mem
      ensures zeroed.Valid() && dirty.Valid() && ExtentsOk(extents) && Apart() && Clean()
      ensures extentZeroed == TotalZeroed(extents)
      ensures r.None? <==> |old(dirty.items)| + Total(old(extents)) == 0
      ensures r == if old(dirty.items) != [] then Some(old(dirty.items)[0]) else LastFrame(old(extents))
      ensures |dirty.items| + Total(extents) == |old(dirty.items)| + Total(old(extents)) - (if r.Some? then 1 else 0)
      ensures r.Some? ==> r.value != NIL && old(Pooled(r.value)) && !Pooled(r.value)
      ensures forall g: nat | Some(g) != r :: Pooled(g) <==> old(Pooled(g))
      ensures r.Some? && clean ==> At(mem.words, r.value) == BLANK
      ensures forall g: nat | Some(g) != r :: At(mem.words, g) == At(old(mem.words), g)
      ensures old(dirty.items) == [] ==> dirty.items == []
    {
      clean := false;
      r := PopDirty();
      if r.Some? { return; }
      r, clean := PopExtent();
    }

    function Held(): nat
      reads this, zeroed, dirty
    {
      zeroed.count + dirty.count + Total(extents)
    }

    /** A zeroed frame out of the pools: from the pool of them, or off an extent, or cleared on the spot. */
    method Fetch() returns (r: Option<nat>)
      requires Valid()
      modifies this`extents, this`extentZeroed, zeroed, dirty, mem
      ensures zeroed.Valid() && dirty.Valid() && ExtentsOk(extents) && Apart() && Clean()
      ensures extentZeroed == TotalZeroed(extents)
      ensures (r.None? <==> old(Held()) == 0) && Held() == old(Held()) - (if r.Some? then 1 else 0)
      ensures r == First(old(zeroed.items), old(dirty.items), old(extents))
      ensures r.Some? ==> r.value != NIL && old(Pooled(r.value)) && !Pooled(r.value) && At(mem.words, r.value) == BLANK
      ensures forall g: nat | Some(g) != r :: Pooled(g) <==> old(Pooled(g))
      ensures forall g: nat | Some(g) != r :: At(mem.words, g) == At(old(mem.words), g)
      ensures old(zeroed.items) == old(dirty.items) == [] ==> zeroed.items == dirty.items == []
    {
      r := zeroed.Pop();
      if r.Some? {
        LinkedStays(old(mem.words), mem.words, dirty.head, dirty.items);
        forall f: nat | Ready(extents, f) ensures f != r.value { ReadyCovers(extents, f); }
        assert forall f: nat | f in zeroed.items :: f in old(zeroed.items) && f != r.value;
        return;
      }
      var clean;
      r, clean := PopFreePage();
      if r.Some? && !clean { Blank(r.value); }
    }

    /** A frame for the caller, zero all through; none only when nothing is free. */
    method Alloc() returns (r: Option<nat>)
      requires Valid()
      modifies this`extents, this`extentZeroed, this`freePages, this`states, zeroed, dirty, mem
      ensures Valid() && (r.None? <==> old(freePages) == 0) && freePages == old(freePages) - (if r.Some? then 1 else 0)
      ensures r == First(old(zeroed.items), old(dirty.items), old(extents))
      ensures r.Some? ==> old(Pooled(r.value)) && !Pooled(r.value) && At(mem.words, r.value) == BLANK
      ensures forall g: nat | Some(g) != r :: Pooled(g) <==> old(Pooled(g))
      ensures forall g: nat | Some(g) != r :: At(mem.words, g) == At(old(mem.words), g)
      ensures old(zeroed.items) == old(dirty.items) == [] ==> zeroed.items == dirty.items == []
      ensures old(states) == imap[] ==> states == imap[]
    {
      r := Fetch();
      if r.Some? {
        freePages := freePages - 1;
        states := Mark(states, r.value, Active);
      }
      forall f: nat | f in states ensures CalledFree(states[f]) <==> Pooled(f) || f in early {
        assert Some(f) != r ==> Pooled(f) == old(Pooled(f));
      }
      forall f: nat | f in early ensures !Pooled(f) { assert !old(Pooled(f)); }
    }

    /** memset of a frame in no pool. */
    method Blank(f: nat)
      requires zeroed.mem == mem && dirty.mem == mem && zeroed != dirty && zeroed.Valid() && dirty.Valid() && Clean()
      requires f !in zeroed.items && f !in dirty.items
      modifies mem
      ensures zeroed.Valid() && dirty.Valid() && Clean() && mem.words == old(mem.words)[f := BLANK]
      ensures At(mem.words, f) == BLANK
      ensures forall g: nat | g != f :: At(mem.words, g) == At(old(mem.words), g)
    {
      mem.words := mem.words[f := BLANK];
      LinkedStays(old(mem.words), mem.words, zeroed.head, zeroed.items);
      LinkedStays(old(mem.words), mem.words, dirty.head, dirty.items);
    }

    method PushDirty(f: nat)
      requires zeroed.mem == mem && dirty.mem == mem && zeroed != dirty && zeroed.Valid() && dirty.Valid()
      requires ExtentsOk(extents) && Apart() && Clean() && f != NIL
      modifies dirty, mem
      ensures dirty.items == [f] + old(dirty.items) && (Apart() && dirty.Valid() <==> !old(Pooled(f)))
      ensures !old(Pooled(f)) ==> zeroed.Valid() && Clean()
      ensures f in old(dirty.items) ==> forall xs: seq<nat> :: !Linked(mem.words, dirty.head, xs)
      ensures forall g: nat | g != f :: At(mem.words, g) == At(old(mem.words), g)
    {
      dirty.Push(f);
      assert f in dirty.items;
      if !old(Pooled(f)) {
        LinkedStays(old(mem.words), mem.words, zeroed.head, zeroed.items);
        forall g: nat | Ready(extents, g) ensures g != f { ReadyCovers(extents, g); }
      }
    }

    /** A frame comes back. With a descriptor, giving back a frame that is in a pool already is caught; without
        one it is not, and the pools are sound afterwards exactly when it was in none: a frame of the dirty
        stack put there again leaves a stack with no end. */
    method Release(f: nat) returns (panicked: bool)
      requires Valid() && f != NIL
      modifies this`freePages, this`states, dirty, mem
      ensures panicked <==> f in old(states) && (old(Pooled(f)) || f in early)
      ensures Valid() <==> panicked || !old(Pooled(f))
      ensures panicked ==>
        freePages == old(freePages) && dirty.items == old(dirty.items) && mem.words == old(mem.words)
            && states == old(states)
      ensures !panicked ==> freePages == old(freePages) + 1 && dirty.items == [f] + old(dirty.items)
      ensures !panicked && f in old(dirty.items) ==> forall xs: seq<nat> :: !Linked(mem.words, dirty.head, xs)
      ensures forall g: nat | g != f :: Pooled(g) <==> old(Pooled(g))
      ensures forall g: nat | g != f :: At(mem.words, g) == At(old(mem.words), g)
      ensures forall g: nat :: g in states <==> g in old(states)
    {
      if f in states && CalledFree(states[f]) { return true; }
      PushDirty(f);
      freePages := freePages + 1;
      states := Mark(states, f, Free);
      return false;
    }

    /** The top dirty frame, cleared, goes to the zeroed pool. */
    method DirtyToZeroed() returns (worked: bool)
      requires Valid()
      modifies this`states, zeroed, dirty, mem
      ensures Valid() && forall g: nat :: Pooled(g) <==> old(Pooled(g))
      ensures worked <==> old(dirty.items) != []
      ensures |zeroed.items| == |old(zeroed.items)| + (if worked then 1 else 0)
      ensures !worked ==> zeroed.items == old(zeroed.items) && dirty.items == []
      ensures forall g: nat | !old(Pooled(g)) :: At(mem.words, g) == At(old(mem.words), g)
    {
      var f := PopDirty();
      if f.None? { return false; }
      Blank(f.value);
      PushZeroed(f.value);
      states := Mark(states, f.value, Zeroed);
      return true;
    }

    method PushZeroed(f: nat)
      requires zeroed.mem == mem && dirty.mem == mem && zeroed != dirty && zeroed.Valid() && dirty.Valid()
      requires ExtentsOk(extents) && Apart() && Clean()
      requires f != NIL && !Pooled(f) && At(mem.words, f) == BLANK
      modifies zeroed, mem
      ensures zeroed.Valid() && dirty.Valid() && Apart() && Clean() && zeroed.items == [f] + old(zeroed.items)
      ensures forall g: nat | g != f :: At(mem.words, g) == At(old(mem.words), g)
    {
      zeroed.Push(f);
      LinkedStays(old(mem.words), mem.words, dirty.head, dirty.items);
      forall g: nat | Ready(extents, g) ensures g != f { ReadyCovers(extents, g); }
    }

    /** The highest frame of an extent not yet zeroed is cleared where it lies. */
    method ZeroInPlace(i: nat)
      requires Valid() && i < |extents| && extents[i].zeroed < extents[i].count
      modifies this`extents, this`extentZeroed, this`states, mem
      ensures Valid() && extentZeroed == old(extentZeroed) + 1 && forall g: nat :: Pooled(g) <==> old(Pooled(g))
      ensures forall g: nat | !old(Pooled(g)) :: At(mem.words, g) == At(old(mem.words), g)
    {
      var e := extents[i];
      var f := e.start + (e.count - e.zeroed - 1);
      ReadyKeeps(mem.words, states, early, zeroed.items, dirty.items, extents, i);
      Blank(f);
      Grade(i, f);
    }

    /** The frame just below an extent's zeroed tail is counted in. */
    method Grade(i: nat, f: nat)
      requires Shape() && i < |extents| && extents[i].zeroed < extents[i].count
      requires var y := extents[i := extents[i].(zeroed := extents[i].zeroed + 1)];
        && ExtentsOk(y) && Total(y) == Total(extents) && TotalZeroed(y) == TotalZeroed(extents) + 1
        && Sound(mem.words, Mark(states, f, Zeroed), early, zeroed.items, dirty.items, y)
        && SamePool(zeroed.items, dirty.items, extents, y)
      modifies this`extents, this`extentZeroed, this`states
      ensures Valid() && extentZeroed == old(extentZeroed) + 1
      ensures SamePool(zeroed.items, dirty.items, old(extents), extents)
    {
      extents := extents[i := extents[i].(zeroed := extents[i].zeroed + 1)];
      extentZeroed, states := extentZeroed + 1, Mark(states, f, Zeroed);
    }

    /** A run of zeroed frames off the end of one extent; none only when no extent is long enough. */
    method AllocContiguous(count: nat) returns (r: Option<nat>)
      requires Valid()
      modifies this`extents, this`extentZeroed, this`states, this`freePages, mem
      ensures Valid()
      ensures (r.None? <==> count == 0 || forall i | 0 <= i < |old(extents)| :: old(extents)[i].count < count)
      ensures r.None? ==>
        extents == old(extents) && freePages == old(freePages) && mem.words == old(mem.words) && states == old(states)
      ensures r.Some? ==> freePages == old(freePages) - count
      ensures r.Some? ==>
        forall g: nat | r.value <= g < r.value + count :: old(Pooled(g)) && !Pooled(g) && At(mem.words, g) == BLANK
      ensures r.Some? ==>
        forall g: nat | !(r.value <= g < r.value + count) ::
            (Pooled(g) <==> old(Pooled(g))) && At(mem.words, g) == At(old(mem.words), g)
    {
      if count == 0 { return None; }
      var i := |extents|;
      while i > 0
        invariant 0 <= i <= |extents| && forall j | i <= j < |extents| :: extents[j].count < count
      {
        i := i - 1;
        if extents[i].count >= count {
          var base, dirtyCount := CarveRun(i, count);
          BlankRun(base, dirtyCount);
          return Some(base);
        }
      }
      return None;
    }

    /** Under the lock: the run leaves its extent. Its first n frames still have to be cleared. */
    method CarveRun(i: nat, count: nat) returns (base: nat, n: nat)
      requires Valid() && i < |extents| && 0 < count <= extents[i].count
      modifies this`extents, this`extentZeroed, this`states, this`freePages
      ensures Valid() && freePages == old(freePages) - count && n <= count
      ensures forall g: nat | base <= g < base + count :: old(Pooled(g)) && !Pooled(g)
      ensures forall g: nat | !(base <= g < base + count) :: Pooled(g) <==> old(Pooled(g))
      ensures forall g: nat | base + n <= g < base + count :: At(mem.words, g) == BLANK
    {
      var e := extents[i];
      Carve(extents, i, count);
      base := e.start + e.count - count;
      forall g: nat | base <= g < base + count ensures Covers(extents, g) { HasCovers(extents, i, g); }
      var pre := if e.zeroed < count then e.zeroed else count;
      forall g: nat | base + (count - pre) <= g < base + count ensures Ready(extents, g) { ReadyAt(extents, i, g); }
      extents, extentZeroed, freePages := extents[i := Shorter(e, count)], extentZeroed - pre, freePages - count;
      assert OnePlace(zeroed.items, dirty.items, extents);
      MarkRange(base, count, Active);
      return base, count - pre;
    }

    /** page_descriptor_table::mark_range: frames without a descriptor are passed over. */
    method MarkRange(base: nat, n: nat, st: State)
      modifies this`states
      ensures forall f: nat :: f in states <==> f in old(states)
      ensures forall f: nat | f in states :: states[f] == if base <= f < base + n then st else old(states)[f]
    {
      var p := 0;
      while p < n
        invariant p <= n && forall f: nat :: f in states <==> f in old(states)
        invariant forall f: nat | f in states :: states[f] == if base <= f < base + p then st else old(states)[f]
      {
        states := Mark(states, base + p, st);
        p := p + 1;
      }
    }

    method MarkAll(x: seq<Extent>, st: State)
      modifies this`states
      ensures forall f: nat :: f in states <==> f in old(states)
      ensures forall f: nat | f in states :: states[f] == if Covers(x, f) then st else old(states)[f]
    {
      var i := 0;
      while i < |x|
        invariant i <= |x| && forall f: nat :: f in states <==> f in old(states)
        invariant forall f: nat | f in states :: states[f] == if Covers(x[..i], f) then st else old(states)[f]
      {
        MarkRange(x[i].start, x[i].count, st);
        assert x[..i + 1][..i] == x[..i];
        i := i + 1;
      }
      assert x[..i] == x;
    }

    /** A descriptor for every frame below n, none of them memory yet. */
    method Describe(n: nat)
      modifies this`states
      ensures forall f: nat :: f in states <==> f < n
      ensures forall f: nat | f in states :: states[f] == Mmio
    {
      states := imap[];
      var i := 0;
      while i < n
        invariant i <= n && (forall f: nat :: f in states <==> f < i)
        invariant forall f: nat | f in states :: states[f] == Mmio
      {
        states := states[i := Mmio];
        i := i + 1;
      }
    }

    /** page_descriptor_table::init, once: the usable frames are called free, the wired ones wired and the
        array's own frames wired. A usable frame already handed out becomes an early one. */
    method InitDescriptors(usable: seq<Extent>, wired: seq<Extent>) returns (ok: bool)
      requires Valid() && states == imap[] && early == iset{}
      requires forall f: nat | Pooled(f) :: Covers(usable, f) && !Covers(wired, f)
      modifies this`extents, this`extentZeroed, this`states, this`freePages, this`early, mem
      ensures Valid()
      ensures var n := Top(usable + wired);
        ok <==> n > 0 && exists i | 0 <= i < |old(extents)| :: old(extents)[i].count >= ArrayPages(n)
      ensures ok ==> forall f: nat :: f in states <==> f < Top(usable + wired)
      ensures ok ==> forall f: nat | f in early :: Covers(usable, f) && !Covers(wired, f) && !old(Pooled(f))
      ensures ok ==> forall f: nat | Covers(usable, f) && !Covers(wired, f) && !old(Pooled(f)) :: f in early
      ensures ok ==> forall f: nat :: Pooled(f) ==> old(Pooled(f))
      ensures !ok ==> states == imap[] && early == iset{}
    {
      var n := Top(usable + wired);
      if n == 0 { return false; }
      var base := AllocContiguous(ArrayPages(n));
      if base.None? { return false; }
      Label(usable, wired, n, base.value, ArrayPages(n));
      return true;
    }

    /** A frame in use is pinned for good, as the zero page is. */
    method Pin(f: nat)
      requires Valid() && !Pooled(f)
      modifies this`states, this`early
      ensures Valid() && early == old(early) - iset{f}
      ensures forall g: nat | g != f && g in states :: g in old(states) && states[g] == old(states)[g]
    {
      states := Mark(states, f, Wired);
      early := early - iset{f};
    }

    /** A descriptor for each frame: usable, then wired, then the table's own frames wired too. */
    method MarkBoot(usable: seq<Extent>, wired: seq<Extent>, n: nat, base: nat, count: nat)
      modifies this`states
      ensures forall f: nat :: f in states <==> f < n
      ensures forall f: nat | f in states :: CalledFree(states[f]) <==> Spare(usable, wired, base, count, f)
    {
      Describe(n);
      MarkAll(usable, Free);
      MarkAll(wired, Wired);
      MarkRange(base, count, Wired);
    }

    method Label(usable: seq<Extent>, wired: seq<Extent>, n: nat, base: nat, count: nat)
      requires Valid() && early == iset{} && n == Top(usable + wired)
      requires forall f: nat | Pooled(f) :: Covers(usable, f) && !Covers(wired, f)
      requires forall f: nat | base <= f < base + count :: !Pooled(f)
      modifies this`states, this`early
      ensures Valid() && forall f: nat :: f in states <==> f < n
      ensures forall f: nat :: f in early <==> Spare(usable, wired, base, count, f) && !Pooled(f)
    {
      MarkBoot(usable, wired, n, base, count);
      early := iset f: nat | Spare(usable, wired, base, count, f) && !Pooled(f);
      forall f: nat | Covers(usable, f) ensures f < n { BelowTop(usable, wired, f); }
      forall f: nat | InPool(zeroed.items, dirty.items, extents, f) ensures Spare(usable, wired, base, count, f) {
        assert Pooled(f);
      }
      LabelSound(states, early, zeroed.items, dirty.items, extents, usable, wired, base, count);
    }

    method BlankRun(base: nat, n: nat)
      requires Valid() && forall g: nat | base <= g < base + n :: !Pooled(g)
      modifies mem
      ensures Valid() && forall g: nat | base <= g < base + n :: At(mem.words, g) == BLANK
      ensures forall g: nat | !(base <= g < base + n) :: At(mem.words, g) == At(old(mem.words), g)
    {
      var p := 0;
      while p < n
        invariant p <= n && Valid() && forall g: nat | base <= g < base + p :: At(mem.words, g) == BLANK
        invariant forall g: nat | !(base <= g < base + n) :: At(mem.words, g) == At(old(mem.words), g)
        modifies mem
      {
        assert !Pooled(base + p);
        Blank(base + p);
        p := p + 1;
      }
    }

    /** A new region of frames nobody has. */
    method AddRegion(e: Extent, room: bool)
      requires Valid() && e.zeroed == 0 && e.start + e.count <= NIL
      requires forall f: nat | e.Has(f) :: !Pooled(f) && f !in states
      modifies this`extents, this`freePages
      ensures Valid() && freePages == old(freePages) + (if room then e.count else 0)
      ensures forall g: nat :: Pooled(g) <==> old(Pooled(g)) || (room && e.Has(g))
    {
      if room {
        AddKeeps(mem.words, states, early, zeroed.items, dirty.items, extents, e);
        ghost var x := extents;
        extents, freePages := extents + [e], freePages + e.count;
        assert forall g: nat :: Pooled(g) <==> InPool(zeroed.items, dirty.items, x, g) || e.Has(g);
      }
    }

    /** One more free frame zeroed; false exactly when every free frame is. */
    method ZeroOnePage() returns (worked: bool)
      requires Valid()
      modifies this`extents, this`extentZeroed, this`states, zeroed, dirty, mem
      ensures Valid() && freePages == old(freePages) && forall g: nat :: Pooled(g) <==> old(Pooled(g))
      ensures !worked <==> old(dirty.items) == [] && forall i | 0 <= i < |old(extents)| ::
        old(extents)[i].zeroed == old(extents)[i].count
      ensures |zeroed.items| + extentZeroed == |old(zeroed.items)| + old(extentZeroed) + (if worked then 1 else 0)
      ensures forall g: nat | !old(Pooled(g)) :: At(mem.words, g) == At(old(mem.words), g)
    {
      ZeroedWithin(extents);
      var d := DirtyToZeroed();
      if d { return true; }
      if zeroed.count + extentZeroed >= freePages { return false; }
      worked := ZeroTail();
    }

    /** Some extent has a frame to clear, and the last such extent's is cleared. */
    method ZeroTail() returns (worked: bool)
      requires Valid() && exists j | 0 <= j < |extents| :: extents[j].zeroed != extents[j].count
      modifies this`extents, this`extentZeroed, this`states, mem
      ensures Valid() && worked && extentZeroed == old(extentZeroed) + 1
      ensures forall g: nat :: Pooled(g) <==> old(Pooled(g))
      ensures forall g: nat | !old(Pooled(g)) :: At(mem.words, g) == At(old(mem.words), g)
    {
      var i := |extents|;
      while i > 0
        invariant 0 <= i <= |extents| && forall j | i <= j < |extents| :: extents[j].zeroed == extents[j].count
        invariant exists j | 0 <= j < |extents| :: extents[j].zeroed != extents[j].count
      {
        i := i - 1;
        if extents[i].zeroed != extents[i].count {
          ZeroInPlace(i);
          return true;
        }
      }
      return false;
    }
  }

  lemma {:induction false} SomeExtent(x: seq<Extent>)
    requires Total(x) > 0
    ensures exists i | 0 <= i < |x| :: x[i].count > 0
  {
    var k := |x| - 1;
    if x[k].count == 0 {
      SomeExtent(x[..k]);
      var i :| 0 <= i < k && x[..k][i].count > 0;
      assert x[i].count > 0;
    }
  }

  lemma OneRegion(e: Extent)
    ensures Top([e]) == e.start + e.count && forall g: nat :: Covers([e], g) <==> e.Has(g)
  {
    assert [e][..0] == [] && Top([]) == 0;
    forall g: nat ensures Covers([e], g) <==> e.Has(g) { assert !Covers([], g); }
  }

  /** A frame handed out before the descriptors were set up can not be given back: the attempt is taken
      for a double free, though the caller has the frame and no pool does. */
  method EarlyFreePanics() returns (panicked: bool, f: nat, a: Allocator)
    ensures panicked && a.Valid() && !a.Pooled(f)
  {
    a := new Allocator();
    var region := Extent(0, 10, 0);
    a.AddRegion(region, true);
    var r := a.Alloc();
    f := r.value;
    SomeExtent(a.extents);
    var usable := [region];
    OneRegion(region);
    assert usable + [] == usable && ArrayPages(10) == 1;
    var ok := a.InitDescriptors(usable, []);
    panicked := a.Release(f);
  }
}
