/** Region trees: address ranges cut into sub-regions and bindings. Siblings are disjoint, a child lies
    inside its parent and is allowed no more than it, and every address has at most one binding. */
module RegionTree {

  import opened Basics

  const PAGE_SIZE: nat := 4096
  const TOP: nat := 0x1_0000_0000_0000_0000

  datatype Access = Reading | Writing | Executing | FromUser

  datatype Cache = Cached | WriteCombining | Device

  datatype Body = Binding(obj: Option<nat>, offset: nat, cache: Cache) | Sub(region: nat)

  /** One child of a region: a sub-region, or a stretch of a memory object. */
  datatype Slot = Slot(base: nat, size: nat, prot: set<Access>, body: Body) {
    function End(): nat { base + size }

    predicate Has(v: nat) { base <= v < base + size }

    predicate Overlaps(lo: nat, hi: nat) { base < hi && lo < base + size }
  }

  datatype Region = Region(space: nat, parent: Option<nat>, base: nat, size: nat, prot: set<Access>,
                           children: seq<Slot>) {
    function End(): nat { base + size }

    predicate Has(v: nat) { base <= v < base + size }
  }

  /** The regions of all address spaces; a region is older than its sub-regions. */
  datatype Forest = Forest(regions: imap<nat, Region>, roots: imap<nat, nat>, next: nat)

  predicate Aligned(v: nat) { v % PAGE_SIZE == 0 }

  // ---------------------------------------------------------------- children in address order

  ghost predicate Ordered(c: seq<Slot>) {
    && (forall i | 0 <= i < |c| :: 0 < c[i].size)
    && (forall i, j | 0 <= i < j < |c| :: c[i].End() <= c[j].base)
  }

  /** The last child that starts at or before the key, or -1. */
  function FindLe(c: seq<Slot>, key: nat): (i: int)
    ensures -1 <= i < |c|
  {
    if c == [] then -1 else if c[|c| - 1].base <= key then |c| - 1 else FindLe(c[..|c| - 1], key)
  }

  lemma {:induction false} FindLeSplits(c: seq<Slot>, key: nat)
    requires Ordered(c)
    ensures var i := FindLe(c, key); forall j | 0 <= j < |c| :: c[j].base <= key <==> j <= i
  {
    if c != [] && c[|c| - 1].base > key {
      FindLeSplits(c[..|c| - 1], key);
      assert forall j | 0 <= j < |c| - 1 :: c[..|c| - 1][j] == c[j];
    }
  }

  lemma FindLeIs(c: seq<Slot>, i: nat, key: nat)
    requires Ordered(c) && i < |c| && c[i].Has(key)
    ensures FindLe(c, key) == i
  {
    FindLeSplits(c, key);
    var k := FindLe(c, key);
    assert c[k].base <= key && i <= k;
  }

  /** Looking at one child is enough to see whether a range is free. */
  lemma OneLookEnough(c: seq<Slot>, lo: nat, hi: nat)
    requires Ordered(c) && lo < hi
    ensures var i := FindLe(c, hi - 1);
      (i >= 0 && lo < c[i].End()) <==> exists j | 0 <= j < |c| :: c[j].Overlaps(lo, hi)
  {
    FindLeSplits(c, hi - 1);
    var i := FindLe(c, hi - 1);
    if i >= 0 && lo < c[i].End() { assert c[i].Overlaps(lo, hi); }
    forall j | 0 <= j < |c| && c[j].Overlaps(lo, hi) ensures i >= 0 && lo < c[i].End() {
      assert c[j].base <= hi - 1 && j <= i;
    }
  }

  function Insert(c: seq<Slot>, s: Slot): (r: seq<Slot>)
  {
    var at := FindLe(c, s.base) + 1;
    c[..at] + [s] + c[at..]
  }

  lemma InsertOrdered(c: seq<Slot>, s: Slot)
    requires Ordered(c) && 0 < s.size && forall j | 0 <= j < |c| :: !c[j].Overlaps(s.base, s.End())
    ensures Ordered(Insert(c, s))
  {
    FindLeSplits(c, s.base);
    var at := FindLe(c, s.base) + 1;
    var r := Insert(c, s);
    forall i, j | 0 <= i < j < |r| ensures r[i].End() <= r[j].base {
      var x, y := if i <= at then i else i - 1, if j <= at then j else j - 1;
      if i < at { assert r[i] == c[i] && c[i].base <= s.base && !c[i].Overlaps(s.base, s.End()); }
      if j > at { assert r[j] == c[y] && c[y].base > s.base && !c[y].Overlaps(s.base, s.End()); }
    }
  }

  lemma InsertHas(c: seq<Slot>, s: Slot)
    ensures forall x :: x in Insert(c, s) <==> x == s || x in c
  {
    var at := FindLe(c, s.base) + 1;
    assert c == c[..at] + c[at..];
  }

  function Without(c: seq<Slot>, i: nat): (r: seq<Slot>)
    requires i < |c|
  {
    c[..i] + c[i + 1..]
  }

  lemma WithoutOrdered(c: seq<Slot>, i: nat)
    requires Ordered(c) && i < |c|
    ensures Ordered(Without(c, i))
    ensures forall s :: s in Without(c, i) <==> s in c && s != c[i]
  {
    var r := Without(c, i);
    assert forall j | 0 <= j < |r| :: r[j] == c[if j < i then j else j + 1];
    WithoutHas(c, i);
  }

  lemma WithoutHas(c: seq<Slot>, i: nat)
    requires Ordered(c) && i < |c|
    ensures forall s :: s in Without(c, i) <==> s in c && s != c[i]
  {
    assert c == c[..i] + [c[i]] + c[i + 1..];
    assert forall j | 0 <= j < |c| && j != i :: c[j].base != c[i].base;
  }

  // ---------------------------------------------------------------- trees

  ghost predicate SlotOk(f: Forest, r: nat, s: Slot)
    requires r in f.regions
  {
    var up := f.regions[r];
    && 0 < s.size && Aligned(s.base) && Aligned(s.size) && up.base <= s.base && s.End() <= up.End() && s.prot <= up.prot
    && (s.body.Sub? ==> var c := s.body.region;
                        && r < c && c in f.regions
                        && var down := f.regions[c];
                           && down.parent == Some(r) && down.space == up.space
                           && down.base == s.base && down.size == s.size && down.prot == s.prot)
  }

  ghost predicate RegionOk(f: Forest, r: nat)
    requires r in f.regions
  {
    var g := f.regions[r];
    && r < f.next && Aligned(g.base) && g.End() < TOP && Ordered(g.children)
    && (forall s {:trigger SlotOk(f, r, s)} | s in g.children :: SlotOk(f, r, s))
    && g.space in f.roots
    && (g.parent.None? ==> f.roots[g.space] == r)
    && (g.parent.Some? ==> var p := g.parent.value;
                           && p < r && p in f.regions
                           && var i := FindLe(f.regions[p].children, g.base);
                              i >= 0 && f.regions[p].children[i].body == Sub(r))
  }

  ghost predicate RootOk(f: Forest, space: nat)
    requires space in f.roots
  {
    var r := f.roots[space];
    r in f.regions && f.regions[r].space == space && f.regions[r].parent.None?
  }

  ghost predicate Valid(f: Forest) {
    && (forall r {:trigger RegionOk(f, r)} | r in f.regions :: RegionOk(f, r))
    && (forall space {:trigger RootOk(f, space)} | space in f.roots :: RootOk(f, space))
  }

  /** Where a binding is: its region, and the slot itself. */
  datatype Spot = Spot(region: nat, slot: Slot)

  /** The deepest binding over an address. */
  function Find(f: Forest, r: nat, v: nat): Option<Spot>
    decreases f.next - r
  {
    if r !in f.regions then None
    else
      var c := f.regions[r].children;
      var i := FindLe(c, v);
      if i < 0 || !c[i].Has(v) then None
      else if c[i].body.Binding? then Some(Spot(r, c[i]))
      else if r < c[i].body.region < f.next then Find(f, c[i].body.region, v)
      else None
  }

  /** A binding found is really there. */
  lemma {:induction false} FindSound(f: Forest, r: nat, v: nat)
    requires Valid(f) && r in f.regions
    ensures Find(f, r, v).Some? ==>
      var spot := Find(f, r, v).value;
      && spot.region in f.regions && spot.slot in f.regions[spot.region].children && spot.slot.body.Binding?
      && spot.slot.Has(v)
      && f.regions[spot.region].space == f.regions[r].space
    decreases f.next - r
  {
    assert RegionOk(f, r);
    var c := f.regions[r].children;
    var i := FindLe(c, v);
    if i >= 0 && c[i].Has(v) && c[i].body.Sub? {
      assert c[i] in c && SlotOk(f, r, c[i]);
      assert RegionOk(f, c[i].body.region);
      FindSound(f, c[i].body.region, v);
    }
  }

  /** The search from the root of an address space comes through every region over the address. */
  lemma {:induction false} FindVia(f: Forest, r: nat, v: nat)
    requires Valid(f) && r in f.regions && f.regions[r].Has(v)
    ensures f.regions[r].space in f.roots && Find(f, f.roots[f.regions[r].space], v) == Find(f, r, v)
  {
    assert RegionOk(f, r);
    var g := f.regions[r];
    if g.parent.Some? {
      var p := g.parent.value;
      assert RegionOk(f, p);
      var up := f.regions[p];
      var i := FindLe(up.children, g.base);
      assert up.children[i] in up.children && SlotOk(f, p, up.children[i]);
      FindLeIs(up.children, i, v);
      FindVia(f, p, v);
    }
  }

  /** No address has two bindings: the search finds any binding that contains it. */
  lemma FindUnique(f: Forest, r: nat, s: Slot, v: nat)
    requires Valid(f) && r in f.regions && s in f.regions[r].children && s.body.Binding? && s.Has(v)
    ensures f.regions[r].space in f.roots && Find(f, f.roots[f.regions[r].space], v) == Some(Spot(r, s))
  {
    assert RegionOk(f, r) && SlotOk(f, r, s);
    var c := f.regions[r].children;
    var i :| 0 <= i < |c| && c[i] == s;
    FindLeIs(c, i, v);
    FindVia(f, r, v);
  }

  /** What a binding allows, every region around it allows. */
  lemma {:induction false} NeverMoreThanAbove(f: Forest, r: nat, s: Slot, up: nat)
    requires Valid(f) && r in f.regions && s in f.regions[r].children && up in f.regions && Under(f, r, up)
    ensures s.prot <= f.regions[r].prot <= f.regions[up].prot
    ensures f.regions[up].base <= f.regions[r].base <= s.base && s.End() <= f.regions[r].End() <= f.regions[up].End()
    ensures f.regions[up].space == f.regions[r].space
  {
    assert RegionOk(f, r) && SlotOk(f, r, s);
    if r != up {
      var p := f.regions[r].parent.value;
      assert RegionOk(f, p);
      var i := FindLe(f.regions[p].children, f.regions[r].base);
      var d := f.regions[p].children[i];
      assert d in f.regions[p].children && SlotOk(f, p, d);
      NeverMoreThanAbove(f, p, d, up);
    }
  }

  /** q is top or lies below it. */
  predicate Under(f: Forest, q: nat, top: nat) {
    q == top || (q in f.regions && f.regions[q].parent.Some? && f.regions[q].parent.value < q
        && Under(f, f.regions[q].parent.value, top))
  }

  // ---------------------------------------------------------------- changing a tree

  /** Two children of one region never name the same sub-region. */
  lemma OneSlotEach(f: Forest, r: nat, a: Slot, b: Slot)
    requires Valid(f) && r in f.regions && a in f.regions[r].children && b in f.regions[r].children
    requires a.body.Sub? && b.body == a.body
    ensures a == b
  {
    assert RegionOk(f, r) && SlotOk(f, r, a) && SlotOk(f, r, b);
    var c := f.regions[r].children;
    var i :| 0 <= i < |c| && c[i] == a;
    FindLeIs(c, i, a.base);
    var j :| 0 <= j < |c| && c[j] == b;
    FindLeIs(c, j, a.base);
  }

  /** The region's slot in its parent, wherever the parent's other children went. */
  lemma ParentSlot(f: Forest, r: nat) returns (s: Slot)
    requires Valid(f) && r in f.regions && f.regions[r].parent.Some?
    ensures var p := f.regions[r].parent.value;
      p < r && p in f.regions && s in f.regions[p].children && s.body == Sub(r) && s.base == f.regions[r].base
          && SlotOk(f, p, s)
  {
    assert RegionOk(f, r);
    var p := f.regions[r].parent.value;
    assert RegionOk(f, p);
    s := f.regions[p].children[FindLe(f.regions[p].children, f.regions[r].base)];
    assert s in f.regions[p].children && SlotOk(f, p, s);
  }

  function WithChildren(f: Forest, r: nat, c: seq<Slot>): (g: Forest)
    requires r in f.regions
  {
    f.(regions := f.regions[r := f.regions[r].(children := c)])
  }

  /** A region found in order keeps its place in its parent's list as long as its slot is in it. */
  lemma PlaceStays(c: seq<Slot>, s: Slot)
    requires Ordered(c) && s in c
    ensures var i := FindLe(c, s.base); i >= 0 && c[i] == s
  {
    var i :| 0 <= i < |c| && c[i] == s;
    FindLeIs(c, i, s.base);
  }

  /** A region may be given any ordered list of sound slots that keeps its sub-regions. */
  lemma NewChildren(f: Forest, r: nat, c: seq<Slot>)
    requires Valid(f) && r in f.regions && Ordered(c) && forall s {:trigger SlotOk(f, r, s)} | s in c :: SlotOk(f, r, s)
    requires forall s | s in f.regions[r].children && s.body.Sub? :: s in c
    ensures Valid(WithChildren(f, r, c))
  {
    var g := WithChildren(f, r, c);
    forall q | q in g.regions ensures RegionOk(g, q) {
      assert RegionOk(f, q);
      forall s | s in g.regions[q].children ensures SlotOk(g, q, s) { assert SlotOk(f, q, s); }
      if g.regions[q].parent == Some(r) {
        var s := ParentSlot(f, q);
        PlaceStays(c, s);
      }
    }
    forall space | space in g.roots ensures RootOk(g, space) { assert RootOk(f, space); }
  }

  /** An emptied sub-region leaves the tree with its slot. */
  function Detached(f: Forest, r: nat, i: nat): (g: Forest)
    requires r in f.regions && i < |f.regions[r].children| && f.regions[r].children[i].body.Sub?
  {
    var c := f.regions[r].children[i].body.region;
    f.(regions := (f.regions - {c})[r := f.regions[r].(children := Without(f.regions[r].children, i))])
  }

  ghost predicate MayDetach(f: Forest, r: nat, i: nat) {
    && Valid(f) && r in f.regions && i < |f.regions[r].children| && f.regions[r].children[i].body.Sub?
    && var c := f.regions[r].children[i].body.region; c in f.regions && f.regions[c].children == []
  }

  lemma DetachedSlot(f: Forest, r: nat, i: nat, q: nat, s: Slot)
    requires MayDetach(f, r, i) && q in Detached(f, r, i).regions && s in Detached(f, r, i).regions[q].children
    ensures SlotOk(Detached(f, r, i), q, s)
  {
    var all := f.regions[r].children;
    assert RegionOk(f, r);
    WithoutOrdered(all, i);
    assert RegionOk(f, q) && SlotOk(f, q, s) && RegionOk(f, r) && all[i] in all && SlotOk(f, r, all[i]);
    if s.body == all[i].body { OneSlotEach(f, r, s, all[i]); }
  }

  lemma DetachedRegion(f: Forest, r: nat, i: nat, q: nat)
    requires MayDetach(f, r, i) && q in Detached(f, r, i).regions
    ensures RegionOk(Detached(f, r, i), q)
  {
    var g, all := Detached(f, r, i), f.regions[r].children;
    assert RegionOk(f, r) && RegionOk(f, q) && all[i] in all && SlotOk(f, r, all[i]);
    WithoutOrdered(all, i);
    forall s | s in g.regions[q].children ensures SlotOk(g, q, s) { DetachedSlot(f, r, i, q, s); }
    if g.regions[q].parent.Some? {
      var s := ParentSlot(f, q);
      if g.regions[q].parent.value == r { PlaceStays(g.regions[r].children, s); }
    }
  }

  lemma DetachKeeps(f: Forest, r: nat, i: nat)
    requires MayDetach(f, r, i)
    ensures Valid(Detached(f, r, i))
  {
    var g := Detached(f, r, i);
    assert RegionOk(f, r) && f.regions[r].children[i] in f.regions[r].children
        && SlotOk(f, r, f.regions[r].children[i]);
    forall q | q in g.regions ensures RegionOk(g, q) { DetachedRegion(f, r, i, q); }
    forall space | space in g.roots ensures RootOk(g, space) { assert RootOk(f, space); }
  }

  /** A slot turned into a new, empty sub-region. */
  function Grafted(f: Forest, r: nat, i: nat): (g: Forest)
    requires r in f.regions && i < |f.regions[r].children|
  {
    var up := f.regions[r];
    var s := up.children[i];
    Forest(f.regions[r := up.(children := up.children[i := s.(body := Sub(f.next))])]
                    [f.next := Region(up.space, Some(r), s.base, s.size, s.prot, [])],
           f.roots, f.next + 1)
  }

  ghost predicate MayGraft(f: Forest, r: nat, i: nat) {
    Valid(f) && r in f.regions && i < |f.regions[r].children| && f.regions[r].children[i].body.Binding?
        && f.next !in f.regions
  }

  lemma GraftedSlot(f: Forest, r: nat, i: nat, q: nat, s: Slot)
    requires MayGraft(f, r, i) && q in f.regions && s in Grafted(f, r, i).regions[q].children
    ensures SlotOk(Grafted(f, r, i), q, s)
  {
    var c := f.regions[r].children;
    assert RegionOk(f, q) && RegionOk(f, r) && c[i] in c && SlotOk(f, r, c[i]);
    if s in f.regions[q].children { assert SlotOk(f, q, s); }
  }

  lemma GraftedPlace(f: Forest, r: nat, i: nat, s: Slot)
    requires MayGraft(f, r, i) && s in f.regions[r].children && s.body.Sub?
    ensures var c := Grafted(f, r, i).regions[r].children;
      Ordered(c) && FindLe(c, s.base) >= 0 && c[FindLe(c, s.base)] == s
  {
    GraftedOrdered(f, r, i);
    var c, c' := f.regions[r].children, Grafted(f, r, i).regions[r].children;
    var j :| 0 <= j < |c| && c[j] == s;
    assert c'[j] == s;
    PlaceStays(c', s);
  }

  lemma GraftedOrdered(f: Forest, r: nat, i: nat)
    requires MayGraft(f, r, i)
    ensures Ordered(Grafted(f, r, i).regions[r].children)
  {
    assert RegionOk(f, r);
    var c, c' := f.regions[r].children, Grafted(f, r, i).regions[r].children;
    assert forall j | 0 <= j < |c| :: c'[j].base == c[j].base && c'[j].size == c[j].size;
  }

  lemma GraftKeeps(f: Forest, r: nat, i: nat)
    requires MayGraft(f, r, i)
    ensures Valid(Grafted(f, r, i))
  {
    var g := Grafted(f, r, i);
    GraftedOrdered(f, r, i);
    assert RegionOk(f, r) && f.regions[r].children[i] in f.regions[r].children
        && SlotOk(f, r, f.regions[r].children[i]);
    forall q | q in g.regions ensures RegionOk(g, q) {
      if q == f.next { PlaceStays(g.regions[r].children, g.regions[r].children[i]); }
      else {
        assert RegionOk(f, q);
        forall s | s in g.regions[q].children ensures SlotOk(g, q, s) { GraftedSlot(f, r, i, q, s); }
        if g.regions[q].parent.Some? {
          var s := ParentSlot(f, q);
          if g.regions[q].parent.value == r { GraftedPlace(f, r, i, s); }
        }
      }
    }
    forall space | space in g.roots ensures RootOk(g, space) { assert RootOk(f, space); }
  }

  // ---------------------------------------------------------------- what lies below a region

  lemma {:induction false} UnderUp(f: Forest, q: nat, d: nat, c: nat)
    requires Under(f, q, d) && d in f.regions && f.regions[d].parent == Some(c) && c < d
    ensures Under(f, q, c)
  {
    if q != d { UnderUp(f, f.regions[q].parent.value, d, c); }
  }

  /** Dropping regions and changing children moves nothing to another place in the tree. */
  lemma {:induction false} UnderSame(f: Forest, g: Forest, q: nat, c: nat)
    requires Under(g, q, c) && forall x | x in g.regions :: x in f.regions && g.regions[x].parent == f.regions[x].parent
    ensures Under(f, q, c)
  {
    if q != c { UnderSame(f, g, g.regions[q].parent.value, c); }
  }

  lemma {:induction false} UnderStays(f: Forest, g: Forest, q: nat, c: nat)
    requires Valid(g) && q in g.regions && Under(f, q, c)
    requires forall x | x in g.regions :: x in f.regions && g.regions[x].parent == f.regions[x].parent
    ensures Under(g, q, c)
  {
    assert RegionOk(g, q);
    if q != c { UnderStays(f, g, g.regions[q].parent.value, c); }
  }

  lemma {:induction false} NoneUnderEmpty(f: Forest, q: nat, c: nat)
    requires Valid(f) && q in f.regions && c in f.regions && f.regions[c].children == [] && Under(f, q, c)
    ensures q == c
  {
    if q != c {
      var s := ParentSlot(f, q);
      NoneUnderEmpty(f, f.regions[q].parent.value, c);
    }
  }

  /** However deep, a region lies inside every region above it, in the same address space. */
  lemma {:induction false} UnderInside(f: Forest, q: nat, c: nat)
    requires Valid(f) && q in f.regions && c in f.regions && Under(f, q, c)
    ensures f.regions[c].space == f.regions[q].space && f.regions[c].base <= f.regions[q].base
    ensures f.regions[q].End() <= f.regions[c].End()
  {
    if q != c {
      var s := ParentSlot(f, q);
      UnderInside(f, f.regions[q].parent.value, c);
    }
  }
}
