/** Virtual memory: address spaces cut into regions, memory objects filled on demand, and translations
    installed by the fault handler. Every operation runs under one lock. */
module Vm {

  import opened Basics
  import opened RegionTree

  datatype Error = InvalidOperation | OutOfRange | RightsViolation | Oom | CapacityExhausted

  datatype Result<T> = Ok(value: T) | Err(error: Error)

  /** Page frames: the shared zero page, allocator frames, and the frames of device windows. */
  datatype Frame = Zero | Ram(id: nat) | Dev(id: nat)

  datatype Pager = Anonymous | Window(base: nat, mode: Cache)

  datatype Vmo = Vmo(pages: nat, pager: Pager, resident: imap<nat, Frame>)

  /** An address in an address space. */
  datatype Va = Va(space: nat, at: nat)

  datatype Page = Page(frame: Frame, prot: set<Access>, cache: Cache)

  /** Who a frame's descriptor says it belongs to. */
  datatype Owner = Owner(obj: nat, page: nat)

  function ModeOf(p: Pager): Cache { if p.Window? then p.mode else Cached }

  function Stricter(a: Cache, b: Cache): Cache {
    if a.Device? || b.Device? then Device else if a.WriteCombining? || b.WriteCombining? then WriteCombining else Cached
  }

  /** The object's page under an address of the binding. */
  function PageNo(s: Slot, at: nat): nat
    requires s.base <= at && s.body.Binding?
  {
    (at - s.base + s.body.offset) / PAGE_SIZE
  }

  // ---------------------------------------------------------------- soundness

  ghost predicate BindingOk(vmos: imap<nat, Vmo>, s: Slot) {
    s.body.Binding? && s.body.obj.Some? ==>
      && s.body.obj.value in vmos
      && var v := vmos[s.body.obj.value];
         Aligned(s.body.offset) && s.body.offset + s.size <= v.pages * PAGE_SIZE && s.body.offset + s.size < TOP
         && Stricter(s.body.cache, ModeOf(v.pager)) == s.body.cache
  }

  ghost predicate Bound(f: Forest, vmos: imap<nat, Vmo>) {
    forall r, s {:trigger s in f.regions[r].children} | r in f.regions && s in f.regions[r].children ::
        BindingOk(vmos, s)
  }

  ghost predicate ResidentOk(vmos: imap<nat, Vmo>, owners: imap<nat, Owner>, o: nat, n: nat)
    requires o in vmos && n in vmos[o].resident
  {
    var v := vmos[o];
    && n < v.pages
    && (v.pager.Anonymous? ==>
       v.resident[n].Ram? && v.resident[n].id in owners && owners[v.resident[n].id] == Owner(o, n))
    && (v.pager.Window? ==> v.resident[n] == Dev(v.pager.base + n))
  }

  /** A frame's descriptor names an object page that really has it. */
  ghost predicate OwnerOk(vmos: imap<nat, Vmo>, owners: imap<nat, Owner>, id: nat)
    requires id in owners
  {
    var w := owners[id];
    w.obj in vmos && vmos[w.obj].pager.Anonymous? && w.page in vmos[w.obj].resident
        && vmos[w.obj].resident[w.page] == Ram(id)
  }

  ghost predicate Filled(vmos: imap<nat, Vmo>, owners: imap<nat, Owner>) {
    && (forall o, n {:trigger ResidentOk(vmos, owners, o, n)} | o in vmos && n in vmos[o].resident ::
       ResidentOk(vmos, owners, o, n))
    && (forall id {:trigger OwnerOk(vmos, owners, id)} | id in owners :: OwnerOk(vmos, owners, id))
  }

  /** What a translation may show: the object's frame with the binding's protection, or the zero page
      without the right to write. */
  ghost predicate Shows(v: Vmo, s: Slot, at: nat, page: Page)
    requires s.base <= at && s.body.Binding?
  {
    && page.cache == s.body.cache
    && if page.frame.Zero? then v.pager.Anonymous? && page.prot == s.prot - {Access.Writing}
       else PageNo(s, at) in v.resident && page.frame == v.resident[PageNo(s, at)] && page.prot == s.prot
  }

  ghost predicate PageOk(f: Forest, vmos: imap<nat, Vmo>, k: Va, page: Page) {
    && Aligned(k.at) && k.space in f.roots
    && var found := Find(f, f.roots[k.space], k.at);
       && found.Some? && f.roots[k.space] in f.regions
       && var s := found.value.slot;
          && s.Has(k.at) && s.body.Binding? && s.body.obj.Some? && s.body.obj.value in vmos
          && Shows(vmos[s.body.obj.value], s, k.at, page)
  }

  ghost predicate Mapped(f: Forest, vmos: imap<nat, Vmo>, pages: imap<Va, Page>) {
    forall k {:trigger PageOk(f, vmos, k, pages[k])} | k in pages :: PageOk(f, vmos, k, pages[k])
  }

  /** A translation stays sound in any sound forest that still has its binding. */
  lemma PageStays(f: Forest, g: Forest, vmos: imap<nat, Vmo>, k: Va, page: Page)
    requires Valid(f) && Valid(g) && PageOk(f, vmos, k, page)
    requires var spot := Find(f, f.roots[k.space], k.at).value;
      spot.region in g.regions && spot.slot in g.regions[spot.region].children
          && g.regions[spot.region].space == k.space
    ensures PageOk(g, vmos, k, page)
  {
    var spot := Find(f, f.roots[k.space], k.at).value;
    FindUnique(g, spot.region, spot.slot, k.at);
    assert RootOk(g, k.space);
  }

  /** Where a translation's binding is. */
  lemma PageSpot(f: Forest, vmos: imap<nat, Vmo>, k: Va, page: Page) returns (spot: Spot)
    requires Valid(f) && PageOk(f, vmos, k, page)
    ensures Find(f, f.roots[k.space], k.at) == Some(spot) && spot.region in f.regions
    ensures f.regions[spot.region].space == k.space
    ensures spot.slot in f.regions[spot.region].children && spot.slot.Has(k.at) && spot.slot.body.Binding?
    ensures spot.slot.body.obj.Some?
  {
    spot := Find(f, f.roots[k.space], k.at).value;
    assert RootOk(f, k.space);
    FindSound(f, f.roots[k.space], k.at);
  }

  // ---------------------------------------------------------------- pages of a range

  predicate InRange(k: Va, space: nat, lo: nat, hi: nat) { k.space == space && lo <= k.at < hi }

  ghost function Zap(pages: imap<Va, Page>, space: nat, lo: nat, hi: nat): imap<Va, Page> {
    imap k | k in pages && !InRange(k, space, lo, hi) :: pages[k]
  }

  lemma ZapStep(pages: imap<Va, Page>, space: nat, lo: nat, mid: nat)
    requires lo <= mid && Aligned(mid) && forall k | k in pages :: Aligned(k.at)
    ensures Zap(pages, space, lo, mid) - {Va(space, mid)} == Zap(pages, space, lo, mid + PAGE_SIZE)
  {
    forall k | k in pages && InRange(k, space, mid, mid + PAGE_SIZE) ensures k == Va(space, mid) {
      assert Aligned(k.at);
    }
  }

  // ---------------------------------------------------------------- first fit

  ghost predicate Fits(c: seq<Slot>, lo: nat, hi: nat, a: nat, size: nat) {
    lo <= a && a + size <= hi && forall j | 0 <= j < |c| :: !c[j].Overlaps(a, a + size)
  }

  /** The lowest place at or above the floor, or none exactly when there is none. */
  method FindGap(c: seq<Slot>, lo: nat, hi: nat, floor: nat, size: nat) returns (r: Option<nat>)
    requires Ordered(c) && size > 0 && forall j | 0 <= j < |c| :: lo <= c[j].base && c[j].End() <= hi
    ensures r.Some? ==> floor <= r.value && Fits(c, lo, hi, r.value, size)
    ensures r.Some? ==> forall a | floor <= a < r.value :: !Fits(c, lo, hi, a, size)
    ensures r.None? ==> forall a | floor <= a :: !Fits(c, lo, hi, a, size)
    ensures r.Some? && Aligned(floor) && Aligned(lo) && (forall j | 0 <= j < |c| :: Aligned(c[j].End())) ==>
      Aligned(r.value)
  {
    var cursor := if floor > lo then floor else lo;
    var i := 0;
    while i < |c|
      invariant i <= |c| && floor <= cursor && lo <= cursor
      invariant forall j | 0 <= j < i :: c[j].End() <= cursor
      invariant forall a | floor <= a < cursor :: !Fits(c, lo, hi, a, size)
      invariant Aligned(floor) && Aligned(lo) && (forall j | 0 <= j < |c| :: Aligned(c[j].End())) ==> Aligned(cursor)
    {
      var slotEnd := c[i].base + c[i].size;
      if slotEnd > cursor {
        if c[i].base >= cursor && c[i].base - cursor >= size { break; }
        forall a | cursor <= a < slotEnd ensures !Fits(c, lo, hi, a, size) { assert c[i].Overlaps(a, a + size); }
        cursor := slotEnd;
      }
      i := i + 1;
    }
    if cursor > hi || hi - cursor < size { return None; }
    return Some(cursor);
  }

  // ---------------------------------------------------------------- taking slots out

  /** c is empty, all that lay below it is gone, and the rest is as it was. */
  ghost predicate Cleared(f: Forest, g: Forest, c: nat)
    requires c in f.regions
  {
    && g.roots == f.roots && g.next == f.next && c in g.regions && g.regions[c] == f.regions[c].(children := [])
    && (forall q | q in f.regions && !Under(f, q, c) :: q in g.regions && g.regions[q] == f.regions[q])
    && (forall q | q in g.regions :: q in f.regions && (Under(f, q, c) ==> q == c))
  }

  ghost predicate Dropped(f: Forest, r: nat, i: nat, q: nat)
    requires r in f.regions && i < |f.regions[r].children|
  {
    f.regions[r].children[i].body.Sub? && Under(f, q, f.regions[r].children[i].body.region)
  }

  /** r has lost its i-th slot, with all that lay below it, and the rest is as it was. */
  ghost predicate Removed(f: Forest, g: Forest, r: nat, i: nat)
    requires r in f.regions && i < |f.regions[r].children|
  {
    && g.roots == f.roots && g.next == f.next && r in g.regions
    && g.regions[r] == f.regions[r].(children := Without(f.regions[r].children, i))
    && (forall q | q in f.regions && q != r && !Dropped(f, r, i, q) :: q in g.regions && g.regions[q] == f.regions[q])
    && (forall q | q in g.regions :: q in f.regions && !Dropped(f, r, i, q))
  }

  /** c has lost its first k slots, and what is left is as it was. */
  ghost predicate Thinned(f: Forest, g: Forest, c: nat, k: nat)
    requires c in f.regions && k <= |f.regions[c].children|
  {
    && g.roots == f.roots && g.next == f.next && c in g.regions
    && g.regions[c] == f.regions[c].(children := f.regions[c].children[k..])
    && (forall q | q in f.regions && !Under(f, q, c) :: q in g.regions && g.regions[q] == f.regions[q])
    && (forall q | q in g.regions && q != c :: q in f.regions && g.regions[q] == f.regions[q])
  }

  lemma ThinMore(f: Forest, g: Forest, h: Forest, c: nat, k: nat)
    requires c in f.regions && k < |f.regions[c].children| && Valid(g) && Thinned(f, g, c, k) && Removed(g, h, c, 0)
    ensures Thinned(f, h, c, k + 1)
  {
    var s := g.regions[c].children[0];
    assert RegionOk(g, c) && s in g.regions[c].children && SlotOk(g, c, s);
    forall q | q in f.regions && !Under(f, q, c) ensures q in h.regions && h.regions[q] == f.regions[q] {
      if Dropped(g, c, 0, q) {
        UnderUp(g, q, s.body.region, c);
        UnderSame(f, g, q, c);
      }
    }
  }

  lemma ThinnedOut(f: Forest, g: Forest, c: nat)
    requires c in f.regions && Valid(g) && Thinned(f, g, c, |f.regions[c].children|)
    ensures Cleared(f, g, c)
  {
    forall q | q in g.regions && Under(f, q, c) ensures q == c {
      UnderStays(f, g, q, c);
      NoneUnderEmpty(g, q, c);
    }
  }

  /** Nothing below a region, so nothing mapped in it. */
  lemma EmptyUnmapped(f: Forest, vmos: imap<nat, Vmo>, pages: imap<Va, Page>, c: nat)
    requires Valid(f) && Mapped(f, vmos, pages) && c in f.regions && f.regions[c].children == []
    ensures forall k | k in pages :: !InRange(k, f.regions[c].space, f.regions[c].base, f.regions[c].End())
  {
    forall k | k in pages ensures !InRange(k, f.regions[c].space, f.regions[c].base, f.regions[c].End()) {
      assert PageOk(f, vmos, k, pages[k]);
      if InRange(k, f.regions[c].space, f.regions[c].base, f.regions[c].End()) { FindVia(f, c, k.at); }
    }
  }

  /** Detaching what ClearChildren emptied is removing the slot. */
  lemma DetachRemoves(f: Forest, g: Forest, r: nat, i: nat)
    requires Valid(f) && r in f.regions && i < |f.regions[r].children| && f.regions[r].children[i].body.Sub?
    requires f.regions[r].children[i].body.region in f.regions && Cleared(f, g, f.regions[r].children[i].body.region)
    requires r in g.regions && g.regions[r] == f.regions[r]
    ensures Removed(f, Detached(g, r, i), r, i)
  {
    var c := f.regions[r].children[i].body.region;
    assert RegionOk(f, r) && f.regions[r].children[i] in f.regions[r].children
        && SlotOk(f, r, f.regions[r].children[i]);
    NotUnderChild(f, r, c);
  }

  lemma {:induction false} NotUnderChild(f: Forest, q: nat, c: nat)
    requires q < c
    ensures !Under(f, q, c)
  {
    if q in f.regions && f.regions[q].parent.Some? && f.regions[q].parent.value < q {
      NotUnderChild(f, f.regions[q].parent.value, c);
    }
  }

  lemma SlotGoneKeeps(f: Forest, vmos: imap<nat, Vmo>, pages: imap<Va, Page>, r: nat, i: nat)
    requires Valid(f) && Bound(f, vmos) && Mapped(f, vmos, pages) && r in f.regions && i < |f.regions[r].children|
    requires f.regions[r].children[i].body.Binding?
    ensures var s := f.regions[r].children[i]; var g := WithChildren(f, r, Without(f.regions[r].children, i));
      Valid(g) && Bound(g, vmos) && Mapped(g, vmos, Zap(pages, f.regions[r].space, s.base, s.End()))
          && Removed(f, g, r, i)
  {
    var c, s := f.regions[r].children, f.regions[r].children[i];
    var g, left := WithChildren(f, r, Without(c, i)), Zap(pages, f.regions[r].space, s.base, s.End());
    assert RegionOk(f, r);
    WithoutOrdered(c, i);
    forall x | x in Without(c, i) ensures SlotOk(f, r, x) {}
    NewChildren(f, r, Without(c, i));
    forall k | k in left ensures PageOk(g, vmos, k, left[k]) {
      assert PageOk(f, vmos, k, pages[k]);
      var spot := PageSpot(f, vmos, k, pages[k]);
      PageStays(f, g, vmos, k, pages[k]);
    }
  }

  lemma DetachSound(f: Forest, vmos: imap<nat, Vmo>, pages: imap<Va, Page>, r: nat, i: nat)
    requires MayDetach(f, r, i) && Bound(f, vmos) && Mapped(f, vmos, pages)
    ensures var g := Detached(f, r, i); Valid(g) && Bound(g, vmos) && Mapped(g, vmos, pages)
  {
    var g := Detached(f, r, i);
    assert RegionOk(f, r);
    DetachKeeps(f, r, i);
    WithoutOrdered(f.regions[r].children, i);
    forall k | k in pages ensures PageOk(g, vmos, k, pages[k]) {
      assert PageOk(f, vmos, k, pages[k]);
      var spot := PageSpot(f, vmos, k, pages[k]);
      PageStays(f, g, vmos, k, pages[k]);
    }
  }

  // ---------------------------------------------------------------- putting slots in

  /** Why a region turns a slot away, judged against all of its children. */
  ghost function Refusal(g: Region, s: Slot): Option<Error> {
    if s.size == 0 || !Aligned(s.base) || !Aligned(s.size) then Some(InvalidOperation)
    else if s.End() >= TOP || s.base < g.base || g.End() < s.End() then Some(OutOfRange)
    else if !(s.prot <= g.prot) then Some(RightsViolation)
    else if exists j | 0 <= j < |g.children| :: g.children[j].Overlaps(s.base, s.End()) then Some(InvalidOperation)
    else None
  }

  /** The checks in the order they are made, with one look at the siblings. */
  function Judge(g: Region, s: Slot): Option<Error>
    requires s.base < TOP && s.size < TOP
  {
    var end := (s.base + s.size) % TOP;
    if s.size == 0 || !Aligned(s.base) || !Aligned(s.size) then Some(InvalidOperation)
    else if end < s.base then Some(OutOfRange)
    else if s.base < g.base || end > g.base + g.size then Some(OutOfRange)
    else if !(s.prot <= g.prot) then Some(RightsViolation)
    else
      var i := FindLe(g.children, end - 1);
      if i >= 0 && g.children[i].base + g.children[i].size > s.base then Some(InvalidOperation) else None
  }

  lemma JudgeIsRefusal(f: Forest, r: nat, s: Slot)
    requires Valid(f) && r in f.regions && s.base < TOP && s.size < TOP
    ensures Judge(f.regions[r], s) == Refusal(f.regions[r], s)
  {
    assert RegionOk(f, r);
    if s.size > 0 && s.End() < TOP { OneLookEnough(f.regions[r].children, s.base, s.End()); }
  }

  lemma InsertValid(f: Forest, r: nat, s: Slot)
    requires Valid(f) && r in f.regions && s.body.Binding? && Refusal(f.regions[r], s).None?
    ensures Valid(WithChildren(f, r, Insert(f.regions[r].children, s)))
  {
    var c := f.regions[r].children;
    assert RegionOk(f, r);
    InsertOrdered(c, s);
    InsertHas(c, s);
    forall x | x in Insert(c, s) ensures SlotOk(f, r, x) {}
    NewChildren(f, r, Insert(c, s));
  }

  lemma InsertKeeps(f: Forest, vmos: imap<nat, Vmo>, pages: imap<Va, Page>, r: nat, s: Slot)
    requires Valid(f) && Bound(f, vmos) && Mapped(f, vmos, pages) && r in f.regions && s.body.Binding?
    requires BindingOk(vmos, s)
    requires Refusal(f.regions[r], s).None?
    ensures var g := WithChildren(f, r, Insert(f.regions[r].children, s));
      Valid(g) && Bound(g, vmos) && Mapped(g, vmos, pages)
  {
    var g := WithChildren(f, r, Insert(f.regions[r].children, s));
    InsertValid(f, r, s);
    InsertHas(f.regions[r].children, s);
    forall k | k in pages ensures PageOk(g, vmos, k, pages[k]) {
      assert PageOk(f, vmos, k, pages[k]);
      var spot := PageSpot(f, vmos, k, pages[k]);
      PageStays(f, g, vmos, k, pages[k]);
    }
  }

  /** A free range of a region has no translation. */
  lemma NothingThere(f: Forest, vmos: imap<nat, Vmo>, pages: imap<Va, Page>, r: nat, lo: nat, hi: nat)
    requires Valid(f) && Mapped(f, vmos, pages) && r in f.regions && f.regions[r].base <= lo && hi <= f.regions[r].End()
    requires forall j | 0 <= j < |f.regions[r].children| :: !f.regions[r].children[j].Overlaps(lo, hi)
    ensures Zap(pages, f.regions[r].space, lo, hi) == pages
  {
    forall k | k in pages ensures !InRange(k, f.regions[r].space, lo, hi) {
      assert PageOk(f, vmos, k, pages[k]);
      if InRange(k, f.regions[r].space, lo, hi) {
        FindVia(f, r, k.at);
        assert f.regions[r].children[FindLe(f.regions[r].children, k.at)].Overlaps(lo, hi);
      }
    }
  }

  lemma InsertBack(c: seq<Slot>, s: Slot)
    ensures var at := FindLe(c, s.base) + 1; Insert(c, s)[at] == s && Without(Insert(c, s), at) == c
  {
    var at := FindLe(c, s.base) + 1;
    assert Insert(c, s)[at] == s;
    assert Without(Insert(c, s), at) == c;
  }

  lemma InsertThenWithout(f: Forest, g: Forest, r: nat, s: Slot)
    requires r in f.regions
    requires var at := FindLe(f.regions[r].children, s.base) + 1;
      Removed(WithChildren(f, r, Insert(f.regions[r].children, s)), g, r, at) && s.body.Binding?
    ensures g == f
  {
    var c := f.regions[r].children;
    var at := FindLe(c, s.base) + 1;
    var mid := WithChildren(f, r, Insert(c, s));
    InsertBack(c, s);
    assert forall q | q in f.regions :: q in g.regions && g.regions[q] == f.regions[q];
    assert g.regions == f.regions;
  }

  function At(memory: imap<Frame, nat>, fr: Frame): nat { if fr in memory then memory[fr] else 0 }

  lemma BelowNext(g: Forest, q: nat)
    requires Valid(g) && q in g.regions
    ensures q < g.next
  {
    assert RegionOk(g, q);
  }

  lemma NextIsNew(g: Forest)
    requires Valid(g)
    ensures g.next !in g.regions
  {
    if g.next in g.regions { BelowNext(g, g.next); }
  }

  lemma GraftSound(f: Forest, g: Forest, vmos: imap<nat, Vmo>, pages: imap<Va, Page>, r: nat, s: Slot, at: nat)
    requires Valid(f) && r in f.regions && s.body == Binding(None, 0, Cached)
    requires g == WithChildren(f, r, Insert(f.regions[r].children, s))
    requires Valid(g) && Bound(g, vmos) && Mapped(g, vmos, pages) && at == FindLe(f.regions[r].children, s.base) + 1
    ensures var h := Grafted(g, r, at);
      && Valid(h) && Bound(h, vmos) && Mapped(h, vmos, pages)
      && s.(body := Sub(g.next)) in h.regions[r].children && forall x | x in f.regions[r].children ::
         x in h.regions[r].children
  {
    NextIsNew(g);
    GraftKeeps(g, r, at);
    var h := Grafted(g, r, at);
    GraftShape(f, g, h, r, s, at);
    GraftedBound(f, g, h, vmos, r, s);
    GraftedMapped(g, h, vmos, pages, s);
  }

  lemma GraftShape(f: Forest, g: Forest, h: Forest, r: nat, s: Slot, at: nat)
    requires r in f.regions && g == WithChildren(f, r, Insert(f.regions[r].children, s)) && g.next !in g.regions
    requires at == FindLe(f.regions[r].children, s.base) + 1 && h == Grafted(g, r, at)
    ensures r in g.regions && r in h.regions && g.next in h.regions && h.regions[g.next].children == []
    ensures forall q | q in h.regions && q != r && q != g.next :: q in g.regions && h.regions[q] == g.regions[q]
    ensures forall q | q in g.regions :: q in h.regions && h.regions[q].space == g.regions[q].space
    ensures forall q, x | q in g.regions && x in g.regions[q].children && x != s :: x in h.regions[q].children
    ensures forall x | x in f.regions[r].children :: x in g.regions[r].children && x in h.regions[r].children
    ensures forall x | x in h.regions[r].children && !x.body.Sub? :: x in f.regions[r].children
    ensures s.(body := Sub(g.next)) in h.regions[r].children
  {
    GraftedHas(f.regions[r].children, s, Sub(g.next));
    InsertHas(f.regions[r].children, s);
  }

  lemma GraftedMapped(g: Forest, h: Forest, vmos: imap<nat, Vmo>, pages: imap<Va, Page>, s: Slot)
    requires Valid(g) && Valid(h) && Mapped(g, vmos, pages) && s.body == Binding(None, 0, Cached)
    requires forall q | q in g.regions :: q in h.regions && h.regions[q].space == g.regions[q].space
    requires forall q, x | q in g.regions && x in g.regions[q].children && x != s :: x in h.regions[q].children
    ensures Mapped(h, vmos, pages)
  {
    forall k | k in pages ensures PageOk(h, vmos, k, pages[k]) {
      assert PageOk(g, vmos, k, pages[k]);
      PageStaysBut(g, h, vmos, k, pages[k], s);
    }
  }

  lemma GraftedBound(f: Forest, g: Forest, h: Forest, vmos: imap<nat, Vmo>, r: nat, s: Slot)
    requires Bound(g, vmos) && r in f.regions && r in g.regions
    requires forall x | x in f.regions[r].children :: x in g.regions[r].children
    requires forall q | q in h.regions && q != r && q != g.next :: q in g.regions && h.regions[q] == g.regions[q]
    requires r in h.regions && forall x | x in h.regions[r].children && !x.body.Sub? :: x in f.regions[r].children
    requires g.next in h.regions && h.regions[g.next].children == []
    ensures Bound(h, vmos)
  {
    forall q, x | q in h.regions && x in h.regions[q].children ensures BindingOk(vmos, x) {
      if q == r { assert !x.body.Sub? ==> x in g.regions[r].children; }
      else { assert x in g.regions[q].children; }
    }
  }

  /** A translation outlives a change that keeps every slot that has an object. */
  lemma PageStaysBut(g: Forest, h: Forest, vmos: imap<nat, Vmo>, k: Va, page: Page, s: Slot)
    requires Valid(g) && Valid(h) && PageOk(g, vmos, k, page) && s.body == Binding(None, 0, Cached)
    requires forall q | q in g.regions :: q in h.regions && h.regions[q].space == g.regions[q].space
    requires forall q, x | q in g.regions && x in g.regions[q].children && x != s :: x in h.regions[q].children
    ensures PageOk(h, vmos, k, page)
  {
    var spot := PageSpot(g, vmos, k, page);
    PageStays(g, h, vmos, k, page);
  }

  lemma GraftedHas(c: seq<Slot>, s: Slot, body: Body)
    ensures var at := FindLe(c, s.base) + 1; var d := Insert(c, s)[at := s.(body := body)];
      && d[at] in d && (forall x | x in c :: x in d) && (forall x | x in d && x != s.(body := body) :: x in c)
      && forall x | x in Insert(c, s) && x != s :: x in d
  {
    var at := FindLe(c, s.base) + 1;
    var d := Insert(c, s)[at := s.(body := body)];
    assert d == c[..at] + [s.(body := body)] + c[at..];
    assert c == c[..at] + c[at..];
  }

  function BoundCache(vmos: imap<nat, Vmo>, obj: Option<nat>, cache: Cache): Cache {
    if obj.Some? && obj.value in vmos then Stricter(cache, ModeOf(vmos[obj.value].pager)) else cache
  }

  /** The arithmetic that lets a binding through says the binding lies inside its object. */
  lemma RangeCheck(vmos: imap<nat, Vmo>, s: Slot)
    requires s.body.Binding? && s.body.obj.Some? && s.body.obj.value in vmos && s.size < TOP && s.body.offset < TOP
    requires Stricter(s.body.cache, ModeOf(vmos[s.body.obj.value].pager)) == s.body.cache
    ensures var end := (s.body.offset + s.size) % TOP;
      var fits := Aligned(s.body.offset) && end >= s.body.offset && end / PAGE_SIZE <= vmos[s.body.obj.value].pages;
      && (fits && Aligned(s.size) ==> BindingOk(vmos, s))
      && (!fits ==> !BindingOk(vmos, s))
  {
    var sum := s.body.offset + s.size;
    Wraps(sum);
    if sum < TOP { WholePages(sum, vmos[s.body.obj.value].pages); }
    if Aligned(s.body.offset) && Aligned(s.size) { AlignedSum(s.body.offset, s.size); }
  }

  /** A sum of two words wraps at most once. */
  lemma Wraps(sum: nat)
    requires sum < 2 * TOP
    ensures sum % TOP == if sum < TOP then sum else sum - TOP
  {
  }

  lemma WholePages(x: nat, n: nat)
    ensures x <= n * PAGE_SIZE ==> x / PAGE_SIZE <= n
    ensures Aligned(x) && x / PAGE_SIZE <= n ==> x <= n * PAGE_SIZE
  {
  }

  lemma AlignedSum(x: nat, y: nat)
    requires Aligned(x) && Aligned(y)
    ensures Aligned(x + y)
  {
  }

  lemma InsertAt(c: seq<Slot>, s: Slot)
    requires Ordered(Insert(c, s)) && 0 < s.size
    ensures FindLe(Insert(c, s), s.base) == FindLe(c, s.base) + 1 && Insert(c, s)[FindLe(c, s.base) + 1] == s
  {
    FindLeIs(Insert(c, s), FindLe(c, s.base) + 1, s.base);
  }

  // ---------------------------------------------------------------- unmapping a range

  /** The slot lies partly inside the range and partly outside it. */
  predicate Cuts(s: Slot, lo: nat, hi: nat) { s.Overlaps(lo, hi) && !Within(s, lo, hi) }

  predicate Within(s: Slot, lo: nat, hi: nat) { lo <= s.base && s.End() <= hi }

  /** The first child that starts at or after the key. */
  function LowerBound(c: seq<Slot>, key: nat): (i: nat)
    ensures i <= |c|
  {
    if key == 0 then 0 else FindLe(c, key - 1) + 1
  }

  lemma LowerBoundSplits(c: seq<Slot>, key: nat)
    requires Ordered(c)
    ensures forall j | 0 <= j < |c| :: c[j].base < key <==> j < LowerBound(c, key)
  {
    if key > 0 { FindLeSplits(c, key - 1); }
  }

  /** Removing one more from the middle. */
  lemma WithoutMiddle(c: seq<Slot>, i: nat, j: nat)
    requires i <= j < |c|
    ensures var d := c[..i] + c[j..]; i < |d| && d[i] == c[j] && Without(d, i) == c[..i] + c[j + 1..]
  {
  }

  /** The stretch between the first slot at or after lo and the first at or after hi is what lies inside. */
  lemma MiddleIsWithin(c: seq<Slot>, lo: nat, hi: nat, j: nat)
    requires Ordered(c) && lo <= hi && LowerBound(c, lo) <= j <= |c| && forall s | s in c :: !Cuts(s, lo, hi)
    requires (j < |c| ==> hi <= c[j].base) && forall x | LowerBound(c, lo) <= x < j :: c[x].base < hi
    ensures var d := c[..LowerBound(c, lo)] + c[j..];
      && (forall s :: s in d <==> s in c && !Within(s, lo, hi))
      && (forall s | s in d :: !s.Overlaps(lo, hi))
      && (forall x | 0 <= x < |c| :: Within(c[x], lo, hi) <==> LowerBound(c, lo) <= x < j)
  {
    LowerBoundSplits(c, lo);
    var i := LowerBound(c, lo);
    forall x | 0 <= x < |c| ensures Within(c[x], lo, hi) <==> i <= x < j { assert c[x] in c; }
    forall x | 0 <= x < |c| && !(i <= x < j) ensures !c[x].Overlaps(lo, hi) { assert c[x] in c; }
    ThreeParts(c, i, j);
    forall s ensures s in c[..i] + c[j..] <==> s in c && !Within(s, lo, hi) {
      if s in c[i..j] { var x :| i <= x < j && c[x] == s; }
    }
  }

  /** A member of a sequence is in one of its three parts. */
  lemma ThreeParts(c: seq<Slot>, i: nat, j: nat)
    requires i <= j <= |c|
    ensures forall s :: s in c <==> s in c[..i] || s in c[i..j] || s in c[j..]
    ensures forall s :: s in c[..i] + c[j..] <==> s in c[..i] || s in c[j..]
  {
    assert c == c[..i] + c[i..j] + c[j..];
  }

  /** q lay below one of the slots i to j. */
  ghost predicate Lost(f: Forest, r: nat, i: nat, j: nat, q: nat)
    requires r in f.regions && i <= j <= |f.regions[r].children|
  {
    exists x | i <= x < j :: Dropped(f, r, x, q)
  }

  /** r has lost the slots from i to j, with all that lay below them, and the rest is as it was. */
  ghost predicate Pruned(f: Forest, g: Forest, r: nat, i: nat, j: nat)
    requires r in f.regions && i <= j <= |f.regions[r].children|
  {
    var c := f.regions[r].children;
    && g.roots == f.roots && g.next == f.next && r in g.regions
    && g.regions[r] == f.regions[r].(children := c[..i] + c[j..])
    && (forall q | q in f.regions && q != r && !Lost(f, r, i, j, q) :: q in g.regions && g.regions[q] == f.regions[q])
    && (forall q | q in g.regions :: q in f.regions && !Lost(f, r, i, j, q))
  }

  lemma PrunedFirst(f: Forest, r: nat, i: nat)
    requires r in f.regions && i <= |f.regions[r].children|
    ensures Pruned(f, f, r, i, i)
  {
    var c := f.regions[r].children;
    assert c[..i] + c[i..] == c;
  }

  lemma PruneMore(f: Forest, g: Forest, h: Forest, r: nat, i: nat, j: nat)
    requires r in f.regions && i <= j < |f.regions[r].children| && Valid(g) && Pruned(f, g, r, i, j)
    requires i < |g.regions[r].children| && Removed(g, h, r, i)
    ensures Pruned(f, h, r, i, j + 1)
  {
    var c := f.regions[r].children;
    WithoutMiddle(c, i, j);
    assert forall x | x in g.regions :: x in f.regions && g.regions[x].parent == f.regions[x].parent;
    forall q | q in g.regions ensures Dropped(g, r, i, q) <==> Dropped(f, r, j, q) {
      if Dropped(g, r, i, q) { UnderSame(f, g, q, c[j].body.region); }
      if Dropped(f, r, j, q) { UnderStays(f, g, q, c[j].body.region); }
    }
    forall q ensures Lost(f, r, i, j + 1, q) <==> Lost(f, r, i, j, q) || Dropped(f, r, j, q) {}
  }

  /** q lay below a slot inside the range. */
  ghost predicate GoneWith(f: Forest, r: nat, lo: nat, hi: nat, q: nat)
    requires r in f.regions
  {
    exists s | s in f.regions[r].children :: Within(s, lo, hi) && s.body.Sub? && Under(f, q, s.body.region)
  }

  /** The region has lost what lay inside the range, with everything below that; every other region of
      every space is as it was, and exactly the range's translations are gone. */
  ghost predicate Emptied(f: Forest, g: Forest, had: imap<Va, Page>, pages: imap<Va, Page>, r: nat, lo: nat, hi: nat)
    requires r in f.regions
  {
    && g.roots == f.roots && r in g.regions && g.regions[r] == f.regions[r].(children := g.regions[r].children)
    && (forall s :: s in g.regions[r].children <==> s in f.regions[r].children && !Within(s, lo, hi))
    && (forall q | q in f.regions && q != r && !GoneWith(f, r, lo, hi, q) ::
       q in g.regions && g.regions[q] == f.regions[q])
    && (forall q | q in g.regions :: q in f.regions && !GoneWith(f, r, lo, hi, q))
    && pages == Zap(had, f.regions[r].space, lo, hi)
  }

  /** With no slot left over the range, no translation is left in it. */
  lemma RangeUnmapped(f: Forest, vmos: imap<nat, Vmo>, pages: imap<Va, Page>, r: nat, lo: nat, hi: nat)
    requires Valid(f) && Mapped(f, vmos, pages) && r in f.regions && f.regions[r].base <= lo && hi <= f.regions[r].End()
    requires forall s | s in f.regions[r].children :: !s.Overlaps(lo, hi)
    ensures forall k | k in pages :: !InRange(k, f.regions[r].space, lo, hi)
  {
    assert forall j | 0 <= j < |f.regions[r].children| :: f.regions[r].children[j] in f.regions[r].children;
    NothingThere(f, vmos, pages, r, lo, hi);
    forall k | k in pages ensures !InRange(k, f.regions[r].space, lo, hi) {
      assert k in Zap(pages, f.regions[r].space, lo, hi);
    }
  }

  lemma PrunedEmpties(f: Forest, g: Forest, had: imap<Va, Page>, pages: imap<Va, Page>, r: nat, lo: nat, hi: nat,
                      j: nat)
    requires r in f.regions && Ordered(f.regions[r].children) && lo <= hi
    requires LowerBound(f.regions[r].children, lo) <= j <= |f.regions[r].children|
    requires var c := f.regions[r].children;
      && (forall s | s in c :: !Cuts(s, lo, hi)) && (j < |c| ==> hi <= c[j].base)
      && forall x | LowerBound(c, lo) <= x < j :: c[x].base < hi
    requires Pruned(f, g, r, LowerBound(f.regions[r].children, lo), j) && pages == Zap(had, f.regions[r].space, lo, hi)
    ensures Emptied(f, g, had, pages, r, lo, hi)
  {
    var c := f.regions[r].children;
    MiddleIsWithin(c, lo, hi, j);
    forall q ensures Lost(f, r, LowerBound(c, lo), j, q) <==> GoneWith(f, r, lo, hi, q) {
      if Lost(f, r, LowerBound(c, lo), j, q) {
        var x :| LowerBound(c, lo) <= x < j && Dropped(f, r, x, q);
        assert c[x] in c;
      }
      if GoneWith(f, r, lo, hi, q) {
        var s :| s in c && Within(s, lo, hi) && s.body.Sub? && Under(f, q, s.body.region);
        var x :| 0 <= x < |c| && c[x] == s;
        assert Dropped(f, r, x, q);
      }
    }
  }

  /** The removing loop after j: the slots of the range that start before c[j] are gone. */
  ghost predicate Midway(f: Forest, g: Forest, had: imap<Va, Page>, pages: imap<Va, Page>, r: nat, lo: nat, hi: nat,
                         j: nat)
    requires r in f.regions
  {
    var c := f.regions[r].children;
    && LowerBound(c, lo) <= j <= |c| && Pruned(f, g, r, LowerBound(c, lo), j)
    && (forall x | LowerBound(c, lo) <= x < j :: c[x].base < hi)
    && (forall k | k in pages :: k in had && pages[k] == had[k])
    && (forall k | k in had && !InRange(k, f.regions[r].space, lo, hi) :: k in pages)
  }

  ghost predicate MayUnmap(f: Forest, r: nat, lo: nat, hi: nat) {
    && Valid(f) && r in f.regions && f.regions[r].base <= lo <= hi <= f.regions[r].End()
    && forall s | s in f.regions[r].children :: !Cuts(s, lo, hi)
  }

  /** What the loop looks at is the next slot of the original list. */
  lemma MidwayLook(f: Forest, g: Forest, had: imap<Va, Page>, pages: imap<Va, Page>, r: nat, lo: nat, hi: nat, j: nat)
    requires MayUnmap(f, r, lo, hi) && Midway(f, g, had, pages, r, lo, hi, j)
    ensures var c, d, i := f.regions[r].children, g.regions[r].children, LowerBound(f.regions[r].children, lo);
      && (i < |d| <==> j < |c|) && (j < |c| ==> d[i] == c[j]) && (j < |c| && c[j].base < hi ==> Within(c[j], lo, hi))
  {
    var c := f.regions[r].children;
    assert RegionOk(f, r);
    LowerBoundSplits(c, lo);
    if j < |c| {
      WithoutMiddle(c, LowerBound(c, lo), j);
      assert c[j] in c;
    }
  }

  /** Where the removing loop ends. */
  lemma RemovedAll(f: Forest, g: Forest, vmos: imap<nat, Vmo>, had: imap<Va, Page>, pages: imap<Va, Page>, r: nat,
                   lo: nat, hi: nat, j: nat)
    requires MayUnmap(f, r, lo, hi) && Valid(g) && Mapped(g, vmos, pages) && Midway(f, g, had, pages, r, lo, hi, j)
    requires var d, i := g.regions[r].children, LowerBound(f.regions[r].children, lo); i < |d| ==> hi <= d[i].base
    ensures Emptied(f, g, had, pages, r, lo, hi)
  {
    assert RegionOk(f, r);
    MidwayLook(f, g, had, pages, r, lo, hi, j);
    MiddleIsWithin(f.regions[r].children, lo, hi, j);
    RangeUnmapped(g, vmos, pages, r, lo, hi);
    assert pages == Zap(had, f.regions[r].space, lo, hi);
    PrunedEmpties(f, g, had, pages, r, lo, hi, j);
  }

  // ---------------------------------------------------------------- contents

  /** What an object's page holds, resident or not. */
  function Content(v: Vmo, memory: imap<Frame, nat>, n: nat): nat {
    if v.pager.Window? then At(memory, Dev(v.pager.base + n))
    else if n in v.resident then At(memory, v.resident[n])
    else 0
  }

  /** A translation shows its object's page, except that one made before the page was filled still
      shows zeroes. */
  lemma SeesContent(f: Forest, vmos: imap<nat, Vmo>, owners: imap<nat, Owner>, memory: imap<Frame, nat>, k: Va,
                    page: Page)
    requires Filled(vmos, owners) && PageOk(f, vmos, k, page) && At(memory, Zero) == 0
    ensures var s := Find(f, f.roots[k.space], k.at).value.slot; var v, n := vmos[s.body.obj.value], PageNo(s, k.at);
      (At(memory, page.frame) == Content(v, memory, n)) <==>
          !(page.frame.Zero? && n in v.resident && At(memory, v.resident[n]) != 0)
  {
    var s := Find(f, f.roots[k.space], k.at).value.slot;
    var o, n := s.body.obj.value, PageNo(s, k.at);
    if n in vmos[o].resident { assert ResidentOk(vmos, owners, o, n); }
  }

  /** No two object pages have the same allocator frame. */
  lemma FramesPrivate(vmos: imap<nat, Vmo>, owners: imap<nat, Owner>, o: nat, n: nat, p: nat, m: nat)
    requires Filled(vmos, owners) && o in vmos && p in vmos && n in vmos[o].resident && m in vmos[p].resident
    requires vmos[o].resident[n] == vmos[p].resident[m] && vmos[o].resident[n].Ram?
    ensures o == p && n == m
  {
    assert ResidentOk(vmos, owners, o, n) && ResidentOk(vmos, owners, p, m);
  }

  function Fill(vmos: imap<nat, Vmo>, o: nat, n: nat, fr: Frame): imap<nat, Vmo>
    requires o in vmos
  {
    vmos[o := vmos[o].(resident := vmos[o].resident[n := fr])]
  }

  function FrameFor(v: Vmo, n: nat, frame: nat): Frame { if v.pager.Window? then Dev(v.pager.base + n) else Ram(frame) }

  function Claim(owners: imap<nat, Owner>, v: Vmo, frame: nat, w: Owner): imap<nat, Owner> {
    if v.pager.Window? then owners else owners[frame := w]
  }

  lemma FillFilled(vmos: imap<nat, Vmo>, owners: imap<nat, Owner>, o: nat, n: nat, frame: nat)
    requires Filled(vmos, owners) && o in vmos && n < vmos[o].pages && n !in vmos[o].resident && frame !in owners
    ensures Filled(Fill(vmos, o, n, FrameFor(vmos[o], n, frame)), Claim(owners, vmos[o], frame, Owner(o, n)))
  {
    var vmos', owners' := Fill(vmos, o, n, FrameFor(vmos[o], n, frame)), Claim(owners, vmos[o], frame, Owner(o, n));
    forall p, m | p in vmos' && m in vmos'[p].resident ensures ResidentOk(vmos', owners', p, m) {
      if m in vmos[p].resident { assert ResidentOk(vmos, owners, p, m); }
    }
    forall id | id in owners' ensures OwnerOk(vmos', owners', id) {
      if id in owners { assert OwnerOk(vmos, owners, id); }
    }
  }

  lemma FillMapped(f: Forest, vmos: imap<nat, Vmo>, pages: imap<Va, Page>, o: nat, n: nat, fr: Frame)
    requires Bound(f, vmos) && Mapped(f, vmos, pages) && o in vmos && n !in vmos[o].resident
    ensures Bound(f, Fill(vmos, o, n, fr)) && Mapped(f, Fill(vmos, o, n, fr), pages)
  {
    var vmos' := Fill(vmos, o, n, fr);
    forall r, s | r in f.regions && s in f.regions[r].children ensures BindingOk(vmos', s) {
      assert BindingOk(vmos, s);
    }
    forall k | k in pages ensures PageOk(f, vmos', k, pages[k]) { assert PageOk(f, vmos, k, pages[k]); }
  }

  /** Filling a page changes no page's contents. */
  lemma FillContent(vmos: imap<nat, Vmo>, owners: imap<nat, Owner>, memory: imap<Frame, nat>, o: nat, n: nat,
                    frame: nat, p: nat, m: nat)
    requires Filled(vmos, owners) && o in vmos && n !in vmos[o].resident && frame !in owners && p in vmos
    ensures Content(Fill(vmos, o, n, FrameFor(vmos[o], n, frame))[p], memory[Ram(frame) := 0], m)
      == Content(vmos[p], memory, m)
  {
    if m in vmos[p].resident { assert ResidentOk(vmos, owners, p, m); }
  }

  ghost predicate GrownAt(was: imap<nat, Vmo>, had: imap<Frame, nat>, vmos: imap<nat, Vmo>, memory: imap<Frame, nat>,
                          o: nat, n: nat)
    requires o in was
  {
    && o in vmos && vmos[o].pages == was[o].pages && vmos[o].pager == was[o].pager
    && (n in was[o].resident ==> n in vmos[o].resident && vmos[o].resident[n] == was[o].resident[n])
    && Content(vmos[o], memory, n) == Content(was[o], had, n)
  }

  /** Objects keep their pages and their contents, and may have more of them resident. */
  ghost predicate Grown(was: imap<nat, Vmo>, had: imap<Frame, nat>, vmos: imap<nat, Vmo>, memory: imap<Frame, nat>) {
    forall o, n: nat {:trigger GrownAt(was, had, vmos, memory, o, n)} | o in was ::
        GrownAt(was, had, vmos, memory, o, n)
  }

  lemma GrownSame(was: imap<nat, Vmo>, had: imap<Frame, nat>)
    ensures Grown(was, had, was, had)
  {
    forall o, n: nat | o in was ensures GrownAt(was, had, was, had, o, n) {}
  }

  lemma GrownMore(was: imap<nat, Vmo>, had: imap<Frame, nat>, mid: imap<nat, Vmo>, held: imap<Frame, nat>,
                  vmos: imap<nat, Vmo>, memory: imap<Frame, nat>)
    requires Grown(was, had, mid, held) && Grown(mid, held, vmos, memory)
    ensures Grown(was, had, vmos, memory)
  {
    forall o, n: nat | o in was ensures GrownAt(was, had, vmos, memory, o, n) {
      assert GrownAt(was, had, mid, held, o, n) && GrownAt(mid, held, vmos, memory, o, n);
    }
  }

  datatype Fault = Fault(space: nat, vaddr: nat, write: bool, present: bool, user: bool)

  datatype Outcome = Resolved | Refused | Panicked

  /** The rights an access needs. */
  function Needs(t: Fault): set<Access> {
    {Reading} + (if t.write then {Access.Writing} else {}) + (if t.user then {FromUser} else {})
  }

  function PageOf(t: Fault): Va { Va(t.space, t.vaddr - t.vaddr % PAGE_SIZE) }

  /** The access lies in a binding that has an object and allows it. */
  ghost predicate Permitted(f: Forest, t: Fault) {
    && t.space in f.roots
    && var found := Find(f, f.roots[t.space], t.vaddr);
       found.Some? && found.value.slot.body.Binding? && found.value.slot.body.obj.Some?
           && Needs(t) <= found.value.slot.prot
  }

  /** The hardware raised the fault against these translations. */
  predicate Raised(pages: imap<Va, Page>, t: Fault) {
    t.present == (PageOf(t) in pages) && !(PageOf(t) in pages && Needs(t) <= pages[PageOf(t)].prot)
  }

  /** What the handler can resolve: a write through the shared zero page, or a page not mapped yet. */
  predicate Resolvable(pages: imap<Va, Page>, t: Fault) {
    if t.present then t.write && PageOf(t) in pages && pages[PageOf(t)].frame == Zero else PageOf(t) !in pages
  }

  /** A permitted access: its binding covers the whole page, and the page is one of the object's. */
  lemma PermittedPage(f: Forest, vmos: imap<nat, Vmo>, t: Fault) returns (spot: Spot)
    requires Valid(f) && Bound(f, vmos) && t.space in f.roots && Find(f, f.roots[t.space], t.vaddr).Some?
    ensures var k, s := PageOf(t), spot.slot;
      && Find(f, f.roots[t.space], t.vaddr) == Find(f, f.roots[t.space], k.at) == Some(spot) && Aligned(k.at)
      && f.roots[t.space] in f.regions
      && s.Has(k.at) && s.Has(t.vaddr) && s.body.Binding?
      && (s.body.obj.Some? ==> && s.body.obj.value in vmos && PageNo(s, t.vaddr) == PageNo(s, k.at)
                               && PageNo(s, k.at) < vmos[s.body.obj.value].pages)
  {
    spot := Find(f, f.roots[t.space], t.vaddr).value;
    assert RootOk(f, t.space);
    FindSound(f, f.roots[t.space], t.vaddr);
    var s, k := spot.slot, PageOf(t);
    assert RegionOk(f, spot.region) && SlotOk(f, spot.region, s);
    assert Aligned(k.at) && s.base <= k.at;
    FindUnique(f, spot.region, s, k.at);
    assert BindingOk(vmos, s);
    if s.body.obj.Some? { PageInside(vmos, s, t.vaddr, k.at); }
  }

  lemma PageInside(vmos: imap<nat, Vmo>, s: Slot, vaddr: nat, k: nat)
    requires BindingOk(vmos, s) && s.body.Binding? && s.body.obj.Some? && s.Has(vaddr) && Aligned(s.base)
    requires k == vaddr - vaddr % PAGE_SIZE
    ensures s.base <= k && PageNo(s, vaddr) == PageNo(s, k)
    ensures s.body.obj.value in vmos && PageNo(s, k) < vmos[s.body.obj.value].pages
  {
    SamePage(s.base, s.body.offset, vaddr);
    LastPage(vaddr - s.base + s.body.offset, vmos[s.body.obj.value].pages);
  }

  lemma SamePage(base: nat, offset: nat, at: nat)
    requires Aligned(base) && Aligned(offset) && base <= at
    ensures var k := at - at % PAGE_SIZE;
      base <= k && (at - base + offset) / PAGE_SIZE == (k - base + offset) / PAGE_SIZE
  {
    var b, o, q, r := base / PAGE_SIZE, offset / PAGE_SIZE, at / PAGE_SIZE, at % PAGE_SIZE;
    assert at - base + offset == (q - b + o) * PAGE_SIZE + r;
    assert at - r - base + offset == (q - b + o) * PAGE_SIZE;
  }

  lemma LastPage(x: nat, n: nat)
    requires x < n * PAGE_SIZE
    ensures x / PAGE_SIZE < n
  {
  }

  lemma InstallMapped(f: Forest, vmos: imap<nat, Vmo>, pages: imap<Va, Page>, k: Va, page: Page)
    requires Mapped(f, vmos, pages) && PageOk(f, vmos, k, page)
    ensures Mapped(f, vmos, pages[k := page])
  {
    var pages' := pages[k := page];
    forall x | x in pages' ensures PageOk(f, vmos, x, pages'[x]) { if x != k { assert PageOk(f, vmos, x, pages[x]); } }
  }

  lemma UninstallMapped(f: Forest, vmos: imap<nat, Vmo>, pages: imap<Va, Page>, k: Va)
    requires Mapped(f, vmos, pages)
    ensures Mapped(f, vmos, pages - {k})
  {
    forall x | x in pages - {k} ensures PageOk(f, vmos, x, (pages - {k})[x]) { assert PageOk(f, vmos, x, pages[x]); }
  }

  /** Only the one page's translation may differ. */
  ghost predicate OnlyAt(was: imap<Va, Page>, now: imap<Va, Page>, k: Va) {
    forall x | x != k :: (x in now <==> x in was) && (x in now ==> now[x] == was[x])
  }

  /** The handler does stop the kernel for a write fault that another core resolved first: by the time
      it holds the lock the page is mapped for writing, and the fault is no longer one the hardware
      would raise. */
  lemma StaleWritePanics() returns (f: Forest, vmos: imap<nat, Vmo>, owners: imap<nat, Owner>, pages: imap<Va, Page>,
                         t: Fault)
    ensures Valid(f) && Bound(f, vmos) && Filled(vmos, owners) && Mapped(f, vmos, pages)
    ensures Permitted(f, t) && t.present && t.write && PageOf(t) in pages && pages[PageOf(t)].frame != Zero
    ensures !Raised(pages, t)
  {
    var rw := {Reading, Access.Writing};
    var s := Slot(4096, 4096, rw, Binding(Some(0), 0, Cached));
    f := Forest(imap[0 := Region(0, None, 4096, 8192, rw, [s])], imap[0 := 0], 1);
    vmos := imap[0 := Vmo(1, Anonymous, imap[0 := Ram(0)])];
    owners := imap[0 := Owner(0, 0)];
    pages := imap[Va(0, 4096) := Page(Ram(0), rw, Cached)];
    t := Fault(0, 4096, true, true, false);
    assert SlotOk(f, 0, s) && RegionOk(f, 0) && RootOk(f, 0);
    assert FindLe([s], 4096) == 0;
    assert Find(f, 0, 4096) == Some(Spot(0, s));
    assert BindingOk(vmos, s) && ResidentOk(vmos, owners, 0, 0) && OwnerOk(vmos, owners, 0);
    assert PageOk(f, vmos, Va(0, 4096), pages[Va(0, 4096)]);
  }

  /** And it turns away a permitted access that another core mapped first: the fault says the page is
      not there, by now it is, and the access would go through if it were only tried again. */
  lemma StaleAbsentRefused() returns (f: Forest, vmos: imap<nat, Vmo>, owners: imap<nat, Owner>, pages: imap<Va, Page>,
                           t: Fault)
    ensures Valid(f) && Bound(f, vmos) && Filled(vmos, owners) && Mapped(f, vmos, pages)
    ensures Permitted(f, t) && !t.present && PageOf(t) in pages && Needs(t) <= pages[PageOf(t)].prot
    ensures !Resolvable(pages, t)
  {
    f, vmos, owners, pages, t := StaleWritePanics();
    t := t.(present := false);
  }

  /** A frame written through a translation is one object page's own, or a device's. */
  lemma StoreContent(vmos: imap<nat, Vmo>, owners: imap<nat, Owner>, memory: imap<Frame, nat>, o: nat, n: nat,
                     value: nat, p: nat, m: nat)
    requires Filled(vmos, owners) && o in vmos && n in vmos[o].resident && p in vmos
    ensures Content(vmos[o], memory[vmos[o].resident[n] := value], n) == value
    ensures vmos[p].pager.Anonymous? && (p != o || m != n) ==>
      Content(vmos[p], memory[vmos[o].resident[n] := value], m) == Content(vmos[p], memory, m)
  {
    assert ResidentOk(vmos, owners, o, n);
    if m in vmos[p].resident { assert ResidentOk(vmos, owners, p, m); }
  }

  lemma DropBound(f: Forest, vmos: imap<nat, Vmo>, pages: imap<Va, Page>, o: nat)
    requires Valid(f) && Bound(f, vmos) && Mapped(f, vmos, pages)
    requires forall r, s | r in f.regions && s in f.regions[r].children && s.body.Binding? :: s.body.obj != Some(o)
    ensures Bound(f, vmos - {o}) && Mapped(f, vmos - {o}, pages)
  {
    forall r, s | r in f.regions && s in f.regions[r].children ensures BindingOk(vmos - {o}, s) {
      assert BindingOk(vmos, s);
    }
    forall k | k in pages ensures PageOk(f, vmos - {o}, k, pages[k]) {
      assert PageOk(f, vmos, k, pages[k]);
      var spot := PageSpot(f, vmos, k, pages[k]);
    }
  }

  lemma DropFilled(vmos: imap<nat, Vmo>, owners: imap<nat, Owner>, left: imap<nat, Owner>, o: nat)
    requires Filled(vmos, owners) && o in vmos
    requires forall id :: id in left <==> id in owners && owners[id].obj != o
    requires forall id | id in left :: left[id] == owners[id]
    ensures Filled(vmos - {o}, left)
  {
    var vmos' := vmos - {o};
    forall p, m | p in vmos' && m in vmos'[p].resident ensures ResidentOk(vmos', left, p, m) {
      assert ResidentOk(vmos, owners, p, m);
    }
    forall id | id in left ensures OwnerOk(vmos', left, id) { assert OwnerOk(vmos, owners, id); }
  }

  lemma NewVmoKeeps(f: Forest, vmos: imap<nat, Vmo>, owners: imap<nat, Owner>, pages: imap<Va, Page>,
                    memory: imap<Frame, nat>, o: nat, v: Vmo)
    requires Bound(f, vmos) && Filled(vmos, owners) && Mapped(f, vmos, pages) && o !in vmos && v.resident == imap[]
    ensures var more := vmos[o := v];
      Bound(f, more) && Filled(more, owners) && Mapped(f, more, pages) && Grown(vmos, memory, more, memory)
  {
    var more := vmos[o := v];
    forall r, s | r in f.regions && s in f.regions[r].children ensures BindingOk(more, s) { assert BindingOk(vmos, s); }
    forall p, n | p in more && n in more[p].resident ensures ResidentOk(more, owners, p, n) {
      assert ResidentOk(vmos, owners, p, n);
    }
    forall id | id in owners ensures OwnerOk(more, owners, id) { assert OwnerOk(vmos, owners, id); }
    forall k | k in pages ensures PageOk(f, more, k, pages[k]) { assert PageOk(f, vmos, k, pages[k]); }
    forall p, n: nat | p in vmos ensures GrownAt(vmos, memory, more, memory, p, n) {}
  }

  function NewRoot(f: Forest, space: nat, limit: nat): Forest
    requires limit >= PAGE_SIZE
  {
    f.(regions := f.regions[f.next := Region(space, None, PAGE_SIZE, limit - PAGE_SIZE,
        {Reading, Access.Writing, Executing, FromUser}, [])],
       roots := f.roots[space := f.next], next := f.next + 1)
  }

  lemma NewRootKeeps(f: Forest, vmos: imap<nat, Vmo>, pages: imap<Va, Page>, space: nat, limit: nat)
    requires Valid(f) && Bound(f, vmos) && Mapped(f, vmos, pages) && space !in f.roots && PAGE_SIZE <= limit < TOP
    ensures var g := NewRoot(f, space, limit); Valid(g) && Bound(g, vmos) && Mapped(g, vmos, pages)
  {
    var g := NewRoot(f, space, limit);
    assert forall q | q in f.regions :: RegionOk(f, q) && q != f.next;
    forall q | q in g.regions ensures RegionOk(g, q) {
      if q != f.next {
        assert RegionOk(f, q);
        forall s | s in g.regions[q].children ensures SlotOk(g, q, s) { assert SlotOk(f, q, s); }
      }
    }
    forall x | x in g.roots ensures RootOk(g, x) { if x != space { assert RootOk(f, x); } }
    forall k | k in pages ensures PageOk(g, vmos, k, pages[k]) {
      assert PageOk(f, vmos, k, pages[k]);
      var spot := PageSpot(f, vmos, k, pages[k]);
      PageStays(f, g, vmos, k, pages[k]);
    }
  }

  class Space {
    var forest: Forest
    var vmos: imap<nat, Vmo>
    var owners: imap<nat, Owner>
    var pages: imap<Va, Page>
    var memory: imap<Frame, nat>

    ghost predicate Inv()
      reads this
    {
      && Valid(forest) && Bound(forest, vmos) && Filled(vmos, owners) && Mapped(forest, vmos, pages)
      && At(memory, Zero) == 0
    }

    constructor ()
      ensures Inv() && forest == Forest(imap[], imap[], 0) && vmos == imap[] && owners == imap[] && pages == imap[]
    {
      forest, vmos, owners, pages, memory := Forest(imap[], imap[], 0), imap[], imap[], imap[], imap[];
    }

    method ZapRange(space: nat, base: nat, size: nat)
      requires Aligned(base) && Aligned(size) && forall k | k in pages :: Aligned(k.at)
      modifies this`pages
      ensures pages == Zap(old(pages), space, base, base + size)
    {
      var vaddr := base;
      assert pages == Zap(pages, space, base, base);
      while vaddr < base + size
        invariant base <= vaddr <= base + size && Aligned(vaddr)
        invariant pages == Zap(old(pages), space, base, vaddr)
      {
        ZapStep(old(pages), space, base, vaddr);
        pages := pages - {Va(space, vaddr)};
        vaddr := vaddr + PAGE_SIZE;
      }
    }

    /** The slot goes, with every translation under it. */
    method RemoveSlot(r: nat, i: nat)
      requires Inv() && r in forest.regions && i < |forest.regions[r].children|
      modifies this`forest, this`pages
      ensures Inv() && Removed(old(forest), forest, r, i)
      ensures var s := old(forest).regions[r].children[i];
        pages == Zap(old(pages), old(forest).regions[r].space, s.base, s.End())
      decreases forest.next - r, 0
    {
      var s, f := forest.regions[r].children[i], forest;
      assert RegionOk(f, r) && s in f.regions[r].children && SlotOk(f, r, s);
      if s.body.Binding? {
        forall k | k in pages ensures Aligned(k.at) { assert PageOk(f, vmos, k, pages[k]); }
        SlotGoneKeeps(f, vmos, pages, r, i);
        ZapRange(f.regions[r].space, s.base, s.size);
        forest := WithChildren(f, r, Without(f.regions[r].children, i));
      } else {
        assert RegionOk(f, s.body.region);
        ClearChildren(s.body.region);
        NotUnderChild(f, r, s.body.region);
        DetachRemoves(f, forest, r, i);
        DetachSound(forest, vmos, pages, r, i);
        forest := Detached(forest, r, i);
      }
    }

    /** Everything below the region goes, and no translation is left in it. */
    method ClearChildren(c: nat)
      requires Inv() && c in forest.regions
      modifies this`forest, this`pages
      ensures Inv() && Cleared(old(forest), forest, c)
      ensures pages == Zap(old(pages), old(forest).regions[c].space, old(forest).regions[c].base,
        old(forest).regions[c].End())
      decreases forest.next - c, 1
    {
      ghost var f, g := forest, forest.regions[c];
      ghost var k := 0;
      assert g.children[0..] == g.children;
      while |forest.regions[c].children| > 0
        invariant c in forest.regions && Inv() && k <= |g.children| && Thinned(f, forest, c, k)
        invariant forall x | x in pages :: x in old(pages) && pages[x] == old(pages)[x]
        invariant forall x | x in old(pages) && !InRange(x, g.space, g.base, g.End()) :: x in pages
        decreases |forest.regions[c].children|
      {
        ghost var h, before := forest, pages;
        assert RegionOk(h, c) && h.regions[c].children[0] in h.regions[c].children
            && SlotOk(h, c, h.regions[c].children[0]);
        RemoveSlot(c, 0);
        ThinMore(f, h, forest, c, k);
        k := k + 1;
      }
      assert k == |g.children|;
      ThinnedOut(f, forest, c);
      EmptyUnmapped(forest, vmos, pages, c);
      assert pages == Zap(old(pages), g.space, g.base, g.End());
    }

    method InsertSlot(r: nat, s: Slot, room: bool) returns (e: Option<Error>)
      requires Inv() && r in forest.regions && s.base < TOP && s.size < TOP && s.body.Binding?
      requires (Aligned(s.size) ==> BindingOk(vmos, s))
      modifies this`forest
      ensures Inv()
      ensures e == if Refusal(old(forest).regions[r], s).None? && !room then Some(Oom)
        else Refusal(old(forest).regions[r], s)
      ensures e.Some? ==> forest == old(forest)
      ensures e.None? ==> forest == WithChildren(old(forest), r, Insert(old(forest).regions[r].children, s))
    {
      var g := forest.regions[r];
      JudgeIsRefusal(forest, r, s);
      e := Judge(g, s);
      if e.Some? { return; }
      if !room { return Some(Oom); }
      InsertKeeps(forest, vmos, pages, r, s);
      forest := WithChildren(forest, r, Insert(g.children, s));
      return None;
    }

    /** The slot just put in comes out again, and everything is as it was before it went in. */
    method TakeBack(r: nat, s: Slot, ghost f: Forest)
      requires Inv() && Valid(f) && Mapped(f, vmos, pages) && r in f.regions && Refusal(f.regions[r], s).None?
      requires s.body.Binding?
      requires forest == WithChildren(f, r, Insert(f.regions[r].children, s))
      modifies this`forest, this`pages
      ensures Inv() && forest == f && pages == old(pages)
    {
      assert RegionOk(forest, r);
      InsertAt(f.regions[r].children, s);
      NothingThere(f, vmos, pages, r, s.base, s.End());
      RemoveSlot(r, FindLe(forest.regions[r].children, s.base));
      InsertThenWithout(f, forest, r, s);
    }

    /** Bind a stretch of an object; a map that fails changes nothing. */
    method MapLocked(r: nat, vaddr: nat, size: nat, obj: Option<nat>, offset: nat, prot: set<Access>, cache: Cache,
                     room: bool, tracked: bool)
      returns (e: Option<Error>, ghost slot: Slot)
      requires Inv() && r in forest.regions && vaddr < TOP && size < TOP && offset < TOP
      requires (obj.Some? ==> obj.value in vmos)
      modifies this`forest, this`pages
      ensures Inv() && pages == old(pages)
      ensures slot == Slot(vaddr, size, prot, Binding(obj, offset, BoundCache(vmos, obj, cache)))
      ensures e.Some? ==> forest == old(forest)
      ensures e.None? ==> forest == WithChildren(old(forest), r, Insert(old(forest).regions[r].children, slot))
      ensures e.None? <==>
        Refusal(old(forest).regions[r], slot).None? && BindingOk(vmos, slot) && room && (obj.Some? ==> tracked)
      ensures (e == Some(Oom) ==> !(room && tracked)) && e != Some(CapacityExhausted)
    {
      var s := Slot(vaddr, size, prot, Binding(obj, offset, BoundCache(vmos, obj, cache)));
      slot := s;
      if obj.Some? {
        RangeCheck(vmos, s);
        if !Aligned(offset) { return Some(InvalidOperation), slot; }
        var end := (offset + size) % TOP;
        if end < offset || end / PAGE_SIZE > vmos[obj.value].pages { return Some(OutOfRange), slot; }
      }
      ghost var f := forest;
      e := InsertSlot(r, s, room);
      if e.None? && obj.Some? && !tracked {
        TakeBack(r, s, f);
        e := Some(Oom);
      }
    }

    /** The lowest gap that fits, at or above the floor; exhausted exactly when there is none. */
    method MapAnywhere(r: nat, floor: nat, size: nat, obj: Option<nat>, offset: nat, prot: set<Access>, cache: Cache,
                       room: bool, tracked: bool)
      returns (res: Result<nat>)
      requires Inv() && r in forest.regions && floor < TOP && size < TOP && offset < TOP
      requires (obj.Some? ==> obj.value in vmos)
      modifies this`forest, this`pages
      ensures Inv() && pages == old(pages)
      ensures var g := old(forest).regions[r];
        res == Err(CapacityExhausted) <==> size > 0 && Aligned(size) && Aligned(floor)
                                           && forall a | floor <= a :: !Fits(g.children, g.base, g.End(), a, size)
      ensures res.Err? ==> forest == old(forest)
      ensures res.Ok? ==> var g := old(forest).regions[r];
        && floor <= res.value && Fits(g.children, g.base, g.End(), res.value, size)
        && (forall a | floor <= a < res.value :: !Fits(g.children, g.base, g.End(), a, size))
        && forest == WithChildren(old(forest), r,
                       Insert(g.children, Slot(res.value, size, prot,
                           Binding(obj, offset, BoundCache(vmos, obj, cache)))))
    {
      if size == 0 || !Aligned(size) || !Aligned(floor) { return Err(InvalidOperation); }
      var g := forest.regions[r];
      assert RegionOk(forest, r);
      forall j | 0 <= j < |g.children|
          ensures g.base <= g.children[j].base && g.children[j].End() <= g.End() && Aligned(g.children[j].End()) {
        assert g.children[j] in g.children && SlotOk(forest, r, g.children[j]);
      }
      var gap := FindGap(g.children, g.base, g.base + g.size, floor, size);
      if gap.None? { return Err(CapacityExhausted); }
      var e, slot := MapLocked(r, gap.value, size, obj, offset, prot, cache, room, tracked);
      if e.Some? { return Err(e.value); }
      return Ok(gap.value);
    }

    /** Carve a sub-region; on failure nothing changes. */
    method CreateChild(r: nat, base: nat, size: nat, prot: set<Access>, room: bool, born: bool)
        returns (res: Result<nat>)
      requires Inv() && r in forest.regions && base < TOP && size < TOP
      modifies this`forest, this`pages
      ensures Inv() && pages == old(pages)
      ensures var s := Slot(base, size, prot, Binding(None, 0, Cached)); var g := old(forest).regions[r];
        && (res.Ok? <==> Refusal(g, s).None? && room && born)
        && (res.Err? ==>
           forest == old(forest) && (Some(res.error) == Refusal(g, s) || (res.error.Oom? && !(room && born))))
        && (res.Ok? ==>
           res.value == old(forest).next && res.value in forest.regions && r in forest.regions
               && forest.regions[res.value] == Region(g.space, Some(r), base, size, prot, []))
        && (res.Ok? ==> forall x | x in g.children :: x in forest.regions[r].children)
        && (res.Ok? ==> s.(body := Sub(res.value)) in forest.regions[r].children)
    {
      var s := Slot(base, size, prot, Binding(None, 0, Cached));
      ghost var f := forest;
      var e := InsertSlot(r, s, room);
      if e.Some? { return Err(e.value); }
      if !born {
        TakeBack(r, s, f);
        return Err(Oom);
      }
      assert RegionOk(forest, r);
      InsertAt(f.regions[r].children, s);
      var at := FindLe(forest.regions[r].children, base);
      GraftSound(f, forest, vmos, pages, r, s, at);
      forest := Grafted(forest, r, at);
      return Ok(forest.next - 1);
    }

    /** The direct binding over the address goes; there must be one. */
    method UnmapBinding(r: nat, vaddr: nat) returns (ok: bool)
      requires Inv() && r in forest.regions
      modifies this`forest, this`pages
      ensures Inv()
      ensures ok <==> exists s | s in old(forest).regions[r].children :: s.Has(vaddr) && s.body.Binding?
      ensures !ok ==> forest == old(forest) && pages == old(pages)
      ensures ok ==> exists i | 0 <= i < |old(forest).regions[r].children| ::
        var s := old(forest).regions[r].children[i];
        s.Has(vaddr) && Removed(old(forest), forest, r, i)
            && pages == Zap(old(pages), old(forest).regions[r].space, s.base, s.End())
    {
      var c := forest.regions[r].children;
      assert RegionOk(forest, r);
      var i := FindLe(c, vaddr);
      FindLeSplits(c, vaddr);
      forall s | s in c && s.Has(vaddr) ensures i >= 0 && c[i] == s {
        var j :| 0 <= j < |c| && c[j] == s;
        FindLeIs(c, j, vaddr);
      }
      if i < 0 || vaddr >= c[i].base + c[i].size || !c[i].body.Binding? { return false; }
      assert c[i] in c && c[i].Has(vaddr);
      RemoveSlot(r, i);
      return true;
    }

    /** Every slot inside the range goes, and every translation in it; a range that cuts a slot is an
        error, and an error changes nothing. */
    method Unmap(r: nat, base: nat, size: nat) returns (e: Option<Error>)
      requires Inv() && r in forest.regions && base < TOP && size < TOP
      modifies this`forest, this`pages
      ensures Inv()
      ensures e.Some? ==> forest == old(forest) && pages == old(pages)
      ensures var g := old(forest).regions[r];
        && (e == Some(OutOfRange) <==> base + size >= TOP || base < g.base || g.End() < base + size)
        && (e.None? <==> e != Some(OutOfRange) && forall s | s in g.children :: !Cuts(s, base, base + size))
      ensures e.None? ==> Emptied(old(forest), forest, old(pages), pages, r, base, base + size)
    {
      var g := forest.regions[r];
      assert RegionOk(forest, r);
      var end := (base + size) % TOP;
      if end < base || base < g.base || end > g.base + g.size { return Some(OutOfRange); }
      var i := 0;
      while i < |g.children|
        invariant i <= |g.children| && forall j | 0 <= j < i :: !Cuts(g.children[j], base, end)
      {
        var s := g.children[i];
        var overlaps, contained := s.base < end && s.base + s.size > base, s.base >= base && s.base + s.size <= end;
        if overlaps && !contained {
          assert s in g.children && Cuts(s, base, end);
          return Some(InvalidOperation);
        }
        i := i + 1;
      }
      RemoveFrom(r, base, end);
      return None;
    }

    /** One turn of the removing loop. */
    method RemoveNext(r: nat, i: nat, ghost f: Forest, ghost had: imap<Va, Page>, ghost j: nat, ghost lo: nat,
                      ghost hi: nat)
      requires Inv() && MayUnmap(f, r, lo, hi) && Midway(f, forest, had, pages, r, lo, hi, j)
      requires i == LowerBound(f.regions[r].children, lo)
      requires i < |forest.regions[r].children| && forest.regions[r].children[i].base < hi
      modifies this`forest, this`pages
      ensures Inv() && Midway(f, forest, had, pages, r, lo, hi, j + 1)
      ensures |forest.regions[r].children| < |old(forest).regions[r].children|
    {
      ghost var h := forest;
      MidwayLook(f, forest, had, pages, r, lo, hi, j);
      WithoutMiddle(f.regions[r].children, i, j);
      RemoveSlot(r, i);
      PruneMore(f, h, forest, r, i, j);
    }

    method RemoveFrom(r: nat, base: nat, end: nat)
      requires Inv() && MayUnmap(forest, r, base, end)
      modifies this`forest, this`pages
      ensures Inv() && Emptied(old(forest), forest, old(pages), pages, r, base, end)
    {
      var i := LowerBound(forest.regions[r].children, base);
      PrunedFirst(forest, r, i);
      ghost var j: nat := i;
      while i < |forest.regions[r].children| && forest.regions[r].children[i].base < end
        invariant Inv() && Midway(old(forest), forest, old(pages), pages, r, base, end, j)
        decreases |forest.regions[r].children|
      {
        RemoveNext(r, i, old(forest), old(pages), j, base, end);
        j := j + 1;
      }
      RemovedAll(old(forest), forest, vmos, old(pages), pages, r, base, end, j);
    }

    /** Give a page its frame if it has none. frame is what the allocator gave, if it gave anything. */
    method FillPage(o: nat, n: nat, frame: Option<nat>) returns (ok: bool)
      requires Inv() && o in vmos && n < vmos[o].pages && (frame.Some? ==> frame.value !in owners)
      modifies this`vmos, this`owners, this`memory
      ensures Inv() && Grown(old(vmos), old(memory), vmos, memory)
      ensures ok ==> o in vmos && n in vmos[o].resident
      ensures n in old(vmos)[o].resident ==> ok
      ensures !ok || n in old(vmos)[o].resident ==> vmos == old(vmos) && memory == old(memory) && owners == old(owners)
      ensures ok <==> n in old(vmos)[o].resident || frame.Some?
      ensures owners == old(owners) || (frame.Some? && owners == old(owners)[frame.value := Owner(o, n)])
    {
      GrownSame(vmos, memory);
      if n in vmos[o].resident { return true; }
      if frame.None? { return false; }
      ghost var was, had := vmos, memory;
      FillFilled(vmos, owners, o, n, frame.value);
      FillMapped(forest, vmos, pages, o, n, FrameFor(vmos[o], n, frame.value));
      if vmos[o].pager.Anonymous? { memory := memory[Ram(frame.value) := 0]; }
      owners := Claim(owners, vmos[o], frame.value, Owner(o, n));
      vmos := Fill(vmos, o, n, FrameFor(vmos[o], n, frame.value));
      forall p, m: nat | p in was ensures GrownAt(was, had, vmos, memory, p, m) {
        FillContent(was, old(owners), had, o, n, frame.value, p, m);
      }
      return true;
    }

    /** map_page: present translations are refused, not replaced. */
    method Install(k: Va, page: Page, room: bool) returns (ok: bool)
      requires Inv() && PageOk(forest, vmos, k, page)
      modifies this`pages
      ensures Inv() && ok == (k !in old(pages) && Reading in page.prot && room)
      ensures pages == if ok then old(pages)[k := page] else old(pages)
    {
      ok := k !in pages && Reading in page.prot && room;
      if ok {
        InstallMapped(forest, vmos, pages, k, page);
        pages := pages[k := page];
      }
    }

    /** Break zero-page sharing: fill the object's page and map it with the binding's own protection. */
    method ResolveCow(k: Va, s: Slot, frame: Option<nat>) returns (out: Outcome)
      requires Inv() && Aligned(k.at) && k.space in forest.roots && forest.roots[k.space] in forest.regions
      requires s.Has(k.at) && s.body.Binding? && s.body.obj.Some? && s.body.obj.value in vmos
      requires PageNo(s, k.at) < vmos[s.body.obj.value].pages
      requires Find(forest, forest.roots[k.space], k.at).Some?
      requires Find(forest, forest.roots[k.space], k.at).value.slot == s
      requires Reading in s.prot && (frame.Some? ==> frame.value !in owners)
      modifies this`vmos, this`owners, this`memory, this`pages
      ensures Inv() && Grown(old(vmos), old(memory), vmos, memory) && OnlyAt(old(pages), pages, k)
      ensures out == Panicked <==> k in old(pages) && old(pages)[k].frame != Zero
      ensures out == Resolved ==> k in pages && pages[k].prot == s.prot
      ensures out == Resolved || pages == old(pages)
      ensures k in old(pages) && old(pages)[k].frame == Zero && frame.Some? ==> out == Resolved
      ensures k !in old(pages) ==> out == Refused
    {
      GrownSame(vmos, memory);
      if k !in pages { return Refused; }
      if pages[k].frame != Zero { return Panicked; }
      var o, n := s.body.obj.value, PageNo(s, k.at);
      var filled := FillPage(o, n, frame);
      if !filled { return Refused; }
      assert ResidentOk(vmos, owners, o, n);
      UninstallMapped(forest, vmos, pages, k);
      pages := pages - {k};
      // the tables under the old leaf are in place, so the new leaf needs no frame
      var ok := Install(k, Page(vmos[o].resident[n], s.prot, s.body.cache), true);
      return Resolved;
    }

    /** The demand-fault handler. A fault it resolves will not fault again, a fault the binding does not
        allow changes nothing, and a fault raised against the current translations never panics and is
        resolved whenever there is memory. */
    method HandleFault(t: Fault, frame: Option<nat>, room: bool) returns (out: Outcome)
      requires Inv() && t.space in forest.roots && (frame.Some? ==> frame.value !in owners)
      modifies this`vmos, this`owners, this`memory, this`pages
      ensures Inv() && Grown(old(vmos), old(memory), vmos, memory) && OnlyAt(old(pages), pages, PageOf(t))
      ensures out == Resolved ==> Permitted(forest, t) && PageOf(t) in pages && Needs(t) <= pages[PageOf(t)].prot
      ensures !Permitted(forest, t) ==> out == Refused && vmos == old(vmos)
      ensures out != Resolved ==> pages == old(pages)
      ensures out == Panicked <==>
        Permitted(forest, t) && t.present && t.write && PageOf(t) in old(pages) && old(pages)[PageOf(t)].frame != Zero
      ensures Raised(old(pages), t) ==> out != Panicked
      ensures Raised(old(pages), t) && Permitted(forest, t) && frame.Some? && room ==> out == Resolved
      ensures frame.Some? && room ==> (out == Resolved <==> Permitted(forest, t) && Resolvable(old(pages), t))
    {
      GrownSame(vmos, memory);
      var found := Find(forest, forest.roots[t.space], t.vaddr);
      if found.None? || !found.value.slot.body.Binding? || found.value.slot.body.obj.None? { return Refused; }
      var s, k := found.value.slot, PageOf(t);
      if !(Needs(t) <= s.prot) { return Refused; }
      ghost var spot := PermittedPage(forest, vmos, t);
      var o, n := s.body.obj.value, PageNo(s, t.vaddr);
      if n >= vmos[o].pages { return Refused; }
      if k in pages { assert PageOk(forest, vmos, k, pages[k]); }
      if t.present {
        if !t.write { return Refused; }
        out := ResolveCow(k, s, frame);
        return;
      }
      out := FirstTouch(k, s, t.write, frame, room);
    }

    /** No translation yet: a read of an unfilled anonymous page shares the zero page, anything else
        gets the object's own frame. */
    method FirstTouch(k: Va, s: Slot, write: bool, frame: Option<nat>, room: bool) returns (out: Outcome)
      requires Inv() && Aligned(k.at) && k.space in forest.roots && forest.roots[k.space] in forest.regions
      requires s.Has(k.at) && s.body.Binding? && s.body.obj.Some? && s.body.obj.value in vmos
      requires PageNo(s, k.at) < vmos[s.body.obj.value].pages
      requires Find(forest, forest.roots[k.space], k.at).Some?
      requires Find(forest, forest.roots[k.space], k.at).value.slot == s
      requires Reading in s.prot && (frame.Some? ==> frame.value !in owners)
      modifies this`vmos, this`owners, this`memory, this`pages
      ensures Inv() && Grown(old(vmos), old(memory), vmos, memory) && OnlyAt(old(pages), pages, k) && out != Panicked
      ensures out == Resolved ==>
        k in pages && pages[k].prot == s.prot - (if pages[k].frame.Zero? then {Access.Writing} else {})
      ensures out == Resolved && pages[k].frame.Zero? ==> !write && vmos == old(vmos)
      ensures out == Refused ==> pages == old(pages)
      ensures k !in old(pages) && frame.Some? && room ==> out == Resolved
      ensures k in old(pages) ==> out == Refused
    {
      GrownSame(vmos, memory);
      var o, n := s.body.obj.value, PageNo(s, k.at);
      var ok;
      if !write && n !in vmos[o].resident && vmos[o].pager.Anonymous? {
        ok := Install(k, Page(Zero, s.prot - {Access.Writing}, s.body.cache), room);
      } else {
        var filled := FillPage(o, n, frame);
        if !filled { return Refused; }
        assert ResidentOk(vmos, owners, o, n);
        ok := Install(k, Page(vmos[o].resident[n], s.prot, s.body.cache), room);
      }
      return if ok then Resolved else Refused;
    }

    /** Populate a range of an object; no translation changes and no content does. */
    method Commit(o: nat, page: nat, count: nat, frames: seq<Option<nat>>) returns (e: Option<Error>)
      requires Inv() && o in vmos && page < TOP && count < TOP && vmos[o].pages < TOP && |frames| == count
      requires forall i | 0 <= i < count && frames[i].Some? :: frames[i].value !in owners
      requires forall i, j | 0 <= i < j < count && frames[i].Some? :: frames[i] != frames[j]
      modifies this`vmos, this`owners, this`memory
      ensures Inv() && Grown(old(vmos), old(memory), vmos, memory)
      ensures e == Some(OutOfRange) <==> page + count > old(vmos)[o].pages
      ensures e == Some(OutOfRange) ==> vmos == old(vmos)
      ensures e.None? ==> o in vmos && forall n | page <= n < page + count :: n in vmos[o].resident
      ensures (forall i | 0 <= i < count :: frames[i].Some?) && page + count <= old(vmos)[o].pages ==> e.None?
    {
      GrownSame(vmos, memory);
      var end := (page + count) % TOP;
      if end < page || end > vmos[o].pages { return Some(OutOfRange); }
      var p := page;
      while p < end
        invariant page <= p <= end == page + count && Inv() && Grown(old(vmos), old(memory), vmos, memory)
        invariant o in vmos && vmos[o].pages == old(vmos)[o].pages
        invariant forall n | page <= n < p :: n in vmos[o].resident
        invariant forall i | p - page <= i < count && frames[i].Some? :: frames[i].value !in owners
      {
        ghost var was, had := vmos, memory;
        var ok := FillPage(o, p, frames[p - page]);
        GrownMore(old(vmos), old(memory), was, had, vmos, memory);
        assert GrownAt(was, had, vmos, memory, o, p);
        forall n | page <= n < p ensures n in vmos[o].resident { assert GrownAt(was, had, vmos, memory, o, n); }
        if !ok { return Some(Oom); }
        p := p + 1;
      }
      return None;
    }

    /** A write by the program: it goes through exactly when the translation allows it, it lands in the
        binding's own object page, and no other anonymous page sees it. */
    method Store(k: Va, value: nat) returns (done: bool, ghost w: Owner)
      requires Inv()
      modifies this`memory
      ensures Inv() && done == (k in pages && Access.Writing in pages[k].prot)
      ensures !done ==> memory == old(memory)
      ensures done ==> && k.space in forest.roots && Find(forest, forest.roots[k.space], k.at).Some?
                       && var s := Find(forest, forest.roots[k.space], k.at).value.slot;
                          && s.Has(k.at) && s.body.Binding? && s.body.obj == Some(w.obj) && w.page == PageNo(s, k.at)
                          && w.obj in vmos && Content(vmos[w.obj], memory, w.page) == value
      ensures done ==> forall p, m: nat | p in vmos && vmos[p].pager.Anonymous? && (p != w.obj || m != w.page) ::
        Content(vmos[p], memory, m) == Content(vmos[p], old(memory), m)
    {
      w := Owner(0, 0);
      if k !in pages || Access.Writing !in pages[k].prot { return false, w; }
      assert PageOk(forest, vmos, k, pages[k]);
      ghost var s := Find(forest, forest.roots[k.space], k.at).value.slot;
      w := Owner(s.body.obj.value, PageNo(s, k.at));
      assert ResidentOk(vmos, owners, w.obj, w.page);
      memory := memory[pages[k].frame := value];
      forall p, m: nat | p in vmos
        ensures Content(vmos[w.obj], memory, w.page) == value
        ensures vmos[p].pager.Anonymous? && (p != w.obj || m != w.page) ==>
          Content(vmos[p], memory, m) == Content(vmos[p], old(memory), m)
      {
        StoreContent(vmos, owners, old(memory), w.obj, w.page, value, p, m);
      }
      return true, w;
    }

    /** The last reference to an object goes: nothing binds it, so nothing shows its frames, and exactly
        its frames lose their owner. */
    method DropVmo(o: nat)
      requires Inv() && o in vmos
      requires forall r, s | r in forest.regions && s in forest.regions[r].children && s.body.Binding? ::
        s.body.obj != Some(o)
      modifies this`vmos, this`owners
      ensures Inv() && vmos == old(vmos) - {o}
      ensures forall id :: id in owners <==> id in old(owners) && old(owners)[id].obj != o
      ensures forall k, id | k in pages && id in old(owners) && old(owners)[id].obj == o :: pages[k].frame != Ram(id)
    {
      var v := vmos[o];
      ghost var was := owners;
      forall id | id in was && was[id].obj == o
        ensures v.pager.Anonymous? && was[id].page in v.resident && v.resident[was[id].page] == Ram(id)
        ensures was[id].page < v.pages
      {
        assert OwnerOk(vmos, was, id);
        assert ResidentOk(vmos, was, o, was[id].page);
      }
      var n := 0;
      while n < v.pages
        invariant n <= v.pages
        invariant forall id :: id in owners <==> id in was && !(was[id].obj == o && was[id].page < n)
        invariant forall id | id in owners :: owners[id] == was[id]
        modifies this`owners
      {
        if n in v.resident && v.pager.Anonymous? {
          assert ResidentOk(vmos, was, o, n);
          owners := owners - {v.resident[n].id};
        }
        n := n + 1;
      }
      DropBound(forest, vmos, pages, o);
      DropFilled(vmos, old(owners), owners, o);
      vmos := vmos - {o};
      forall k, id | k in pages && id in old(owners) && old(owners)[id].obj == o ensures pages[k].frame != Ram(id) {
        assert PageOk(forest, vmos, k, pages[k]) && OwnerOk(old(vmos), old(owners), id);
        var s := Find(forest, forest.roots[k.space], k.at).value.slot;
        if !pages[k].frame.Zero? { assert ResidentOk(vmos, owners, s.body.obj.value, PageNo(s, k.at)); }
      }
    }

    /** A new object has no resident page and no binding. */
    method NewVmo(o: nat, n: nat, pager: Pager)
      requires Inv() && o !in vmos
      modifies this`vmos
      ensures Inv() && vmos == old(vmos)[o := Vmo(n, pager, imap[])]
      ensures Grown(old(vmos), memory, vmos, memory)
    {
      NewVmoKeeps(forest, vmos, owners, pages, memory, o, Vmo(n, pager, imap[]));
      vmos := vmos[o := Vmo(n, pager, imap[])];
    }

    method NewSpace(space: nat, limit: nat)
      requires Inv() && space !in forest.roots && PAGE_SIZE <= limit < TOP
      modifies this`forest
      ensures Inv() && forest == NewRoot(old(forest), space, limit)
    {
      NewRootKeeps(forest, vmos, pages, space, limit);
      forest := NewRoot(forest, space, limit);
    }
  }
}
