/** Object arenas: pages of exact-size slots for one type of object, with a live bitmap for each page and
    every slot that is not live zero. */
module ObjectArena {

  import opened Basics
  import opened PartialList
  import SlabPage

  const PAGE: nat := 4096
  const HEADER: nat := 32

  predicate Power(a: nat) { a == 1 || a == 2 || a == 4 || a == 8 || a == 16 || a == 32 || a == 64 }

  function AlignUp(value: nat, align: nat): (r: nat)
    requires align > 0
  {
    (value + align - 1) / align * align
  }

  lemma AlignUpIs(value: nat, align: nat)
    requires align > 0
    ensures value <= AlignUp(value, align) < value + align && AlignUp(value, align) % align == 0
  {
    var q := (value + align - 1) / align;
    assert value + align - 1 == q * align + (value + align - 1) % align;
    SlabPage.DivExact(q, align);
  }

  // ---------------------------------------------------------------- how many slots fit

  function Words(slots: nat): nat { (slots + 63) / 64 }

  /** Where the slots begin: after the header and a bitmap for this many of them. */
  function SlotsAt(slots: nat, align: nat): nat
    requires align > 0
  {
    AlignUp(HEADER + Words(slots) * 8, align)
  }

  predicate Fits(slots: nat, size: nat, align: nat)
    requires align > 0
  {
    SlotsAt(slots, align) + slots * size <= PAGE
  }

  lemma FitsBound(slots: nat, size: nat, align: nat)
    requires align > 0 && size > 0 && Fits(slots, size, align)
    ensures HEADER + slots * size <= PAGE && slots <= (PAGE - HEADER) / size
  {
    AlignUpIs(HEADER + Words(slots) * 8, align);
    var q := (PAGE - HEADER) / size;
    assert PAGE - HEADER == q * size + (PAGE - HEADER) % size;
    if q < slots { SlabPage.MulOrder(q, slots, size); }
  }

  /** The solver: the largest count that fits, or none at all. */
  method Solve(size: nat, align: nat) returns (slots: nat)
    requires size > 0 && align > 0
    ensures slots > 0 ==> Fits(slots, size, align)
    ensures forall t: nat | Fits(t, size, align) :: t <= slots
  {
    slots := if PAGE - HEADER >= size then (PAGE - HEADER) / size else 0;
    forall t: nat | Fits(t, size, align) ensures t <= slots { FitsBound(t, size, align); }
    while slots > 0
      invariant forall t: nat | Fits(t, size, align) :: t <= slots
    {
      if SlotsAt(slots, align) + slots * size <= PAGE { return; }
      slots := slots - 1;
    }
  }

  // ---------------------------------------------------------------- the bitmap

  predicate WordFull(bits: set<nat>, w: nat) { forall k: nat | w * 64 <= k < w * 64 + 64 :: k in bits }

  /** Count of trailing ones: the lowest clear bit of a word that has one. */
  method LowestClear(bits: set<nat>, w: nat) returns (k: nat)
    requires !WordFull(bits, w)
    ensures w * 64 <= k < w * 64 + 64 && k !in bits && forall j: nat | w * 64 <= j < k :: j in bits
  {
    var i := 0;
    while w * 64 + i in bits
      invariant i < 64 && forall j: nat | w * 64 <= j < w * 64 + i :: j in bits
      decreases 64 - i
    {
      i := i + 1;
    }
    k := w * 64 + i;
  }

  /** The lowest free slot of n, if there is one. */
  method FindClear(bits: set<nat>, n: nat) returns (k: Option<nat>)
    ensures k.Some? ==> k.value < n && k.value !in bits && forall j: nat | j < k.value :: j in bits
    ensures k.None? ==> forall j: nat | j < n :: j in bits
  {
    var w := 0;
    while w < Words(n)
      invariant w <= Words(n) && forall j: nat | j < w * 64 :: j in bits
    {
      if !WordFull(bits, w) {
        var slot := LowestClear(bits, w);
        if slot >= n { break; }
        return Some(slot);
      }
      w := w + 1;
    }
    return None;
  }

  /** Fewer live slots than slots means one is free. */
  lemma {:induction false} Pigeonhole(bits: set<nat>, n: nat)
    requires forall j: nat | j < n :: j in bits
    ensures |bits| >= n
  {
    if n > 0 {
      assert bits == (bits - {n - 1}) + {n - 1};
      Pigeonhole(bits - {n - 1}, n - 1);
    }
  }

  // ---------------------------------------------------------------- the arena as a value

  /** contents is what each slot holds, as one number that is zero exactly when every byte is. */
  datatype Slab = Slab(live: nat, bits: set<nat>, contents: imap<nat, nat>)

  function Holds(s: Slab, k: nat): nat { if k in s.contents then s.contents[k] else 0 }

  ghost predicate SlabOk(s: Slab, n: nat) {
    && s.live == |s.bits| && (forall k | k in s.bits :: k < n)
    && (forall k: nat | k !in s.bits :: Holds(s, k) == 0)
  }

  ghost function Room(slabs: imap<nat, Slab>, n: nat): imap<nat, nat> { imap p | p in slabs && slabs[p].live < n :: 0 }

  ghost predicate Contents(slabs: imap<nat, Slab>, n: nat) {
    forall p {:trigger SlabOk(slabs[p], n)} | p in slabs :: SlabOk(slabs[p], n)
  }

  /** Slots that are not live are zero, and a page is on the list exactly when it has room. */
  ghost predicate Sound(slabs: imap<nat, Slab>, links: imap<nat, Link>, head: Option<nat>, list: seq<nat>, n: nat) {
    Contents(slabs, n) && Lists(links, [head], [list], Room(slabs, n))
  }

  predicate LiveAt(slabs: imap<nat, Slab>, p: nat, k: nat) { p in slabs && k in slabs[p].bits }

  /** The pointer is a live object's. */
  ghost predicate IsBlock(slabs: imap<nat, Slab>, at: nat, size: nat, page: nat, offset: nat) {
    exists k: nat :: LiveAt(slabs, page, k) && offset == at + k * size
  }

  lemma RoomSet(slabs: imap<nat, Slab>, n: nat, p: nat, s: Slab)
    ensures s.live < n ==> Room(slabs[p := s], n) == Room(slabs, n)[p := 0]
    ensures s.live >= n ==> Room(slabs[p := s], n) == Room(slabs, n) - {p}
  {
  }

  lemma SetContents(slabs: imap<nat, Slab>, n: nat, p: nat, s: Slab)
    requires Contents(slabs, n) && SlabOk(s, n)
    ensures Contents(slabs[p := s], n)
  {
    var now := slabs[p := s];
    forall q | q in now ensures SlabOk(now[q], n) { if q != p { assert SlabOk(slabs[q], n); } }
  }

  lemma TakeSlab(s: Slab, n: nat, k: nat)
    requires SlabOk(s, n) && k < n && k !in s.bits
    ensures SlabOk(s.(bits := s.bits + {k}, live := s.live + 1), n) && s.live < n
  {
    Below(s.bits + {k}, n);
  }

  lemma {:induction false} Below(bits: set<nat>, n: nat)
    requires forall k | k in bits :: k < n
    ensures |bits| <= n
  {
    if n > 0 {
      Below(bits - {n - 1}, n - 1);
      if n - 1 in bits { assert bits == (bits - {n - 1}) + {n - 1}; } else { assert bits == bits - {n - 1}; }
    } else {
      assert bits == {};
    }
  }

  lemma GiveSlab(s: Slab, n: nat, k: nat)
    requires SlabOk(s, n) && k in s.bits
    ensures s.live > 0 && SlabOk(Slab(s.live - 1, s.bits - {k}, s.contents[k := 0]), n) && s.live <= n
  {
    assert s.bits == (s.bits - {k}) + {k};
    Below(s.bits, n);
  }

  datatype Freed = Kept | Gone | Panicked

  function SlotSize(objectSize: nat, align: nat): nat
    requires align > 0
  {
    AlignUp(if objectSize == 0 then 1 else objectSize, align)
  }

  lemma Singles(a: Option<nat>, b: Option<nat>, q: seq<nat>, r: seq<nat>)
    ensures [a][0 := b] == [b] && [q][0 := r] == [r]
  {
  }

  /** The constructor: it stops the kernel when the alignment is unsupported or not even one slot fits, and
      otherwise gives each page as many slots as there is room for. */
  method MakeArena(objectSize: nat, align: nat) returns (a: Arena?)
    ensures a == null <==> !Power(align) || forall t: nat | t > 0 :: !Fits(t, SlotSize(objectSize, align), align)
    ensures a != null ==> fresh(a) && a.Valid() && forall t: nat | Fits(t, a.size, align) :: t <= a.slots
    ensures a != null ==> a.size == SlotSize(objectSize, align) && a.align == align
  {
    if !Power(align) { return null; }
    AlignUpIs(if objectSize == 0 then 1 else objectSize, align);
    var slots := Solve(SlotSize(objectSize, align), align);
    if slots == 0 { return null; }
    a := new Arena(objectSize, align, slots);
  }

  /** Where a slot is. */
  function AddressOf(size: nat, align: nat, slots: nat, p: nat, k: nat): nat
    requires align > 0
  {
    p * PAGE + (SlotsAt(slots, align) + k * size)
  }

  /** A slot lies inside its page, after the bitmap. */
  lemma SlotInside(size: nat, align: nat, slots: nat, p: nat, k: nat)
    requires align > 0 && Fits(slots, size, align) && k < slots
    ensures p * PAGE + HEADER + Words(slots) * 8 <= AddressOf(size, align, slots, p, k)
    ensures AddressOf(size, align, slots, p, k) + size <= p * PAGE + PAGE
  {
    AlignUpIs(HEADER + Words(slots) * 8, align);
    Within(SlotsAt(slots, align), slots, k, size);
  }

  lemma Within(at: nat, slots: nat, k: nat, size: nat)
    requires at + slots * size <= PAGE && k < slots
    ensures at + k * size + size <= PAGE
  {
    SlabPage.MulOrder(k, slots, size);
  }

  /** And it is aligned. */
  lemma SlotAligned(size: nat, align: nat, slots: nat, p: nat, k: nat)
    requires Power(align) && size % align == 0
    ensures AddressOf(size, align, slots, p, k) % align == 0
  {
    AlignUpIs(HEADER + Words(slots) * 8, align);
    AllMultiples(p, SlotsAt(slots, align), k, size, align);
  }

  lemma AllMultiples(p: nat, at: nat, k: nat, size: nat, a: nat)
    requires Power(a) && at % a == 0 && size % a == 0
    ensures (p * PAGE + (at + k * size)) % a == 0
  {
    var n, h, m := PAGE / a, at / a, size / a;
    Exactly(PAGE, a);
    Exactly(at, a);
    Exactly(size, a);
    SlabPage.Factor(p, n, h, k, m, a);
    SlabPage.DivExact(p * n + h + k * m, a);
  }

  lemma Exactly(x: nat, a: nat)
    requires a > 0 && x % a == 0
    ensures x == x / a * a
  {
  }

  /** Live objects are aligned, inside their pages, and pairwise disjoint. */
  lemma ObjectsApart(slabs: imap<nat, Slab>, size: nat, align: nat, slots: nat, p: nat, j: nat, q: nat, k: nat)
    requires Contents(slabs, slots) && Power(align) && size % align == 0 && Fits(slots, size, align)
    requires LiveAt(slabs, p, j) && LiveAt(slabs, q, k)
    ensures AddressOf(size, align, slots, p, j) % align == 0
    ensures p * PAGE < AddressOf(size, align, slots, p, j)
    ensures AddressOf(size, align, slots, p, j) + size <= p * PAGE + PAGE
    ensures p != q || j != k ==>
      || AddressOf(size, align, slots, p, j) + size <= AddressOf(size, align, slots, q, k)
      || AddressOf(size, align, slots, q, k) + size <= AddressOf(size, align, slots, p, j)
  {
    assert SlabOk(slabs[p], slots) && SlabOk(slabs[q], slots);
    SlotAligned(size, align, slots, p, j);
    SlotInside(size, align, slots, p, j);
    SlotInside(size, align, slots, q, k);
    if p < q { SlabPage.MulOrder(p, q, PAGE); }
    else if q < p { SlabPage.MulOrder(q, p, PAGE); }
    else if j < k { SlabPage.MulOrder(j, k, size); }
    else if k < j { SlabPage.MulOrder(k, j, size); }
  }

  /** A page is on the list exactly when fewer of its slots are live than it has. */
  lemma ListedIffRoom(slabs: imap<nat, Slab>, links: imap<nat, Link>, head: Option<nat>, list: seq<nat>, n: nat, p: nat)
    requires Sound(slabs, links, head, list, n)
    ensures p in list <==> p in slabs && slabs[p].live < n
  {
    assert ListOk(links, [head][0], [list][0], Room(slabs, n), 0);
  }

  lemma Checks(slabs: imap<nat, Slab>, slots: nat, at: nat, size: nat, page: nat, offset: nat)
    requires Contents(slabs, slots) && size > 0
    ensures IsBlock(slabs, at, size, page, offset) <==>
      page in slabs && offset >= at && (offset - at) % size == 0 && (offset - at) / size < slots
          && (offset - at) / size in slabs[page].bits
    ensures offset >= at && (offset - at) % size == 0 ==> offset == at + (offset - at) / size * size
  {
    if IsBlock(slabs, at, size, page, offset) {
      var k: nat :| LiveAt(slabs, page, k) && offset == at + k * size;
      assert SlabOk(slabs[page], slots);
      SlabPage.DivExact(k, size);
    }
    if page in slabs && offset >= at && (offset - at) % size == 0 && (offset - at) / size in slabs[page].bits {
      assert LiveAt(slabs, page, (offset - at) / size);
    }
  }

  /** No page has a free slot. */
  ghost predicate NoRoom(slabs: imap<nat, Slab>, slots: nat) { forall p: nat :: p !in Room(slabs, slots) }

  class Arena {
    const size: nat
    const align: nat
    const slots: nat
    const at: nat
    var slabs: imap<nat, Slab>
    var links: imap<nat, Link>
    var head: Option<nat>
    ghost var list: seq<nat>

    ghost predicate Valid()
      reads this
    {
      && Power(align) && 0 < slots && 0 < size && size % align == 0 && at == SlotsAt(slots, align)
      && Fits(slots, size, align)
      && Sound(slabs, links, head, list, slots)
    }

    constructor (objectSize: nat, align: nat, slots: nat)
      requires Power(align) && 0 < slots && Fits(slots, SlotSize(objectSize, align), align)
      ensures Valid() && size == SlotSize(objectSize, align) && this.align == align && this.slots == slots
      ensures forall p: nat, k: nat :: !LiveAt(slabs, p, k)
    {
      AlignUpIs(if objectSize == 0 then 1 else objectSize, align);
      size, this.align, this.slots, at := SlotSize(objectSize, align), align, slots, SlotsAt(slots, align);
      slabs, links, head, list := imap[], imap[], None, [];
    }

    /** take_slot: the lowest free slot of a page with room. Such a page always has one. */
    method TakeSlot(p: nat) returns (k: nat)
      requires Valid() && p in Room(slabs, slots)
      modifies this`slabs, this`links, this`head, this`list
      ensures Valid() && k < slots && !LiveAt(old(slabs), p, k) && LiveAt(slabs, p, k) && Holds(slabs[p], k) == 0
      ensures forall q :: q in slabs <==> q in old(slabs)
      ensures forall q: nat, j: nat | q != p || j != k :: LiveAt(slabs, q, j) <==> LiveAt(old(slabs), q, j)
    {
      var s := slabs[p];
      assert SlabOk(s, slots);
      var found := FindClear(s.bits, slots);
      if found.None? {
        Pigeonhole(s.bits, slots);
        assert false;
      }
      k := found.value;
      TakeSlab(s, slots, k);
      var t := s.(bits := s.bits + {k}, live := s.live + 1);
      SetContents(slabs, slots, p, t);
      RoomSet(slabs, slots, p, t);
      ghost var room := Room(slabs, slots);
      slabs := slabs[p := t];
      if t.live == slots {
        ghost var less := ListsUnlink(links, [head], [list], room, p);
        Singles(head, HeadWithout(links, head, p), list, less);
        links, head, list := Unlink(links, p), HeadWithout(links, head, p), less;
      } else {
        assert room[p := 0] == room;
      }
    }

    /** An object for the caller: a zero slot, not live before, and no other slot changes hands. The offered
        page is taken exactly when no page has room. */
    method Alloc(page: Option<nat>) returns (r: Option<nat>, k: nat)
      requires Valid() && (page.Some? ==> page.value !in slabs)
      modifies this`slabs, this`links, this`head, this`list
      ensures Valid() && (r.None? <==> page.None? && NoRoom(old(slabs), slots))
      ensures r.None? ==> slabs == old(slabs)
      ensures r.Some? ==>
        && (if NoRoom(old(slabs), slots) then page == r else r.value in old(slabs))
        && forall q :: q in slabs <==> q in old(slabs) || q == r.value
      ensures r.Some? ==>
        && k < slots && !LiveAt(old(slabs), r.value, k) && LiveAt(slabs, r.value, k) && Holds(slabs[r.value], k) == 0
        && forall q: nat, j: nat | q != r.value || j != k :: LiveAt(slabs, q, j) <==> LiveAt(old(slabs), q, j)
    {
      HeadHasRoom(links, [head], [list], Room(slabs, slots), 0);
      assert head.None? <==> NoRoom(slabs, slots);
      k := 0;
      if head.Some? {
        r := head;
      } else {
        if page.None? { return None, 0; }
        AddPage(page.value);
        r := page;
      }
      k := TakeSlot(r.value);
    }

    /** A new page, all zero, goes to the front of the list. */
    method AddPage(p: nat)
      requires Valid() && p !in slabs
      modifies this`slabs, this`links, this`head, this`list
      ensures Valid() && p in Room(slabs, slots) && forall q :: q in slabs <==> q in old(slabs) || q == p
      ensures forall q: nat, j: nat :: LiveAt(slabs, q, j) <==> LiveAt(old(slabs), q, j)
    {
      var s := Slab(0, {}, imap[]);
      SetContents(slabs, slots, p, s);
      RoomSet(slabs, slots, p, s);
      LooseAgain(links, [head], [list], Room(slabs, slots), p);
      PutFront(p, links[p := LOOSE], slabs[p := s]);
    }

    method PutFront(p: nat, linked: imap<nat, Link>, now: imap<nat, Slab>)
      requires Valid() && Lists(linked, [head], [list], Room(slabs, slots)) && p !in Room(slabs, slots)
      requires Contents(now, slots) && Room(now, slots) == Room(slabs, slots)[p := 0]
      modifies this`slabs, this`links, this`head, this`list
      ensures Valid() && slabs == now
    {
      ListsPush(linked, [head], [list], Room(slabs, slots), p, 0);
      Singles(head, Some(p), list, [p] + list);
      slabs, links, head, list := now, PushFront(linked, head, p), Some(p), [p] + list;
    }

    /** free: a pointer that is not a live object's stops the kernel, and nothing else does. The slot is
        scrubbed; a page that was full is listed again and one left empty goes back to the system. */
    method Free(page: nat, offset: nat) returns (r: Freed, ghost k: nat)
      requires Valid()
      modifies this`slabs, this`links, this`head, this`list
      ensures Valid() && (r == Panicked <==> !IsBlock(old(slabs), at, size, page, offset))
      ensures r == Panicked ==> slabs == old(slabs)
      ensures r != Panicked ==>
        && LiveAt(old(slabs), page, k) && offset == at + k * size && !LiveAt(slabs, page, k)
        && (forall q: nat, j: nat | q != page || j != k :: LiveAt(slabs, q, j) <==> LiveAt(old(slabs), q, j))
      ensures r == Gone <==> r != Panicked && page !in slabs
      ensures r != Panicked ==> (r == Gone <==> forall j: nat :: !LiveAt(slabs, page, j))
    {
      k := 0;
      Checks(slabs, slots, at, size, page, offset);
      if page !in slabs || offset < at || (offset - at) % size != 0 { return Panicked, k; }
      var slot := (offset - at) / size;
      k := slot;
      if slot >= slots || slot !in slabs[page].bits { return Panicked, k; }
      r := PutBack(page, slot);
    }

    /** A live slot is scrubbed and free again. */
    method PutBack(page: nat, slot: nat) returns (r: Freed)
      requires Valid() && LiveAt(slabs, page, slot)
      modifies this`slabs, this`links, this`head, this`list
      ensures Valid() && r != Panicked && !LiveAt(slabs, page, slot)
      ensures forall q: nat, j: nat | q != page || j != slot :: LiveAt(slabs, q, j) <==> LiveAt(old(slabs), q, j)
      ensures (r == Gone <==> page !in slabs) && (r == Gone <==> forall j: nat :: !LiveAt(slabs, page, j))
    {
      assert SlabOk(slabs[page], slots);
      GiveSlab(slabs[page], slots, slot);
      var t := Slab(slabs[page].live - 1, slabs[page].bits - {slot}, slabs[page].contents[slot := 0]);
      if t.live + 1 == slots && t.live != 0 {
        SetContents(slabs, slots, page, t);
        RoomSet(slabs, slots, page, t);
        PutFront(page, links, slabs[page := t]);
        ghost var j := SlabPage.OneOf(t.bits);
        assert LiveAt(slabs, page, j);
        return Kept;
      }
      if t.live == 0 {
        Release(page);
        return Gone;
      }
      SetContents(slabs, slots, page, t);
      RoomSet(slabs, slots, page, t);
      assert Room(slabs, slots)[page := 0] == Room(slabs, slots);
      slabs := slabs[page := t];
      ghost var j := SlabPage.OneOf(t.bits);
      assert LiveAt(slabs, page, j);
      return Kept;
    }

    /** The page leaves the list, if it was on it, and the arena. */
    method Release(p: nat)
      requires Valid() && p in slabs
      modifies this`slabs, this`links, this`head, this`list
      ensures Valid() && slabs == old(slabs) - {p}
    {
      ghost var room := Room(slabs, slots);
      forall q | q in slabs - {p} ensures SlabOk((slabs - {p})[q], slots) { assert SlabOk(slabs[q], slots); }
      if p in room {
        ghost var less := ListsUnlink(links, [head], [list], room, p);
        Singles(head, HeadWithout(links, head, p), list, less);
        list := less;
      } else {
        ListsUnlinkLoose(links, [head], [list], room, p, 0);
        Singles(head, HeadWithout(links, head, p), list, list);
      }
      links, head, slabs := Unlink(links, p), HeadWithout(links, head, p), slabs - {p};
      assert Room(slabs, slots) == room - {p};
      assert p !in room ==> room - {p} == room;
    }

    /** A program writes to its own object. */
    method Store(p: nat, k: nat, v: nat)
      requires Valid() && LiveAt(slabs, p, k)
      modifies this`slabs
      ensures Valid() && forall q: nat, j: nat :: LiveAt(slabs, q, j) <==> LiveAt(old(slabs), q, j)
    {
      var t := slabs[p].(contents := slabs[p].contents[k := v]);
      assert SlabOk(slabs[p], slots);
      SetContents(slabs, slots, p, t);
      RoomSet(slabs, slots, p, t);
      assert Room(slabs[p := t], slots) == Room(slabs, slots);
      slabs := slabs[p := t];
    }
  }
}
