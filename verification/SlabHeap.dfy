/** The kernel heap: pages cut into slots of seven sizes, with a list for each size of the pages that
    have room. Pages are numbered; an address is a page and an offset. */
module SlabHeap {

  import opened Basics
  import opened SlabPage
  import opened PartialList

  const CLASSES: nat := 7
  const MAX_CLASS_BYTES: nat := 1024
  const MAX_SLAB_ALIGN: nat := 64

  function ClassSize(c: nat): nat {
    if c == 0 then 16 else if c == 1 then 32 else if c == 2 then 64 else if c == 3 then 128
    else if c == 4 then 256 else if c == 5 then 512 else 1024
  }

  /** The smallest class that holds this many bytes. */
  predicate Smallest(bytes: nat, c: nat) {
    c < CLASSES && bytes <= ClassSize(c) && forall d | 0 <= d < c :: ClassSize(d) < bytes
  }

  method ClassFor(bytes: nat) returns (c: nat)
    requires bytes <= MAX_CLASS_BYTES
    ensures Smallest(bytes, c)
  {
    c := 0;
    while c < CLASSES - 1
      invariant c < CLASSES && forall d | 0 <= d < c :: ClassSize(d) < bytes
    {
      if bytes <= ClassSize(c) { return; }
      c := c + 1;
    }
  }

  /** There is one such class. */
  lemma OneSmallest(bytes: nat, c: nat, d: nat)
    requires Smallest(bytes, c) && Smallest(bytes, d)
    ensures c == d
  {
  }

  /** The bytes a request comes to: at least one, and at least its alignment. */
  function Need(size: nat, align: nat): nat {
    var least := if size == 0 then 1 else size;
    if least > align then least else align
  }

  predicate PowerUpTo64(a: nat) { a == 1 || a == 2 || a == 4 || a == 8 || a == 16 || a == 32 || a == 64 }

  predicate PowerUpToPage(a: nat) {
    PowerUpTo64(a) || a == 128 || a == 256 || a == 512 || a == 1024 || a == 2048 || a == 4096
  }

  /** A slot of a class at least as big as the alignment is aligned: every class size is a multiple of
      every smaller power of two, and so are the header and the page. */
  lemma SlotAligned(c: nat, k: nat, p: nat, a: nat)
    requires c < CLASSES && PowerUpTo64(a) && a <= ClassSize(c)
    ensures (p * PAGE + Offset(ClassSize(c), k)) % a == 0
  {
    var m, n, h := ClassSize(c) / a, PAGE / a, HEADER / a;
    Multiples(c, a);
    Factor(p, n, h, k, m, a);
    DivExact(p * n + h + k * m, a);
  }

  lemma Multiples(c: nat, a: nat)
    requires c < CLASSES && PowerUpTo64(a) && a <= ClassSize(c)
    ensures ClassSize(c) == ClassSize(c) / a * a && PAGE == PAGE / a * a && HEADER == HEADER / a * a
  {
  }

  // ---------------------------------------------------------------- the heap as a value

  /** The slab pages, what class each belongs to, their links and the seven heads. */
  datatype Pages = Pages(slabs: imap<nat, Slab>, classOf: imap<nat, nat>, links: imap<nat, Link>,
                         heads: seq<Option<nat>>)

  ghost predicate PageOk(st: Pages, free: imap<nat, seq<nat>>, p: nat)
    requires p in st.slabs
  {
    && p in st.classOf && st.classOf[p] < CLASSES && p in free
    && st.slabs[p].size == ClassSize(st.classOf[p]) && SlabOk(st.slabs[p], free[p])
  }

  ghost predicate Contents(st: Pages, free: imap<nat, seq<nat>>) {
    forall p {:trigger PageOk(st, free, p)} | p in st.slabs :: PageOk(st, free, p)
  }

  /** The pages with room, and the class of each. */
  ghost function Room(st: Pages): imap<nat, nat> {
    imap p | p in st.slabs && p in st.classOf && !Full(st.slabs[p]) :: st.classOf[p]
  }

  /** One page changed: the others are as sound as they were. */
  lemma ContentsBut(st: Pages, now: Pages, free: imap<nat, seq<nat>>, p: nat, s: Slab, left: seq<nat>)
    requires Contents(st, free) && p in st.slabs && now.slabs == st.slabs[p := s] && now.classOf == st.classOf
    requires SlabOk(s, left) && s.size == st.slabs[p].size
    ensures Contents(now, free[p := left])
  {
    var free' := free[p := left];
    assert PageOk(st, free, p);
    forall q | q in now.slabs ensures PageOk(now, free', q) { if q != p { assert PageOk(st, free, q); } }
  }

  /** And its room is the old one, but for that page. */
  lemma RoomBut(st: Pages, now: Pages, p: nat, s: Slab)
    requires p in st.slabs && p in st.classOf && now.slabs == st.slabs[p := s] && now.classOf == st.classOf
    ensures Full(s) == Full(st.slabs[p]) ==> Room(now) == Room(st)
    ensures Full(s) && !Full(st.slabs[p]) ==> Room(now) == Room(st) - {p}
    ensures !Full(s) && Full(st.slabs[p]) ==> Room(now) == Room(st)[p := st.classOf[p]]
  {
  }

  /** Every slot is accounted for, and a page is on its class's list exactly when it has room. */
  ghost predicate Sound(st: Pages, lists: seq<seq<nat>>, free: imap<nat, seq<nat>>) {
    |st.heads| == CLASSES && Contents(st, free) && Lists(st.links, st.heads, lists, Room(st))
  }

  predicate LiveAt(st: Pages, p: nat, k: nat) { p in st.slabs && k in st.slabs[p].bits }

  function AddressOf(st: Pages, p: nat, k: nat): nat
    requires p in st.slabs
  {
    p * PAGE + Offset(st.slabs[p].size, k)
  }

  /** Live blocks lie inside their pages, after the header, and are pairwise disjoint. */
  lemma BlocksApart(st: Pages, lists: seq<seq<nat>>, free: imap<nat, seq<nat>>, p: nat, j: nat, q: nat, k: nat)
    requires Sound(st, lists, free) && LiveAt(st, p, j) && LiveAt(st, q, k)
    ensures p * PAGE + HEADER <= AddressOf(st, p, j) && AddressOf(st, p, j) + st.slabs[p].size <= (p + 1) * PAGE
    ensures p != q || j != k ==>
      AddressOf(st, p, j) + st.slabs[p].size <= AddressOf(st, q, k)
          || AddressOf(st, q, k) + st.slabs[q].size <= AddressOf(st, p, j)
  {
    InsidePage(st, lists, free, p, j);
    InsidePage(st, lists, free, q, k);
    if p < q { MulOrder(p, q, PAGE); }
    else if q < p { MulOrder(q, p, PAGE); }
    else if j < k { SlotsApart(st.slabs[p].size, j, k); }
    else if k < j { SlotsApart(st.slabs[p].size, k, j); }
  }

  /** A page is on a list exactly when the list is its class's and some slot of it is not live. */
  lemma ListedIffRoom(st: Pages, lists: seq<seq<nat>>, free: imap<nat, seq<nat>>, p: nat, c: nat)
    requires Sound(st, lists, free) && p in st.slabs && c < CLASSES
    ensures p in st.classOf && st.slabs[p].size > 0
    ensures p in lists[c] <==> st.classOf[p] == c && exists k: nat | k < Slots(st.slabs[p].size) :: !LiveAt(st, p, k)
  {
    assert PageOk(st, free, p) && ListOk(st.links, st.heads[c], lists[c], Room(st), c);
    FullMeansNone(st.slabs[p], free[p]);
    if !Full(st.slabs[p]) {
      var k: nat :| k < Slots(st.slabs[p].size) && k !in st.slabs[p].bits;
      assert !LiveAt(st, p, k);
    }
  }

  lemma InsidePage(st: Pages, lists: seq<seq<nat>>, free: imap<nat, seq<nat>>, p: nat, k: nat)
    requires Sound(st, lists, free) && LiveAt(st, p, k)
    ensures st.slabs[p].size > 0 && k < Slots(st.slabs[p].size) && p in st.classOf && st.classOf[p] < CLASSES
    ensures st.slabs[p].size == ClassSize(st.classOf[p])
    ensures p * PAGE + HEADER <= AddressOf(st, p, k) && AddressOf(st, p, k) + st.slabs[p].size <= (p + 1) * PAGE
  {
    assert PageOk(st, free, p);
    CarvedFits(st.slabs[p], free[p]);
    SlotFits(st.slabs[p].size, k);
  }

  lemma CarvedFits(s: Slab, free: seq<nat>)
    requires SlabOk(s, free)
    ensures Carved(s) <= Slots(s.size)
  {
  }

  // ---------------------------------------------------------------- a slot out

  /** A new page joins its class. */
  function Added(st: Pages, p: nat, c: nat): Pages
    requires c < |st.heads|
  {
    Pages(st.slabs[p := NewSlab(ClassSize(c))], st.classOf[p := c], PushFront(st.links[p := LOOSE], st.heads[c], p),
        st.heads[c := Some(p)])
  }

  lemma AddedSound(st: Pages, lists: seq<seq<nat>>, free: imap<nat, seq<nat>>, p: nat, c: nat)
    requires Sound(st, lists, free) && p !in st.slabs && c < CLASSES
    ensures Sound(Added(st, p, c), lists[c := [p] + lists[c]], free[p := []])
    ensures forall q, k :: LiveAt(Added(st, p, c), q, k) <==> LiveAt(st, q, k)
  {
    AddedContents(st, free, p, c);
    AddedRoom(st, p, c);
    LooseAgain(st.links, st.heads, lists, Room(st), p);
    ListsPush(st.links[p := LOOSE], st.heads, lists, Room(st), p, c);
  }

  lemma AddedContents(st: Pages, free: imap<nat, seq<nat>>, p: nat, c: nat)
    requires |st.heads| == CLASSES && Contents(st, free) && p !in st.slabs && c < CLASSES
    ensures Contents(Added(st, p, c), free[p := []])
  {
    var now, free' := Added(st, p, c), free[p := []];
    NewSlabOk(ClassSize(c));
    forall q | q in now.slabs ensures PageOk(now, free', q) { if q != p { assert PageOk(st, free, q); } }
  }

  lemma AddedRoom(st: Pages, p: nat, c: nat)
    requires c < |st.heads| && c < CLASSES && p !in st.slabs
    ensures Room(Added(st, p, c)) == Room(st)[p := c]
  {
    NewSlabOk(ClassSize(c));
  }

  /** take_slot: a slot out of the page, and the page off its list if that was the last. */
  function Taken(st: Pages, p: nat, c: nat): Pages
    requires p in st.slabs && c < |st.heads| && st.slabs[p].size > 0 && HEADER <= Next(st.slabs[p])
  {
    var slabs := st.slabs[p := Take(st.slabs[p])];
    if Full(slabs[p])
        then st.(slabs := slabs, links := Unlink(st.links, p),
            heads := st.heads[c := HeadWithout(st.links, st.heads[c], p)])
    else st.(slabs := slabs)
  }

  lemma TakenSound(st: Pages, lists: seq<seq<nat>>, free: imap<nat, seq<nat>>, p: nat, c: nat)
      returns (k: nat, lists': seq<seq<nat>>, free': imap<nat, seq<nat>>)
    requires Sound(st, lists, free) && p in Room(st) && Room(st)[p] == c
    ensures st.slabs[p].size == ClassSize(c) && HEADER <= Next(st.slabs[p]) == Offset(ClassSize(c), k) && c < CLASSES
    ensures Sound(Taken(st, p, c), lists', free') && !LiveAt(st, p, k) && LiveAt(Taken(st, p, c), p, k)
    ensures forall q, j | q != p || j != k :: LiveAt(Taken(st, p, c), q, j) <==> LiveAt(st, q, j)
    ensures forall q :: q in Taken(st, p, c).slabs <==> q in st.slabs
  {
    assert PageOk(st, free, p);
    var left;
    k, left := TakeOk(st.slabs[p], free[p]);
    free', lists' := free[p := left], lists;
    var now := Taken(st, p, c);
    ContentsBut(st, now, free, p, Take(st.slabs[p]), left);
    RoomBut(st, now, p, Take(st.slabs[p]));
    if Full(now.slabs[p]) {
      var less := ListsUnlink(st.links, st.heads, lists, Room(st), p);
      lists' := lists[c := less];
    }
  }

  // ---------------------------------------------------------------- a slot back

  /** The slot is free again, and a page that was full goes to the front of its list. */
  function Given(st: Pages, p: nat, c: nat, offset: nat): Pages
    requires p in st.slabs && c < |st.heads| && st.slabs[p].size > 0 && offset >= HEADER && st.slabs[p].live > 0
  {
    var slabs := st.slabs[p := Give(st.slabs[p], offset)];
    if Full(st.slabs[p])
        then st.(slabs := slabs, links := PushFront(st.links, st.heads[c], p), heads := st.heads[c := Some(p)])
    else st.(slabs := slabs)
  }

  lemma GivenSound(st: Pages, lists: seq<seq<nat>>, free: imap<nat, seq<nat>>, p: nat, k: nat)
      returns (now: Pages, lists': seq<seq<nat>>, free': imap<nat, seq<nat>>)
    requires Sound(st, lists, free) && LiveAt(st, p, k)
    ensures p in st.classOf && st.classOf[p] < |st.heads| && st.slabs[p].size > 0 && st.slabs[p].live > 0
    ensures now == Given(st, p, st.classOf[p], Offset(st.slabs[p].size, k))
    ensures Sound(now, lists', free') && p in Room(now) && now.classOf == st.classOf && |now.heads| == |st.heads|
    ensures !LiveAt(now, p, k) && forall q, j | q != p || j != k :: LiveAt(now, q, j) <==> LiveAt(st, q, j)
  {
    assert PageOk(st, free, p);
    var s, c := st.slabs[p], st.classOf[p];
    GiveOk(s, free[p], k);
    now := Given(st, p, c, Offset(s.size, k));
    free', lists' := free[p := [k] + free[p]], lists;
    ContentsBut(st, now, free, p, Give(s, Offset(s.size, k)), [k] + free[p]);
    RoomBut(st, now, p, Give(s, Offset(s.size, k)));
    if Full(s) {
      ListsPush(st.links, st.heads, lists, Room(st), p, c);
      lists' := lists[c := [p] + lists[c]];
    }
  }

  /** A page nobody uses leaves its list and the heap. */
  function Released(st: Pages, p: nat, c: nat): Pages
    requires c < |st.heads|
  {
    st.(slabs := st.slabs - {p}, links := Unlink(st.links, p),
        heads := st.heads[c := HeadWithout(st.links, st.heads[c], p)])
  }

  lemma ReleasedSound(st: Pages, lists: seq<seq<nat>>, free: imap<nat, seq<nat>>, p: nat, c: nat)
      returns (lists': seq<seq<nat>>)
    requires Sound(st, lists, free) && p in Room(st) && Room(st)[p] == c && st.slabs[p].bits == {}
    ensures c < CLASSES && Sound(Released(st, p, c), lists', free)
    ensures forall q, j :: LiveAt(Released(st, p, c), q, j) <==> LiveAt(st, q, j)
  {
    assert PageOk(st, free, p);
    var now := Released(st, p, c);
    var less := ListsUnlink(st.links, st.heads, lists, Room(st), p);
    lists' := lists[c := less];
    assert Room(now) == Room(st) - {p};
    forall q | q in now.slabs ensures PageOk(now, free, q) { assert PageOk(st, free, q); }
  }

  // ---------------------------------------------------------------- the allocator

  datatype Got = Block(page: nat, offset: nat) | Large | Exhausted | Refused

  datatype Freed = Kept | Gone(page: nat) | LargeRun | Panicked

  /** The pointer is a live block's. */
  ghost predicate IsBlock(st: Pages, page: nat, offset: nat) {
    exists k :: LiveAt(st, page, k) && offset == Offset(st.slabs[page].size, k)
  }

  /** No other page of its class has room. */
  ghost predicate OnlyRoom(st: Pages, p: nat) {
    p in Room(st) && forall q | q in Room(st) && Room(st)[q] == Room(st)[p] :: q == p
  }

  /** The checks free makes pass for live blocks only, and for each of them. */
  lemma NotOnBoundary(st: Pages, lists: seq<seq<nat>>, free: imap<nat, seq<nat>>, page: nat, offset: nat)
    requires Sound(st, lists, free)
    ensures IsBlock(st, page, offset) <==>
      && page in st.slabs
      && var s := st.slabs[page];
         offset >= HEADER && offset <= PAGE - s.size && s.size > 0 && (offset - HEADER) % s.size == 0
             && (offset - HEADER) / s.size in s.bits
  {
    if IsBlock(st, page, offset) {
      var k :| LiveAt(st, page, k) && offset == Offset(st.slabs[page].size, k);
      InsidePage(st, lists, free, page, k);
      SlotBack(st.slabs[page].size, k);
    }
    if page in st.slabs {
      var s := st.slabs[page];
      assert PageOk(st, free, page);
      if offset >= HEADER && (offset - HEADER) % s.size == 0 && (offset - HEADER) / s.size in s.bits {
        OffsetOfSlot(s.size, offset);
        assert LiveAt(st, page, (offset - HEADER) / s.size);
      }
    }
  }

  /** No page of the class these bytes belong to has room. */
  ghost predicate NoRoom(st: Pages, bytes: nat) {
    forall p | p in Room(st) :: !Smallest(bytes, Room(st)[p])
  }

  lemma HeadRoom(st: Pages, lists: seq<seq<nat>>, free: imap<nat, seq<nat>>, c: nat, bytes: nat)
    requires Sound(st, lists, free) && Smallest(bytes, c)
    ensures st.heads[c].None? <==> NoRoom(st, bytes)
  {
    HeadHasRoom(st.links, st.heads, lists, Room(st), c);
    forall p | p in Room(st) && Smallest(bytes, Room(st)[p]) ensures Room(st)[p] == c {
      OneSmallest(bytes, Room(st)[p], c);
    }
  }

  class Heap {
    var st: Pages
    ghost var lists: seq<seq<nat>>
    ghost var free: imap<nat, seq<nat>>

    ghost predicate Valid()
      reads this
    {
      Sound(st, lists, free)
    }

    constructor ()
      ensures Valid() && forall p, k :: !LiveAt(st, p, k)
    {
      st := Pages(imap[], imap[], imap[], [None, None, None, None, None, None, None]);
      lists, free := [[], [], [], [], [], [], []], imap[];
    }

    /** take_slot on a page of the class that has room. */
    method TakeSlot(c: nat, p: nat) returns (offset: nat, ghost k: nat)
      requires Valid() && p in Room(st) && Room(st)[p] == c
      modifies this
      ensures Valid() && c < CLASSES && offset == Offset(ClassSize(c), k) && p in st.slabs && p in st.classOf
      ensures st.classOf[p] == c
      ensures st.slabs[p].size == ClassSize(c) && st.classOf == old(st).classOf
      ensures forall q :: q in st.slabs <==> q in old(st).slabs
      ensures !LiveAt(old(st), p, k) && LiveAt(st, p, k)
      ensures forall q, j | q != p || j != k :: LiveAt(st, q, j) <==> LiveAt(old(st), q, j)
    {
      ghost var lists', free';
      k, lists', free' := TakenSound(st, lists, free, p, c);
      offset := Next(st.slabs[p]);
      st := Taken(st, p, c);
      lists, free := lists', free';
    }

    /** A block for the caller: not live before, live now, aligned as asked, of the smallest class that will
        do, and no other block changes hands. The offered page is taken exactly when no page of that class has
        room. */
    method Alloc(size: nat, align: nat, page: Option<nat>) returns (r: Got, ghost k: nat)
      requires Valid() && (page.Some? ==> page.value !in st.slabs)
      modifies this
      ensures Valid()
      ensures r == Refused <==> !PowerUpToPage(align)
      ensures r == Large <==> PowerUpToPage(align) && (size > MAX_CLASS_BYTES || align > MAX_SLAB_ALIGN)
      ensures !r.Block? ==> st == old(st)
      ensures r == Exhausted <==> PowerUpToPage(align) && r != Large && page.None? && NoRoom(old(st), Need(size, align))
      ensures r.Block? ==>
        && !LiveAt(old(st), r.page, k) && LiveAt(st, r.page, k) && r.offset == Offset(st.slabs[r.page].size, k)
        && (r.page * PAGE + r.offset) % align == 0
        && forall q, j | q != r.page || j != k :: LiveAt(st, q, j) <==> LiveAt(old(st), q, j)
      ensures r.Block? ==>
        && size <= st.slabs[r.page].size && r.page in st.classOf && Smallest(Need(size, align), st.classOf[r.page])
        && (if NoRoom(old(st), Need(size, align)) then page == Some(r.page) else r.page in old(st).slabs)
        && forall q :: q in st.slabs <==> q in old(st).slabs || q == r.page
    {
      k := 0;
      if !PowerUpToPage(align) { return Refused, k; }
      var need := Need(size, align);
      if need > MAX_CLASS_BYTES || align > MAX_SLAB_ALIGN { return Large, k; }
      var c := ClassFor(need);
      HeadRoom(st, lists, free, c, need);
      r, k := Serve(c, page);
      if r.Block? { SlotAligned(c, k, r.page, align); }
    }

    /** A slot of the class, from the head of its list or from the offered page. */
    method Serve(c: nat, page: Option<nat>) returns (r: Got, ghost k: nat)
      requires Valid() && c < CLASSES && (page.Some? ==> page.value !in st.slabs)
      modifies this
      ensures Valid()
      ensures r == Exhausted || r.Block?
      ensures r == Exhausted <==> old(st).heads[c].None? && page.None?
      ensures r == Exhausted ==> st == old(st)
      ensures r.Block? ==> if old(st).heads[c].None? then page == Some(r.page) else r.page in old(st).slabs
      ensures r.Block? ==> r.page in st.classOf && st.classOf[r.page] == c
      ensures r.Block? ==>
        && !LiveAt(old(st), r.page, k) && LiveAt(st, r.page, k) && st.slabs[r.page].size == ClassSize(c)
        && r.offset == Offset(ClassSize(c), k)
      ensures r.Block? ==> forall q, j | q != r.page || j != k :: LiveAt(st, q, j) <==> LiveAt(old(st), q, j)
      ensures r.Block? ==> forall q :: q in st.slabs <==> q in old(st).slabs || q == r.page
    {
      var p := PageWithRoom(c, page);
      if p.None? { return Exhausted, 0; }
      var offset;
      offset, k := TakeSlot(c, p.value);
      return Block(p.value, offset), k;
    }

    /** The head of the class's list, or the offered page. */
    method PageWithRoom(c: nat, page: Option<nat>) returns (p: Option<nat>)
      requires Valid() && c < CLASSES && (page.Some? ==> page.value !in st.slabs)
      modifies this
      ensures Valid() && p == (if old(st).heads[c].Some? then old(st).heads[c] else page)
      ensures old(st).heads[c].Some? ==> p.value in old(st).slabs
      ensures p.None? ==> st == old(st)
      ensures p.Some? ==> p.value in Room(st) && Room(st)[p.value] == c
      ensures p.Some? ==> forall q :: q in st.slabs <==> q in old(st).slabs || q == p.value
      ensures forall q, j :: LiveAt(st, q, j) <==> LiveAt(old(st), q, j)
    {
      HeadHasRoom(st.links, st.heads, lists, Room(st), c);
      if st.heads[c].Some? { return st.heads[c]; }
      if page.Some? { AddPage(c, page.value); }
      return page;
    }

    /** A fresh page goes to the front of its class's list, whatever has happened to the list meanwhile. */
    method AddPage(c: nat, p: nat)
      requires Valid() && c < CLASSES && p !in st.slabs
      modifies this
      ensures Valid() && p in Room(st) && Room(st)[p] == c
      ensures forall q :: q in st.slabs <==> q in old(st).slabs || q == p
      ensures forall q, j :: LiveAt(st, q, j) <==> LiveAt(old(st), q, j)
    {
      AddedSound(st, lists, free, p, c);
      NewSlabOk(ClassSize(c));
      st, lists, free := Added(st, p, c), lists[c := [p] + lists[c]], free[p := []];
    }

    /** free: a pointer that is not a live block's stops the kernel, and nothing else does. The block is no
        longer live and no other block changes hands. A page left empty goes back to the system unless it
        is the only page of its class with room. */
    method Free(page: nat, offset: nat) returns (r: Freed, ghost k: nat)
      requires Valid() && offset < PAGE
      modifies this
      ensures Valid() && (r == LargeRun <==> offset == 0)
      ensures r == Panicked <==> offset != 0 && !IsBlock(old(st), page, offset)
      ensures r == LargeRun || r == Panicked ==> st == old(st)
      ensures r.Kept? || r.Gone? ==>
        && LiveAt(old(st), page, k) && offset == Offset(old(st).slabs[page].size, k) && !LiveAt(st, page, k)
        && (forall q, j | q != page || j != k :: LiveAt(st, q, j) <==> LiveAt(old(st), q, j))
      ensures r.Gone? ==>
        r.page == page && page !in st.slabs && page in old(st).classOf && old(st).classOf[page] < |st.heads|
            && st.heads[old(st).classOf[page]].Some?
      ensures r.Kept? && (forall j :: !LiveAt(st, page, j)) ==> OnlyRoom(st, page)
    {
      k := 0;
      if offset == 0 { return LargeRun, k; }
      NotOnBoundary(st, lists, free, page, offset);
      if page !in st.slabs { return Panicked, k; }
      var s := st.slabs[page];
      assert PageOk(st, free, page);
      if offset < HEADER || offset > PAGE - s.size || (offset - HEADER) % s.size != 0 { return Panicked, k; }
      var slot := (offset - HEADER) / s.size;
      k := slot;
      if slot !in s.bits { return Panicked, k; }
      OffsetOfSlot(s.size, offset);
      GiveBack(page, slot, offset);
      r := Trim(page);
    }

    method GiveBack(p: nat, slot: nat, offset: nat)
      requires Valid() && LiveAt(st, p, slot) && offset == Offset(st.slabs[p].size, slot)
      modifies this
      ensures Valid() && p in Room(st) && !LiveAt(st, p, slot) && st.classOf == old(st).classOf
      ensures |st.heads| == |old(st).heads|
      ensures forall q, j | q != p || j != slot :: LiveAt(st, q, j) <==> LiveAt(old(st), q, j)
    {
      ghost var now, lists', free' := GivenSound(st, lists, free, p, slot);
      st, lists, free := Given(st, p, st.classOf[p], offset), lists', free';
      assert st == now;
    }

    /** An empty page is released, but for the hot spare. */
    method Trim(p: nat) returns (r: Freed)
      requires Valid() && p in Room(st)
      modifies this
      ensures Valid() && (r == Kept || r == Gone(p)) && st.classOf == old(st).classOf && |st.heads| == |old(st).heads|
      ensures forall q, j :: LiveAt(st, q, j) <==> LiveAt(old(st), q, j)
      ensures r.Gone? ==>
        p !in st.slabs && p in st.classOf && st.classOf[p] < |st.heads| && st.heads[st.classOf[p]].Some?
      ensures r.Kept? ==> st == old(st) && ((forall j :: !LiveAt(st, p, j)) ==> OnlyRoom(st, p))
    {
      assert PageOk(st, free, p);
      var c := st.classOf[p];
      OnlyOne(st.links, st.heads, lists, Room(st), p);
      if st.slabs[p].live != 0 || (st.heads[c] == Some(p) && LinkOf(st.links, p).next.None?) {
        if st.slabs[p].live != 0 {
          ghost var k := OneOf(st.slabs[p].bits);
          assert LiveAt(st, p, k);
        }
        return Kept;
      }
      assert st.slabs[p].bits == {};
      ghost var room := Room(st);
      ghost var lists' := ReleasedSound(st, lists, free, p, c);
      st := Released(st, p, c);
      lists := lists';
      assert Room(st) == room - {p};
      HeadHasRoom(st.links, st.heads, lists, Room(st), c);
      return Gone(p);
    }

    /** What a program writes to its own block is its own affair. */
    method Scribble(p: nat, k: nat, w: nat)
      requires Valid() && LiveAt(st, p, k)
      modifies this`st
      ensures Valid() && forall q, j :: LiveAt(st, q, j) <==> LiveAt(old(st), q, j)
    {
      assert PageOk(st, free, p);
      ghost var was := st;
      var s := st.slabs[p];
      ScribbleOk(s, free[p], k, w);
      var t := s.(words := s.words[Offset(s.size, k) := w]);
      st := st.(slabs := st.slabs[p := t]);
      ContentsBut(was, st, free, p, t, free[p]);
      RoomBut(was, st, p, t);
      assert free[p := free[p]] == free;
    }
  }
}
