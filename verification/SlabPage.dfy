/** One slab page: a header, then slots of one size. A live bitmap, a free list threaded through the
    freed slots and a bump offset account for every slot. */
module SlabPage {

  import opened Basics

  const PAGE: nat := 4096
  const HEADER: nat := 64

  /** freeHead and nextUninit are byte offsets, 0 for none. bits has the live slots; words has the
      first word of each slot, by byte offset. */
  datatype Slab = Slab(size: nat, live: nat, freeHead: nat, nextUninit: nat, bits: set<nat>, words: imap<nat, nat>)

  function WordAt(words: imap<nat, nat>, offset: nat): nat { if offset in words then words[offset] else 0 }

  /** Slots of a size that go in a page. */
  function Slots(size: nat): nat
    requires size > 0
  {
    (PAGE - HEADER) / size
  }

  function Offset(size: nat, k: nat): nat { HEADER + k * size }

  // ---------------------------------------------------------------- arithmetic of slots

  lemma MulOrder(a: nat, b: nat, n: nat)
    requires a < b
    ensures a * n + n <= b * n
  {
    assert b * n == (b - a - 1) * n + (a + 1) * n;
  }

  lemma DivExact(k: nat, n: nat)
    requires n > 0
    ensures k * n / n == k && k * n % n == 0
  {
    var q := k * n / n;
    assert k * n == q * n + k * n % n;
    if q < k { MulOrder(q, k, n); } else if k < q { MulOrder(k, q, n); }
  }

  lemma Factor(p: nat, n: nat, h: nat, k: nat, m: nat, a: nat)
    ensures p * (n * a) + h * a + k * (m * a) == (p * n + h + k * m) * a
  {
    assert p * (n * a) == (p * n) * a && k * (m * a) == (k * m) * a;
  }

  lemma SlotBack(size: nat, k: nat)
    requires size > 0
    ensures (Offset(size, k) - HEADER) / size == k && (Offset(size, k) - HEADER) % size == 0
  {
    DivExact(k, size);
  }

  lemma OffsetOfSlot(size: nat, offset: nat)
    requires size > 0 && offset >= HEADER && (offset - HEADER) % size == 0
    ensures Offset(size, (offset - HEADER) / size) == offset
  {
  }

  /** A slot has room in the page exactly when its number is below the count. */
  lemma SlotFits(size: nat, k: nat)
    requires 0 < size <= PAGE - HEADER
    ensures k < Slots(size) <==> Offset(size, k) + size <= PAGE
  {
    var n := Slots(size);
    assert n * size <= PAGE - HEADER < n * size + size;
    if k < n { MulOrder(k, n, size); }
    else if k > n { MulOrder(n, k, size); }
  }

  /** Slots are apart: one ends before the other begins. */
  lemma SlotsApart(size: nat, j: nat, k: nat)
    requires j < k
    ensures Offset(size, j) + size <= Offset(size, k)
  {
    MulOrder(j, k, size);
  }

  lemma OneOf(s: set<nat>) returns (k: nat)
    requires |s| > 0
    ensures k in s
  {
    k :| k in s;
  }

  // ---------------------------------------------------------------- soundness

  /** The slots carved so far. */
  function Carved(s: Slab): nat
    requires s.size > 0
  {
    if s.nextUninit == 0 then Slots(s.size) else if s.nextUninit < HEADER then 0 else (s.nextUninit - HEADER) / s.size
  }

  /** The free list, from this offset on, is these slots in this order. */
  ghost predicate Threaded(s: Slab, head: nat, free: seq<nat>)
    decreases free
  {
    if free == [] then head == 0 else head == Offset(s.size, free[0]) && Threaded(s, WordAt(s.words, head), free[1..])
  }

  /** Every slot is live, on the free list, or not carved yet, and only one of these. */
  ghost predicate SlabOk(s: Slab, free: seq<nat>) {
    && 0 < s.size <= PAGE - HEADER
    && (s.nextUninit == 0 || (s.nextUninit == Offset(s.size, Carved(s)) && Carved(s) < Slots(s.size)))
    && NoDup(free) && Threaded(s, s.freeHead, free)
    && (forall k | k in free :: k < Carved(s) && k !in s.bits)
    && (forall k | k in s.bits :: k < Carved(s))
    && (forall k: nat | k < Carved(s) :: k in s.bits || k in free)
    && s.live == |s.bits|
  }

  predicate Full(s: Slab) { s.freeHead == 0 && s.nextUninit == 0 }

  lemma {:induction false} ThreadedStays(s: Slab, t: Slab, head: nat, free: seq<nat>)
    requires Threaded(s, head, free) && t.size == s.size
    requires forall k | k in free :: WordAt(t.words, Offset(s.size, k)) == WordAt(s.words, Offset(s.size, k))
    ensures Threaded(t, head, free)
    decreases free
  {
    if free != [] { ThreadedStays(s, t, WordAt(s.words, head), free[1..]); }
  }

  /** A slab has a free slot exactly when it is not full. */
  lemma FullMeansNone(s: Slab, free: seq<nat>)
    requires SlabOk(s, free)
    ensures Full(s) <==> forall k: nat | k < Slots(s.size) :: k in s.bits
  {
    if free != [] { assert free[0] in free && free[0] < Carved(s); }
    if s.nextUninit != 0 { assert Carved(s) !in s.bits; }
  }

  // ---------------------------------------------------------------- a new page, a slot out, a slot back

  function NewSlab(size: nat): Slab { Slab(size, 0, 0, HEADER, {}, imap[]) }

  lemma NewSlabOk(size: nat)
    requires 0 < size <= PAGE - HEADER
    ensures SlabOk(NewSlab(size), []) && !Full(NewSlab(size))
  {
    SlotFits(size, 0);
  }

  /** The offset a slot is taken from. */
  function Next(s: Slab): nat { if s.freeHead != 0 then s.freeHead else s.nextUninit }

  function Take(s: Slab): (t: Slab)
    requires s.size > 0 && HEADER <= Next(s)
  {
    var at := Next(s);
    var slot := (at - HEADER) / s.size;
    if s.freeHead != 0 then s.(freeHead := WordAt(s.words, at), bits := s.bits + {slot}, live := s.live + 1)
    else s.(nextUninit := if at + s.size + s.size <= PAGE then at + s.size
        else 0, bits := s.bits + {slot}, live := s.live + 1)
  }

  /** The slot handed out was not live, is now, and nothing else changed hands. */
  lemma TakeOk(s: Slab, free: seq<nat>) returns (k: nat, left: seq<nat>)
    requires SlabOk(s, free) && !Full(s)
    ensures HEADER <= Next(s) && Next(s) == Offset(s.size, k) && k < Slots(s.size) && k !in s.bits
    ensures SlabOk(Take(s), left) && Take(s).bits == s.bits + {k} && Take(s).size == s.size && Take(s).words == s.words
  {
    if s.freeHead != 0 { k, left := TakeFreed(s, free); } else { k, left := TakeFresh(s, free); }
  }

  lemma TakeFreed(s: Slab, free: seq<nat>) returns (k: nat, left: seq<nat>)
    requires SlabOk(s, free) && s.freeHead != 0
    ensures HEADER <= Next(s) && Next(s) == Offset(s.size, k) && k < Slots(s.size) && k !in s.bits
    ensures SlabOk(Take(s), left) && Take(s).bits == s.bits + {k}
  {
    k, left := free[0], free[1..];
    SlotBack(s.size, k);
    assert free == [k] + left && k in free;
    var t := Take(s);
    assert Carved(t) == Carved(s);
    ThreadedStays(s, t, t.freeHead, left);
    forall j | j in left ensures j < Carved(t) && j !in t.bits { assert j in free; }
    forall j: nat | j < Carved(t) ensures j in t.bits || j in left { assert j in s.bits || j in free; }
    if s.nextUninit != 0 { assert k < Slots(s.size); }
  }

  lemma TakeFresh(s: Slab, free: seq<nat>) returns (k: nat, left: seq<nat>)
    requires SlabOk(s, free) && s.freeHead == 0 && s.nextUninit != 0
    ensures HEADER <= Next(s) && Next(s) == Offset(s.size, k) && k < Slots(s.size) && k !in s.bits
    ensures SlabOk(Take(s), left) && Take(s).bits == s.bits + {k}
  {
    k, left := Carved(s), free;
    SlotBack(s.size, k);
    assert free == [];
    var t := Take(s);
    assert Offset(s.size, k + 1) == Offset(s.size, k) + s.size;
    SlotFits(s.size, k + 1);
    SlotBack(s.size, k + 1);
    assert Carved(t) == k + 1;
  }

  function Give(s: Slab, offset: nat): (t: Slab)
    requires s.size > 0 && offset >= HEADER && s.live > 0
  {
    s.(bits := s.bits - {(offset - HEADER) / s.size}, words := s.words[offset := s.freeHead], freeHead := offset,
        live := s.live - 1)
  }

  /** The slot is free again, and nothing else changed hands. */
  lemma GiveOk(s: Slab, free: seq<nat>, k: nat)
    requires SlabOk(s, free) && k in s.bits
    ensures s.live > 0 && SlabOk(Give(s, Offset(s.size, k)), [k] + free)
    ensures Give(s, Offset(s.size, k)).bits == s.bits - {k}
  {
    SlotBack(s.size, k);
    assert s.bits == (s.bits - {k}) + {k};
    var t, all := Give(s, Offset(s.size, k)), [k] + free;
    assert Carved(t) == Carved(s) && all[1..] == free;
    forall j | j in free ensures Offset(s.size, j) != Offset(s.size, k) {
      if j < k { SlotsApart(s.size, j, k); } else { SlotsApart(s.size, k, j); }
    }
    ThreadedStays(s, t, s.freeHead, free);
    forall j: nat | j < Carved(t) ensures j in t.bits || j in all { assert j in s.bits || j in free; }
  }

  /** What a program does to a live slot is its own affair. */
  lemma ScribbleOk(s: Slab, free: seq<nat>, k: nat, w: nat)
    requires SlabOk(s, free) && k in s.bits
    ensures SlabOk(s.(words := s.words[Offset(s.size, k) := w]), free)
  {
    var t := s.(words := s.words[Offset(s.size, k) := w]);
    assert Carved(t) == Carved(s);
    forall j | j in free ensures Offset(s.size, j) != Offset(s.size, k) {
      if j < k { SlotsApart(s.size, j, k); } else { SlotsApart(s.size, k, j); }
    }
    ThreadedStays(s, t, s.freeHead, free);
  }
}
