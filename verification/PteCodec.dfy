/** The 64-bit page-table entries of the two architectures. Each hook of the page walk, applied to
    words, is the operation the walk needs on what the words mean. */
module PteCodec {
  import opened PageTree

  /** What an entry word means, with its address still a word. */
  datatype View = NotPresent | Pointer(addr: bv64, user: bool) | Page(addr: bv64, flags: Flags)

  function Bit(b: bool, mask: bv64): bv64 { if b then mask else 0 }

  predicate Has(e: bv64, mask: bv64) { e & mask != 0 }

  predicate Present(e: bv64) { Has(e, 1) }

  // ---------------------------------------------------------------- riscv64

  const ADDR_RISCV: bv64 := 0x00FF_FFFF_FFFF_F000
  const PPN: bv64 := 0x003F_FFFF_FFFF_FC00

  function AddrRv(e: bv64): bv64 { ((e & PPN) >> 10) << 12 }

  function PlaceRv(paddr: bv64): bv64 { ((paddr >> 12) << 10) & PPN }

  function BitsRv(prot: Prot, cache: Cache): bv64 {
    0xC0 | Bit(prot.read, 2) | Bit(prot.write, 4) | Bit(prot.exec, 8) | Bit(prot.user, 0x10)
    | (match cache case Cached => 0 case Device => 0x100 case WriteCombining => 0x200)
  }

  function AttrsRv(e: bv64): Flags {
    Flags(Prot(Has(e, 2), Has(e, 4), Has(e, 8), Has(e, 0x10)),
          if Has(e, 0x200) then WriteCombining else if Has(e, 0x100) then Device else Cached)
  }

  /** An entry with any of read, write and execute is a leaf, at every level. */
  function MeaningRv(e: bv64): View {
    if !Present(e) then NotPresent else if Has(e, 0xE) then Page(AddrRv(e), AttrsRv(e)) else Pointer(AddrRv(e), false)
  }

  // ---------------------------------------------------------------- x86_64

  const ADDR_X86: bv64 := 0x000F_FFFF_FFFF_F000

  function BitsX86(prot: Prot, cache: Cache): bv64 {
    Bit(prot.write, 2) | Bit(prot.user, 4) | Bit(!prot.exec, 0x8000_0000_0000_0000) | Bit(!cache.Cached?, 0x10)
  }

  function AttrsX86(e: bv64): Flags {
    Flags(Prot(true, Has(e, 2), !Has(e, 0x8000_0000_0000_0000), Has(e, 4)), if Has(e, 0x10) then Device else Cached)
  }

  /** Above the bottom level the huge bit makes a leaf; at the bottom every present entry is one. */
  function MeaningX86(bottom: bool, e: bv64): View {
    if !Present(e) then NotPresent
    else if bottom || Has(e, 0x80) then Page(e & ADDR_X86, AttrsX86(e))
    else Pointer(e & ADDR_X86, Has(e, 4))
  }

  // ---------------------------------------------------------------- bits

  lemma OrField(x: bv64, y: bv64, m: bv64)
    requires y & m == 0
    ensures (x | y) & m == x & m && (y | x) & m == x & m
  {
    assert (x | y) & m == (x & m) | (y & m);
    assert (y | x) & m == (x & m) | (y & m);
  }

  lemma PlaceRvIs(p: bv64)
    ensures AddrRv(PlaceRv(p)) == p & ADDR_RISCV && PlaceRv(p) & !PPN == 0
  {
  }

  lemma AddrRvThrough(p: bv64, bits: bv64)
    requires bits & PPN == 0
    ensures AddrRv(PlaceRv(p) | bits) == p & ADDR_RISCV
  {
    OrField(PlaceRv(p), bits, PPN);
    PlaceRvIs(p);
  }

  lemma BitsRvAre(prot: Prot, cache: Cache)
    ensures var f := BitsRv(prot, cache);
            && f & PPN == 0 && (Has(f, 2) <==> prot.read) && (Has(f, 4) <==> prot.write) && (Has(f, 8) <==> prot.exec)
            && (Has(f, 0x10) <==> prot.user) && (Has(f, 0x100) <==> cache.Device?) && (Has(f, 0x200) <==>
               cache.WriteCombining?)
            && (Has(f, 0xE) <==> prot.read || prot.write || prot.exec)
  {
  }

  lemma BitsX86Are(prot: Prot, cache: Cache)
    ensures var f := BitsX86(prot, cache);
            && f & ADDR_X86 == 0 && (Has(f, 2) <==> prot.write) && (Has(f, 4) <==> prot.user) && (Has(f, 0x10) <==>
               !cache.Cached?)
            && (Has(f, 0x8000_0000_0000_0000) <==> !prot.exec)
  {
  }

  /** Under a mask clear of the address field and of the valid bit, an entry is its flag bits. */
  lemma FlagsThrough(x: bv64, f: bv64, m: bv64, field: bv64)
    requires x & !field == 0 && m & field == 0 && m & 1 == 0
    ensures Has(x | f | 1, m) <==> Has(f, m)
  {
    MaskedOut(x, m, field);
    AndCommutes(1, m);
    OrField(f, x, m);
    OrField(x | f, 1, m);
  }

  /** What lies in the field is nothing to a mask clear of it. */
  lemma MaskedOut(x: bv64, m: bv64, field: bv64)
    requires x & !field == 0 && m & field == 0
    ensures x & m == 0
  {
    assert x & m == ((x & !field) & m) | (x & (m & field));
  }

  lemma AndCommutes(x: bv64, m: bv64)
    ensures x & m == m & x
  {
  }

  // ---------------------------------------------------------------- leaves

  lemma AttrsRvBack(x: bv64, prot: Prot, cache: Cache)
    requires x & !PPN == 0
    ensures AttrsRv(x | BitsRv(prot, cache) | 1) == Flags(prot, cache)
    ensures Has(x | BitsRv(prot, cache) | 1, 0xE) <==> prot.read || prot.write || prot.exec
  {
    var f := BitsRv(prot, cache);
    BitsRvAre(prot, cache);
    FlagsThrough(x, f, 2, PPN);
    FlagsThrough(x, f, 4, PPN);
    FlagsThrough(x, f, 8, PPN);
    FlagsThrough(x, f, 0x10, PPN);
    FlagsThrough(x, f, 0x100, PPN);
    FlagsThrough(x, f, 0x200, PPN);
    FlagsThrough(x, f, 0xE, PPN);
  }

  lemma LeafAddrRv(p: bv64, f: bv64)
    requires f & PPN == 0
    ensures AddrRv(PlaceRv(p) | f | 1) == p & ADDR_RISCV && Present(PlaceRv(p) | f | 1)
  {
    OrField(PlaceRv(p) | f, 1, PPN);
    OrField(PlaceRv(p), f, PPN);
    PlaceRvIs(p);
  }

  /** A riscv64 leaf reads back with its attributes and the address bits an entry holds, provided
      some access is allowed; otherwise it reads back as a pointer, which is why map_page insists on
      reads. */
  lemma LeafRvReadsBack(p: bv64, prot: Prot, cache: Cache)
    ensures
      var back := MeaningRv(PlaceRv(p) | BitsRv(prot, cache) | 1);
      if prot.read || prot.write || prot.exec then back == Page(p & ADDR_RISCV, LeafFlags(RiscV64, prot, cache))
          else back.Pointer?
  {
    BitsRvAre(prot, cache);
    LeafAddrRv(p, BitsRv(prot, cache));
    PlaceRvIs(p);
    AttrsRvBack(PlaceRv(p), prot, cache);
  }

  lemma SameUnder(p: bv64)
    ensures p & ADDR_RISCV == p <==> p & !ADDR_RISCV == 0
    ensures p & ADDR_X86 == p <==> p & !ADDR_X86 == 0
  {
  }

  /** The address survives exactly when it has no bits an entry cannot hold. */
  lemma LeafRvExact(p: bv64, prot: Prot, cache: Cache)
    requires prot.read
    ensures MeaningRv(PlaceRv(p) | BitsRv(prot, cache) | 1) == Page(p, Flags(prot, cache)) <==> p & !ADDR_RISCV == 0
  {
    LeafRvReadsBack(p, prot, cache);
    SameUnder(p);
  }

  lemma AttrsX86Back(x: bv64, prot: Prot, cache: Cache)
    requires x & !ADDR_X86 == 0
    ensures AttrsX86(x | BitsX86(prot, cache) | 1) == Flags(prot.(read := true), if cache.Cached? then Cached
      else Device)
  {
    var f := BitsX86(prot, cache);
    BitsX86Are(prot, cache);
    FlagsThrough(x, f, 2, ADDR_X86);
    FlagsThrough(x, f, 4, ADDR_X86);
    FlagsThrough(x, f, 0x10, ADDR_X86);
    FlagsThrough(x, f, 0x8000_0000_0000_0000, ADDR_X86);
  }

  lemma LeafAddrX86(p: bv64, f: bv64)
    requires f & ADDR_X86 == 0
    ensures var e := (p & ADDR_X86) | f | 1;
      e & ADDR_X86 == p & ADDR_X86 && Present(e) && (p & ADDR_X86) & !ADDR_X86 == 0
  {
  }

  /** An x86_64 leaf reads back with the address bits an entry holds; every page as readable and
      write-combining as device. */
  lemma LeafX86ReadsBack(p: bv64, prot: Prot, cache: Cache)
    ensures MeaningX86(true, (p & ADDR_X86) | BitsX86(prot, cache) | 1)
      == Page(p & ADDR_X86, LeafFlags(X8664, prot, cache))
  {
    BitsX86Are(prot, cache);
    LeafAddrX86(p, BitsX86(prot, cache));
    AttrsX86Back(p & ADDR_X86, prot, cache);
  }

  lemma LeafX86Exact(p: bv64, prot: Prot, cache: Cache)
    ensures MeaningX86(true, (p & ADDR_X86) | BitsX86(prot, cache) | 1) == Page(p, LeafFlags(X8664, prot, cache)) <==>
      p & !ADDR_X86 == 0
  {
    LeafX86ReadsBack(p, prot, cache);
    SameUnder(p);
  }

  // ---------------------------------------------------------------- pointers

  lemma PointerRv(p: bv64, bits: bv64)
    requires bits & PPN == 0 && bits & 1 == 1 && bits & 0xE == 0
    ensures MeaningRv(PlaceRv(p) | bits) == Pointer(p & ADDR_RISCV, false)
  {
    AddrRvThrough(p, bits);
    PlaceRvIs(p);
    BelowRv(PlaceRv(p), bits);
  }

  lemma BelowRv(x: bv64, bits: bv64)
    requires x & !PPN == 0 && bits & 1 == 1 && bits & 0xE == 0
    ensures Has(x | bits, 1) && !Has(x | bits, 0xE)
  {
  }

  lemma TableRvReadsBack(child: bv64)
    ensures MeaningRv(PlaceRv(child) | 1) == Pointer(child & ADDR_RISCV, false)
  {
    PointerRv(child, 1);
  }

  lemma TableWord(p: bv64, flags: bv64)
    ensures MeaningX86(false, (p & ADDR_X86) | 3 | (flags & 4)) == Pointer(p & ADDR_X86, Has(flags, 4))
  {
  }

  /** An x86_64 table pointer carries the user bit of the mapping it was made for. */
  lemma TableX86ReadsBack(child: bv64, prot: Prot, cache: Cache)
    ensures MeaningX86(false, (child & ADDR_X86) | 3 | (BitsX86(prot, cache) & 4))
      == Pointer(child & ADDR_X86, prot.user)
  {
    BitsX86Are(prot, cache);
    TableWord(child, BitsX86(prot, cache));
  }

  lemma WidenWord(slot: bv64, flags: bv64)
    requires MeaningX86(false, slot).Pointer?
    ensures MeaningX86(false, slot | (flags & 4)) == Pointer(slot & ADDR_X86, Has(slot, 4) || Has(flags, 4))
  {
  }

  /** Widening a pointer keeps where it points and can only add user access. */
  lemma WidenX86Adds(slot: bv64, prot: Prot, cache: Cache)
    requires MeaningX86(false, slot).Pointer?
    ensures
      var was := MeaningX86(false, slot);
      MeaningX86(false, slot | (BitsX86(prot, cache) & 4)) == Pointer(was.addr, was.user || prot.user)
  {
    BitsX86Are(prot, cache);
    WidenWord(slot, BitsX86(prot, cache));
  }

  /** The deep copy's retargeted entry means the same with another address. */
  lemma SetAddrRvMoves(e: bv64, p: bv64)
    requires MeaningRv(e).Pointer? && p & !ADDR_RISCV == 0
    ensures MeaningRv((e & !PPN) | PlaceRv(p)) == Pointer(p, false)
  {
    var rest := e & !PPN;
    RestRv(e);
    OrCommutes(rest, PlaceRv(p));
    SameUnder(p);
    PointerRv(p, rest);
  }

  lemma RestRv(e: bv64)
    requires Has(e, 1) && !Has(e, 0xE)
    ensures (e & !PPN) & PPN == 0 && (e & !PPN) & 1 == 1 && (e & !PPN) & 0xE == 0
  {
  }

  lemma OrCommutes(x: bv64, y: bv64)
    ensures x | y == y | x
  {
  }

  lemma SetAddrX86Moves(e: bv64, p: bv64)
    requires MeaningX86(false, e).Pointer? && p & !ADDR_X86 == 0
    ensures MeaningX86(false, (e & !ADDR_X86) | p) == Pointer(p, Has(e, 4))
  {
  }
}
