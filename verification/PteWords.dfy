/** Page tables as the words in memory: what the walk reads out of the words is what the page-table model
    says, and each word the code stores is the entry the model stores. */
module PteWords {

  import opened Basics
  import opened PageTree
  import opened PteCodec

  // ---------------------------------------------------------------- words as numbers

  /** The low n bits of a word, as a number. */
  function Bits(w: bv64, n: nat): nat {
    if n == 0 then 0 else 2 * Bits(w >> 1, n - 1) + (if w & 1 == 1 then 1 else 0)
  }

  function Pow2(k: nat): nat { if k == 0 then 1 else 2 * Pow2(k - 1) }

  /** m has its low k bits set and no other. */
  predicate Ones(m: bv64, k: nat) { if k == 0 then m == 0 else m & 1 == 1 && Ones(m >> 1, k - 1) }

  lemma Shifted(w: bv64, m: bv64)
    ensures (w & m) >> 1 == (w >> 1) & (m >> 1)
    ensures m & 1 == 1 ==> (w & m) & 1 == w & 1
  {
  }

  lemma {:induction false} BitsZero(n: nat)
    ensures Bits(0, n) == 0
  {
    if n > 0 {
      BitsZero(n - 1);
      assert (0 as bv64) >> 1 == 0;
    }
  }

  /** Masking with k ones is the remainder by two to the k. */
  lemma {:induction false} Masked(w: bv64, m: bv64, n: nat, k: nat)
    requires Ones(m, k) && k <= n
    ensures Pow2(k) > 0 && Bits(w & m, n) == Bits(w, n) % Pow2(k)
    decreases n
  {
    if k == 0 {
      assert w & 0 == 0;
      BitsZero(n);
    } else {
      Shifted(w, m);
      Masked(w >> 1, m >> 1, n - 1, k - 1);
      Halved(Bits(w >> 1, n - 1), Pow2(k - 1), if w & 1 == 1 then 1 else 0);
    }
  }

  lemma Halved(x: nat, d: nat, b: nat)
    requires d > 0 && b < 2
    ensures (2 * x + b) % (2 * d) == 2 * (x % d) + b
  {
    var q, r := x / d, x % d;
    assert x == d * q + r;
    assert 2 * x + b == (2 * d) * q + (2 * r + b) by { assert 2 * (d * q) == (2 * d) * q; }
    RemainderIs(2 * x + b, 2 * d, q, 2 * r + b);
  }

  lemma RemainderIs(x: nat, d: nat, q: nat, r: nat)
    requires d > 0 && x == d * q + r && r < d
    ensures x % d == r
  {
    DivUnique(x, d, q, r);
    assert x == d * (x / d) + x % d;
  }

  lemma OneMore(w: bv64, k: nat)
    requires Ones(w >> 1, k) && w & 1 == 1
    ensures Ones(w, k + 1) && Pow2(k + 1) == 2 * Pow2(k)
  {
  }

  /** Four more ones. */
  lemma Four(m: bv64, k: nat)
    requires Ones(m, k) && m & 0xF000_0000_0000_0000 == 0
    ensures Ones((m << 4) | 0xF, k + 4) && Pow2(k + 4) == 16 * Pow2(k)
  {
    var w := (m << 4) | 0xF;
    var x := w >> 1;
    var y := x >> 1;
    var z := y >> 1;
    FourBits(m, w, x, y, z);
    OneMore(z, k);
    OneMore(y, k + 1);
    OneMore(x, k + 2);
    OneMore(w, k + 3);
  }

  lemma FourBits(m: bv64, w: bv64, x: bv64, y: bv64, z: bv64)
    requires m & 0xF000_0000_0000_0000 == 0 && w == (m << 4) | 0xF && x == w >> 1 && y == x >> 1 && z == y >> 1
    ensures z >> 1 == m && w & 1 == 1 && x & 1 == 1 && y & 1 == 1 && z & 1 == 1
  {
  }

  /** Physical address bits an entry has room for. */
  const PHYS_RISCV: nat := 56
  const PHYS_X86: nat := 52

  const LOW_RISCV: bv64 := 0x00FF_FFFF_FFFF_FFFF
  const LOW_X86: bv64 := 0x000F_FFFF_FFFF_FFFF

  lemma Masks()
    ensures Ones(LOW_X86, PHYS_X86) && Pow2(PHYS_X86) == 0x10_0000_0000_0000
    ensures Ones(LOW_RISCV, PHYS_RISCV) && Pow2(PHYS_RISCV) == 0x100_0000_0000_0000
  {
    assert Ones(0, 0) && Pow2(0) == 1;
    Four(0, 0);
    Four(0xF, 4);
    Four(0xFF, 8);
    Four(0xFFF, 12);
    Four(0xFFFF, 16);
    Four(0xF_FFFF, 20);
    Four(0xFF_FFFF, 24);
    Four(0xFFF_FFFF, 28);
    Four(0xFFFF_FFFF, 32);
    Four(0xF_FFFF_FFFF, 36);
    Four(0xFF_FFFF_FFFF, 40);
    Four(0xFFF_FFFF_FFFF, 44);
    Four(0xFFFF_FFFF_FFFF, 48);
    Four(0xF_FFFF_FFFF_FFFF, 52);
  }

  lemma Aligned(p: bv64)
    requires p & 0xFFF == 0
    ensures p & ADDR_RISCV == p & LOW_RISCV && p & ADDR_X86 == p & LOW_X86
  {
  }

  /** The bits of an address that an entry has room for. */
  function Kept(a: Arch, p: bv64): bv64 { if a.RiscV64? then p & ADDR_RISCV else p & ADDR_X86 }

  /** An architecture, and how a word with an address is read as a number. */
  datatype Machine = Machine(arch: Arch, num: bv64 -> nat)

  /** What an entry keeps of a page's address is what the page-table model keeps. */
  ghost predicate Keeps(m: Machine, p: bv64) { p & 0xFFF == 0 ==> m.num(Kept(m.arch, p)) == Stored(m.arch, m.num(p)) }

  lemma MaskedBy(p: bv64, mask: bv64, low: bv64, n: nat, k: nat)
    requires p & mask == p & low && Ones(low, k) && k <= n
    ensures Pow2(k) > 0 && Bits(p & mask, n) == Bits(p, n) % Pow2(k)
  {
    Masked(p, low, n, k);
  }

  /** Read as binary numbers, entries keep what the model keeps. */
  lemma Binary(a: Arch, n: nat, p: bv64)
    requires n >= 56
    ensures Keeps(Machine(a, w => Bits(w, n)), p)
  {
    if p & 0xFFF == 0 { BinaryAddress(a, n, p); }
  }

  lemma BinaryAddress(a: Arch, n: nat, p: bv64)
    requires n >= 56 && p & 0xFFF == 0
    ensures Bits(Kept(a, p), n) == Stored(a, Bits(p, n))
  {
    if a.RiscV64? { BinaryRv(n, p); } else { BinaryX86(n, p); }
  }

  lemma BinaryRv(n: nat, p: bv64)
    requires n >= 56 && p & 0xFFF == 0
    ensures Bits(p & ADDR_RISCV, n) == Bits(p, n) % 0x100_0000_0000_0000
  {
    var low, k := LowRv(p);
    MaskedBy(p, ADDR_RISCV, low, n, k);
  }

  lemma LowRv(p: bv64) returns (low: bv64, k: nat)
    requires p & 0xFFF == 0
    ensures p & ADDR_RISCV == p & low && Ones(low, k) && k <= 56 && Pow2(k) == 0x100_0000_0000_0000
  {
    Masks();
    Aligned(p);
    low, k := LOW_RISCV, PHYS_RISCV;
  }

  lemma BinaryX86(n: nat, p: bv64)
    requires n >= 56 && p & 0xFFF == 0
    ensures Bits(p & ADDR_X86, n) == Bits(p, n) % 0x10_0000_0000_0000
  {
    var low, k := LowX86(p);
    MaskedBy(p, ADDR_X86, low, n, k);
  }

  lemma LowX86(p: bv64) returns (low: bv64, k: nat)
    requires p & 0xFFF == 0
    ensures p & ADDR_X86 == p & low && Ones(low, k) && k <= 56 && Pow2(k) == 0x10_0000_0000_0000
  {
    Masks();
    Aligned(p);
    low, k := LOW_X86, PHYS_X86;
  }

  // ---------------------------------------------------------------- the tables as words

  type Words = imap<nat, seq<bv64>>   // the frames in use as tables, by physical address

  function Meaning(a: Arch, bottom: bool, w: bv64): View { if a.RiscV64? then MeaningRv(w) else MeaningX86(bottom, w) }

  function EntryOf(m: Machine, bottom: bool, w: bv64): Entry {
    match Meaning(m.arch, bottom, w)
    case NotPresent => Absent
    case Pointer(addr, user) => Table(m.num(addr), user)
    case Page(addr, flags) => Leaf(m.num(addr), flags)
  }

  ghost predicate Written(m: Machine, words: seq<bv64>, table: seq<Entry>, bottom: bool) {
    |words| == |table| && forall i | 0 <= i < |table| :: table[i] == EntryOf(m, bottom, words[i])
  }

  ghost predicate TableWritten(m: Machine, words: Words, mem: Mem, dir: Dir, p: seq<nat>) {
    p in dir ==>
      dir[p] in words && dir[p] in mem && Written(m, words[dir[p]], mem[dir[p]], |p| == Levels(m.arch) - 1)
  }

  /** The words of every table mean its entries. */
  ghost predicate Stands(m: Machine, words: Words, mem: Mem, dir: Dir) {
    forall p {:trigger TableWritten(m, words, mem, dir, p)} :: TableWritten(m, words, mem, dir, p)
  }

  /** pte_leaf, pte_leaf_bottom and pte_addr. */
  predicate LeafAbove(a: Arch, w: bv64) { if a.RiscV64? then Has(w, 0xE) else Has(w, 0x80) }

  predicate LeafBottom(a: Arch, w: bv64) { a.X8664? || Has(w, 0xE) }

  function Address(a: Arch, w: bv64): bv64 { if a.RiscV64? then AddrRv(w) else w & ADDR_X86 }

  lemma ViewRv(w: bv64)
    ensures var v := MeaningRv(w);
      && (v.NotPresent? <==> !Present(w)) && (v.Page? <==> Present(w) && Has(w, 0xE)) && (v.Pointer? ==>
         v.addr == AddrRv(w))
  {
  }

  lemma ViewX86(bottom: bool, w: bv64)
    ensures var v := MeaningX86(bottom, w);
      && (v.NotPresent? <==> !Present(w)) && (v.Page? <==> Present(w) && (bottom || Has(w, 0x80)))
      && (v.Pointer? ==> v.addr == w & ADDR_X86)
  {
  }

  lemma ViewOf(a: Arch, bottom: bool, w: bv64)
    ensures var v := Meaning(a, bottom, w);
      && (v.NotPresent? <==> !Present(w))
      && (v.Page? <==> Present(w) && if bottom then LeafBottom(a, w) else LeafAbove(a, w))
      && (v.Pointer? ==> v.addr == Address(a, w))
  {
    if a.RiscV64? { ViewRv(w); } else { ViewX86(bottom, w); }
  }

  lemma KindOf(m: Machine, bottom: bool, w: bv64)
    ensures var e := EntryOf(m, bottom, w);
      && (e.Absent? <==> !Present(w))
      && (e.Leaf? <==> Present(w) && if bottom then LeafBottom(m.arch, w) else LeafAbove(m.arch, w))
      && (e.Table? ==> e.frame == m.num(Address(m.arch, w)))
  {
    ViewOf(m.arch, bottom, w);
  }

  datatype Terminal = Terminal(word: bv64, level: nat)

  /** resolve, on words. */
  function ResolveWords(m: Machine, words: Words, f: nat, path: seq<nat>, k: nat): Option<Terminal>
    decreases |path| - k
  {
    if f !in words || k >= |path| || path[k] >= |words[f]| then None
    else
      var w := words[f][path[k]];
      if !Present(w) then None
      else if k == |path| - 1 then (if LeafBottom(m.arch, w) then Some(Terminal(w, k)) else None)
      else if LeafAbove(m.arch, w) then Some(Terminal(w, k))
      else ResolveWords(m, words, m.num(Address(m.arch, w)), path, k + 1)
  }

  /** The walk over words ends where the model's walk does, at a word that means its entry. */
  lemma {:induction false} WalkAgrees(m: Machine, words: Words, mem: Mem, dir: Dir, root: nat, path: seq<nat>, k: nat)
    requires Shape(mem, dir, root, Levels(m.arch)) && Stands(m, words, mem, dir)
    requires |path| == Levels(m.arch) && IsPath(path) && k < |path| && path[..k] in dir
    ensures
      var r, t := Resolve(mem, dir[path[..k]], path, k), ResolveWords(m, words, dir[path[..k]], path, k);
      if t.None? then r.None?
      else r == Some(Hit(EntryOf(m, t.value.level == |path| - 1, t.value.word), t.value.level))
    decreases |path| - k
  {
    var p, i := path[..k], path[k];
    assert NodeOk(mem, dir, |path|, p) && TableWritten(m, words, mem, dir, p);
    var w := words[dir[p]][i];
    assert mem[dir[p]][i] == EntryOf(m, k == |path| - 1, w);
    KindOf(m, k == |path| - 1, w);
    if k < |path| - 1 && mem[dir[p]][i].Table? {
      SlotAt(mem, dir, root, |path|, p, i);
      assert path[..k + 1] == p + [i];
      WalkAgrees(m, words, mem, dir, root, path, k + 1);
    }
  }

  function Store(words: Words, f: nat, i: nat, w: bv64): Words
    requires f in words && i < |words[f]|
  {
    words[f := words[f][i := w]]
  }

  /** Storing a word stores its entry. */
  lemma StoreAgrees(m: Machine, words: Words, mem: Mem, dir: Dir, root: nat, p: seq<nat>, i: nat, w: bv64)
    requires Shape(mem, dir, root, Levels(m.arch)) && Stands(m, words, mem, dir) && p in dir && i < ENTRIES
    ensures dir[p] in words && |words[dir[p]]| == ENTRIES && dir[p] in mem && |mem[dir[p]]| == ENTRIES
    ensures var e := EntryOf(m, |p| == Levels(m.arch) - 1, w);
      Stands(m, Store(words, dir[p], i, w), Write(mem, dir[p], i, e), dir)
  {
    assert NodeOk(mem, dir, Levels(m.arch), p) && TableWritten(m, words, mem, dir, p);
    var e := EntryOf(m, |p| == Levels(m.arch) - 1, w);
    var words', mem' := Store(words, dir[p], i, w), Write(mem, dir[p], i, e);
    forall q ensures TableWritten(m, words', mem', dir, q) {
      assert TableWritten(m, words, mem, dir, q);
      if q in dir && dir[q] == dir[p] { assert q == p; }
    }
  }

  // ---------------------------------------------------------------- the words the code stores

  function MakeLeaf(a: Arch, paddr: bv64, prot: Prot, cache: Cache): bv64 {
    if a.RiscV64? then PlaceRv(paddr) | BitsRv(prot, cache) | 1 else (paddr & ADDR_X86) | BitsX86(prot, cache) | 1
  }

  function MakeTablePtr(a: Arch, child: bv64, prot: Prot, cache: Cache): bv64 {
    if a.RiscV64? then PlaceRv(child) | 1 else (child & ADDR_X86) | 3 | (BitsX86(prot, cache) & 4)
  }

  function WidenTablePtr(a: Arch, slot: bv64, prot: Prot, cache: Cache): bv64 {
    if a.RiscV64? then slot else slot | (BitsX86(prot, cache) & 4)
  }

  lemma LeafViewRv(paddr: bv64, prot: Prot, cache: Cache)
    requires prot.read
    ensures Meaning(RiscV64, true, MakeLeaf(RiscV64, paddr, prot, cache))
         == Page(paddr & ADDR_RISCV, LeafFlags(RiscV64, prot, cache))
  {
    LeafRvReadsBack(paddr, prot, cache);
  }

  lemma LeafViewX86(paddr: bv64, prot: Prot, cache: Cache)
    ensures Meaning(X8664, true, MakeLeaf(X8664, paddr, prot, cache))
         == Page(paddr & ADDR_X86, LeafFlags(X8664, prot, cache))
  {
    LeafX86ReadsBack(paddr, prot, cache);
  }

  lemma LeafView(a: Arch, paddr: bv64, prot: Prot, cache: Cache)
    requires prot.read
    ensures Meaning(a, true, MakeLeaf(a, paddr, prot, cache)) == Page(Kept(a, paddr), LeafFlags(a, prot, cache))
  {
    match a
    case RiscV64 => LeafViewRv(paddr, prot, cache);
    case X8664 => LeafViewX86(paddr, prot, cache);
  }

  /** The leaf map_page stores is the model's leaf. */
  lemma LeafEntry(m: Machine, paddr: bv64, prot: Prot, cache: Cache)
    requires paddr & 0xFFF == 0 && prot.read && Keeps(m, paddr)
    ensures EntryOf(m, true, MakeLeaf(m.arch, paddr, prot, cache))
         == Leaf(Stored(m.arch, m.num(paddr)), LeafFlags(m.arch, prot, cache))
  {
    LeafView(m.arch, paddr, prot, cache);
  }

  lemma TableViewRv(child: bv64, prot: Prot, cache: Cache)
    ensures Meaning(RiscV64, false, MakeTablePtr(RiscV64, child, prot, cache)) == Pointer(child & ADDR_RISCV, false)
  {
    TableRvReadsBack(child);
  }

  lemma TableViewX86(child: bv64, prot: Prot, cache: Cache)
    ensures Meaning(X8664, false, MakeTablePtr(X8664, child, prot, cache)) == Pointer(child & ADDR_X86, prot.user)
  {
    TableX86ReadsBack(child, prot, cache);
  }

  lemma TableView(a: Arch, child: bv64, prot: Prot, cache: Cache)
    ensures Meaning(a, false, MakeTablePtr(a, child, prot, cache)) == Pointer(Kept(a, child), prot.user && a.X8664?)
  {
    match a
    case RiscV64 => TableViewRv(child, prot, cache);
    case X8664 => TableViewX86(child, prot, cache);
  }

  /** The pointer ensure_leaf_slot stores is the model's pointer. */
  lemma TableEntry(m: Machine, child: bv64, prot: Prot, cache: Cache)
    requires child & 0xFFF == 0 && Keeps(m, child) && Stored(m.arch, m.num(child)) == m.num(child)
    ensures EntryOf(m, false, MakeTablePtr(m.arch, child, prot, cache))
      == Table(m.num(child), prot.user && m.arch.X8664?)
  {
    TableView(m.arch, child, prot, cache);
  }

  lemma WidenEntry(m: Machine, slot: bv64, prot: Prot, cache: Cache)
    requires EntryOf(m, false, slot).Table?
    ensures
      var e := EntryOf(m, false, slot);
      EntryOf(m, false, WidenTablePtr(m.arch, slot, prot, cache))
          == Table(e.frame, e.user || (prot.user && m.arch.X8664?))
  {
    if m.arch.X8664? { WidenX86Adds(slot, prot, cache); }
  }

  /** A frame of zeroes is a blank table. */
  lemma ZeroesBlank(m: Machine, bottom: bool, words: seq<bv64>)
    requires |words| == ENTRIES && forall i | 0 <= i < ENTRIES :: words[i] == 0
    ensures Written(m, words, Blank(ENTRIES), bottom)
  {
    assert !Present(0);
  }

  /** Hanging a cleared frame under a slot is the model's AddTable. */
  lemma HangAgrees(m: Machine, words: Words, mem: Mem, dir: Dir, root: nat, p: seq<nat>, i: nat,
                   child: bv64, blank: seq<bv64>, prot: Prot, cache: Cache)
    requires Shape(mem, dir, root, Levels(m.arch)) && Stands(m, words, mem, dir)
    requires p in dir && |p| < Levels(m.arch) - 1 && i < ENTRIES && p + [i] !in dir && m.num(child) !in mem
    requires |blank| == ENTRIES && forall j | 0 <= j < ENTRIES :: blank[j] == 0
    requires child & 0xFFF == 0 && Keeps(m, child) && Stored(m.arch, m.num(child)) == m.num(child)
    ensures dir[p] in words && |words[dir[p]]| == ENTRIES && dir[p] in mem && |mem[dir[p]]| == ENTRIES
    ensures dir[p] != m.num(child)
    ensures var c := m.num(child);
      Stands(m, Store(words[c := blank], dir[p], i, MakeTablePtr(m.arch, child, prot, cache)),
             AddTable(mem, dir[p], i, c, prot.user && m.arch.X8664?), dir[p + [i] := c])
  {
    assert NodeOk(mem, dir, Levels(m.arch), p) && TableWritten(m, words, mem, dir, p);
    TableEntry(m, child, prot, cache);
    var c, w := m.num(child), MakeTablePtr(m.arch, child, prot, cache);
    var words' := Store(words[c := blank], dir[p], i, w);
    var mem', dir' := AddTable(mem, dir[p], i, c, prot.user && m.arch.X8664?), dir[p + [i] := c];
    forall q ensures TableWritten(m, words', mem', dir', q) {
      assert TableWritten(m, words, mem, dir, q);
      if q == p + [i] { ZeroesBlank(m, |q| == Levels(m.arch) - 1, blank); }
      else if q in dir && dir[q] == dir[p] { assert q == p; }
    }
  }
}
