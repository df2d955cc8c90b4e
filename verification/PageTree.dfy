/** The radix page walk of an address space: tables of 512 entries in frames taken from and given
    back to the frame allocator. The tables refine a partial map from pages to leaves. */
module PageTree {

  import opened Basics

  datatype Arch = RiscV64 | X8664

  /** Walk depth: Sv39 on riscv64, four levels on x86_64. */
  function Levels(a: Arch): (n: nat)
    ensures n == 3 || n == 4
  {
    if a.RiscV64? then 3 else 4
  }

  datatype Prot = Prot(read: bool, write: bool, exec: bool, user: bool)
  datatype Cache = Cached | Device | WriteCombining
  datatype Flags = Flags(prot: Prot, cache: Cache)

  /** What an entry says at its level. A Table entry at the bottom level is malformed. */
  datatype Entry = Absent | Table(frame: nat, user: bool) | Leaf(addr: nat, flags: Flags)

  type Mem = imap<nat, seq<Entry>>   // the frames in use as tables
  type Dir = imap<seq<nat>, nat>     // which frame holds the table reached by these indices

  const ENTRIES: nat := 512

  function Blank(n: nat): (s: seq<Entry>)
    ensures |s| == n && forall i | 0 <= i < n :: s[i].Absent?
  {
    if n == 0 then [] else Blank(n - 1) + [Absent]
  }

  // ---------------------------------------------------------------- the walk

  datatype Hit = Hit(entry: Entry, level: nat)

  /** The terminal entry of the walk, if it ends in one. */
  function Resolve(mem: Mem, f: nat, path: seq<nat>, k: nat): (r: Option<Hit>)
    ensures r.Some? ==> r.value.entry.Leaf? && r.value.level < |path|
    decreases |path| - k
  {
    if f !in mem || k >= |path| || path[k] >= |mem[f]| then None
    else
      var e := mem[f][path[k]];
      if e.Leaf? then Some(Hit(e, k))
      else if e.Absent? || k == |path| - 1 then None
      else Resolve(mem, e.frame, path, k + 1)
  }

  // ---------------------------------------------------------------- tables form a tree

  predicate IsPath(p: seq<nat>) { forall i | 0 <= i < |p| :: p[i] < ENTRIES }

  /** The slot that leads to child c points at c's frame exactly when there is one. */
  ghost predicate SlotOk(e: Entry, dir: Dir, c: seq<nat>) {
    if e.Table? then c in dir && dir[c] == e.frame else c !in dir
  }

  ghost predicate NodeOk(mem: Mem, dir: Dir, levels: nat, p: seq<nat>)
    requires p in dir
  {
    && |p| < levels && IsPath(p) && dir[p] != 0 && dir[p] in mem && |mem[dir[p]]| == ENTRIES
    && (p != [] ==> p[..|p| - 1] in dir)
    && (|p| < levels - 1 ==> SlotsOk(mem[dir[p]], dir, p))
  }

  ghost predicate SlotsOk(table: seq<Entry>, dir: Dir, p: seq<nat>) {
    forall i | 0 <= i < |table| :: SlotOk(table[i], dir, p + [i])
  }

  ghost predicate OwnFrames(dir: Dir) {
    forall p, q | p in dir && q in dir && dir[p] == dir[q] :: p == q
  }

  /** Every table is reached by one path, and every path's table is where its slot says. */
  ghost predicate Shape(mem: Mem, dir: Dir, root: nat, levels: nat) {
    && [] in dir && dir[[]] == root && OwnFrames(dir)
    && (forall p {:trigger NodeOk(mem, dir, levels, p)} | p in dir :: NodeOk(mem, dir, levels, p))
  }

  /** A table's ancestors are tables. */
  lemma {:induction false} PrefixIn(mem: Mem, dir: Dir, root: nat, levels: nat, p: seq<nat>, k: nat)
    requires Shape(mem, dir, root, levels) && p in dir && k <= |p|
    ensures p[..k] in dir
    decreases |p| - k
  {
    if k == |p| { assert p[..k] == p; }
    else {
      PrefixIn(mem, dir, root, levels, p, k + 1);
      assert NodeOk(mem, dir, levels, p[..k + 1]) && p[..k + 1][..k] == p[..k];
    }
  }

  /** The walk from the root passes through every table on the way. */
  lemma {:induction false} WalkReaches(mem: Mem, dir: Dir, root: nat, levels: nat, path: seq<nat>, k: nat)
    requires Shape(mem, dir, root, levels) && |path| == levels && IsPath(path) && k < levels && path[..k] in dir
    ensures Resolve(mem, root, path, 0) == Resolve(mem, dir[path[..k]], path, k)
  {
    if k == 0 { assert path[..0] == []; }
    else {
      var p := path[..k - 1];
      PrefixIn(mem, dir, root, levels, path[..k], k - 1);
      assert path[..k][..k - 1] == p && path[..k] == p + [path[k - 1]];
      WalkReaches(mem, dir, root, levels, path, k - 1);
      SlotAt(mem, dir, root, levels, p, path[k - 1]);
    }
  }

  predicate Extends(q: seq<nat>, p: seq<nat>, i: nat) { |p| < |q| && q[..|p|] == p && q[|p|] == i }

  /** A write to one slot of one table, perhaps with a frame that is no table yet. */
  ghost predicate Wrote(mem: Mem, mem': Mem, dir: Dir, p: seq<nat>, i: nat)
    requires p in dir
  {
    forall q | q in dir :: q in dir && dir[q] in mem && dir[q] in mem' && |mem'[dir[q]]| == |mem[dir[q]]|
      && forall j | 0 <= j < |mem[dir[q]]| && !(q == p && j == i) :: mem'[dir[q]][j] == mem[dir[q]][j]
  }

  /** It is invisible to every walk that does not go through that slot. */
  lemma {:induction false} WriteElsewhere(mem: Mem, mem': Mem, dir: Dir, root: nat, levels: nat,
                                          p: seq<nat>, i: nat, q: seq<nat>, k: nat)
    requires Shape(mem, dir, root, levels) && p in dir && Wrote(mem, mem', dir, p, i)
    requires |q| == levels && IsPath(q) && !Extends(q, p, i) && k < levels && q[..k] in dir
    ensures Resolve(mem', dir[q[..k]], q, k) == Resolve(mem, dir[q[..k]], q, k)
    decreases levels - k
  {
    var at := q[..k];
    assert NodeOk(mem, dir, levels, at);
    var e := mem[dir[at]][q[k]];
    assert mem'[dir[at]][q[k]] == e;
    if k < levels - 1 && e.Table? {
      SlotAt(mem, dir, root, levels, at, q[k]);
      assert q[..k + 1] == at + [q[k]];
      WriteElsewhere(mem, mem', dir, root, levels, p, i, q, k + 1);
    }
  }

  // ---------------------------------------------------------------- the four kinds of write

  function Write(mem: Mem, f: nat, i: nat, e: Entry): Mem
    requires f in mem && i < |mem[f]|
  {
    mem[f := mem[f][i := e]]
  }

  /** A blank table is hung under slot i. */
  function AddTable(mem: Mem, f: nat, i: nat, child: nat, user: bool): Mem
    requires f in mem && i < |mem[f]| && child !in mem
  {
    Write(mem[child := Blank(ENTRIES)], f, i, Table(child, user))
  }

  /** The rollback of AddTable. */
  function DropTable(mem: Mem, f: nat, i: nat): Mem
    requires f in mem && i < |mem[f]| && mem[f][i].Table? && mem[f][i].frame != f
  {
    Write(mem - {mem[f][i].frame}, f, i, Absent)
  }

  lemma DropUndoesAdd(mem: Mem, f: nat, i: nat, child: nat, user: bool)
    requires f in mem && i < |mem[f]| && child !in mem && mem[f][i].Absent?
    ensures DropTable(AddTable(mem, f, i, child, user), f, i) == mem
  {
    var added := AddTable(mem, f, i, child, user);
    assert added[f][i := Absent] == mem[f];
  }

  lemma ChildInj(p: seq<nat>, i: nat, q: seq<nat>, j: nat)
    requires p + [i] == q + [j]
    ensures p == q && i == j
  {
    assert p == (p + [i])[..|p|] && q == (q + [j])[..|q|] && (p + [i])[|p|] == i && (q + [j])[|q|] == j;
  }

  lemma AddKeepsSlots(table: seq<Entry>, dir: Dir, p: seq<nat>, i: nat, child: nat, q: seq<nat>)
    requires SlotsOk(table, dir, q) && p + [i] !in dir && q != p
    ensures SlotsOk(table, dir[p + [i] := child], q)
  {
    forall j | 0 <= j < |table| ensures SlotOk(table[j], dir[p + [i] := child], q + [j]) {
      assert SlotOk(table[j], dir, q + [j]);
      if q + [j] == p + [i] { ChildInj(q, j, p, i); }
    }
  }

  lemma AddFillsSlot(table: seq<Entry>, dir: Dir, p: seq<nat>, i: nat, child: nat, user: bool)
    requires SlotsOk(table, dir, p) && i < |table|
    ensures SlotsOk(table[i := Table(child, user)], dir[p + [i] := child], p)
  {
    forall j | 0 <= j < |table| ensures SlotOk(table[i := Table(child, user)][j], dir[p + [i] := child], p + [j]) {
      assert SlotOk(table[j], dir, p + [j]);
      if p + [j] == p + [i] { ChildInj(p, j, p, i); }
    }
  }

  lemma AddKeepsNode(mem: Mem, dir: Dir, levels: nat, p: seq<nat>, i: nat, child: nat, user: bool, q: seq<nat>)
    requires p in dir && q in dir && NodeOk(mem, dir, levels, p) && NodeOk(mem, dir, levels, q)
    requires (dir[p] == dir[q] ==> p == q)
    requires |p| < levels - 1 && i < ENTRIES && mem[dir[p]][i].Absent? && child !in mem && child != 0 && p + [i] !in dir
    ensures NodeOk(AddTable(mem, dir[p], i, child, user), dir[p + [i] := child], levels, q)
  {
    if q == p { AddFillsSlot(mem[dir[p]], dir, p, i, child, user); }
    else if |q| < levels - 1 { AddKeepsSlots(mem[dir[q]], dir, p, i, child, q); }
  }

  lemma NoGrandchild(mem: Mem, dir: Dir, root: nat, levels: nat, c: seq<nat>, j: nat)
    requires Shape(mem, dir, root, levels) && c !in dir
    ensures c + [j] !in dir
  {
    if c + [j] in dir {
      assert (c + [j])[..|c|] == c;
      PrefixIn(mem, dir, root, levels, c + [j], |c|);
    }
  }

  lemma AddedNode(mem: Mem, dir: Dir, root: nat, levels: nat, p: seq<nat>, i: nat, child: nat, user: bool)
    requires Shape(mem, dir, root, levels) && p in dir && |p| < levels - 1 && i < ENTRIES
    requires dir[p] in mem && |mem[dir[p]]| == ENTRIES && child !in mem && child != 0 && p + [i] !in dir
    ensures NodeOk(AddTable(mem, dir[p], i, child, user), dir[p + [i] := child], levels, p + [i])
  {
    var c, dir' := p + [i], dir[p + [i] := child];
    assert NodeOk(mem, dir, levels, p) && c[..|c| - 1] == p;
    forall j | 0 <= j < ENTRIES ensures SlotOk(Absent, dir', c + [j]) {
      NoGrandchild(mem, dir, root, levels, c, j);
    }
    assert SlotsOk(Blank(ENTRIES), dir', c);
  }

  lemma SlotAt(mem: Mem, dir: Dir, root: nat, levels: nat, p: seq<nat>, i: nat)
    requires Shape(mem, dir, root, levels) && p in dir && |p| < levels - 1 && i < ENTRIES
    ensures dir[p] in mem && |mem[dir[p]]| == ENTRIES && SlotOk(mem[dir[p]][i], dir, p + [i])
  {
    assert NodeOk(mem, dir, levels, p);
  }

  lemma AddKeeps(mem: Mem, dir: Dir, root: nat, levels: nat, p: seq<nat>, i: nat, child: nat, user: bool)
    requires Shape(mem, dir, root, levels) && p in dir && |p| < levels - 1 && i < ENTRIES
    requires dir[p] in mem && |mem[dir[p]]| == ENTRIES && mem[dir[p]][i].Absent? && child !in mem && child != 0
    ensures Shape(AddTable(mem, dir[p], i, child, user), dir[p + [i] := child], root, levels)
  {
    var mem', dir' := AddTable(mem, dir[p], i, child, user), dir[p + [i] := child];
    SlotAt(mem, dir, root, levels, p, i);
    forall q | q in dir ensures NodeOk(mem', dir', levels, q) && dir[q] != child {
      assert NodeOk(mem, dir, levels, p) && NodeOk(mem, dir, levels, q);
      AddKeepsNode(mem, dir, levels, p, i, child, user, q);
    }
    AddedNode(mem, dir, root, levels, p, i, child, user);
  }

  /** Hanging a blank table changes no translation. */
  lemma AddInvisible(mem: Mem, dir: Dir, root: nat, levels: nat, p: seq<nat>, i: nat, child: nat, user: bool,
                     q: seq<nat>)
    requires Shape(mem, dir, root, levels) && p in dir && |p| < levels - 1 && i < ENTRIES
    requires dir[p] in mem && |mem[dir[p]]| == ENTRIES && mem[dir[p]][i].Absent? && child !in mem && child != 0
    requires |q| == levels && IsPath(q)
    ensures Resolve(AddTable(mem, dir[p], i, child, user), root, q, 0) == Resolve(mem, root, q, 0)
  {
    var mem' := AddTable(mem, dir[p], i, child, user);
    if !Extends(q, p, i) {
      assert q[..0] == [];
      assert Wrote(mem, mem', dir, p, i) by { TablesOf(mem, dir, root, levels); }
      WriteElsewhere(mem, mem', dir, root, levels, p, i, q, 0);
    } else {
      WalkReaches(mem, dir, root, levels, q, |p|);
      AddReaches(mem, dir, root, levels, p, i, child, user, q);
    }
  }

  lemma AddReaches(mem: Mem, dir: Dir, root: nat, levels: nat, p: seq<nat>, i: nat, child: nat, user: bool, q: seq<nat>)
    requires Shape(mem, dir, root, levels) && p in dir && |p| < levels - 1 && i < ENTRIES
    requires dir[p] in mem && |mem[dir[p]]| == ENTRIES && mem[dir[p]][i].Absent? && child !in mem && child != 0
    requires |q| == levels && IsPath(q) && Extends(q, p, i)
    ensures Resolve(AddTable(mem, dir[p], i, child, user), root, q, 0) == None
  {
    var mem', dir' := AddTable(mem, dir[p], i, child, user), dir[p + [i] := child];
    AddKeeps(mem, dir, root, levels, p, i, child, user);
    assert q[..|p| + 1] == p + [i];
    WalkReaches(mem', dir', root, levels, q, |p| + 1);
    assert mem'[child] == Blank(ENTRIES);
  }

  lemma TablesOf(mem: Mem, dir: Dir, root: nat, levels: nat)
    requires Shape(mem, dir, root, levels)
    ensures forall q | q in dir :: dir[q] in mem && |mem[dir[q]]| == ENTRIES
  {
    forall q | q in dir ensures dir[q] in mem && |mem[dir[q]]| == ENTRIES { assert NodeOk(mem, dir, levels, q); }
  }

  /** A slot keeps its child, or a bottom slot changes. */
  ghost predicate Rewrites(mem: Mem, dir: Dir, levels: nat, p: seq<nat>, i: nat, e: Entry) {
    && p in dir && i < ENTRIES && dir[p] in mem && |mem[dir[p]]| == ENTRIES
    && (|p| < levels - 1 ==> e.Table? && mem[dir[p]][i].Table? && e.frame == mem[dir[p]][i].frame)
  }

  lemma RewriteKeeps(mem: Mem, dir: Dir, root: nat, levels: nat, p: seq<nat>, i: nat, e: Entry)
    requires Shape(mem, dir, root, levels) && Rewrites(mem, dir, levels, p, i, e)
    ensures Shape(Write(mem, dir[p], i, e), dir, root, levels) && Wrote(mem, Write(mem, dir[p], i, e), dir, p, i)
  {
    var mem' := Write(mem, dir[p], i, e);
    TablesOf(mem, dir, root, levels);
    forall q | q in dir ensures NodeOk(mem', dir, levels, q) {
      assert NodeOk(mem, dir, levels, q);
      if |q| < levels - 1 {
        forall j | 0 <= j < ENTRIES ensures SlotOk(mem'[dir[q]][j], dir, q + [j]) {
          assert SlotOk(mem[dir[q]][j], dir, q + [j]);
        }
      }
    }
  }

  lemma {:induction false} RewriteElsewhere(mem: Mem, dir: Dir, root: nat, levels: nat, p: seq<nat>, i: nat, e: Entry,
                                            q: seq<nat>)
    requires Shape(mem, dir, root, levels) && Rewrites(mem, dir, levels, p, i, e)
    requires |q| == levels && IsPath(q) && (|p| == levels - 1 ==> q != p + [i])
    ensures Resolve(Write(mem, dir[p], i, e), root, q, 0) == Resolve(mem, root, q, 0)
  {
    var mem' := Write(mem, dir[p], i, e);
    RewriteKeeps(mem, dir, root, levels, p, i, e);
    assert NodeOk(mem, dir, levels, p);
    if !Extends(q, p, i) {
      assert q[..0] == [];
      WriteElsewhere(mem, mem', dir, root, levels, p, i, q, 0);
    } else {
      var k := |p|;
      assert q[..k + 1] == p + [i];
      assert k + 1 == levels ==> q == p + [i];
      SlotAt(mem, dir, root, levels, p, i);
      WalkReaches(mem, dir, root, levels, q, k + 1);
      WalkReaches(mem', dir, root, levels, q, k + 1);
      Below(mem, mem', dir, root, levels, p, i, q, k + 1);
    }
  }

  /** Below the written slot nothing changed either. */
  lemma {:induction false} Below(mem: Mem, mem': Mem, dir: Dir, root: nat, levels: nat, p: seq<nat>, i: nat,
                                 q: seq<nat>, k: nat)
    requires Shape(mem, dir, root, levels) && p in dir && Wrote(mem, mem', dir, p, i)
    requires |q| == levels && IsPath(q) && |p| < k < levels && q[..k] in dir
    ensures Resolve(mem', dir[q[..k]], q, k) == Resolve(mem, dir[q[..k]], q, k)
    decreases levels - k
  {
    var at := q[..k];
    assert NodeOk(mem, dir, levels, at);
    var e := mem[dir[at]][q[k]];
    assert mem'[dir[at]][q[k]] == e;
    if k < levels - 1 && e.Table? {
      SlotAt(mem, dir, root, levels, at, q[k]);
      assert q[..k + 1] == at + [q[k]];
      Below(mem, mem', dir, root, levels, p, i, q, k + 1);
    }
  }

  /** A bottom slot is what its own path resolves to. */
  lemma {:induction false} BottomIs(mem: Mem, dir: Dir, root: nat, levels: nat, p: seq<nat>, i: nat)
    requires Shape(mem, dir, root, levels) && p in dir && |p| == levels - 1 && i < ENTRIES
    ensures dir[p] in mem && |mem[dir[p]]| == ENTRIES
    ensures Resolve(mem, root, p + [i], 0)
         == if mem[dir[p]][i].Leaf? then Some(Hit(mem[dir[p]][i], levels - 1)) else None
  {
    assert NodeOk(mem, dir, levels, p) && (p + [i])[..|p|] == p;
    WalkReaches(mem, dir, root, levels, p + [i], |p|);
  }

  // ---------------------------------------------------------------- addresses

  const PAGE: nat := 0x1000
  const SPACE: nat := 0x1_0000_0000_0000_0000

  /** One past the canonical low half: bit 38 on riscv64, bit 47 on x86_64. */
  function LowLimit(a: Arch): nat { if a.RiscV64? then 0x40_0000_0000 else 0x8000_0000_0000 }

  predicate Canonical(a: Arch, v: nat) { v < LowLimit(a) || SPACE - LowLimit(a) <= v < SPACE }

  /** Nine bits of the page number per level, top level first. */
  function PathOf(page: nat, n: nat): (p: seq<nat>)
    ensures |p| == n && IsPath(p)
  {
    if n == 0 then [] else PathOf(page / 512, n - 1) + [page % 512]
  }

  function PagePath(a: Arch, v: nat): (p: seq<nat>)
    ensures |p| == Levels(a) && IsPath(p)
  {
    PathOf(v / PAGE, Levels(a))
  }

  function Pow512(n: nat): nat { if n == 0 then 1 else 512 * Pow512(n - 1) }

  lemma {:induction false} PathAt(page: nat, n: nat, k: nat)
    requires k < n
    ensures Pow512(n - 1 - k) > 0 && PathOf(page, n)[k] == page / Pow512(n - 1 - k) % 512
  {
    if k < n - 1 {
      PathAt(page / 512, n - 1, k);
      DivTwice(page, Pow512(n - 2 - k));
    }
  }

  lemma DivTwice(x: nat, d: nat)
    requires d > 0
    ensures x / 512 / d == x / (512 * d)
  {
    var q := x / 512 / d;
    var r := x / 512 % d;
    assert x == 512 * (d * q + r) + x % 512;
    assert 512 * (d * q + r) + x % 512 == (512 * d) * q + (512 * r + x % 512) by {
      assert 512 * (d * q) == (512 * d) * q;
    }
    DivUnique(x, 512 * d, q, 512 * r + x % 512);
  }

  lemma DivUnique(x: nat, d: nat, q: nat, r: nat)
    requires d > 0 && x == d * q + r && r < d
    ensures x / d == q
  {
    var q', r' := x / d, x % d;
    assert x == d * q' + r';
    Spaced(d, q, q');
    Spaced(d, q', q);
  }

  lemma Spaced(d: nat, a: nat, b: nat)
    ensures a < b ==> d * a + d <= d * b
  {
    if a < b { assert d * b >= d * (a + 1) == d * a + d; }
  }

  /** The path holds the indices the hardware reads out of the address, level by level. */
  lemma IndexOfLevel(a: Arch, v: nat, k: nat)
    requires k < Levels(a)
    ensures Pow512(Levels(a) - 1 - k) > 0
    ensures PagePath(a, v)[k] == v / PAGE / Pow512(Levels(a) - 1 - k) % 512
  {
    PathAt(v / PAGE, Levels(a), k);
  }

  lemma {:induction false} PathInj(p: nat, q: nat, n: nat)
    requires PathOf(p, n) == PathOf(q, n) && p < Pow512(n) && q < Pow512(n)
    ensures p == q
  {
    if n > 0 {
      var x, y := PathOf(p / 512, n - 1), PathOf(q / 512, n - 1);
      assert x == (x + [p % 512])[..n - 1] && y == (y + [q % 512])[..n - 1];
      assert (x + [p % 512])[n - 1] == p % 512 && (y + [q % 512])[n - 1] == q % 512;
      PathInj(p / 512, q / 512, n - 1);
    }
  }

  lemma {:induction false} PathLow(page: nat, n: nat, m: nat)
    ensures PathOf(page + m * Pow512(n), n) == PathOf(page, n)
  {
    if n > 0 {
      var up := page + m * Pow512(n);
      assert m * Pow512(n) == 512 * (m * Pow512(n - 1));
      assert up / 512 == page / 512 + m * Pow512(n - 1) && up % 512 == page % 512;
      PathLow(page / 512, n - 1, m);
    }
  }

  /** The walk only looks at the low bits, so two different pages share a path; of canonical
      addresses no two do. */
  lemma CanonicalPages(a: Arch, v: nat, u: nat)
    requires Canonical(a, v) && Canonical(a, u) && PagePath(a, v) == PagePath(a, u)
    ensures v / PAGE == u / PAGE
  {
    var n, size := Levels(a), 2 * LowLimit(a) / PAGE;
    assert Pow512(n) == size by {
      assert Pow512(0) == 1 && Pow512(1) == 512 && Pow512(2) == 0x4_0000 && Pow512(3) == 0x800_0000
          && Pow512(4) == 0x10_0000_0000;
    }
    var high := SPACE / PAGE - size;
    assert high % size == 0;
    FoldPage(a, v, n, size, high);
    FoldPage(a, u, n, size, high);
    PathInj(Fold(v / PAGE, size, high), Fold(u / PAGE, size, high), n);
  }

  function Fold(page: nat, size: nat, high: nat): nat {
    if page >= size then (if page < high then 0 else page - high) else page
  }

  lemma FoldPage(a: Arch, v: nat, n: nat, size: nat, high: nat)
    requires Canonical(a, v) && n == Levels(a) && size == 2 * LowLimit(a) / PAGE == Pow512(n)
    requires high == SPACE / PAGE - size
    ensures PathOf(Fold(v / PAGE, size, high), n) == PagePath(a, v) && Fold(v / PAGE, size, high) < size
    ensures Fold(v / PAGE, size, high) < size / 2 <==> v / PAGE < size
  {
    if v / PAGE >= size {
      var m := high / size;
      assert m * size == high;
      PathLow(v / PAGE - high, n, m);
    }
  }

  // ---------------------------------------------------------------- translations

  datatype Translation = Translation(paddr: nat, flags: Flags)

  /** Bytes under a leaf that ends the walk at this level. */
  function SizeAt(a: Arch, level: nat): (n: nat)
    requires level < Levels(a)
    ensures n > 0 && (level == Levels(a) - 1 ==> n == PAGE)
  {
    PowPositive(Levels(a) - 1 - level);
    PAGE * Pow512(Levels(a) - 1 - level)
  }

  lemma {:induction false} PowPositive(n: nat)
    ensures Pow512(n) > 0
  {
    if n > 0 { PowPositive(n - 1); }
  }

  /** What the address space maps an address to. */
  function Translate(mem: Mem, root: nat, a: Arch, v: nat): Option<Translation> {
    if root == 0 || !Canonical(a, v) then None
    else
      var hit := Resolve(mem, root, PagePath(a, v), 0);
      if hit.None? then None
      else
        var size := SizeAt(a, hit.value.level);
        Some(Translation(hit.value.entry.addr / size * size + v % size, hit.value.entry.flags))
  }

  /** The attributes a walk reads back: x86_64 cannot refuse reads and has one uncached mode. */
  function LeafFlags(a: Arch, prot: Prot, cache: Cache): Flags {
    if a.RiscV64? then Flags(prot, cache)
    else Flags(prot.(read := true), if cache.Cached? then Cached else Device)
  }

  /** An entry has room for 56 address bits on riscv64 and 52 on x86_64. */
  function Stored(a: Arch, paddr: nat): nat {
    if a.RiscV64? then paddr % 0x100_0000_0000_0000 else paddr % 0x10_0000_0000_0000
  }

  /** mem' resolves this path to e and every other path as mem did. */
  ghost predicate Redirects(mem: Mem, mem': Mem, root: nat, path: seq<nat>, hit: Option<Hit>) {
    forall q | |q| == |path| && IsPath(q) ::
      Resolve(mem', root, q, 0) == if q == path then hit else Resolve(mem, root, q, 0)
  }

  lemma RedirectsPage(mem: Mem, mem': Mem, root: nat, a: Arch, v: nat, hit: Option<Hit>, u: nat)
    requires Canonical(a, v) && Redirects(mem, mem', root, PagePath(a, v), hit) && root != 0
    requires hit.Some? ==> hit.value.level == Levels(a) - 1 && hit.value.entry.Leaf? && hit.value.entry.addr % PAGE == 0
    ensures Translate(mem', root, a, u)
         == if !Canonical(a, u) || u / PAGE != v / PAGE then Translate(mem, root, a, u)
            else if hit.None? then None
            else Some(Translation(hit.value.entry.addr + u % PAGE, hit.value.entry.flags))
  {
    if Canonical(a, u) {
      if PagePath(a, u) == PagePath(a, v) { CanonicalPages(a, u, v); }
      assert Resolve(mem', root, PagePath(a, u), 0)
          == if PagePath(a, u) == PagePath(a, v) then hit else Resolve(mem, root, PagePath(a, u), 0);
    }
  }

  ghost predicate SameTranslations(mem: Mem, mem': Mem, root: nat, a: Arch) {
    forall u: nat {:trigger Translate(mem', root, a, u)} :: Translate(mem', root, a, u) == Translate(mem, root, a, u)
  }

  /** The page of v is translated to this base, or not at all; every other address is as it was. */
  ghost predicate PageBecomes(mem: Mem, mem': Mem, root: nat, a: Arch, v: nat, to: Option<Translation>) {
    forall u: nat {:trigger Translate(mem', root, a, u)} ::
      Translate(mem', root, a, u)
      == if !Canonical(a, u) || u / PAGE != v / PAGE then Translate(mem, root, a, u)
         else if to.None? then None
         else Some(Translation(to.value.paddr + u % PAGE, to.value.flags))
  }

  lemma WalksTranslate(mem: Mem, mem': Mem, root: nat, a: Arch)
    requires SameWalks(mem, mem', root, Levels(a))
    ensures SameTranslations(mem, mem', root, a)
  {
    forall u: nat ensures Translate(mem', root, a, u) == Translate(mem, root, a, u) {
      assert Resolve(mem', root, PagePath(a, u), 0) == Resolve(mem, root, PagePath(a, u), 0);
    }
  }

  lemma PageRedirected(mem0: Mem, mem: Mem, mem': Mem, root: nat, a: Arch, v: nat, hit: Option<Hit>)
    requires Canonical(a, v) && Redirects(mem, mem', root, PagePath(a, v), hit) && root != 0
    requires SameTranslations(mem0, mem, root, a)
    requires hit.Some? ==> hit.value.level == Levels(a) - 1 && hit.value.entry.Leaf? && hit.value.entry.addr % PAGE == 0
    ensures PageBecomes(mem0, mem', root, a, v,
                        if hit.None? then None else Some(Translation(hit.value.entry.addr, hit.value.entry.flags)))
  {
    forall u: nat ensures Translate(mem', root, a, u)
                  == if !Canonical(a, u) || u / PAGE != v / PAGE then Translate(mem0, root, a, u)
                     else if hit.None? then None
                     else Some(Translation(hit.value.entry.addr + u % PAGE, hit.value.entry.flags))
    {
      RedirectsPage(mem, mem', root, a, v, hit, u);
      assert Translate(mem, root, a, u) == Translate(mem0, root, a, u);
    }
  }

  /** The page's bottom slot, where there is one, holds nothing. */
  ghost predicate Vacant(mem: Mem, dir: Dir, path: seq<nat>)
    requires path != []
  {
    var p := path[..|path| - 1];
    p in dir && dir[p] in mem && path[|path| - 1] < |mem[dir[p]]| ==> mem[dir[p]][path[|path| - 1]].Absent?
  }

  lemma BottomWrite(mem: Mem, dir: Dir, root: nat, path: seq<nat>, e: Entry)
    requires path != [] && IsPath(path) && Shape(mem, dir, root, |path|) && path[..|path| - 1] in dir
    ensures var f := dir[path[..|path| - 1]];
            && f in mem && |mem[f]| == ENTRIES
            && Shape(Write(mem, f, path[|path| - 1], e), dir, root, |path|)
            && Redirects(mem, Write(mem, f, path[|path| - 1], e), root, path, if e.Leaf? then Some(Hit(e, |path| - 1))
               else None)
  {
    var n, p, i := |path|, path[..|path| - 1], path[|path| - 1];
    assert path == p + [i];
    BottomIs(mem, dir, root, n, p, i);
    var mem' := Write(mem, dir[p], i, e);
    RewriteKeeps(mem, dir, root, n, p, i, e);
    BottomIs(mem', dir, root, n, p, i);
    forall q | |q| == n && IsPath(q)
      ensures Resolve(mem', root, q, 0) == if q == path then (if e.Leaf? then Some(Hit(e, n - 1)) else None)
        else Resolve(mem, root, q, 0)
    {
      if q != path { RewriteElsewhere(mem, dir, root, n, p, i, e, q); }
    }
  }

  // ---------------------------------------------------------------- an address space

  /** A table slot: the table's frame and the index in it. */
  datatype Slot = Slot(table: nat, index: nat)

  /** hist[k + 1] is hist[k] with a blank table kids[k] hung under slots[k]. */
  ghost predicate Chain(hist: seq<Mem>, slots: seq<Slot>, kids: seq<nat>) {
    && |hist| == |slots| + 1 && |kids| == |slots|
    && forall k | 0 <= k < |slots| :: Link(hist[k], hist[k + 1], slots[k], kids[k])
  }

  ghost predicate Link(before: Mem, after: Mem, s: Slot, kid: nat) {
    && s.table in before && s.index < |before[s.table]| && before[s.table][s.index].Absent? && kid !in before
    && exists user :: after == AddTable(before, s.table, s.index, kid, user)
  }

  lemma LinkUndone(before: Mem, after: Mem, s: Slot, kid: nat)
    requires Link(before, after, s, kid)
    ensures s.table in after && s.index < |after[s.table]| && after[s.table][s.index].Table?
    ensures after[s.table][s.index].frame == kid != s.table && DropTable(after, s.table, s.index) == before
  {
    var user :| after == AddTable(before, s.table, s.index, kid, user);
    DropUndoesAdd(before, s.table, s.index, kid, user);
  }

  /** Every translation is the same. */
  ghost predicate SameWalks(mem: Mem, mem': Mem, root: nat, levels: nat) {
    forall q {:trigger Resolve(mem', root, q, 0)} | |q| == levels && IsPath(q) ::
      Resolve(mem', root, q, 0) == Resolve(mem, root, q, 0)
  }

  /** How far down the path there are tables. */
  ghost function Depth(dir: Dir, path: seq<nat>, k: nat): (n: nat)
    requires k <= |path| && [] in dir
    ensures n <= k && path[..n] in dir
  {
    if k == 0 then assert path[..0] == []; 0 else if path[..k] in dir then k else Depth(dir, path, k - 1)
  }

  lemma {:induction false} DepthIs(mem: Mem, dir: Dir, root: nat, levels: nat, path: seq<nat>, k: nat, n: nat)
    requires Shape(mem, dir, root, levels) && n <= k <= |path| && path[..n] in dir && (n < k ==> path[..n + 1] !in dir)
    ensures Depth(dir, path, k) == n
  {
    if n < k {
      if path[..k] in dir {
        assert path[..k][..n + 1] == path[..n + 1];
        PrefixIn(mem, dir, root, levels, path[..k], n + 1);
      }
      DepthIs(mem, dir, root, levels, path, k - 1, n);
    }
  }

  /** Tables can be hung all the way down: no large page in the way, and the allocator has the
      frames. */
  ghost predicate Reachable(mem: Mem, dir: Dir, levels: nat, path: seq<nat>, frames: nat)
    requires |path| == levels > 0 && [] in dir
  {
    var n := Depth(dir, path, levels - 1);
    n == levels - 1
    || (dir[path[..n]] in mem && path[n] < |mem[dir[path[..n]]]| && mem[dir[path[..n]]][path[n]].Absent?
        && levels - 1 - n <= frames)
  }

  /** A walk that has come down to level: mem is what it has made of mem0. */
  ghost predicate Walking(mem0: Mem, mem: Mem, dir: Dir, root: nat, levels: nat, path: seq<nat>, level: nat, table: nat)
    requires level <= |path|
  {
    Shape(mem, dir, root, levels) && SameWalks(mem0, mem, root, levels) && path[..level] in dir
        && dir[path[..level]] == table
  }

  /** From level down, the tables there were are as they were. */
  ghost predicate Untouched(mem0: Mem, mem: Mem, dir0: Dir, path: seq<nat>, level: nat) {
    forall k | level <= k < |path| && path[..k] in dir0 ::
      dir0[path[..k]] in mem0 && dir0[path[..k]] in mem && mem[dir0[path[..k]]] == mem0[dir0[path[..k]]]
  }

  /** The old tables end at level n, with an empty slot. */
  ghost predicate Gap(mem0: Mem, dir0: Dir, path: seq<nat>, n: nat) {
    && n + 1 < |path| && path[..n] in dir0 && path[..n + 1] !in dir0
    && dir0[path[..n]] in mem0 && path[n] < |mem0[dir0[path[..n]]]| && mem0[dir0[path[..n]]][path[n]].Absent?
  }

  lemma WidenStep(mem0: Mem, mem: Mem, dir: Dir, root: nat, levels: nat, path: seq<nat>, level: nat, table: nat,
                  user: bool)
    requires |path| == levels && IsPath(path) && level < levels - 1
    requires Walking(mem0, mem, dir, root, levels, path, level, table)
    ensures table in mem && |mem[table]| == ENTRIES
    ensures var e := mem[table][path[level]];
            e.Table? ==> Walking(mem0, Write(mem, table, path[level], Table(e.frame, user)), dir, root, levels, path,
                level + 1, e.frame)
    ensures !mem[table][path[level]].Table? ==> path[..level + 1] !in dir
  {
    var p, i := path[..level], path[level];
    SlotAt(mem, dir, root, levels, p, i);
    assert path[..level + 1] == p + [i];
    var e := mem[table][i];
    if e.Table? {
      var e' := Table(e.frame, user);
      RewriteKeeps(mem, dir, root, levels, p, i, e');
      forall q | |q| == levels && IsPath(q)
          ensures Resolve(Write(mem, table, i, e'), root, q, 0) == Resolve(mem0, root, q, 0) {
        RewriteElsewhere(mem, dir, root, levels, p, i, e', q);
        assert Resolve(mem, root, q, 0) == Resolve(mem0, root, q, 0);
      }
    }
  }

  lemma AddStep(mem0: Mem, mem: Mem, dir: Dir, root: nat, levels: nat, path: seq<nat>, level: nat, table: nat,
                child: nat, user: bool)
    requires |path| == levels && IsPath(path) && level < levels - 1
    requires Walking(mem0, mem, dir, root, levels, path, level, table)
    requires table in mem && |mem[table]| == ENTRIES && mem[table][path[level]].Absent? && child !in mem && child != 0
    ensures Walking(mem0, AddTable(mem, table, path[level], child, user), dir[path[..level + 1] := child], root, levels,
      path, level + 1, child)
    ensures AddTable(mem, table, path[level], child, user)[child] == Blank(ENTRIES)
    ensures Link(mem, AddTable(mem, table, path[level], child, user), Slot(table, path[level]), child)
  {
    var p, i := path[..level], path[level];
    assert path[..level + 1] == p + [i];
    AddKeeps(mem, dir, root, levels, p, i, child, user);
    forall q | |q| == levels && IsPath(q)
        ensures Resolve(AddTable(mem, table, i, child, user), root, q, 0) == Resolve(mem0, root, q, 0) {
      AddInvisible(mem, dir, root, levels, p, i, child, user, q);
      assert Resolve(mem, root, q, 0) == Resolve(mem0, root, q, 0);
    }
  }

  /** A walk in progress: what it found, what it has made of it, the slots it filled, the memory
      before each fill, and the frames it took. */
  datatype Descent = Descent(mem0: Mem, dir0: Dir, pool0: seq<nat>, mem: Mem, dir: Dir, pool: seq<nat>,
                             slots: seq<Slot>, hist: seq<Mem>, kids: seq<nat>)

  /** What a walk that gives up leaves behind: at most wider pointers. */
  ghost predicate Rolled(mem0: Mem, mem: Mem, dir: Dir, root: nat, levels: nat) {
    Shape(mem, dir, root, levels) && SameWalks(mem0, mem, root, levels) && forall f :: f in mem <==> f in mem0
  }

  ghost predicate DescentOk(w: Descent, root: nat, path: seq<nat>, level: nat, at: nat) {
    var levels := |path|;
    && IsPath(path) && level < levels && |w.slots| <= level
    && Shape(w.mem0, w.dir0, root, levels) && Supply(w.pool, w.mem)
    && Walking(w.mem0, w.mem, w.dir, root, levels, path, level, at)
    && Chain(w.hist, w.slots, w.kids) && w.hist[|w.slots|] == w.mem && w.pool0 == w.kids + w.pool
    && Rolled(w.mem0, w.hist[0], w.dir0, root, levels) && Supply(w.pool0, w.mem0)
    && (w.slots == [] ==> w.dir == w.dir0 && Untouched(w.mem0, w.mem, w.dir0, path, level))
    && (w.slots != [] ==> at in w.mem && w.mem[at] == Blank(ENTRIES) && Gap(w.mem0, w.dir0, path, level - |w.slots|))
  }

  lemma DescentStarts(mem: Mem, dir: Dir, pool: seq<nat>, root: nat, path: seq<nat>)
    requires Shape(mem, dir, root, |path|) && IsPath(path) && path != [] && Supply(pool, mem)
    ensures DescentOk(Descent(mem, dir, pool, mem, dir, pool, [], [mem], []), root, path, 0, root)
  {
    assert path[..0] == [];
    forall k | 0 <= k < |path| && path[..k] in dir ensures dir[path[..k]] in mem {
      assert NodeOk(mem, dir, |path|, path[..k]);
    }
  }

  lemma DescentSees(w: Descent, root: nat, path: seq<nat>, level: nat, at: nat)
    requires DescentOk(w, root, path, level, at)
    ensures at in w.mem && |w.mem[at]| == ENTRIES
  {
    assert NodeOk(w.mem, w.dir, |path|, path[..level]);
  }

  function AddTo(w: Descent, path: seq<nat>, level: nat, at: nat, user: bool): Descent
    requires level < |path| && at in w.mem && path[level] < |w.mem[at]| && w.pool != [] && w.pool[0] !in w.mem
  {
    var mem := AddTable(w.mem, at, path[level], w.pool[0], user);
    Descent(w.mem0, w.dir0, w.pool0, mem, w.dir[path[..level + 1] := w.pool[0]], w.pool[1..],
            w.slots + [Slot(at, path[level])], w.hist + [mem], w.kids + [w.pool[0]])
  }

  lemma DescentAdds(w: Descent, root: nat, path: seq<nat>, level: nat, at: nat, user: bool)
    requires DescentOk(w, root, path, level, at) && level < |path| - 1 && at in w.mem && |w.mem[at]| == ENTRIES
    requires w.mem[at][path[level]].Absent? && w.pool != []
    ensures w.pool[0] !in w.mem && DescentOk(AddTo(w, path, level, at, user), root, path, level + 1, w.pool[0])
  {
    var child, i := w.pool[0], path[level];
    assert child in w.pool;
    AddStep(w.mem0, w.mem, w.dir, root, |path|, path, level, at, child, user);
    var w' := AddTo(w, path, level, at, user);
    AddChain(w, w', Slot(at, i), child);
    if w.slots == [] {
      SlotAt(w.mem, w.dir, root, |path|, path[..level], i);
      assert path[..level + 1] == path[..level] + [i];
      assert Gap(w.mem0, w.dir0, path, level);
    }
  }

  lemma AddChain(w: Descent, w': Descent, s: Slot, child: nat)
    requires Chain(w.hist, w.slots, w.kids) && w.hist[|w.slots|] == w.mem && Link(w.mem, w'.mem, s, child)
    requires w'.hist == w.hist + [w'.mem] && w'.slots == w.slots + [s] && w'.kids == w.kids + [child]
    ensures Chain(w'.hist, w'.slots, w'.kids) && w'.hist[|w'.slots|] == w'.mem && w'.hist[0] == w.hist[0]
  {
    forall k | 0 <= k < |w'.slots| ensures Link(w'.hist[k], w'.hist[k + 1], w'.slots[k], w'.kids[k]) {
      if k < |w.slots| { assert Link(w.hist[k], w.hist[k + 1], w.slots[k], w.kids[k]); }
    }
  }

  function WidenTo(w: Descent, path: seq<nat>, level: nat, at: nat, user: bool): Descent
    requires level < |path| && at in w.mem && path[level] < |w.mem[at]| && w.mem[at][path[level]].Table?
  {
    var mem := Write(w.mem, at, path[level], Table(w.mem[at][path[level]].frame, user));
    w.(mem := mem, hist := [mem])
  }

  lemma DescentWidens(w: Descent, root: nat, path: seq<nat>, level: nat, at: nat, user: bool)
    requires DescentOk(w, root, path, level, at) && level < |path| - 1 && at in w.mem && |w.mem[at]| == ENTRIES
    requires w.mem[at][path[level]].Table?
    ensures DescentOk(WidenTo(w, path, level, at, user), root, path, level + 1, w.mem[at][path[level]].frame)
  {
    WidenStep(w.mem0, w.mem, w.dir, root, |path|, path, level, at, user);
    var w' := WidenTo(w, path, level, at, user);
    assert w.slots == [];
    forall k | level + 1 <= k < |path| && path[..k] in w.dir0
      ensures w.dir0[path[..k]] in w.mem0 && w.dir0[path[..k]] in w'.mem
      ensures w'.mem[w.dir0[path[..k]]] == w.mem0[w.dir0[path[..k]]]
    {
      assert |path[..k]| != |path[..level]|;
    }
  }

  /** A full allocator at an empty slot, or a large page, means there is no way down. */
  lemma DescentStuck(w: Descent, root: nat, path: seq<nat>, level: nat, at: nat)
    requires DescentOk(w, root, path, level, at) && level < |path| - 1 && at in w.mem && |w.mem[at]| == ENTRIES
    requires (w.mem[at][path[level]].Absent? && w.pool == []) || w.mem[at][path[level]].Leaf?
    ensures !Reachable(w.mem0, w.dir0, |path|, path, |w.pool0|)
    ensures w.mem[at][path[level]].Leaf? ==> w.slots == []
  {
    var n := level - |w.slots|;
    if w.slots == [] {
      SlotAt(w.mem, w.dir, root, |path|, path[..level], path[level]);
      assert path[..level + 1] == path[..level] + [path[level]];
    }
    DepthIs(w.mem0, w.dir0, root, |path|, path, |path| - 1, n);
  }

  lemma DescentEnds(w: Descent, root: nat, path: seq<nat>, at: nat)
    requires path != [] && DescentOk(w, root, path, |path| - 1, at)
    ensures Reachable(w.mem0, w.dir0, |path|, path, |w.pool0|)
    ensures |w.kids| == |path| - 1 - Depth(w.dir0, path, |path| - 1)
  {
    var n := |path| - 1 - |w.slots|;
    if w.slots == [] { assert path[..n] in w.dir0; }
    EndDepth(w.mem0, w.dir0, root, path, n, |w.pool0|);
  }

  lemma EndVacant(w: Descent, root: nat, path: seq<nat>, at: nat)
    requires path != [] && DescentOk(w, root, path, |path| - 1, at) && at in w.mem && |w.mem[at]| == ENTRIES
    ensures w.mem[at][path[|path| - 1]].Absent? <==> Vacant(w.mem0, w.dir0, path)
  {
    var p := path[..|path| - 1];
    if w.slots != [] {
      var n := |path| - 1 - |w.slots|;
      if p in w.dir0 { assert p[..n + 1] == path[..n + 1]; PrefixIn(w.mem0, w.dir0, root, |path|, p, n + 1); }
    }
  }

  lemma EndDepth(mem0: Mem, dir0: Dir, root: nat, path: seq<nat>, n: nat, frames: nat)
    requires n < |path| && Shape(mem0, dir0, root, |path|) && |path| - 1 - n <= frames
    requires if n == |path| - 1 then path[..n] in dir0 else Gap(mem0, dir0, path, n)
    ensures Depth(dir0, path, |path| - 1) == n && Reachable(mem0, dir0, |path|, path, frames)
  {
    DepthIs(mem0, dir0, root, |path|, path, |path| - 1, n);
  }

  // ---------------------------------------------------------------- tearing down

  predicate Under(q: seq<nat>, c: seq<nat>) { |c| <= |q| && q[..|c|] == c }

  /** The frames of these tables, in order. */
  ghost function Frames(dir: Dir, paths: seq<seq<nat>>): (fs: seq<nat>)
    requires forall q | q in paths :: q in dir
    ensures |fs| == |paths| && forall i | 0 <= i < |fs| :: fs[i] == dir[paths[i]]
  {
    seq(|paths|, i requires 0 <= i < |paths| => assert paths[i] in paths; dir[paths[i]])
  }

  /** gone lists, once each, the tables under c whose next index is below n, and c itself when whole. */
  ghost predicate Lists(gone: seq<seq<nat>>, dir: Dir, c: seq<nat>, n: nat, whole: bool) {
    && NoDup(gone)
    && forall q :: q in gone <==> q in dir && Under(q, c) && (if |q| == |c| then whole else q[|c|] < n)
  }

  lemma UnderChild(q: seq<nat>, c: seq<nat>, i: nat)
    ensures Under(q, c + [i]) <==> Under(q, c) && |q| > |c| && q[|c|] == i
  {
    if Under(q, c + [i]) { assert q[..|c|] == (c + [i])[..|c|] == c && q[|c|] == (c + [i])[|c|]; }
    if Under(q, c) && |q| > |c| && q[|c|] == i { assert q[..|c| + 1] == c + [i]; }
  }

  lemma ListsGrow(a: seq<seq<nat>>, b: seq<seq<nat>>, dir: Dir, c: seq<nat>, i: nat)
    requires Lists(a, dir, c, i, false) && Lists(b, dir, c + [i], ENTRIES, true) && (forall q | q in dir :: IsPath(q))
    ensures Lists(b + a, dir, c, i + 1, false)
  {
    forall q ensures q in b <==> q in dir && Under(q, c) && |q| > |c| && q[|c|] == i {
      UnderChild(q, c, i);
      if q in dir { assert IsPath(q); }
    }
    NoDupJoin(b, a);
  }

  lemma ListsWhole(a: seq<seq<nat>>, dir: Dir, c: seq<nat>)
    requires Lists(a, dir, c, ENTRIES, false) && c in dir
    ensures Lists([c] + a, dir, c, ENTRIES, true)
  {
    forall q ensures q in [c] + a <==> q in dir && Under(q, c) && (if |q| == |c| then true else q[|c|] < ENTRIES) {
      if Under(q, c) && |q| == |c| { assert q == q[..|c|]; }
    }
    assert c !in a;
  }

  /** The tables not listed are as they were, and the listed ones are the allocator's again. */
  ghost predicate Gone(dir: Dir, gone: seq<seq<nat>>, mem: Mem, pool: seq<nat>, mem': Mem, pool': seq<nat>) {
    && (forall q | q in gone :: q in dir) && pool' == Frames(dir, gone) + pool
    && (forall f :: f in mem' <==> f in mem && f !in Frames(dir, gone))
    && (forall f | f in mem' :: mem'[f] == mem[f])
  }

  lemma GoneJoin(dir: Dir, a: seq<seq<nat>>, b: seq<seq<nat>>, m0: Mem, p0: seq<nat>, m1: Mem, p1: seq<nat>, m2: Mem,
                 p2: seq<nat>)
    requires Gone(dir, a, m0, p0, m1, p1) && Gone(dir, b, m1, p1, m2, p2)
    ensures Gone(dir, b + a, m0, p0, m2, p2)
  {
    assert forall q | q in b + a :: q in dir;
    assert Frames(dir, b + a) == Frames(dir, b) + Frames(dir, a);
  }

  lemma GoneOne(dir: Dir, c: seq<nat>, m: Mem, p: seq<nat>)
    requires c in dir
    ensures Gone(dir, [c], m, p, m - {dir[c]}, [dir[c]] + p)
  {
    assert Frames(dir, [c]) == [dir[c]];
  }

  /** The tables under c are still what they were. */
  ghost predicate Intact(mem0: Mem, mem: Mem, dir: Dir, c: seq<nat>) {
    forall q {:trigger Under(q, c)} | q in dir && Under(q, c) ::
      dir[q] in mem0 && dir[q] in mem && mem[dir[q]] == mem0[dir[q]]
  }

  lemma FrameKept(dir: Dir, gone: seq<seq<nat>>, q: seq<nat>)
    requires OwnFrames(dir) && q in dir && q !in gone && forall g | g in gone :: g in dir
    ensures dir[q] !in Frames(dir, gone)
  {
    forall i | 0 <= i < |gone| ensures Frames(dir, gone)[i] != dir[q] { assert gone[i] in gone && gone[i] != q; }
  }

  /** Freeing earlier children leaves the next child's tables and the parent alone. */
  lemma IntactChild(mem0: Mem, m: Mem, p: seq<nat>, mem: Mem, pool: seq<nat>, dir: Dir, c: seq<nat>, i: nat,
                    gone: seq<seq<nat>>)
    requires OwnFrames(dir) && Intact(mem0, m, dir, c) && c in dir
    requires Lists(gone, dir, c, i, false) && Gone(dir, gone, m, p, mem, pool)
    ensures Intact(mem0, mem, dir, c + [i])
    ensures dir[c] in mem0 && dir[c] in mem && mem[dir[c]] == mem0[dir[c]]
  {
    forall q | q in dir && Under(q, c + [i]) ensures dir[q] in mem0 && dir[q] in mem && mem[dir[q]] == mem0[dir[q]] {
      assert q[..|c|] == (c + [i])[..|c|] == c && q[|c|] == (c + [i])[|c|] == i;
      assert Under(q, c) && q !in gone;
      FrameKept(dir, gone, q);
    }
    assert Under(c, c) && c !in gone;
    FrameKept(dir, gone, c);
  }

  lemma NothingUnder(mem0: Mem, dir: Dir, root: nat, levels: nat, c: seq<nat>)
    requires Shape(mem0, dir, root, levels) && (|c| >= levels || c !in dir)
    ensures Lists([], dir, c, ENTRIES, true)
  {
    forall q | q in dir ensures !Under(q, c) {
      assert NodeOk(mem0, dir, levels, q);
      if Under(q, c) { PrefixIn(mem0, dir, root, levels, q, |c|); }
    }
  }

  lemma ListsNone(dir: Dir, c: seq<nat>)
    ensures Lists([], dir, c, 0, false)
  {
  }

  const USER_HALF: nat := 256

  // ---------------------------------------------------------------- a new address space

  /** The directory of a root that shares the kernel half of another. */
  ghost function CloneDir(kdir: Dir, root: nat): Dir {
    imap p: seq<nat> | p == [] || (p in kdir && p[0] >= USER_HALF) :: if p == [] then root else kdir[p]
  }

  ghost predicate ClonedTable(table: seq<Entry>, kernel: seq<Entry>) {
    && |table| == |kernel| == ENTRIES && (forall i | 0 <= i < USER_HALF :: table[i].Absent?)
    && (forall i | USER_HALF <= i < ENTRIES :: table[i] == kernel[i])
  }

  lemma CloneSlots(mem: Mem, kdir: Dir, levels: nat, root: nat, table: seq<Entry>)
    requires [] in kdir && NodeOk(mem, kdir, levels, []) && levels > 1 && ClonedTable(table, mem[kdir[[]]])
    ensures SlotsOk(table, CloneDir(kdir, root), [])
  {
    forall i | 0 <= i < ENTRIES ensures SlotOk(table[i], CloneDir(kdir, root), [] + [i]) {
      assert SlotOk(mem[kdir[[]]][i], kdir, [] + [i]);
    }
  }

  lemma CloneNode(mem: Mem, mem': Mem, kdir: Dir, levels: nat, root: nat, p: seq<nat>)
    requires p in kdir && p != [] && p[0] >= USER_HALF && NodeOk(mem, kdir, levels, p) && root in mem'
    requires mem' == mem[root := mem'[root]] && root !in mem
    ensures p in CloneDir(kdir, root) && NodeOk(mem', CloneDir(kdir, root), levels, p)
  {
    var dir, up := CloneDir(kdir, root), p[..|p| - 1];
    assert up != [] ==> up[0] == p[0];
    if |p| < levels - 1 {
      forall i | 0 <= i < ENTRIES ensures SlotOk(mem[kdir[p]][i], dir, p + [i]) {
        assert SlotOk(mem[kdir[p]][i], kdir, p + [i]) && (p + [i])[0] == p[0];
      }
      assert SlotsOk(mem'[dir[p]], dir, p);
    }
  }

  lemma CloneShape(mem: Mem, mem': Mem, kdir: Dir, kroot: nat, levels: nat, root: nat)
    requires Shape(mem, kdir, kroot, levels) && levels > 1 && root !in mem && root != 0
    requires kroot in mem && root in mem' && mem' == mem[root := mem'[root]] && ClonedTable(mem'[root], mem[kroot])
    ensures Shape(mem', CloneDir(kdir, root), root, levels)
  {
    var dir := CloneDir(kdir, root);
    assert NodeOk(mem, kdir, levels, []);
    CloneSlots(mem, kdir, levels, root, mem'[root]);
    forall p | p in dir && p != [] ensures NodeOk(mem', dir, levels, p) && dir[p] in mem {
      assert NodeOk(mem, kdir, levels, p);
      CloneNode(mem, mem', kdir, levels, root, p);
    }
    assert NodeOk(mem', dir, levels, []);
  }

  /** A frame that was no table is on no walk. */
  lemma {:induction false} FreshInvisible(mem: Mem, mem': Mem, kdir: Dir, kroot: nat, levels: nat, root: nat,
                                          q: seq<nat>, k: nat)
    requires Shape(mem, kdir, kroot, levels) && root !in mem && root in mem' && mem' == mem[root := mem'[root]]
    requires |q| == levels && IsPath(q) && k < levels && q[..k] in kdir
    ensures Resolve(mem', kdir[q[..k]], q, k) == Resolve(mem, kdir[q[..k]], q, k)
    decreases levels - k
  {
    assert NodeOk(mem, kdir, levels, q[..k]);
    if k < levels - 1 {
      SlotAt(mem, kdir, kroot, levels, q[..k], q[k]);
      assert q[..k + 1] == q[..k] + [q[k]];
      if q[..k + 1] in kdir { FreshInvisible(mem, mem', kdir, kroot, levels, root, q, k + 1); }
    }
  }

  /** The clone resolves kernel-half paths as the original does and no user-half path. */
  lemma CloneWalks(mem: Mem, mem': Mem, kdir: Dir, kroot: nat, levels: nat, root: nat, q: seq<nat>)
    requires Shape(mem, kdir, kroot, levels) && levels > 1 && root !in mem && kroot in mem && |mem[kroot]| == ENTRIES
    requires root in mem' && mem' == mem[root := mem'[root]] && ClonedTable(mem'[root], mem[kroot])
    requires |q| == levels && IsPath(q)
    ensures Resolve(mem', root, q, 0) == if q[0] < USER_HALF then None else Resolve(mem, kroot, q, 0)
    ensures Resolve(mem', kroot, q, 0) == Resolve(mem, kroot, q, 0)
  {
    assert q[..0] == [];
    FreshInvisible(mem, mem', kdir, kroot, levels, root, q, 0);
    SlotAt(mem, kdir, kroot, levels, [], q[0]);
    assert q[..1] == [] + [q[0]];
    if q[..1] in kdir { FreshInvisible(mem, mem', kdir, kroot, levels, root, q, 1); }
  }

  lemma WholeIntact(mem: Mem, dir: Dir, root: nat, levels: nat)
    requires Shape(mem, dir, root, levels)
    ensures Intact(mem, mem, dir, [])
  {
    forall q | q in dir && Under(q, []) ensures dir[q] in mem { assert NodeOk(mem, dir, levels, q); }
  }

  lemma ListsRoot(a: seq<seq<nat>>, dir: Dir)
    requires Lists(a, dir, [], USER_HALF, false) && [] in dir
    ensures Lists([[]] + a, dir, [], USER_HALF, true)
  {
    assert [] !in a;
  }

  lemma GoneSupply(mem: Mem, dir: Dir, root: nat, levels: nat, gone: seq<seq<nat>>, pool: seq<nat>, mem': Mem,
                   pool': seq<nat>)
    requires Shape(mem, dir, root, levels) && Supply(pool, mem) && NoDup(gone)
    requires Gone(dir, gone, mem, pool, mem', pool')
    ensures Supply(pool', mem')
  {
    var fs := Frames(dir, gone);
    forall i | 0 <= i < |fs| ensures fs[i] in mem && fs[i] != 0 {
      assert gone[i] in gone && NodeOk(mem, dir, levels, gone[i]);
    }
    forall i, j | 0 <= i < j < |fs| ensures fs[i] != fs[j] {
      assert gone[i] in gone && gone[j] in gone && gone[i] != gone[j];
    }
    forall i, j | 0 <= i < j < |pool'| ensures pool'[i] != pool'[j] {
      if j >= |fs| { assert pool[j - |fs|] in pool; if i >= |fs| { assert pool[i - |fs|] != pool[j - |fs|]; } }
    }
    forall f | f in pool' ensures f !in mem' && f != 0 {
      if f !in fs { assert f in pool; }
    }
  }

  /** With the user half gone the root goes too. */
  lemma RootGone(mem0: Mem, dir: Dir, root: nat, levels: nat, gone: seq<seq<nat>>, pool0: seq<nat>, mem: Mem,
                 pool: seq<nat>)
    requires Shape(mem0, dir, root, levels) && Supply(pool0, mem0) && [] in dir && dir[[]] == root
    requires Lists(gone, dir, [], USER_HALF, false) && Gone(dir, gone, mem0, pool0, mem, pool)
    ensures Lists([[]] + gone, dir, [], USER_HALF, true)
    ensures Gone(dir, [[]] + gone, mem0, pool0, mem - {root}, [root] + pool) && Supply([root] + pool, mem - {root})
  {
    GoneOne(dir, [], mem, pool);
    GoneJoin(dir, gone, [[]], mem0, pool0, mem, pool, mem - {root}, [root] + pool);
    ListsRoot(gone, dir);
    GoneSupply(mem0, dir, root, levels, [[]] + gone, pool0, mem - {root}, [root] + pool);
  }

  lemma PathsOf(mem: Mem, dir: Dir, root: nat, levels: nat)
    requires Shape(mem, dir, root, levels)
    ensures forall q | q in dir :: IsPath(q)
  {
    forall q | q in dir ensures IsPath(q) { assert NodeOk(mem, dir, levels, q); }
  }

  /** The allocator's frames are real, different and not in use as tables. */
  ghost predicate Supply(pool: seq<nat>, mem: Mem) { NoDup(pool) && forall f | f in pool :: f !in mem && f != 0 }
}
