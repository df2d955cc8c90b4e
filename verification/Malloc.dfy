/** The C library's first-fit heap: a circular, address-ordered free list threaded through the
    arenas, in header-sized units. */
module Malloc {

  import opened Basics

  const HEADER: nat := 16
  const PAGE: nat := 4096
  const ARENA_MIN: nat := 16384

  // ---------------------------------------------------------------- the free list

  function After(free: seq<nat>, i: nat): nat
    requires i < |free|
  {
    free[if i == |free| - 1 then 0 else i + 1]
  }

  /** next leads around the list. */
  ghost predicate Ring(next: imap<nat, nat>, free: seq<nat>) {
    free != [] && forall i: nat {:trigger Links(next, free, i)} | i < |free| :: Links(next, free, i)
  }

  ghost predicate Links(next: imap<nat, nat>, free: seq<nat>, i: nat)
    requires i < |free|
  {
    free[i] in next && next[free[i]] == After(free, i)
  }

  /** Addresses ascend, and no block touches the one after it. */
  ghost predicate Gaps(units: imap<nat, nat>, free: seq<nat>) {
    && (forall i {:trigger free[i]} | 0 <= i < |free| :: free[i] in units)
    && (forall i {:trigger Gap(units, free, i)} | 0 <= i < |free| - 1 :: Gap(units, free, i))
  }

  ghost predicate Gap(units: imap<nat, nat>, free: seq<nat>, i: nat)
    requires i + 1 < |free|
  {
    free[i] in units && free[i] + units[free[i]] < free[i + 1]
  }

  lemma {:induction false} Ascends(units: imap<nat, nat>, free: seq<nat>, i: nat, j: nat)
    requires Gaps(units, free) && i < j < |free|
    ensures free[i] in units && free[i] + units[free[i]] < free[j]
    decreases j - i
  {
    assert Gap(units, free, i);
    if i + 1 < j { Ascends(units, free, i + 1, j); }
  }

  lemma GapsJoin(units: imap<nat, nat>, l: seq<nat>, r: seq<nat>)
    requires Gaps(units, l) && Gaps(units, r)
    requires l != [] && r != [] ==> l[|l| - 1] in units && l[|l| - 1] + units[l[|l| - 1]] < r[0]
    ensures Gaps(units, l + r)
  {
    forall i | 0 <= i < |l + r| - 1 ensures Gap(units, l + r, i) {
      if i < |l| - 1 { assert Gap(units, l, i); } else if i >= |l| { assert Gap(units, r, i - |l|); }
    }
  }

  lemma GapsCut(units: imap<nat, nat>, free: seq<nat>, k: nat)
    requires Gaps(units, free) && k <= |free|
    ensures Gaps(units, free[..k]) && Gaps(units, free[k..])
  {
    forall i | 0 <= i < k - 1 ensures Gap(units, free[..k], i) { assert Gap(units, free, i); }
    forall i | 0 <= i < |free| - k - 1 ensures Gap(units, free[k..], i) { assert Gap(units, free, i + k); }
  }

  lemma GapsElsewhere(units: imap<nat, nat>, free: seq<nat>, m: nat, u: nat)
    requires Gaps(units, free) && m !in free
    ensures Gaps(units[m := u], free)
  {
    var units' := units[m := u];
    forall i | 0 <= i < |free| - 1 ensures Gap(units', free, i) { assert Gap(units, free, i) && free[i] in free; }
  }

  ghost predicate Block(free: seq<nat>, live: set<nat>, base: nat, a: nat) { (a in free && a != base) || a in live }

  /** The block a cell belongs to. */
  ghost function HomeOf(home: imap<nat, nat>, x: nat): Option<nat> { if x in home then Some(home[x]) else None }

  /** A block's header and cells: the header says its size, and every cell knows its block. */
  ghost predicate BlockOk(units: imap<nat, nat>, home: imap<nat, nat>, base: nat, a: nat) {
    && a in units && units[a] >= 1 && a + units[a] != base
    && forall x: nat {:trigger HomeOf(home, x)} | a <= x < a + units[a] :: HomeOf(home, x) == Some(a)
  }

  /** Every cell of every arena is in the block it belongs to. */
  ghost predicate CellOk(free: seq<nat>, live: set<nat>, units: imap<nat, nat>, base: nat, a: nat, x: nat) {
    Block(free, live, base, a) && a in units && a <= x < a + units[a]
  }

  ghost predicate Tiled(units: imap<nat, nat>, free: seq<nat>, live: set<nat>, home: imap<nat, nat>, base: nat) {
    && (forall a: nat {:trigger BlockOk(units, home, base, a)} | Block(free, live, base, a) ::
       BlockOk(units, home, base, a))
    && (forall x: nat {:trigger HomeOf(home, x)} | HomeOf(home, x).Some? ::
       CellOk(free, live, units, base, HomeOf(home, x).value, x))
    && HomeOf(home, base).None?
  }

  ghost predicate HeapOk(next: imap<nat, nat>, units: imap<nat, nat>, free: seq<nat>, live: set<nat>, home: imap<nat,
                         nat>, base: nat) {
    && Ring(next, free) && Gaps(units, free) && base in free && base in units && units[base] == 0
    && (forall a | a in live :: a !in free) && Tiled(units, free, live, home, base)
  }

  lemma BlockHome(units: imap<nat, nat>, free: seq<nat>, live: set<nat>, home: imap<nat, nat>, base: nat, b: nat)
    requires Tiled(units, free, live, home, base) && Block(free, live, base, b)
    ensures HomeOf(home, b) == Some(b)
  {
    assert BlockOk(units, home, base, b);
  }

  /** Two blocks share no cell. */
  lemma BlocksApart(units: imap<nat, nat>, free: seq<nat>, live: set<nat>, home: imap<nat, nat>, base: nat, a: nat,
                    b: nat)
    requires Tiled(units, free, live, home, base) && Block(free, live, base, a) && Block(free, live, base, b) && a < b
    ensures a in units && a + units[a] <= b
  {
    assert BlockOk(units, home, base, a) && BlockOk(units, home, base, b);
    assert HomeOf(home, b) == Some(b);
  }

  /** No block reaches over or up to the anchor. */
  lemma BaseApart(units: imap<nat, nat>, free: seq<nat>, live: set<nat>, home: imap<nat, nat>, base: nat, a: nat)
    requires Tiled(units, free, live, home, base) && Block(free, live, base, a) && a < base
    ensures a in units && a + units[a] < base
  {
    assert BlockOk(units, home, base, a);
    assert HomeOf(home, base).None?;
  }

  // ---------------------------------------------------------------- giving a block back

  /** How many free blocks lie below a. */
  function Below(free: seq<nat>, a: nat): (k: nat)
    ensures k <= |free| && (forall i | 0 <= i < k :: free[i] < a) && (k < |free| ==> free[k] >= a)
  {
    if free == [] || free[0] >= a then 0
    else
      var k := 1 + Below(free[1..], a);
      assert forall i | 1 <= i < k :: free[i] == free[1..][i - 1];
      k
  }

  /** The block after which a goes: the last one below it, or the last of all. */
  function Slot(free: seq<nat>, a: nat): (t: nat)
    requires free != []
    ensures t < |free|
  {
    var k := Below(free, a);
    if k == 0 then |free| - 1 else k - 1
  }

  /** The search stops at that place and nowhere else. */
  lemma StopsAt(units: imap<nat, nat>, free: seq<nat>, a: nat, i: nat)
    requires Gaps(units, free) && i < |free| && a !in free
    ensures
      var p, n := free[i], free[if i == |free| - 1 then 0 else i + 1];
      (a > p && a < n) || (p >= n && (a > p || a < n)) <==> i == Slot(free, a)
  {
    var k, n := Below(free, a), |free|;
    if k < n { assert free[k] in free; }
    if i < n - 1 { Ascends(units, free, i, i + 1); }
    if k < i { Ascends(units, free, k, i); }
    if 0 < n - 1 { Ascends(units, free, 0, n - 1); }
    if k < n - 1 { Ascends(units, free, k, n - 1); }
  }

  /** Blocks on either side of a end before it and begin after it; a block it reaches is a real one. */
  ghost predicate Fits(units: imap<nat, nat>, free: seq<nat>, a: nat) {
    && a in units && units[a] >= 1
    && forall f: nat | f in free ::
         f in units && f != a && (f < a ==> f + units[f] <= a) && (f > a ==> a + units[a] <= f)
             && (f == a + units[a] ==> units[f] >= 1)
  }

  /** What becomes of a and the neighbours it touches: free[lo..hi] goes, [first, end) takes its place. */
  datatype Join = Join(lo: nat, hi: nat, first: nat, end: nat)

  ghost function JoinOf(units: imap<nat, nat>, free: seq<nat>, a: nat): (j: Join)
    requires Gaps(units, free) && a in units
    ensures j.lo <= j.hi <= |free|
  {
    var k := Below(free, a);
    var down := k > 0 && free[k - 1] + units[free[k - 1]] == a;
    var up := k < |free| && a + units[a] == free[k];
    Join(if down then k - 1 else k, if up then k + 1 else k, if down then free[k - 1] else a,
         if up then free[k] + units[free[k]] else a + units[a])
  }

  /** The lists below and above the joined block, and what it takes in. */
  ghost predicate JoinOk(units: imap<nat, nat>, free: seq<nat>, a: nat, j: Join)
    requires j.lo <= j.hi <= |free| && a in units
  {
    && Gaps(units, free[..j.lo]) && Gaps(units, free[j.hi..]) && j.first <= a && a + units[a] <= j.end
    && (forall f: nat | f in free[..j.lo] :: f in units && f + units[f] < j.first)
    && (forall f: nat | f in free[j.lo..j.hi] :: f in units && j.first <= f && f + units[f] <= j.end && f < j.end)
    && (forall f: nat | f in free[j.hi..] :: j.end < f)
    && (forall x: nat {:trigger Part(units, free[j.lo..j.hi], a, x)} | j.first <= x < j.end ::
       Part(units, free[j.lo..j.hi], a, x))
  }

  /** x is a cell of a or of one of these blocks. */
  ghost predicate Part(units: imap<nat, nat>, blocks: seq<nat>, a: nat, x: nat) {
    (a in units && a <= x < a + units[a]) || exists f :: f in blocks && f in units && f <= x < f + units[f]
  }

  lemma LowSide(units: imap<nat, nat>, free: seq<nat>, a: nat)
    requires Gaps(units, free) && Fits(units, free, a)
    ensures var j := JoinOf(units, free, a);
            Gaps(units, free[..j.lo]) && j.first <= a && forall f: nat | f in free[..j.lo] ::
                f in units && f + units[f] < j.first
  {
    var j, k := JoinOf(units, free, a), Below(free, a);
    GapsCut(units, free, j.lo);
    forall i | 0 <= i < j.lo ensures free[i] in units && free[i] + units[free[i]] < j.first {
      assert free[i] in free;
      if j.lo < k { Ascends(units, free, i, j.lo); }
      else if i < k - 1 { Ascends(units, free, i, k - 1); }
    }
  }

  lemma HighSide(units: imap<nat, nat>, free: seq<nat>, a: nat)
    requires Gaps(units, free) && Fits(units, free, a)
    ensures var j := JoinOf(units, free, a);
            Gaps(units, free[j.hi..]) && a + units[a] <= j.end && forall f: nat | f in free[j.hi..] :: j.end < f
  {
    var j, k := JoinOf(units, free, a), Below(free, a);
    GapsCut(units, free, j.hi);
    if k < |free| { assert free[k] in free; }
    forall i | j.hi <= i < |free| ensures j.end < free[i] {
      if k < i { Ascends(units, free, k, i); }
    }
  }

  lemma MidSide(units: imap<nat, nat>, free: seq<nat>, a: nat)
    requires Gaps(units, free) && Fits(units, free, a)
    ensures
      var j := JoinOf(units, free, a);
      && (forall f: nat | f in free[j.lo..j.hi] :: f in units && j.first <= f && f + units[f] <= j.end && f < j.end)
      && (forall x: nat {:trigger Part(units, free[j.lo..j.hi], a, x)} | j.first <= x < j.end ::
         Part(units, free[j.lo..j.hi], a, x))
  {
    var j, k := JoinOf(units, free, a), Below(free, a);
    if j.lo < k { assert free[k - 1] in free; assert free[k - 1] in free[j.lo..j.hi]; }
    if k < j.hi { assert free[k] in free; assert free[k] in free[j.lo..j.hi]; }
  }

  lemma Joined(units: imap<nat, nat>, free: seq<nat>, a: nat)
    requires Gaps(units, free) && Fits(units, free, a)
    ensures JoinOk(units, free, a, JoinOf(units, free, a))
  {
    LowSide(units, free, a);
    MidSide(units, free, a);
    HighSide(units, free, a);
  }

  function Spliced(free: seq<nat>, j: Join): seq<nat>
    requires j.lo <= j.hi <= |free|
  {
    free[..j.lo] + [j.first] + free[j.hi..]
  }

  lemma SplicedGaps(units: imap<nat, nat>, free: seq<nat>, a: nat, j: Join)
    requires j.lo <= j.hi <= |free| && a in units && JoinOk(units, free, a, j)
    ensures Gaps(units[j.first := j.end - j.first], Spliced(free, j))
  {
    var l, r, units' := free[..j.lo], free[j.hi..], units[j.first := j.end - j.first];
    GapsElsewhere(units, l, j.first, j.end - j.first);
    GapsElsewhere(units, r, j.first, j.end - j.first);
    if l != [] { assert l[|l| - 1] in l; }
    if r != [] { assert r[0] in r; }
    GapsJoin(units', l, [j.first]);
    GapsJoin(units', l + [j.first], r);
  }

  /** The list loses what lies in the joined span and gains its first address. */
  lemma SplicedList(units: imap<nat, nat>, free: seq<nat>, a: nat, j: Join)
    requires j.lo <= j.hi <= |free| && a in units && units[a] >= 1 && JoinOk(units, free, a, j)
    ensures forall b: nat :: b in Spliced(free, j) <==> b == j.first || (b in free && !(j.first <= b < j.end))
  {
    var l, m, r := free[..j.lo], free[j.lo..j.hi], free[j.hi..];
    assert free == l + m + r;
    forall f: nat | f in l ensures f < j.first {}
    forall f: nat | f in m ensures j.first <= f < j.end {}
    forall f: nat | f in r ensures j.end < f {}
  }

  // ---------------------------------------------------------------- cells follow their blocks

  /** The cells of [first, end) belong to first now. */
  ghost function Claim(home: imap<nat, nat>, first: nat, end: nat): imap<nat, nat> {
    imap x: nat | x in home :: if first <= x < end then first else home[x]
  }

  /** The blocks that make up [first, end) are gone into first. */
  ghost predicate Swallows(units: imap<nat, nat>, free: seq<nat>, live: set<nat>, home: imap<nat, nat>, base: nat,
                           free': seq<nat>, live': set<nat>, first: nat, end: nat) {
    && first < end && end != base && first != base
    && (forall x: nat {:trigger HomeOf(home, x)} | first <= x < end :: HomeOf(home, x).Some?)
    && (forall b: nat {:trigger BlockOk(units, home, base, b)} | Block(free, live, base, b) ::
          if first <= b < end then b in units && b + units[b] <= end
              else b in units && (b + units[b] <= first || end <= b))
    && (forall b: nat :: Block(free', live', base, b) <==>
       b == first || (Block(free, live, base, b) && !(first <= b < end)))
  }

  lemma ClaimTiles(units: imap<nat, nat>, free: seq<nat>, live: set<nat>, home: imap<nat, nat>, base: nat,
                   free': seq<nat>, live': set<nat>, first: nat, end: nat)
    requires Tiled(units, free, live, home, base) && Swallows(units, free, live, home, base, free', live', first, end)
    ensures Tiled(units[first := end - first], free', live', Claim(home, first, end), base)
  {
    var units', home' := units[first := end - first], Claim(home, first, end);
    forall x: nat
        ensures HomeOf(home', x) == (if HomeOf(home, x).Some? && first <= x < end then Some(first)
          else HomeOf(home, x)) {}
    forall b: nat | Block(free', live', base, b) ensures BlockOk(units', home', base, b) {
      if b != first {
        assert BlockOk(units, home, base, b);
        forall x: nat | b <= x < b + units[b] ensures HomeOf(home', x) == Some(b) { assert HomeOf(home, x) == Some(b); }
      }
    }
    forall x: nat | HomeOf(home', x).Some? ensures CellOk(free', live', units', base, HomeOf(home', x).value, x) {
      if !(first <= x < end) {
        var b := HomeOf(home, x).value;
        assert CellOk(free, live, units, base, b, x);
        assert BlockOk(units, home, base, b);
      }
    }
    assert HomeOf(home, base).None?;
  }

  /** Giving a back swallows exactly the free neighbours it touches. */
  lemma ReturnSwallows(units: imap<nat, nat>, free: seq<nat>, live: set<nat>, home: imap<nat, nat>, base: nat, a: nat)
    requires Gaps(units, free) && base in free && units[base] == 0 && Tiled(units, free, live, home, base)
    requires a in live && Fits(units, free, a) && forall l | l in live :: l !in free
    ensures var j := JoinOf(units, free, a);
            && Swallows(units, free, live, home, base, Spliced(free, j), live - {a}, j.first, j.end)
            && base in Spliced(free, j) && forall l | l in live - {a} :: l !in Spliced(free, j)
  {
    var j := JoinOf(units, free, a);
    Joined(units, free, a);
    SplicedList(units, free, a, j);
    assert BlockOk(units, home, base, a);
    SpanEnds(units, free, live, home, base, a);
    forall b: nat | Block(free, live, base, b)
      ensures b in units && (if j.first <= b < j.end then b == a || b in free else true)
      ensures if j.first <= b < j.end then b + units[b] <= j.end else b + units[b] <= j.first || j.end <= b
    {
      OtherApart(units, free, live, home, base, a, b);
    }
    forall x: nat | j.first <= x < j.end ensures HomeOf(home, x).Some? {
      SpanHome(units, free, live, home, base, a, x);
    }
  }

  /** The joined block is no anchor and does not reach it. */
  lemma SpanEnds(units: imap<nat, nat>, free: seq<nat>, live: set<nat>, home: imap<nat, nat>, base: nat, a: nat)
    requires Gaps(units, free) && base in free && units[base] == 0 && Tiled(units, free, live, home, base)
    requires a in live && Fits(units, free, a)
    ensures var j := JoinOf(units, free, a);
            j.first != base && j.end != base && Block(free, live, base, j.first) && forall f | f in free[j.lo..j.hi] ::
                Block(free, live, base, f)
  {
    var j, k := JoinOf(units, free, a), Below(free, a);
    assert BlockOk(units, home, base, a);
    if j.lo < k { assert free[k - 1] in free; }
    if k < j.hi { assert free[k] in free; assert BlockOk(units, home, base, free[k]); }
  }

  /** Each cell of the span belongs to a or to a block it takes in. */
  lemma SpanHome(units: imap<nat, nat>, free: seq<nat>, live: set<nat>, home: imap<nat, nat>, base: nat, a: nat, x: nat)
    requires Gaps(units, free) && base in free && units[base] == 0 && Tiled(units, free, live, home, base)
    requires a in live && Fits(units, free, a)
    requires var j := JoinOf(units, free, a); j.first <= x < j.end
    ensures var j := JoinOf(units, free, a);
            HomeOf(home, x).Some? && (HomeOf(home, x).value == a || HomeOf(home, x).value in free[j.lo..j.hi])
  {
    var j := JoinOf(units, free, a);
    MidSide(units, free, a);
    SpanEnds(units, free, live, home, base, a);
    assert Part(units, free[j.lo..j.hi], a, x);
    if a <= x < a + units[a] {
      assert BlockOk(units, home, base, a);
    } else {
      var f :| f in free[j.lo..j.hi] && f in units && f <= x < f + units[f];
      assert BlockOk(units, home, base, f);
    }
  }

  lemma OtherApart(units: imap<nat, nat>, free: seq<nat>, live: set<nat>, home: imap<nat, nat>, base: nat, a: nat,
                   b: nat)
    requires Gaps(units, free) && base in free && units[base] == 0 && Tiled(units, free, live, home, base)
    requires a in live && Fits(units, free, a) && Block(free, live, base, b)
    ensures var j := JoinOf(units, free, a);
            && b in units && (j.first <= b < j.end ==> (b == a || b in free) && b + units[b] <= j.end)
            && (b < j.first || j.end <= b ==> b + units[b] <= j.first || j.end <= b)
  {
    var j := JoinOf(units, free, a);
    assert BlockOk(units, home, base, b) && HomeOf(home, b) == Some(b);
    if b < j.first {
      SpanEnds(units, free, live, home, base, a);
      BlocksApart(units, free, live, home, base, b, j.first);
    } else if b < j.end {
      SpanHome(units, free, live, home, base, a, b);
      MidSide(units, free, a);
      HighSide(units, free, a);
    }
  }

  /** A live block fits between the free ones. */
  lemma LiveFits(units: imap<nat, nat>, free: seq<nat>, live: set<nat>, home: imap<nat, nat>, base: nat, a: nat)
    requires Gaps(units, free) && base in free && units[base] == 0 && Tiled(units, free, live, home, base) && a in live
    requires a !in free
    ensures Fits(units, free, a)
  {
    assert BlockOk(units, home, base, a);
    forall f: nat | f in free
      ensures f in units && f != a && (f < a ==> f + units[f] <= a) && (f > a ==> a + units[a] <= f)
      ensures (f == a + units[a] ==> units[f] >= 1)
    {
      var i :| 0 <= i < |free| && free[i] == f;
      if f != base {
        assert BlockOk(units, home, base, f);
        if f < a {
          BlocksApart(units, free, live, home, base, f, a);
        } else {
          BlocksApart(units, free, live, home, base, a, f);
        }
      } else if a < base {
        BaseApart(units, free, live, home, base, a);
      }
    }
  }

  // ---------------------------------------------------------------- links

  /** The two pointer writes of free. */
  function Relink(next: imap<nat, nat>, units: imap<nat, nat>, p: nat, a: nat): imap<nat, nat>
    requires p in next && next[p] in next && p in units && a in units
  {
    var after := if a + units[a] == next[p] then next[next[p]] else next[p];
    next[a := after][p := if p + units[p] == a then after else a]
  }

  /** At the insertion point the tests of free are the tests of the join. */
  lemma SlotJoins(units: imap<nat, nat>, free: seq<nat>, a: nat)
    requires free != [] && Gaps(units, free) && Fits(units, free, a)
    ensures
      var t, k, j := Slot(free, a), Below(free, a), JoinOf(units, free, a);
      && (a + units[a] == After(free, t) <==> j.hi == k + 1)
      && (free[t] + units[free[t]] == a <==> j.lo + 1 == k)
      && (j.hi == k + 1 ==> After(free, t) == free[k]) && (j.lo + 1 == k ==> free[t] == free[k - 1])
  {
    var t, k, n := Slot(free, a), Below(free, a), |free|;
    if k == n { assert free[0] in free; }
    if k == 0 { assert free[n - 1] in free; if n > 1 { Ascends(units, free, 0, n - 1); } }
    if k < n { assert free[k] in free; }
  }

  /** The block at i, counting around. */
  function Next(free: seq<nat>, i: nat): nat
    requires free != []
  {
    if i < |free| then free[i] else free[0]
  }

  /** What the block after a is from now on, and every link. */
  lemma RelinkIs(next: imap<nat, nat>, units: imap<nat, nat>, free: seq<nat>, a: nat)
    requires Ring(next, free) && Gaps(units, free) && Fits(units, free, a)
    ensures
      var t, j, k := Slot(free, a), JoinOf(units, free, a), Below(free, a);
      var p, after := free[t], Next(free, j.hi);
      && p in next && next[p] in next && p in units
      && Relink(next, units, p, a) == next[a := after][p := if j.lo + 1 == k then after else a]
  {
    var t, j, k, n := Slot(free, a), JoinOf(units, free, a), Below(free, a), |free|;
    SlotJoins(units, free, a);
    assert Links(next, free, t);
    if k < n { assert Links(next, free, k); }
    else { assert Links(next, free, 0); }
  }

  lemma SplicedAt(free: seq<nat>, j: Join, i: nat)
    requires j.lo <= j.hi <= |free|
    ensures |Spliced(free, j)| == |free| - (j.hi - j.lo) + 1
    ensures i < |Spliced(free, j)| ==>
      Spliced(free, j)[i] == if i < j.lo then free[i] else if i == j.lo then j.first else free[i - j.lo - 1 + j.hi]
  {
  }

  lemma RelinkLow(next: imap<nat, nat>, units: imap<nat, nat>, free: seq<nat>, a: nat, i: nat)
    requires Ring(next, free) && Gaps(units, free) && Fits(units, free, a) && i < JoinOf(units, free, a).lo
    ensures
      var t, j, k := Slot(free, a), JoinOf(units, free, a), Below(free, a);
      var p, after, free' := free[t], Next(free, j.hi), Spliced(free, j);
      var next' := next[a := after][p := if j.lo + 1 == k then after else a];
      Links(next', free', i)
  {
    var t, j := Slot(free, a), JoinOf(units, free, a);
    assert free[i] in free && Links(next, free, i);
    SplicedAt(free, j, i);
    SplicedAt(free, j, i + 1);
    if i < t { Ascends(units, free, i, t); }
  }

  lemma RelinkMid(next: imap<nat, nat>, units: imap<nat, nat>, free: seq<nat>, a: nat)
    requires Ring(next, free) && Gaps(units, free) && Fits(units, free, a)
    requires |Spliced(free, JoinOf(units, free, a))| > 1
    ensures
      var t, j, k := Slot(free, a), JoinOf(units, free, a), Below(free, a);
      var p, after, free' := free[t], Next(free, j.hi), Spliced(free, j);
      var next' := next[a := after][p := if j.lo + 1 == k then after else a];
      Links(next', free', j.lo)
  {
    var t, j, k := Slot(free, a), JoinOf(units, free, a), Below(free, a);
    assert free[t] in free;
  }

  lemma RelinkHigh(next: imap<nat, nat>, units: imap<nat, nat>, free: seq<nat>, a: nat, x: nat)
    requires Ring(next, free) && Gaps(units, free) && Fits(units, free, a) && JoinOf(units, free, a).hi <= x < |free|
    ensures
      var t, j, k := Slot(free, a), JoinOf(units, free, a), Below(free, a);
      var p, after, free' := free[t], Next(free, j.hi), Spliced(free, j);
      var next' := next[a := after][p := if j.lo + 1 == k then after else a];
      Links(next', free', x - j.hi + j.lo + 1)
  {
    var t, j, k := Slot(free, a), JoinOf(units, free, a), Below(free, a);
    Apart(units, free, a, t, x);
    RelinkAbove(next, free, j, k, t, a, x, Next(free, j.hi));
  }

  lemma Apart(units: imap<nat, nat>, free: seq<nat>, a: nat, i: nat, x: nat)
    requires Gaps(units, free) && Fits(units, free, a) && i < |free| && x < |free|
    ensures free[x] != a && (x != i ==> free[x] != free[i])
  {
    assert free[x] in free;
    if i < x { Ascends(units, free, i, x); } else if x < i { Ascends(units, free, x, i); }
  }

  lemma RelinkAbove(next: imap<nat, nat>, free: seq<nat>, j: Join, k: nat, t: nat, a: nat, x: nat, after: nat)
    requires Ring(next, free) && j.lo <= k <= j.hi <= x < |free| && t == if k == 0 then |free| - 1 else k - 1
    requires if j.lo + 1 == k then j.first == free[t] else j.lo == k && j.first == a
    requires free[x] != a && (x != t ==> free[x] != free[t])
    ensures
      Links(next[a := after][free[t] := if j.lo + 1 == k then after else a], Spliced(free, j), x - j.hi + j.lo + 1)
  {
    assert Links(next, free, x);
    SplicedAt(free, j, x - j.hi + j.lo + 1);
    SplicedAt(free, j, x - j.hi + j.lo + 2);
    SplicedAt(free, j, 0);
  }

  lemma RelinkRing(next: imap<nat, nat>, units: imap<nat, nat>, free: seq<nat>, a: nat)
    requires Ring(next, free) && Gaps(units, free) && Fits(units, free, a)
    requires |Spliced(free, JoinOf(units, free, a))| > 1
    ensures
      var p := free[Slot(free, a)];
      p in next && next[p] in next && p in units && Ring(Relink(next, units, p, a),
          Spliced(free, JoinOf(units, free, a)))
  {
    var j := JoinOf(units, free, a);
    var free' := Spliced(free, j);
    RelinkIs(next, units, free, a);
    var next' := Relink(next, units, free[Slot(free, a)], a);
    forall i: nat | i < |free'| ensures Links(next', free', i) {
      if i < j.lo { RelinkLow(next, units, free, a, i); }
      else if i == j.lo { RelinkMid(next, units, free, a); }
      else { RelinkHigh(next, units, free, a, i - j.lo - 1 + j.hi); }
    }
  }

  // ---------------------------------------------------------------- the heap

  lemma {:induction false} SplicedMany(units: imap<nat, nat>, free: seq<nat>, live: set<nat>, home: imap<nat, nat>,
                                       base: nat, a: nat)
    requires Gaps(units, free) && base in free && units[base] == 0 && Tiled(units, free, live, home, base)
    requires a in live && Fits(units, free, a) && forall l | l in live :: l !in free
    ensures |Spliced(free, JoinOf(units, free, a))| > 1
  {
    var j := JoinOf(units, free, a);
    ReturnSwallows(units, free, live, home, base, a);
    assert base in Spliced(free, j) && j.first in Spliced(free, j) && base != j.first;
  }

  /** The heap is in order again once a is given back. */
  lemma ReturnKeeps(next: imap<nat, nat>, units: imap<nat, nat>, free: seq<nat>, live: set<nat>, home: imap<nat, nat>,
                    base: nat, a: nat)
    requires HeapOk(next, units, free, live, home, base) && a in live
    ensures Fits(units, free, a)
    ensures
      var j, p := JoinOf(units, free, a), free[Slot(free, a)];
      && p in next && next[p] in next && p in units && j.first < j.end && p in Spliced(free, j)
      && HeapOk(Relink(next, units, p, a), units[j.first := j.end - j.first], Spliced(free, j), live - {a},
         Claim(home, j.first, j.end), base)
  {
    LiveFits(units, free, live, home, base, a);
    SplicedMany(units, free, live, home, base, a);
    RelinkRing(next, units, free, a);
    ReturnTiles(units, free, live, home, base, a);
    SlotStays(units, free, live, home, base, a);
  }

  lemma ReturnTiles(units: imap<nat, nat>, free: seq<nat>, live: set<nat>, home: imap<nat, nat>, base: nat, a: nat)
    requires Gaps(units, free) && base in free && base in units && units[base] == 0
    requires Tiled(units, free, live, home, base)
    requires a in live && Fits(units, free, a) && forall l | l in live :: l !in free
    ensures
      var j := JoinOf(units, free, a);
      && j.first < j.end && j.first != base && base in Spliced(free, j)
      && (forall l | l in live - {a} :: l !in Spliced(free, j))
      && Gaps(units[j.first := j.end - j.first], Spliced(free, j))
      && Tiled(units[j.first := j.end - j.first], Spliced(free, j), live - {a}, Claim(home, j.first, j.end), base)
  {
    var j := JoinOf(units, free, a);
    Joined(units, free, a);
    SplicedGaps(units, free, a, j);
    ReturnSwallows(units, free, live, home, base, a);
    ClaimTiles(units, free, live, home, base, Spliced(free, j), live - {a}, j.first, j.end);
  }

  lemma SlotStays(units: imap<nat, nat>, free: seq<nat>, live: set<nat>, home: imap<nat, nat>, base: nat, a: nat)
    requires Gaps(units, free) && base in free && units[base] == 0 && Tiled(units, free, live, home, base)
    requires a in live && Fits(units, free, a) && forall l | l in live :: l !in free
    ensures free[Slot(free, a)] in Spliced(free, JoinOf(units, free, a))
  {
    var j, k, t := JoinOf(units, free, a), Below(free, a), Slot(free, a);
    SpanEnds(units, free, live, home, base, a);
    var f := Spliced(free, j);
    if k > 0 {
      assert f[k - 1] == free[k - 1];
    } else {
      SplicedMany(units, free, live, home, base, a);
      assert f[|f| - 1] == free[|free| - 1];
    }
  }

  /** Steps from i around to t. */
  ghost function Distance(i: nat, t: nat, n: nat): nat
    requires i < n && t < n
  {
    if i <= t then t - i else n - i + t
  }

  /** k lies strictly after s and before at, going around. */
  ghost predicate Between(s: nat, k: int, at: nat) {
    if s < at then s < k < at else s < k || k < at
  }

  /** The size of a dead header does not matter. */
  lemma UnitsElsewhere(next: imap<nat, nat>, units: imap<nat, nat>, free: seq<nat>, live: set<nat>, home: imap<nat,
                       nat>, base: nat, x: nat, u: nat)
    requires HeapOk(next, units, free, live, home, base) && !Block(free, live, base, x) && x != base
    ensures HeapOk(next, units[x := u], free, live, home, base)
  {
    GapsElsewhere(units, free, x, u);
    forall b: nat | Block(free, live, base, b) ensures BlockOk(units[x := u], home, base, b) {
      assert BlockOk(units, home, base, b);
    }
    forall y: nat | HomeOf(home, y).Some? ensures CellOk(free, live, units[x := u], base, HomeOf(home, y).value, y) {
      assert CellOk(free, live, units, base, HomeOf(home, y).value, y);
    }
  }

  /** The size writes of free: the block takes in what follows it, then is taken in by what precedes. */
  function Resize(next: imap<nat, nat>, units: imap<nat, nat>, p: nat, a: nat): imap<nat, nat>
    requires p in next && next[p] in units && p in units && a in units
  {
    var grown := if a + units[a] == next[p] then units[a := units[a] + units[next[p]]] else units;
    if p + units[p] == a then grown[p := units[p] + grown[a]] else grown
  }

  lemma ResizeIs(next: imap<nat, nat>, units: imap<nat, nat>, free: seq<nat>, a: nat)
    requires Ring(next, free) && Gaps(units, free) && Fits(units, free, a)
    ensures
      var j, p := JoinOf(units, free, a), free[Slot(free, a)];
      && p in next && next[p] in units && p in units && p != a && j.first <= j.end
      && a in Resize(next, units, p, a)
      && Resize(next, units, p, a) == units[j.first := j.end - j.first][a := Resize(next, units, p, a)[a]]
      && (j.first == a ==> Resize(next, units, p, a) == units[a := j.end - a]) && j.first in Resize(next, units, p, a)
      && Resize(next, units, p, a)[j.first] == j.end - j.first
  {
    var j, t := JoinOf(units, free, a), Slot(free, a);
    SlotJoins(units, free, a);
    LowSide(units, free, a);
    HighSide(units, free, a);
    assert Links(next, free, t) && free[t] in free && After(free, t) in free;
  }

  ghost function Forward(free: seq<nat>, i: nat): (j: nat)
    requires i < |free|
    ensures j < |free|
  {
    if i == |free| - 1 then 0 else i + 1
  }

  /** Going around from s the walk has come to at, and prev is where it came from. */
  ghost predicate Seeking(units: imap<nat, nat>, free: seq<nat>, s: nat, at: nat, p: nat, prev: nat, want: nat) {
    && s < |free| && at < |free| && p == free[at] && p in free && p in units
    && prev == free[if at == 0 then |free| - 1 else at - 1] && SmallBefore(units, free, s, at, want)
  }

  lemma SeekStarts(next: imap<nat, nat>, units: imap<nat, nat>, free: seq<nat>, s: nat, want: nat)
    requires Ring(next, free) && Gaps(units, free) && s < |free|
    ensures free[s] in next && next[free[s]] in next
    ensures Seeking(units, free, s, Forward(free, s), next[free[s]], free[s], want)
  {
    assert Links(next, free, s) && Links(next, free, Forward(free, s)) && free[Forward(free, s)] in units;
  }

  lemma SeekOn(next: imap<nat, nat>, units: imap<nat, nat>, free: seq<nat>, s: nat, at: nat, p: nat, prev: nat,
               want: nat)
    requires Ring(next, free) && Gaps(units, free) && Seeking(units, free, s, at, p, prev, want)
    requires p != free[s] && units[p] < want
    ensures p in next && next[p] in next && Seeking(units, free, s, Forward(free, at), next[p], p, want)
    ensures Distance(Forward(free, at), s, |free|) < Distance(at, s, |free|)
  {
    assert Links(next, free, at) && Links(next, free, Forward(free, at)) && free[Forward(free, at)] in units;
    forall k {:trigger free[k]} | 0 <= k < |free| && Between(s, k, Forward(free, at))
        ensures free[k] in units && units[free[k]] < want {
      assert k == at || Between(s, k, at);
    }
  }

  /** Back at the start with nothing found, nothing is large enough. */
  lemma SeekEnds(units: imap<nat, nat>, free: seq<nat>, s: nat, at: nat, p: nat, prev: nat, want: nat)
    requires Gaps(units, free) && Seeking(units, free, s, at, p, prev, want) && p == free[s] && units[p] < want
    ensures forall f | f in free && f in units :: units[f] < want
  {
    if at < s { Ascends(units, free, at, s); } else if s < at { Ascends(units, free, s, at); }
    forall f | f in free && f in units ensures units[f] < want {
      var k :| 0 <= k < |free| && free[k] == f;
      assert k == at || Between(s, k, at);
    }
  }

  /** Going around from s, every block passed before at is too small. */
  ghost predicate SmallBefore(units: imap<nat, nat>, free: seq<nat>, s: nat, at: nat, want: nat) {
    forall k {:trigger free[k]} | 0 <= k < |free| && Between(s, k, at) :: free[k] in units && units[free[k]] < want
  }

  class Heap {
    const base: nat
    var next: imap<nat, nat>
    var units: imap<nat, nat>
    var freep: Option<nat>
    ghost var free: seq<nat>
    ghost var live: set<nat>
    ghost var home: imap<nat, nat>

    ghost predicate Valid()
      reads this
    {
      if freep.None? then live == {} && home == imap[]
      else HeapOk(next, units, free, live, home, base) && freep.value in free
    }

    constructor (base: nat)
      ensures Valid() && this.base == base && live == {} && home == imap[] && freep.None?
    {
      this.base := base;
      next, units, freep := imap[], imap[], None;
      free, live, home := [], {}, imap[];
    }

    /** The walk to the insertion point ends, wherever it starts. */
    method FindSlot(a: nat) returns (p: nat)
      requires Valid() && freep.Some? && a !in free
      ensures p == free[Slot(free, a)]
    {
      p := freep.value;
      ghost var i :| 0 <= i < |free| && free[i] == p;
      ghost var t, n := Slot(free, a), |free|;
      assert Links(next, free, i);
      while !((a > p && a < next[p]) || (p >= next[p] && (a > p || a < next[p])))
        invariant 0 <= i < n && p == free[i] && Links(next, free, i)
        decreases Distance(i, t, n)
      {
        StopsAt(units, free, a, i);
        i := if i == n - 1 then 0 else i + 1;
        assert Links(next, free, i);
        p := next[p];
      }
      StopsAt(units, free, a, i);
    }

    /** The writes of free, in its order. */
    method LinkIn(p: nat, a: nat)
      requires p in next && next[p] in next && next[p] in units && p in units && a in units && p != a && next[p] != a
      modifies this`next, this`units
      ensures next == Relink(old(next), old(units), p, a) && units == Resize(old(next), old(units), p, a)
    {
      if a + units[a] == next[p] {
        units := units[a := units[a] + units[next[p]]];
        next := next[a := next[next[p]]];
      } else {
        next := next[a := next[p]];
      }
      if p + units[p] == a {
        units := units[p := units[p] + units[a]];
        next := next[p := next[a]];
      } else {
        next := next[p := a];
      }
    }

    /** One trip around the list from the block after freep: the first that is large enough, and the one
        before it. */
    method Scan(want: nat) returns (found: bool, prev: nat, p: nat, ghost at: nat)
      requires Valid() && freep.Some? && want > 0
      ensures found <==> exists f :: f in free && f in units && units[f] >= want
      ensures found ==>
        at < |free| && p == free[at] && units[p] >= want && prev == free[if at == 0 then |free| - 1 else at - 1]
      ensures found ==> exists s :: 0 <= s < |free| && free[s] == freep.value && SmallBefore(units, free, s, at, want)
    {
      prev := freep.value;
      ghost var s :| 0 <= s < |free| && free[s] == prev;
      SeekStarts(next, units, free, s, want);
      p, at := next[prev], Forward(free, s);
      while units[p] < want && p != freep.value
        invariant Seeking(units, free, s, at, p, prev, want) && p in next
        decreases Distance(at, s, |free|)
      {
        SeekOn(next, units, free, s, at, p, prev, want);
        prev, p := p, next[p];
        at := Forward(free, at);
      }
      found := units[p] >= want;
      if !found { SeekEnds(units, free, s, at, p, prev, want); }
    }

    /** The block p, or the tail of it, becomes live. */
    method Take(prev: nat, p: nat, want: nat, ghost at: nat) returns (q: nat)
      requires Valid() && freep.Some? && at < |free| && p == free[at]
      requires prev == free[if at == 0 then |free| - 1 else at - 1]
      requires 0 < want <= units[p]
      modifies this
      ensures Valid() && freep.Some? && q !in old(live) && live == old(live) + {q} && q in units && units[q] == want
      ensures CellsKept(old(home), home) && SizesKept(old(live), old(units), units)
    {
      LiveSized(units, free, live, home, base);
      if units[p] == want {
        TakeWhole(next, units, free, live, home, base, at);
        next := next[prev := next[p]];
        q := p;
        free := Without(free, at);
      } else {
        TakeTail(next, units, free, live, home, base, at, want);
        assert p in free && prev in free;
        ghost var end := p + units[p];
        units := units[p := units[p] - want];
        q := p + units[p];
        units := units[q := want];
        home := Claim(home, q, end);
      }
      live := live + {q};
      freep := Some(prev);
    }

    /** morecore: the new arena enters the heap as a block that is freed at once. */
    method Morecore(want: nat, mapped: Option<nat>) returns (ok: bool)
      requires Valid() && freep.Some? && (mapped.Some? ==> NewSpan(home, base, mapped.value, ArenaUnits(want)))
      modifies this
      ensures Valid() && freep.Some? && live == old(live) && SizesKept(live, old(units), units)
      ensures ok <==> mapped.Some?
      ensures !ok ==> CellsKept(old(home), home)
      ensures ok ==> CellsKept(Spread(old(home), mapped.value, ArenaUnits(want)), home) && exists f ::
        f in free && f in units && units[f] >= want
    {
      LiveSized(units, free, live, home, base);
      if mapped.None? { return false; }
      var m, n := mapped.value, ArenaUnits(want);
      ghost var was := live;
      GrowKeeps(next, units, free, live, home, base, m, n);
      units := units[m := n];
      live := live + {m};
      home := Spread(home, m, n);
      Free(Some(m + 1));
      assert live == was;
      CoversFits(free, units, m, n);
      return true;
    }

    /** A large enough free block, from a new mapping when there is none yet. */
    method Find(want: nat, mapped: Option<nat>) returns (found: bool, prev: nat, p: nat, ghost at: nat)
      requires Valid() && want > 0 && (mapped.Some? ==> NewSpan(home, base, mapped.value, ArenaUnits(want)))
      modifies this
      ensures Valid() && freep.Some? && live == old(live) && SizesKept(live, old(units), units)
      ensures found <==> mapped.Some? || (old(freep).Some? && exists f ::
          f in old(free) && f in old(units) && old(units)[f] >= want)
      ensures found ==>
        at < |free| && p == free[at] && units[p] >= want && prev == free[if at == 0 then |free| - 1 else at - 1]
      ensures CellsKept(old(home), home) || (mapped.Some?
        && CellsKept(Spread(old(home), mapped.value, ArenaUnits(want)), home))
    {
      if freep.None? { Begin(); }
      LiveSized(units, free, live, home, base);
      found, prev, p, at := Scan(want);
      if !found { found, prev, p, at := FindMore(want, mapped); }
    }

    method FindMore(want: nat, mapped: Option<nat>) returns (found: bool, prev: nat, p: nat, ghost at: nat)
      requires Valid() && freep.Some? && want > 0
      requires mapped.Some? ==> NewSpan(home, base, mapped.value, ArenaUnits(want))
      modifies this
      ensures Valid() && freep.Some? && live == old(live) && SizesKept(live, old(units), units)
      ensures found <==> mapped.Some?
      ensures found ==>
        at < |free| && p == free[at] && units[p] >= want && prev == free[if at == 0 then |free| - 1 else at - 1]
      ensures !found ==> CellsKept(old(home), home)
      ensures found ==> CellsKept(Spread(old(home), mapped.value, ArenaUnits(want)), home)
    {
      found := Morecore(want, mapped);
      prev, p, at := 0, 0, 0;
      if found { found, prev, p, at := Scan(want); }
    }

    /** malloc: first fit, growing the heap once if nothing fits. It fails only for size zero, or when
        nothing fits and no arena can be had. The block has room for size bytes behind its header and
        overlaps no live block. */
    method Allocate(size: nat, mapped: Option<nat>) returns (ptr: Option<nat>)
      requires Valid() && (mapped.Some? ==> NewSpan(home, base, mapped.value, ArenaUnits(UnitsFor(size))))
      modifies this
      ensures Valid() && SizesKept(old(live), old(units), units)
      ensures ptr.None? ==> live == old(live)
      ensures ptr.Some? ==> ptr.value > 0 && ptr.value - 1 !in old(live) && live == old(live) + {ptr.value - 1}
      ensures ptr.Some? ==>
        ptr.value - 1 in units && units[ptr.value - 1] == UnitsFor(size) && (units[ptr.value - 1] - 1) * HEADER >= size
      ensures ptr.Some? <==>
        size > 0 && (mapped.Some? || (old(freep).Some? && exists f ::
            f in old(free) && f in old(units) && old(units)[f] >= UnitsFor(size)))
      ensures CellsKept(old(home), home) || (mapped.Some?
        && CellsKept(Spread(old(home), mapped.value, ArenaUnits(UnitsFor(size))), home))
    {
      if size == 0 {
        if freep.Some? { LiveSized(units, free, live, home, base); }
        return None;
      }
      var want := UnitsFor(size);
      var found, prev, p, at := Find(want, mapped);
      if !found { return None; }
      var q := Take(prev, p, want, at);
      return Some(q + 1);
    }

    /** The list starts as its anchor alone. */
    method Begin()
      requires Valid() && freep.None?
      modifies this
      ensures Valid() && freep == Some(base) && free == [base] && base in units && units[base] == 0 && live == old(live)
      ensures home == old(home)
    {
      FirstHeap(next, units, base);
      next := next[base := base];
      units := units[base := 0];
      freep := Some(base);
      free := [base];
    }

    /** free: the block goes back, joined with every free neighbour it touches. No cell is lost, and no
        other live block is touched. */
    method Free(ptr: Option<nat>)
      requires Valid() && (ptr.Some? ==> ptr.value > 0 && ptr.value - 1 in live)
      modifies this
      ensures Valid() && freep.None? == old(freep).None?
      ensures live == old(live) - (if ptr.Some? then {ptr.value - 1} else {})
      ensures CellsKept(old(home), home) && SizesKept(live, old(units), units)
      ensures ptr.Some? ==> ptr.value - 1 in old(units) && Covers(free, units, ptr.value - 1, old(units)[ptr.value - 1])
    {
      if ptr.None? {
        if freep.Some? { LiveSized(units, free, live, home, base); }
        return;
      }
      var a := ptr.value - 1;
      assert Fits(units, free, a) by { LiveFits(units, free, live, home, base, a); }
      ghost var j := JoinOf(units, free, a);
      FreeReady(next, units, free, a);
      assert FreeDone(next, units, free, live, home, base, a) by { FreeAll(next, units, free, live, home, base, a); }
      var p := FindSlot(a);
      LinkIn(p, a);
      freep := Some(p);
      free, live, home := Spliced(free, j), live - {a}, Claim(home, j.first, j.end);
    }
  }

  lemma FreeReady(next: imap<nat, nat>, units: imap<nat, nat>, free: seq<nat>, a: nat)
    requires Ring(next, free) && Gaps(units, free) && Fits(units, free, a)
    ensures var p := free[Slot(free, a)];
      p in next && next[p] in next && next[p] in units && p in units && p != a && next[p] != a
  {
    var t := Slot(free, a);
    assert Links(next, free, t) && free[t] in free && After(free, t) in free;
    assert Links(next, free, if t == |free| - 1 then 0 else t + 1);
  }

  /** What free leaves behind. */
  ghost predicate FreeDone(next: imap<nat, nat>, units: imap<nat, nat>, free: seq<nat>, live: set<nat>, home: imap<nat,
                           nat>, base: nat, a: nat)
    requires Ring(next, free) && Gaps(units, free) && a in units
    requires var p := free[Slot(free, a)]; p in next && next[p] in next && next[p] in units && p in units
  {
    var j, p := JoinOf(units, free, a), free[Slot(free, a)];
    var next', units', free', live', home' :=
      Relink(next, units, p, a), Resize(next, units, p, a), Spliced(free, j), live - {a}, Claim(home, j.first, j.end);
    && HeapOk(next', units', free', live', home', base) && p in free'
    && CellsKept(home, home') && SizesKept(live', units, units') && Covers(free', units', a, units[a])
  }

  lemma FreeAll(next: imap<nat, nat>, units: imap<nat, nat>, free: seq<nat>, live: set<nat>, home: imap<nat, nat>,
                base: nat, a: nat)
    requires HeapOk(next, units, free, live, home, base) && a in live && Fits(units, free, a)
    requires var p := free[Slot(free, a)]; p in next && next[p] in next && next[p] in units && p in units
    ensures FreeDone(next, units, free, live, home, base, a)
  {
    Settle(next, units, free, live, home, base, a);
    SettleCovers(next, units, free, a);
    FreeKept(next, units, free, live, home, base, a);
    SlotStays(units, free, live, home, base, a);
  }

  // ---------------------------------------------------------------- taking a block

  function Without(free: seq<nat>, i: nat): seq<nat>
    requires i < |free|
  {
    free[..i] + free[i + 1..]
  }

  /** Unlinking block i: its predecessor takes its link. */
  lemma UnlinkRing(next: imap<nat, nat>, units: imap<nat, nat>, free: seq<nat>, i: nat)
    requires Ring(next, free) && Gaps(units, free) && i < |free| && |free| > 1
    ensures
      var prev := free[if i == 0 then |free| - 1 else i - 1];
      free[i] in next && prev != free[i] && prev in Without(free, i)
          && Ring(next[prev := next[free[i]]], Without(free, i)) && Gaps(units, Without(free, i))
  {
    var n, prev, rest := |free|, free[if i == 0 then |free| - 1 else i - 1], Without(free, i);
    assert Links(next, free, i);
    var next' := next[prev := next[free[i]]];
    if i == 0 {
      Ascends(units, free, 0, n - 1);
      assert rest[n - 2] == prev;
    } else {
      Ascends(units, free, i - 1, i);
      assert rest[i - 1] == prev;
    }
    forall x: nat | x < n - 1 ensures Links(next', rest, x) { UnlinkAt(next, units, free, i, x); }
    GapsCut(units, free, i);
    GapsCut(units, free, i + 1);
    if 0 < i < n - 1 { Ascends(units, free, i - 1, i + 1); }
    GapsJoin(units, free[..i], free[i + 1..]);
  }

  lemma UnlinkAt(next: imap<nat, nat>, units: imap<nat, nat>, free: seq<nat>, i: nat, x: nat)
    requires Ring(next, free) && Gaps(units, free) && i < |free| && x < |free| - 1
    ensures
      var prev := free[if i == 0 then |free| - 1 else i - 1];
      free[i] in next && Links(next[prev := next[free[i]]], Without(free, i), x)
  {
    var n, b := |free|, if i == 0 then |free| - 1 else i - 1;
    var y := if x < i then x else x + 1;
    assert Without(free, i)[x] == free[y] && Links(next, free, y) && Links(next, free, i);
    if y < b { Ascends(units, free, y, b); } else if b < y { Ascends(units, free, b, y); }
  }

  lemma {:induction false} WithoutList(units: imap<nat, nat>, free: seq<nat>, i: nat)
    requires Gaps(units, free) && i < |free|
    ensures forall b: nat :: b in Without(free, i) <==> b in free && b != free[i]
  {
    var rest := Without(free, i);
    forall b: nat | b in free && b != free[i] ensures b in rest {
      var k :| 0 <= k < |free| && free[k] == b;
      assert rest[if k < i then k else k - 1] == b;
    }
    forall k | 0 <= k < |rest| ensures rest[k] in free && rest[k] != free[i] {
      var y := if k < i then k else k + 1;
      assert rest[k] == free[y];
      if y < i { Ascends(units, free, y, i); } else { Ascends(units, free, i, y); }
    }
  }

  /** A whole block leaves the list and becomes live. */
  lemma TakeWhole(next: imap<nat, nat>, units: imap<nat, nat>, free: seq<nat>, live: set<nat>, home: imap<nat, nat>,
                  base: nat, i: nat)
    requires HeapOk(next, units, free, live, home, base) && i < |free| && free[i] != base
    ensures
      var prev := free[if i == 0 then |free| - 1 else i - 1];
      && free[i] in next && prev in Without(free, i) && free[i] !in live
      && HeapOk(next[prev := next[free[i]]], units, Without(free, i), live + {free[i]}, home, base)
  {
    assert |free| > 1;
    UnlinkRing(next, units, free, i);
    WithoutList(units, free, i);
    var rest, live' := Without(free, i), live + {free[i]};
    assert free[i] in free;
    assert forall b: nat :: Block(rest, live', base, b) <==> Block(free, live, base, b);
    forall b: nat | Block(rest, live', base, b) ensures BlockOk(units, home, base, b) {}
    forall x: nat | HomeOf(home, x).Some? ensures CellOk(rest, live', units, base, HomeOf(home, x).value, x) {
      assert CellOk(free, live, units, base, HomeOf(home, x).value, x);
    }
  }

  lemma ShrinkGaps(units: imap<nat, nat>, free: seq<nat>, i: nat, u: nat)
    requires Gaps(units, free) && i < |free| && u <= units[free[i]]
    ensures Gaps(units[free[i] := u], free)
  {
    var units' := units[free[i] := u];
    forall k: nat | k < |free| - 1 ensures Gap(units', free, k) { assert Gap(units, free, k); }
  }

  /** A larger block keeps its place in the list; its tail becomes live. */
  lemma TakeTail(next: imap<nat, nat>, units: imap<nat, nat>, free: seq<nat>, live: set<nat>, home: imap<nat, nat>,
                 base: nat, i: nat, want: nat)
    requires HeapOk(next, units, free, live, home, base) && i < |free| && 0 < want < units[free[i]]
    ensures
      var p := free[i];
      var q, end := p + (units[p] - want), p + units[p];
      && !Block(free, live, base, q) && q != base
      && HeapOk(next, units[p := units[p] - want][q := want], free, live + {q}, Claim(home, q, end), base)
  {
    var p := free[i];
    var q, end := p + (units[p] - want), p + units[p];
    assert p in free && p != base && BlockOk(units, home, base, p);
    assert HomeOf(home, q) == Some(p);
    assert !Block(free, live, base, q) by {
      if Block(free, live, base, q) { BlockHome(units, free, live, home, base, q); }
    }
    var mid, units' := units[p := units[p] - want], units[p := units[p] - want][q := want];
    ShrinkGaps(units, free, i, units[p] - want);
    GapsElsewhere(mid, free, q, want);
    TailTiles(units, free, live, home, base, p, q, want);
  }

  lemma TailTiles(units: imap<nat, nat>, free: seq<nat>, live: set<nat>, home: imap<nat, nat>, base: nat, p: nat,
                  q: nat, want: nat)
    requires Tiled(units, free, live, home, base) && Block(free, live, base, p) && p in units && 0 < want < units[p]
    requires q == p + (units[p] - want)
    requires !Block(free, live, base, q) && q != base
    ensures Tiled(units[p := units[p] - want][q := want], free, live + {q}, Claim(home, q, p + units[p]), base)
  {
    var end := p + units[p];
    var units', home', live' := units[p := units[p] - want][q := want], Claim(home, q, end), live + {q};
    assert BlockOk(units, home, base, p);
    forall x: nat
        ensures HomeOf(home', x) == (if HomeOf(home, x).Some? && q <= x < end then Some(q) else HomeOf(home, x)) {}
    forall b: nat | Block(free, live', base, b) ensures BlockOk(units', home', base, b) {
      TailBlock(units, free, live, home, base, p, q, want, b);
    }
    forall x: nat | HomeOf(home', x).Some? ensures CellOk(free, live', units', base, HomeOf(home', x).value, x) {
      if !(q <= x < end) {
        assert CellOk(free, live, units, base, HomeOf(home, x).value, x);
        TailCell(units, free, live, base, p, q, want, HomeOf(home, x).value, x);
      }
    }
    assert HomeOf(home, base).None?;
  }

  lemma TailCell(units: imap<nat, nat>, free: seq<nat>, live: set<nat>, base: nat, p: nat, q: nat, want: nat, b: nat,
                 x: nat)
    requires CellOk(free, live, units, base, b, x) && p in units && 0 < want < units[p] && q == p + (units[p] - want)
    requires b != q && !(q <= x < p + units[p])
    ensures CellOk(free, live + {q}, units[p := units[p] - want][q := want], base, b, x)
  {
  }

  lemma TailBlock(units: imap<nat, nat>, free: seq<nat>, live: set<nat>, home: imap<nat, nat>, base: nat, p: nat,
                  q: nat, want: nat, b: nat)
    requires Tiled(units, free, live, home, base) && Block(free, live, base, p) && p in units && 0 < want < units[p]
    requires q == p + (units[p] - want)
    requires !Block(free, live, base, q) && q != base && Block(free, live + {q}, base, b)
    ensures BlockOk(units[p := units[p] - want][q := want], Claim(home, q, p + units[p]), base, b)
  {
    var end := p + units[p];
    var units', home' := units[p := units[p] - want][q := want], Claim(home, q, end);
    assert BlockOk(units, home, base, p);
    if b != q {
      assert BlockOk(units, home, base, b);
      forall x: nat | b <= x < b + units'[b] ensures HomeOf(home', x) == Some(b) {
        assert HomeOf(home, x) == Some(b) && (q <= x < end ==> HomeOf(home, x) == Some(p));
      }
    } else {
      forall x: nat | q <= x < end ensures HomeOf(home', x) == Some(q) { assert HomeOf(home, x) == Some(p); }
    }
  }

  // ---------------------------------------------------------------- growing

  /** Units of the arena morecore asks for. */
  function ArenaUnits(want: nat): (n: nat)
    ensures n >= want && n >= 1
  {
    var bytes := if want * HEADER < ARENA_MIN then ARENA_MIN else want * HEADER;
    (bytes + PAGE - 1) / PAGE * PAGE / HEADER
  }

  /** A block of this many units holds a header and size bytes. */
  function UnitsFor(size: nat): (n: nat)
    ensures n >= 1 && (n - 1) * HEADER >= size && (size > 0 ==> (n - 2) * HEADER < size)
  {
    (size + HEADER - 1) / HEADER + 1
  }

  /** The mapping is new memory that neither holds nor ends at the anchor. */
  ghost predicate NewSpan(home: imap<nat, nat>, base: nat, m: nat, n: nat) {
    && (forall x: nat {:trigger HomeOf(home, x)} | m <= x < m + n :: HomeOf(home, x).None?) && !(m <= base < m + n)
    && m + n != base
  }

  ghost function Spread(home: imap<nat, nat>, m: nat, n: nat): imap<nat, nat> {
    imap x: nat | x in home || m <= x < m + n :: if m <= x < m + n then m else home[x]
  }

  lemma GrowKeeps(next: imap<nat, nat>, units: imap<nat, nat>, free: seq<nat>, live: set<nat>, home: imap<nat, nat>,
                  base: nat, m: nat, n: nat)
    requires HeapOk(next, units, free, live, home, base) && n >= 1 && NewSpan(home, base, m, n)
    ensures !Block(free, live, base, m) && m !in free
    ensures HeapOk(next, units[m := n], free, live + {m}, Spread(home, m, n), base)
  {
    assert HomeOf(home, m).None?;
    assert !Block(free, live, base, m) by {
      if Block(free, live, base, m) { BlockHome(units, free, live, home, base, m); }
    }
    GapsElsewhere(units, free, m, n);
    var home', units', live' := Spread(home, m, n), units[m := n], live + {m};
    forall x: nat ensures HomeOf(home', x) == (if m <= x < m + n then Some(m) else HomeOf(home, x)) {}
    forall b: nat | Block(free, live', base, b) ensures BlockOk(units', home', base, b) {
      if b != m {
        assert BlockOk(units, home, base, b);
        forall x: nat | b <= x < b + units'[b] ensures HomeOf(home', x) == Some(b) {
          assert HomeOf(home, x) == Some(b);
        }
      }
    }
    forall x: nat | HomeOf(home', x).Some? ensures CellOk(free, live', units', base, HomeOf(home', x).value, x) {
      if !(m <= x < m + n) { assert CellOk(free, live, units, base, HomeOf(home, x).value, x); }
    }
    assert HomeOf(home, base).None?;
  }

  /** Live blocks keep their sizes. */
  ghost predicate SizesKept(live: set<nat>, units: imap<nat, nat>, units': imap<nat, nat>) {
    forall b: nat | b in live :: b in units && b in units' && units'[b] == units[b]
  }

  /** The arenas are the same cells. */
  ghost predicate CellsKept(home: imap<nat, nat>, home': imap<nat, nat>) {
    forall x: nat {:trigger HomeOf(home', x)} :: HomeOf(home', x).Some? <==> HomeOf(home, x).Some?
  }

  lemma LiveSized(units: imap<nat, nat>, free: seq<nat>, live: set<nat>, home: imap<nat, nat>, base: nat)
    requires Tiled(units, free, live, home, base)
    ensures SizesKept(live, units, units)
  {
    forall b: nat | b in live ensures b in units { assert BlockOk(units, home, base, b); }
  }

  lemma FirstHeap(next: imap<nat, nat>, units: imap<nat, nat>, base: nat)
    ensures HeapOk(next[base := base], units[base := 0], [base], {}, imap[], base)
  {
  }

  lemma CoversFits(free: seq<nat>, units: imap<nat, nat>, a: nat, u: nat)
    requires Covers(free, units, a, u)
    ensures exists f :: f in free && f in units && units[f] >= u
  {
    var f: nat :| f in free && f in units && f <= a && a + u <= f + units[f];
  }

  /** Some free block covers these cells. */
  ghost predicate Covers(free: seq<nat>, units: imap<nat, nat>, a: nat, u: nat) {
    exists f: nat :: f in free && f in units && f <= a && a + u <= f + units[f]
  }

  lemma Settle(next: imap<nat, nat>, units: imap<nat, nat>, free: seq<nat>, live: set<nat>, home: imap<nat, nat>,
               base: nat, a: nat)
    requires HeapOk(next, units, free, live, home, base) && a in live && Fits(units, free, a)
    ensures
      var j, p := JoinOf(units, free, a), free[Slot(free, a)];
      && p in next && next[p] in next && next[p] in units && p in units
      && HeapOk(Relink(next, units, p, a), Resize(next, units, p, a), Spliced(free, j), live - {a},
         Claim(home, j.first, j.end), base)
  {
    var j, p := JoinOf(units, free, a), free[Slot(free, a)];
    ReturnKeeps(next, units, free, live, home, base, a);
    ResizeIs(next, units, free, a);
    if j.first != a { SettleInto(next, units, free, live, home, base, a); }
  }

  /** The block went into the one before it, and the size its own header is left with does not matter. */
  lemma SettleInto(next: imap<nat, nat>, units: imap<nat, nat>, free: seq<nat>, live: set<nat>, home: imap<nat, nat>,
                   base: nat, a: nat)
    requires Gaps(units, free) && base in free && Tiled(units, free, live, home, base) && a in live && a !in free
    requires Fits(units, free, a) && JoinOf(units, free, a).first != a
    requires var j, p := JoinOf(units, free, a), free[Slot(free, a)];
      && p in next && next[p] in next && next[p] in units && p in units && j.first < j.end
      && Resize(next, units, p, a) == units[j.first := j.end - j.first][a := Resize(next, units, p, a)[a]]
      && HeapOk(Relink(next, units, p, a), units[j.first := j.end - j.first], Spliced(free, j), live - {a},
                Claim(home, j.first, j.end), base)
    ensures var j, p := JoinOf(units, free, a), free[Slot(free, a)];
      HeapOk(Relink(next, units, p, a), Resize(next, units, p, a), Spliced(free, j), live - {a},
             Claim(home, j.first, j.end), base)
  {
    var j, p := JoinOf(units, free, a), free[Slot(free, a)];
    GoneIn(units, free, live, home, base, a);
    UnitsElsewhere(Relink(next, units, p, a), units[j.first := j.end - j.first], Spliced(free, j), live - {a},
                   Claim(home, j.first, j.end), base, a, Resize(next, units, p, a)[a]);
  }

  lemma GoneIn(units: imap<nat, nat>, free: seq<nat>, live: set<nat>, home: imap<nat, nat>, base: nat, a: nat)
    requires Gaps(units, free) && base in free && Tiled(units, free, live, home, base) && a in live && a !in free
    requires Fits(units, free, a)
    requires JoinOf(units, free, a).first != a
    ensures !Block(Spliced(free, JoinOf(units, free, a)), live - {a}, base, a) && a != base
  {
    var j := JoinOf(units, free, a);
    Joined(units, free, a);
    SplicedList(units, free, a, j);
  }

  lemma SettleCovers(next: imap<nat, nat>, units: imap<nat, nat>, free: seq<nat>, a: nat)
    requires Ring(next, free) && Gaps(units, free) && Fits(units, free, a)
    ensures
      var j, p := JoinOf(units, free, a), free[Slot(free, a)];
      && p in next && next[p] in units && p in units && Covers(Spliced(free, j), Resize(next, units, p, a), a, units[a])
  {
    var j := JoinOf(units, free, a);
    Joined(units, free, a);
    ResizeIs(next, units, free, a);
    assert Spliced(free, j)[j.lo] == j.first;
  }

  lemma FreeKept(next: imap<nat, nat>, units: imap<nat, nat>, free: seq<nat>, live: set<nat>, home: imap<nat, nat>,
                 base: nat, a: nat)
    requires HeapOk(next, units, free, live, home, base) && a in live && Fits(units, free, a)
    requires var p := free[Slot(free, a)]; p in next && next[p] in units && p in units
    ensures
      var j, p := JoinOf(units, free, a), free[Slot(free, a)];
      CellsKept(home, Claim(home, j.first, j.end)) && SizesKept(live - {a}, units, Resize(next, units, p, a))
  {
    forall b: nat | b in live - {a}
        ensures b in units && b in Resize(next, units, free[Slot(free, a)], a)
        ensures Resize(next, units, free[Slot(free, a)], a)[b] == units[b] {
      OthersSame(next, units, free, live, home, base, a, b);
    }
  }

  lemma OthersSame(next: imap<nat, nat>, units: imap<nat, nat>, free: seq<nat>, live: set<nat>, home: imap<nat, nat>,
                   base: nat, a: nat, b: nat)
    requires HeapOk(next, units, free, live, home, base) && a in live && b in live && b != a && Fits(units, free, a)
    requires var p := free[Slot(free, a)]; p in next && next[p] in units && p in units
    ensures var p := free[Slot(free, a)];
      b in units && b in Resize(next, units, p, a) && Resize(next, units, p, a)[b] == units[b]
  {
    var t := Slot(free, a);
    assert BlockOk(units, home, base, b) && free[t] in free && b !in free;
  }
}
