/** The user half of an address space: pages only, and on x86_64 a pointer admits users to its table
    wherever an entry of the table does. */
module PageHalf {

  import opened Basics
  import opened PageTree

  predicate EntryUser(e: Entry) { (e.Table? && e.user) || (e.Leaf? && e.flags.prot.user) }

  /** The pointer to the table at p lets users through. */
  ghost predicate OpenTo(mem: Mem, dir: Dir, p: seq<nat>) {
    && p != [] && p[..|p| - 1] in dir && dir[p[..|p| - 1]] in mem && p[|p| - 1] < |mem[dir[p[..|p| - 1]]]|
    && var e := mem[dir[p[..|p| - 1]]][p[|p| - 1]]; e.Table? && e.user
  }

  /** Slot i of the table at p leads into the user half. */
  predicate Low(p: seq<nat>, i: nat) { if p == [] then i < USER_HALF else p[0] < USER_HALF }

  /** strict is for x86_64, where the pointers have a user bit too. */
  ghost predicate LowEntry(mem: Mem, dir: Dir, levels: nat, strict: bool, p: seq<nat>, e: Entry) {
    && (if |p| < levels - 1 then !e.Leaf? else !e.Table?)
    && (strict && p != [] && EntryUser(e) ==> OpenTo(mem, dir, p))
  }

  ghost predicate LowOk(mem: Mem, dir: Dir, levels: nat, strict: bool, p: seq<nat>) {
    p in dir ==> && dir[p] in mem
                 && forall i | 0 <= i < |mem[dir[p]]| && Low(p, i) ::
                    LowEntry(mem, dir, levels, strict, p, mem[dir[p]][i])
  }

  ghost predicate UserHalf(mem: Mem, dir: Dir, levels: nat, strict: bool) {
    forall p {:trigger LowOk(mem, dir, levels, strict, p)} :: LowOk(mem, dir, levels, strict, p)
  }

  // ---------------------------------------------------------------- every write keeps it

  /** A pointer stays open to users unless it is written over. */
  lemma OpenStays(mem: Mem, dir: Dir, root: nat, levels: nat, p: seq<nat>, i: nat, e: Entry, q: seq<nat>)
    requires Shape(mem, dir, root, levels) && p in dir && q in dir && i < ENTRIES && dir[p] in mem
    requires |mem[dir[p]]| == ENTRIES
    requires |p| < levels - 1 && EntryUser(mem[dir[p]][i]) ==> e.Table? && e.user
    requires OpenTo(mem, dir, q)
    ensures OpenTo(Write(mem, dir[p], i, e), dir, q)
  {
    var up, k := q[..|q| - 1], q[|q| - 1];
    assert NodeOk(mem, dir, levels, q);
    if dir[up] == dir[p] { assert up == p; }
  }

  lemma WriteKeepsHalf(mem: Mem, dir: Dir, root: nat, levels: nat, strict: bool, p: seq<nat>, i: nat, e: Entry)
    requires Shape(mem, dir, root, levels) && UserHalf(mem, dir, levels, strict)
    requires p in dir && i < ENTRIES && dir[p] in mem && |mem[dir[p]]| == ENTRIES
    requires |p| < levels - 1 && EntryUser(mem[dir[p]][i]) ==> e.Table? && e.user
    requires Low(p, i) ==> LowEntry(mem, dir, levels, strict, p, e)
    ensures UserHalf(Write(mem, dir[p], i, e), dir, levels, strict)
  {
    var mem' := Write(mem, dir[p], i, e);
    forall q ensures LowOk(mem', dir, levels, strict, q) {
      if q in dir {
        assert LowOk(mem, dir, levels, strict, q);
        forall j | 0 <= j < |mem'[dir[q]]| && Low(q, j)
            ensures LowEntry(mem', dir, levels, strict, q, mem'[dir[q]][j]) {
          assert dir[q] == dir[p] ==> q == p;
          assert LowEntry(mem, dir, levels, strict, q, mem'[dir[q]][j]);
          if OpenTo(mem, dir, q) { OpenStays(mem, dir, root, levels, p, i, e, q); }
        }
      }
    }
  }

  lemma AddKeepsHalf(mem: Mem, dir: Dir, root: nat, levels: nat, strict: bool, p: seq<nat>, i: nat, child: nat,
                     user: bool)
    requires Shape(mem, dir, root, levels) && UserHalf(mem, dir, levels, strict)
    requires p in dir && |p| < levels - 1 && i < ENTRIES && dir[p] in mem && |mem[dir[p]]| == ENTRIES
    requires mem[dir[p]][i].Absent? && child !in mem && child != 0
    requires user && p != [] ==> OpenTo(mem, dir, p)
    ensures UserHalf(AddTable(mem, dir[p], i, child, user), dir[p + [i] := child], levels, strict)
    ensures user ==> OpenTo(AddTable(mem, dir[p], i, child, user), dir[p + [i] := child], p + [i])
  {
    var c, mem', dir' := p + [i], AddTable(mem, dir[p], i, child, user), dir[p + [i] := child];
    assert c[..|c| - 1] == p && c[|c| - 1] == i;
    SlotAt(mem, dir, root, levels, p, i);
    forall q ensures LowOk(mem', dir', levels, strict, q) {
      if q in dir {
        assert LowOk(mem, dir, levels, strict, q) && NodeOk(mem, dir, levels, q) && q != c;
        forall j | 0 <= j < |mem'[dir'[q]]| && Low(q, j)
            ensures LowEntry(mem', dir', levels, strict, q, mem'[dir'[q]][j]) {
          assert dir[q] == dir[p] ==> q == p;
          AddedEntry(mem, dir, root, levels, p, i, child, user, q);
        }
      }
    }
  }

  /** What was open to users before is still. */
  lemma AddedEntry(mem: Mem, dir: Dir, root: nat, levels: nat, p: seq<nat>, i: nat, child: nat, user: bool, q: seq<nat>)
    requires Shape(mem, dir, root, levels) && p in dir && q in dir && q != p + [i] && dir[p] in mem && i < |mem[dir[p]]|
    requires mem[dir[p]][i].Absent? && child !in mem && p + [i] !in dir
    ensures OpenTo(mem, dir, q) ==> OpenTo(AddTable(mem, dir[p], i, child, user), dir[p + [i] := child], q)
  {
    if OpenTo(mem, dir, q) {
      var up := q[..|q| - 1];
      assert up != p + [i] && dir[up] != child;
    }
  }

  // ---------------------------------------------------------------- along a walk

  ghost predicate WalkHalf(w: Descent, levels: nat, strict: bool, path: seq<nat>, level: nat, user: bool)
    requires level <= |path|
  {
    && UserHalf(w.mem, w.dir, levels, strict) && w.hist != [] && UserHalf(w.hist[0], w.dir0, levels, strict)
    && (user && level > 0 ==> OpenTo(w.mem, w.dir, path[..level]))
  }

  lemma HangKeepsHalf(w: Descent, root: nat, path: seq<nat>, level: nat, at: nat, strict: bool, user: bool)
    requires DescentOk(w, root, path, level, at) && level < |path| - 1 && at in w.mem && |w.mem[at]| == ENTRIES
    requires w.mem[at][path[level]].Absent? && w.pool != [] && w.pool[0] !in w.mem
    requires WalkHalf(w, |path|, strict, path, level, user)
    ensures WalkHalf(AddTo(w, path, level, at, user), |path|, strict, path, level + 1, user)
  {
    assert w.pool[0] in w.pool && path[..level + 1] == path[..level] + [path[level]];
    AddKeepsHalf(w.mem, w.dir, root, |path|, strict, path[..level], path[level], w.pool[0], user);
  }

  lemma WidenKeepsHalf(w: Descent, root: nat, path: seq<nat>, level: nat, at: nat, strict: bool, user: bool)
    requires DescentOk(w, root, path, level, at) && level < |path| - 1 && at in w.mem && |w.mem[at]| == ENTRIES
    requires w.mem[at][path[level]].Table? && WalkHalf(w, |path|, strict, path, level, user)
    ensures WalkHalf(WidenTo(w, path, level, at, w.mem[at][path[level]].user || user), |path|, strict, path, level + 1,
      user)
  {
    var p, i, was := path[..level], path[level], w.mem[at][path[level]];
    var e := Table(was.frame, was.user || user);
    assert w.slots == [] && LowOk(w.mem, w.dir, |path|, strict, p);
    WriteKeepsHalf(w.mem, w.dir, root, |path|, strict, p, i, e);
    var c := path[..level + 1];
    assert c[..|c| - 1] == p && c[|c| - 1] == i;
  }

  // ---------------------------------------------------------------- what it gives

  /** In the user half a page's slot is vacant exactly when nothing is mapped there. */
  lemma LowVacant(mem: Mem, dir: Dir, root: nat, path: seq<nat>, strict: bool)
    requires |path| > 1 && IsPath(path) && path[0] < USER_HALF
    requires Shape(mem, dir, root, |path|) && UserHalf(mem, dir, |path|, strict)
    ensures Vacant(mem, dir, path) <==> Resolve(mem, root, path, 0) == None
  {
    var n := Depth(dir, path, |path| - 1);
    WalkReaches(mem, dir, root, |path|, path, n);
    assert LowOk(mem, dir, |path|, strict, path[..n]) && NodeOk(mem, dir, |path|, path[..n]) && Low(path[..n], path[n]);
    if n < |path| - 1 {
      DepthStops(dir, path, |path| - 1);
      SlotAt(mem, dir, root, |path|, path[..n], path[n]);
      assert path[..n + 1] == path[..n] + [path[n]];
    }
  }

  lemma {:induction false} DepthStops(dir: Dir, path: seq<nat>, k: nat)
    requires k <= |path| && [] in dir && Depth(dir, path, k) < k
    ensures path[..Depth(dir, path, k) + 1] !in dir
  {
    if Depth(dir, path, k) < k - 1 { DepthStops(dir, path, k - 1); }
  }

  /** The tables a walk would have to hang. */
  ghost function Missing(dir: Dir, path: seq<nat>): (n: nat)
    requires path != [] && [] in dir
    ensures n < |path| && path[..|path| - 1 - n] in dir
  {
    |path| - 1 - Depth(dir, path, |path| - 1)
  }

  /** In the user half the way down is only ever barred by a lack of frames. */
  lemma LowReachable(mem: Mem, dir: Dir, root: nat, path: seq<nat>, strict: bool, frames: nat)
    requires |path| > 1 && IsPath(path) && path[0] < USER_HALF
    requires Shape(mem, dir, root, |path|) && UserHalf(mem, dir, |path|, strict)
    ensures Reachable(mem, dir, |path|, path, frames) <==> Missing(dir, path) <= frames
  {
    var n := Depth(dir, path, |path| - 1);
    assert LowOk(mem, dir, |path|, strict, path[..n]) && NodeOk(mem, dir, |path|, path[..n]) && Low(path[..n], path[n]);
    if n < |path| - 1 {
      DepthStops(dir, path, |path| - 1);
      SlotAt(mem, dir, root, |path|, path[..n], path[n]);
      assert path[..n + 1] == path[..n] + [path[n]];
    }
  }

  /** Whether the x86_64 walker lets a user through: every entry on the way says so. */
  function Admits(mem: Mem, f: nat, path: seq<nat>, k: nat): bool
    decreases |path| - k
  {
    if f !in mem || k >= |path| || path[k] >= |mem[f]| then false
    else
      var e := mem[f][path[k]];
      if e.Leaf? then e.flags.prot.user
      else if e.Absent? || k == |path| - 1 then false
      else e.user && Admits(mem, e.frame, path, k + 1)
  }

  lemma {:induction false} AdmitsFrom(mem: Mem, dir: Dir, root: nat, path: seq<nat>, k: nat)
    requires IsPath(path) && k < |path| && path[0] < USER_HALF && path[..k] in dir
    requires Shape(mem, dir, root, |path|) && UserHalf(mem, dir, |path|, true)
    ensures var hit := Resolve(mem, dir[path[..k]], path, k);
      hit.Some? ==> && (Admits(mem, dir[path[..k]], path, k) <==> hit.value.entry.flags.prot.user)
                    && (hit.value.entry.flags.prot.user && k > 0 ==> OpenTo(mem, dir, path[..k]))
    decreases |path| - k
  {
    var p, i := path[..k], path[k];
    assert NodeOk(mem, dir, |path|, p) && LowOk(mem, dir, |path|, true, p) && Low(p, i);
    var e := mem[dir[p]][i];
    if e.Table? && k < |path| - 1 {
      SlotAt(mem, dir, root, |path|, p, i);
      var c := path[..k + 1];
      assert c == p + [i] && c[..|c| - 1] == p && c[|c| - 1] == i;
      AdmitsFrom(mem, dir, root, path, k + 1);
    }
  }

  /** The walker lets users at exactly the pages that were mapped for them. */
  lemma UserSeen(mem: Mem, dir: Dir, root: nat, path: seq<nat>)
    requires IsPath(path) && path != [] && path[0] < USER_HALF && Shape(mem, dir, root, |path|)
    requires UserHalf(mem, dir, |path|, true)
    ensures var hit := Resolve(mem, root, path, 0);
      hit.Some? ==> (Admits(mem, root, path, 0) <==> hit.value.entry.flags.prot.user)
  {
    assert path[..0] == [];
    AdmitsFrom(mem, dir, root, path, 0);
  }

  /** A fresh clone of the kernel half has nothing in its user half. */
  lemma CloneHalf(mem: Mem, kdir: Dir, kroot: nat, levels: nat, root: nat, strict: bool)
    requires root in mem && [] in kdir && Shape(mem, CloneDir(kdir, root), root, levels) && levels > 1
    requires |mem[root]| == ENTRIES && forall i | 0 <= i < USER_HALF :: mem[root][i].Absent?
    ensures UserHalf(mem, CloneDir(kdir, root), levels, strict)
  {
    var dir := CloneDir(kdir, root);
    forall p ensures LowOk(mem, dir, levels, strict, p) {
      if p in dir { assert NodeOk(mem, dir, levels, p); }
    }
  }

  /** Low addresses are the user half. */
  lemma LowPath(a: Arch, v: nat)
    requires v < LowLimit(a)
    ensures Canonical(a, v) && PagePath(a, v)[0] < USER_HALF
  {
    IndexOfLevel(a, v, 0);
    assert Pow512(0) == 1 && Pow512(1) == 512 && Pow512(2) == 0x4_0000 && Pow512(3) == 0x800_0000;
  }

  /** When map_page succeeds. */
  ghost predicate Mappable(a: Arch, mem: Mem, dir: Dir, root: nat, frames: nat, v: nat, paddr: nat, prot: Prot)
    requires root != 0 ==> [] in dir
  {
    && root != 0 && Canonical(a, v) && v % PAGE == 0 && paddr % PAGE == 0 && prot.read
    && Reachable(mem, dir, Levels(a), PagePath(a, v), frames) && Vacant(mem, dir, PagePath(a, v))
  }

  /** In the user half what stands in the way of a well-formed request is another mapping or a lack of
      frames, and nothing else. */
  lemma MappableLow(a: Arch, mem: Mem, dir: Dir, root: nat, frames: nat, v: nat, paddr: nat, prot: Prot)
    requires root != 0 && Shape(mem, dir, root, Levels(a)) && UserHalf(mem, dir, Levels(a), a.X8664?) && v < LowLimit(a)
    ensures Mappable(a, mem, dir, root, frames, v, paddr, prot) <==>
      && v % PAGE == 0 && paddr % PAGE == 0 && prot.read
      && Translate(mem, root, a, v) == None && Missing(dir, PagePath(a, v)) <= frames
  {
    LowPath(a, v);
    LowVacant(mem, dir, root, PagePath(a, v), a.X8664?);
    LowReachable(mem, dir, root, PagePath(a, v), a.X8664?, frames);
  }
}
