/** An address space: its radix page tables, built and torn down in frames of the frame allocator. */
module PageTable {

  import opened Basics
  import opened PageTree
  import opened PageHalf

  class Aspace {
    const arch: Arch
    var root: nat
    var mem: Mem
    var pool: seq<nat>      // the frame allocator's free frames, in the order it will hand them out
    ghost var dir: Dir

    ghost predicate Valid()
      reads this
    {
      (root != 0 ==> Shape(mem, dir, root, Levels(arch)) && UserHalf(mem, dir, Levels(arch), arch.X8664?))
          && Supply(pool, mem)
    }

    /** An address space with no tables of its own, beside the tables there are. */
    constructor (arch: Arch, tables: Mem, frames: seq<nat>)
      requires Supply(frames, tables)
      ensures Valid() && root == 0 && mem == tables && pool == frames && this.arch == arch
    {
      this.arch := arch;
      root, mem, pool := 0, tables, frames;
      dir := imap[];
    }

    /** The table that holds the path's bottom slot, hanging tables on the way where there are none.
        Nothing is hung, and no frame is taken, unless that succeeds. */
    method EnsureLeafTable(path: seq<nat>, user: bool) returns (table: Option<nat>, ghost kids: seq<nat>)
      requires Valid() && root != 0 && |path| == Levels(arch) && IsPath(path)
      modifies this`mem, this`pool, this`dir
      ensures Valid() && SameWalks(old(mem), mem, root, Levels(arch))
      ensures table.Some? <==> Reachable(old(mem), old(dir), Levels(arch), path, |old(pool)|)
      ensures table.None? ==> pool == old(pool) && dir == old(dir)
      ensures table.Some? ==> path[..Levels(arch) - 1] in dir && dir[path[..Levels(arch) - 1]] == table.value
      ensures table.Some? ==>
        old(pool) == kids + pool && |kids| == Levels(arch) - 1 - Depth(old(dir), path, Levels(arch) - 1)
      ensures table.Some? && kids == [] ==> dir == old(dir)
      ensures table.Some? ==> table.value in mem && |mem[table.value]| == ENTRIES
      ensures table.Some? ==> (mem[table.value][path[|path| - 1]].Absent? <==> Vacant(old(mem), old(dir), path))
      ensures table.Some? && user && arch.X8664? ==> OpenTo(mem, dir, path[..Levels(arch) - 1])
    {
      var level, at, slots: seq<Slot> := 0, root, [];
      ghost var w := Descent(mem, dir, pool, mem, dir, pool, [], [mem], []);
      DescentStarts(mem, dir, pool, root, path);
      while level < Levels(arch) - 1
        invariant 0 <= level < Levels(arch) && At(w, path, level, at, user && arch.X8664?) && slots == w.slots
        invariant w.mem0 == old(mem) && w.dir0 == old(dir) && w.pool0 == old(pool)
      {
        DescentSees(w, root, path, level, at);
        var i := path[level];
        var e := mem[at][i];
        if e.Leaf? || (e.Absent? && pool == []) {
          GiveUp(slots, w, path, level, at, user && arch.X8664?);
          return None, [];
        } else if e.Absent? {
          slots := slots + [Slot(at, i)];
          at, w := Hang(path, level, at, user && arch.X8664?, w);
        } else {
          at, w := Widen(path, level, at, user && arch.X8664?, w);
        }
        level := level + 1;
      }
      DescentSees(w, root, path, level, at);
      EndVacant(w, root, path, at);
      DescentEnds(w, root, path, at);
      table, kids := Some(at), w.kids;
    }

    /** A large page is in the way, or no frame is left and what the walk hung comes down. Only wider
        pointers stay. */
    method GiveUp(slots: seq<Slot>, ghost w: Descent, path: seq<nat>, level: nat, at: nat, ghost user: bool)
      requires root != 0 && |path| == Levels(arch) && At(w, path, level, at, user) && slots == w.slots
      requires level < |path| - 1
      requires at in mem && |mem[at]| == ENTRIES
      requires mem[at][path[level]].Leaf? || (mem[at][path[level]].Absent? && pool == [])
      modifies this`mem, this`pool, this`dir
      ensures Valid() && SameWalks(w.mem0, mem, root, Levels(arch)) && pool == w.pool0 && dir == w.dir0
      ensures !Reachable(w.mem0, w.dir0, |path|, path, |w.pool0|)
    {
      DescentStuck(w, root, path, level, at);
      if mem[at][path[level]].Absent? {
        Rollback(slots, w.hist, w.kids);
        assert pool == w.pool0;
      }
      dir := w.dir0;
    }

    ghost predicate At(w: Descent, path: seq<nat>, level: nat, at: nat, user: bool)
      reads this
    {
      && DescentOk(w, root, path, level, at) && mem == w.mem && dir == w.dir && pool == w.pool
      && WalkHalf(w, |path|, arch.X8664?, path, level, user)
    }

    /** A frame from the allocator becomes the blank table under the slot. */
    method Hang(path: seq<nat>, level: nat, at: nat, user: bool, ghost w: Descent)
        returns (child: nat, ghost w': Descent)
      requires At(w, path, level, at, user) && level < |path| - 1
      requires at in mem && |mem[at]| == ENTRIES && mem[at][path[level]].Absent? && pool != []
      modifies this`mem, this`pool, this`dir
      ensures At(w', path, level + 1, child, user) && w'.slots == w.slots + [Slot(at, path[level])]
      ensures w'.mem0 == w.mem0 && w'.dir0 == w.dir0 && w'.pool0 == w.pool0
    {
      DescentAdds(w, root, path, level, at, user);
      HangKeepsHalf(w, root, path, level, at, arch.X8664?, user);
      w' := AddTo(w, path, level, at, user);
      child := pool[0];
      pool := pool[1..];
      mem := AddTable(mem, at, path[level], child, user);
      dir := w'.dir;
    }

    /** An existing pointer is opened to users when the new mapping is for them. */
    method Widen(path: seq<nat>, level: nat, at: nat, user: bool, ghost w: Descent)
        returns (child: nat, ghost w': Descent)
      requires At(w, path, level, at, user) && level < |path| - 1
      requires at in mem && |mem[at]| == ENTRIES && mem[at][path[level]].Table?
      modifies this`mem
      ensures At(w', path, level + 1, child, user) && w'.slots == w.slots
      ensures w'.mem0 == w.mem0 && w'.dir0 == w.dir0 && w'.pool0 == w.pool0
    {
      var e := mem[at][path[level]];
      DescentWidens(w, root, path, level, at, e.user || user);
      WidenKeepsHalf(w, root, path, level, at, arch.X8664?, user);
      w' := WidenTo(w, path, level, at, e.user || user);
      child := e.frame;
      mem := Write(mem, at, path[level], Table(child, e.user || user));
    }

    /** map_page: on success exactly this page is mapped; on failure no translation changes and the
        allocator has every frame it had. */
    method MapPage(v: nat, paddr: nat, prot: Prot, cache: Cache) returns (ok: bool)
      requires Valid()
      modifies this`mem, this`pool, this`dir
      ensures Valid()
      ensures ok <==> Mappable(arch, old(mem), old(dir), root, |old(pool)|, v, paddr, prot)
      ensures !ok ==> pool == old(pool) && dir == old(dir)
      ensures !ok ==> SameTranslations(old(mem), mem, root, arch)
      ensures ok ==>
        PageBecomes(old(mem), mem, root, arch, v, Some(Translation(Stored(arch, paddr), LeafFlags(arch, prot, cache))))
    {
      if root == 0 || !Canonical(arch, v) || v % PAGE != 0 || paddr % PAGE != 0 || !prot.read { return false; }
      ok := Install(v, Leaf(Stored(arch, paddr), LeafFlags(arch, prot, cache)));
    }

    /** The leaf goes into the page's bottom slot, if that can be reached and is vacant. */
    method Install(v: nat, leaf: Entry) returns (ok: bool)
      requires Valid() && root != 0 && Canonical(arch, v) && leaf.Leaf? && leaf.addr % PAGE == 0
      modifies this`mem, this`pool, this`dir
      ensures Valid()
      ensures ok <==> Reachable(old(mem), old(dir), Levels(arch), PagePath(arch, v), |old(pool)|)
                      && Vacant(old(mem), old(dir), PagePath(arch, v))
      ensures !ok ==> pool == old(pool) && dir == old(dir) && SameTranslations(old(mem), mem, root, arch)
      ensures ok ==> PageBecomes(old(mem), mem, root, arch, v, Some(Translation(leaf.addr, leaf.flags)))
    {
      var path := PagePath(arch, v);
      var table, kids := EnsureLeafTable(path, leaf.flags.prot.user);
      WalksTranslate(old(mem), mem, root, arch);
      if table.None? { return false; }
      if !mem[table.value][path[|path| - 1]].Absent? {
        assert kids == [];
        return false;
      }
      SetLeaf(v, table.value, leaf, old(mem));
      return true;
    }

    method SetLeaf(v: nat, table: nat, leaf: Entry, ghost mem0: Mem)
      requires Valid() && root != 0 && Canonical(arch, v) && leaf.Leaf? && leaf.addr % PAGE == 0
      requires PagePath(arch, v)[..Levels(arch) - 1] in dir && dir[PagePath(arch, v)[..Levels(arch) - 1]] == table
      requires SameTranslations(mem0, mem, root, arch)
      requires arch.X8664? && leaf.flags.prot.user ==> OpenTo(mem, dir, PagePath(arch, v)[..Levels(arch) - 1])
      modifies this`mem
      ensures Valid() && PageBecomes(mem0, mem, root, arch, v, Some(Translation(leaf.addr, leaf.flags)))
    {
      var path := PagePath(arch, v);
      BottomWrite(mem, dir, root, path, leaf);
      WriteKeepsHalf(mem, dir, root, |path|, arch.X8664?, path[..|path| - 1], path[|path| - 1], leaf);
      mem := Write(mem, table, path[|path| - 1], leaf);
      PageRedirected(mem0, old(mem), mem, root, arch, v, Some(Hit(leaf, |path| - 1)));
    }

    /** unmap_page: the page's bottom entry goes, and its address is handed back. */
    method UnmapPage(v: nat) returns (paddr: Option<nat>)
      requires Valid()
      modifies this`mem
      ensures Valid()
      ensures paddr.Some? <==> root != 0 && Canonical(arch, v) && v % PAGE == 0
                                 && PagePath(arch, v)[..Levels(arch) - 1] in dir
                                 && !Vacant(old(mem), dir, PagePath(arch, v))
      ensures paddr.Some? && Translate(old(mem), root, arch, v).Some? ==>
                Translate(old(mem), root, arch, v).value.paddr == paddr.value / PAGE * PAGE
      ensures paddr.None? ==> mem == old(mem)
      ensures paddr.Some? ==> PageBecomes(old(mem), mem, root, arch, v, None)
    {
      if root == 0 || !Canonical(arch, v) || v % PAGE != 0 { return None; }
      var path := PagePath(arch, v);
      var table := FindLeafTable(path);
      if table.None? { return None; }
      BottomWrite(mem, dir, root, path, Absent);
      var e := mem[table.value][path[|path| - 1]];
      if e.Absent? { return None; }
      assert path == path[..|path| - 1] + [path[|path| - 1]];
      BottomIs(mem, dir, root, |path|, path[..|path| - 1], path[|path| - 1]);
      WriteKeepsHalf(mem, dir, root, |path|, arch.X8664?, path[..|path| - 1], path[|path| - 1], Absent);
      mem := Write(mem, table.value, path[|path| - 1], Absent);
      WalksTranslate(old(mem), old(mem), root, arch);
      PageRedirected(old(mem), old(mem), mem, root, arch, v, None);
      return Some(if e.Leaf? then e.addr else e.frame);
    }

    /** walk_ext, and walk without the attributes. On x86_64 the walker lets users at a page of the user
        half exactly when the page says so. */
    method WalkExt(v: nat) returns (t: Option<Translation>)
      requires Valid()
      ensures t == Translate(mem, root, arch, v)
      ensures t.Some? && arch.X8664? && v < LowLimit(arch) ==>
        (Admits(mem, root, PagePath(arch, v), 0) <==> t.value.flags.prot.user)
    {
      if root == 0 || !Canonical(arch, v) { return None; }
      if arch.X8664? && v < LowLimit(arch) {
        LowPath(arch, v);
        UserSeen(mem, dir, root, PagePath(arch, v));
      }
      var hit := ResolvePath(PagePath(arch, v));
      if hit.None? { return None; }
      var size := SizeAt(arch, hit.value.level);
      return Some(Translation(hit.value.entry.addr / size * size + v % size, hit.value.entry.flags));
    }

    /** The bottom table on the path, if the walk gets there. */
    method FindLeafTable(path: seq<nat>) returns (table: Option<nat>)
      requires Valid() && root != 0 && |path| == Levels(arch) && IsPath(path)
      ensures table.Some? <==> path[..Levels(arch) - 1] in dir
      ensures table.Some? ==> table.value == dir[path[..Levels(arch) - 1]]
    {
      ghost var levels := Levels(arch);
      var level, at := 0, root;
      assert path[..0] == [];
      while level < Levels(arch) - 1
        invariant 0 <= level < levels && path[..level] in dir && dir[path[..level]] == at
      {
        SlotAt(mem, dir, root, levels, path[..level], path[level]);
        assert path[..level + 1] == path[..level] + [path[level]];
        var e := mem[at][path[level]];
        if !e.Table? {
          if path[..levels - 1] in dir {
            assert path[..levels - 1][..level + 1] == path[..level + 1];
            PrefixIn(mem, dir, root, levels, path[..levels - 1], level + 1);
          }
          return None;
        }
        at := e.frame;
        level := level + 1;
      }
      return Some(at);
    }

    /** resolve: the loop is the recursive walk. */
    method ResolvePath(path: seq<nat>) returns (hit: Option<Hit>)
      requires Valid() && root != 0 && |path| == Levels(arch) && IsPath(path)
      ensures hit == Resolve(mem, root, path, 0)
    {
      ghost var levels := Levels(arch);
      var level, at := 0, root;
      assert path[..0] == [];
      while level < Levels(arch)
        invariant 0 <= level <= levels
        invariant level < levels ==> path[..level] in dir && dir[path[..level]] == at
        invariant Resolve(mem, root, path, 0) == Resolve(mem, at, path, level)
      {
        assert NodeOk(mem, dir, levels, path[..level]);
        var e := mem[at][path[level]];
        if e.Absent? { return None; }
        if level == Levels(arch) - 1 { return if e.Leaf? then Some(Hit(e, level)) else None; }
        if e.Leaf? { return Some(Hit(e, level)); }
        SlotAt(mem, dir, root, levels, path[..level], path[level]);
        assert path[..level + 1] == path[..level] + [path[level]];
        at := e.frame;
        level := level + 1;
      }
      return None;
    }

    /** free_subtree of the entry that leads to c, in an address space whose tables were mem0. */
    method FreeSubtree(entry: Entry, level: nat, ghost c: seq<nat>, ghost mem0: Mem) returns (ghost gone: seq<seq<nat>>)
      requires Shape(mem0, dir, root, Levels(arch)) && 0 < |c| && |c| + level == Levels(arch) + 1 && level > 0
      requires (level > 1 ==> SlotOk(entry, dir, c)) && Intact(mem0, mem, dir, c)
      modifies this`mem, this`pool
      ensures Lists(gone, dir, c, ENTRIES, true) && Gone(dir, gone, old(mem), old(pool), mem, pool)
      decreases level
    {
      gone := [];
      if !entry.Table? || level <= 1 {
        NothingUnder(mem0, dir, root, Levels(arch), c);
        return;
      }
      var child := entry.frame;
      gone := FreeChildren(child, level, c, mem0);
      ghost var m, p := mem, pool;
      pool := [child] + pool;
      mem := mem - {child};
      GoneOne(dir, c, m, p);
      GoneJoin(dir, gone, [c], old(mem), old(pool), m, p, mem, pool);
      ListsWhole(gone, dir, c);
      gone := [c] + gone;
    }

    /** arch_init: an empty user half over the kernel half of the active address space. */
    method Init(kroot: nat, ghost kdir: Dir) returns (ok: bool)
      requires Valid() && Shape(mem, kdir, kroot, Levels(arch))
      modifies this
      ensures Valid()
      ensures ok <==> old(root) == 0 && old(pool) != []
      ensures !ok ==> mem == old(mem) && pool == old(pool) && root == old(root) && dir == old(dir)
      ensures ok ==> old(pool) == [root] + pool && dir == CloneDir(kdir, root)
      ensures ok ==> forall q | |q| == Levels(arch) && IsPath(q) ::
                && Resolve(mem, root, q, 0) == (if q[0] < USER_HALF then None else Resolve(old(mem), kroot, q, 0))
                && Resolve(mem, kroot, q, 0) == Resolve(old(mem), kroot, q, 0)
    {
      if root != 0 || pool == [] { return false; }
      var frame := pool[0];
      ghost var mem0 := mem;
      assert frame in pool && NodeOk(mem0, kdir, Levels(arch), []);
      pool := pool[1..];
      mem := mem[frame := Blank(ENTRIES)];
      var i := USER_HALF;
      while i < ENTRIES
        invariant USER_HALF <= i <= ENTRIES && frame in mem && mem == mem0[frame := mem[frame]]
        invariant |mem[frame]| == ENTRIES
        invariant forall j | 0 <= j < ENTRIES :: mem[frame][j] == if USER_HALF <= j < i then mem0[kroot][j] else Absent
        modifies this`mem
      {
        mem := Write(mem, frame, i, mem[kroot][i]);
        i := i + 1;
      }
      CloneShape(mem0, mem, kdir, kroot, Levels(arch), frame);
      CloneHalf(mem, kdir, kroot, Levels(arch), frame, arch.X8664?);
      forall q | |q| == Levels(arch) && IsPath(q)
        ensures Resolve(mem, frame, q, 0) == (if q[0] < USER_HALF then None else Resolve(mem0, kroot, q, 0))
        ensures Resolve(mem, kroot, q, 0) == Resolve(mem0, kroot, q, 0)
      {
        CloneWalks(mem0, mem, kdir, kroot, Levels(arch), frame, q);
      }
      root := frame;
      dir := CloneDir(kdir, frame);
      return true;
    }

    /** arch_destroy: each user-half table and the root go back to the allocator, once each; the
        kernel half, which other address spaces share, is not touched. */
    method Destroy() returns (ghost gone: seq<seq<nat>>)
      requires Valid()
      modifies this`root, this`mem, this`pool
      ensures Valid() && root == 0
      ensures old(root) == 0 ==> gone == [] && mem == old(mem) && pool == old(pool)
      ensures old(root) != 0 ==>
                && Lists(gone, dir, [], USER_HALF, true)
                && Gone(dir, gone, old(mem), old(pool), mem, pool)
    {
      gone := [];
      if root == 0 { return; }
      ghost var mem0 := mem;
      gone := FreeUserHalf();
      RootGone(mem0, dir, root, Levels(arch), gone, old(pool), mem, pool);
      pool := [root] + pool;
      mem := mem - {root};
      gone := [[]] + gone;
      root := 0;
    }

    method FreeUserHalf() returns (ghost gone: seq<seq<nat>>)
      requires Valid() && root != 0
      modifies this`mem, this`pool
      ensures Lists(gone, dir, [], USER_HALF, false) && Gone(dir, gone, old(mem), old(pool), mem, pool)
    {
      gone := [];
      ghost var mem0, levels := mem, Levels(arch);
      ListsNone(dir, []);
      PathsOf(mem0, dir, root, levels);
      WholeIntact(mem0, dir, root, levels);
      assert Frames(dir, []) == [];
      var i := 0;
      while i < USER_HALF
        invariant 0 <= i <= USER_HALF && Lists(gone, dir, [], i, false) && Gone(dir, gone, mem0, old(pool), mem, pool)
      {
        IntactChild(mem0, mem0, old(pool), mem, pool, dir, [], i, gone);
        assert NodeOk(mem0, dir, levels, []);
        ghost var m, p := mem, pool;
        ghost var sub := FreeSubtree(mem[root][i], Levels(arch), [] + [i], mem0);
        GoneJoin(dir, gone, sub, mem0, old(pool), m, p, mem, pool);
        ListsGrow(gone, sub, dir, [], i);
        gone := sub + gone;
        i := i + 1;
      }
    }

    method FreeChildren(child: nat, level: nat, ghost c: seq<nat>, ghost mem0: Mem) returns (ghost gone: seq<seq<nat>>)
      requires Shape(mem0, dir, root, Levels(arch)) && 0 < |c| && |c| + level == Levels(arch) + 1 && level > 1
      requires c in dir && dir[c] == child && Intact(mem0, mem, dir, c)
      modifies this`mem, this`pool
      ensures Lists(gone, dir, c, ENTRIES, false) && Gone(dir, gone, old(mem), old(pool), mem, pool)
      decreases level, 0
    {
      gone := [];
      ListsNone(dir, c);
      PathsOf(mem0, dir, root, Levels(arch));
      var i := 0;
      while i < ENTRIES
        invariant 0 <= i <= ENTRIES && Lists(gone, dir, c, i, false) && Gone(dir, gone, old(mem), old(pool), mem, pool)
      {
        IntactChild(mem0, old(mem), old(pool), mem, pool, dir, c, i, gone);
        assert NodeOk(mem0, dir, Levels(arch), c);
        ghost var m, p := mem, pool;
        ghost var sub := FreeSubtree(mem[child][i], level - 1, c + [i], mem0);
        GoneJoin(dir, gone, sub, old(mem), old(pool), m, p, mem, pool);
        ListsGrow(gone, sub, dir, c, i);
        gone := sub + gone;
        i := i + 1;
      }
    }

    /** Undo the tables this walk hung, last first. */
    method Rollback(slots: seq<Slot>, ghost hist: seq<Mem>, ghost kids: seq<nat>)
      requires Chain(hist, slots, kids) && mem == hist[|slots|]
      modifies this`mem, this`pool
      ensures mem == hist[0] && pool == kids + old(pool)
    {
      var n := |slots|;
      while n > 0
        invariant 0 <= n <= |slots| && mem == hist[n] && pool == kids[n..] + old(pool)
      {
        n := n - 1;
        assert Link(hist[n], hist[n + 1], slots[n], kids[n]);
        LinkUndone(hist[n], hist[n + 1], slots[n], kids[n]);
        var s := slots[n];
        pool := [mem[s.table][s.index].frame] + pool;
        mem := DropTable(mem, s.table, s.index);
      }
    }
  }
}
