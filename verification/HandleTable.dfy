/** A task's handle table: slots reused under a generation number, and the free list threaded through
    them. */
module HandleTable {

  import opened Basics

  datatype Error = NullArgument | WrongType | RightsViolation | Oom | HandleInvalid

  datatype Result<T> = Ok(value: T) | Err(error: Error)

  const MAX_GENERATION: nat := 0x7FFF_FFFF
  const GROW_BATCH: nat := 32
  const DUPLICATE: nat := 2

  /** A dead slot has no object. nextFree is -1 at the end of the free list. */
  datatype Entry = Entry(target: Option<nat>, rights: set<nat>, generation: nat, nextFree: int)

  const BLANK: Entry := Entry(None, {}, 0, -1)

  datatype HandleId = HandleId(index: nat, generation: nat)

  /** What a handle stands for. */
  datatype Capability = Capability(target: nat, rights: set<nat>)

  predicate Live(entries: seq<Entry>, id: HandleId) {
    id.index < |entries| && entries[id.index].generation == id.generation && entries[id.index].target.Some?
  }

  function LiveCount(entries: seq<Entry>): nat {
    if entries == [] then 0
    else LiveCount(entries[..|entries| - 1]) + (if entries[|entries| - 1].target.Some? then 1 else 0)
  }

  lemma {:induction false} CountUpdate(entries: seq<Entry>, i: nat, e: Entry)
    requires i < |entries|
    ensures LiveCount(entries[i := e]) + (if entries[i].target.Some? then 1 else 0)
      == LiveCount(entries) + (if e.target.Some? then 1 else 0)
  {
    var n := |entries| - 1;
    if i < n {
      CountUpdate(entries[..n], i, e);
      assert entries[i := e][..n] == entries[..n][i := e];
    } else {
      assert entries[i := e][..n] == entries[..n];
    }
  }

  lemma CountPush(entries: seq<Entry>, e: Entry)
    requires e.target.None?
    ensures LiveCount(entries + [e]) == LiveCount(entries)
  {
    assert (entries + [e])[..|entries|] == entries;
  }

  // ---------------------------------------------------------------- the free list

  function Head(free: seq<nat>): int { if free == [] then -1 else free[0] }

  ghost predicate LinkOk(entries: seq<Entry>, free: seq<nat>, k: nat)
    requires k < |free|
  {
    free[k] < |entries| && entries[free[k]].target.None? && entries[free[k]].nextFree == Head(free[k + 1..])
  }

  /** The links lead through exactly these dead slots, each once. */
  ghost predicate Threads(entries: seq<Entry>, free: seq<nat>, head: int) {
    NoDup(free) && head == Head(free) && forall k: nat {:trigger LinkOk(entries, free, k)} | k < |free| ::
        LinkOk(entries, free, k)
  }

  lemma ThreadsElsewhere(entries: seq<Entry>, free: seq<nat>, head: int, i: nat, e: Entry)
    requires Threads(entries, free, head) && i < |entries| && i !in free
    ensures Threads(entries[i := e], free, head)
  {
    var entries' := entries[i := e];
    forall k: nat | k < |free| ensures LinkOk(entries', free, k) { assert LinkOk(entries, free, k) && free[k] in free; }
  }

  lemma ThreadsPush(entries: seq<Entry>, free: seq<nat>, head: int, i: nat, e: Entry)
    requires Threads(entries, free, head) && i < |entries| && i !in free && e.target.None? && e.nextFree == head
    ensures Threads(entries[i := e], [i] + free, i)
  {
    ThreadsElsewhere(entries, free, head, i, e);
    var entries', free' := entries[i := e], [i] + free;
    forall k: nat | k < |free'| ensures LinkOk(entries', free', k) {
      if k == 0 { assert free'[1..] == free; }
      else { assert LinkOk(entries', free, k - 1) && free'[k + 1..] == free[k..]; }
    }
  }

  lemma ThreadsPop(entries: seq<Entry>, free: seq<nat>, head: int)
    requires Threads(entries, free, head) && free != []
    ensures free[0] < |entries| && entries[free[0]].target.None? && free[0] !in free[1..]
    ensures Threads(entries, free[1..], entries[free[0]].nextFree)
  {
    assert LinkOk(entries, free, 0);
    forall k: nat | k < |free| - 1 ensures LinkOk(entries, free[1..], k) {
      assert LinkOk(entries, free, k + 1) && free[1..][k + 1..] == free[k + 2..];
    }
  }

  lemma ThreadsMore(entries: seq<Entry>, free: seq<nat>, head: int, e: Entry)
    requires Threads(entries, free, head)
    ensures Threads(entries + [e], free, head)
  {
    var entries' := entries + [e];
    forall k: nat | k < |free| ensures LinkOk(entries', free, k) { assert LinkOk(entries, free, k); }
  }

  // ---------------------------------------------------------------- ids

  /** An id once handed out names its slot's past or present, and the present only while the slot is
      not waiting to be handed out again. */
  ghost predicate IdOk(entries: seq<Entry>, free: seq<nat>, id: HandleId) {
    && id.index < |entries| && id.generation <= entries[id.index].generation
    && (id.index in free ==> id.generation < entries[id.index].generation)
  }

  ghost predicate SlotOk(entries: seq<Entry>, issued: set<HandleId>, i: nat)
    requires i < |entries|
  {
    && entries[i].generation <= MAX_GENERATION && (entries[i].target.Some? ==>
       HandleId(i, entries[i].generation) in issued)
    && (entries[i].target.None? && entries[i].generation < MAX_GENERATION ==>
       HandleId(i, entries[i].generation) !in issued)
  }

  ghost predicate TableOk(entries: seq<Entry>, head: int, count: nat, free: seq<nat>, issued: set<HandleId>) {
    && Threads(entries, free, head) && count == LiveCount(entries)
    && (forall id | id in issued :: IdOk(entries, free, id))
    && (forall i: nat {:trigger SlotOk(entries, issued, i)} | i < |entries| :: SlotOk(entries, issued, i))
  }

  /** No id handed out before and dead then is alive now. */
  ghost predicate NoRevival(issued: set<HandleId>, entries: seq<Entry>, entries': seq<Entry>) {
    forall id | id in issued && Live(entries', id) :: Live(entries, id)
  }

  /** Every other live handle stands for what it did. */
  ghost predicate OthersKept(entries: seq<Entry>, entries': seq<Entry>, except: Option<HandleId>) {
    forall id {:trigger Live(entries, id)} | Live(entries, id) && except != Some(id) ::
      Live(entries', id) && entries'[id.index].target == entries[id.index].target
          && entries'[id.index].rights == entries[id.index].rights
  }

  lemma PushKeeps(entries: seq<Entry>, head: int, count: nat, free: seq<nat>, issued: set<HandleId>)
    requires TableOk(entries, head, count, free, issued)
    ensures TableOk(entries + [BLANK], head, count, free, issued) && NoRevival(issued, entries, entries + [BLANK])
    ensures OthersKept(entries, entries + [BLANK], None)
  {
    var entries' := entries + [BLANK];
    ThreadsMore(entries, free, head, BLANK);
    CountPush(entries, BLANK);
    forall id | id in issued ensures IdOk(entries', free, id) && id.index < |entries| {
      assert IdOk(entries, free, id);
    }
    forall i: nat | i < |entries'| ensures SlotOk(entries', issued, i) {
      if i < |entries| { assert SlotOk(entries, issued, i); }
    }
  }

  /** Slot i joins the free list. It must be one no id names in its present generation. */
  lemma ChainKeeps(entries: seq<Entry>, head: int, count: nat, free: seq<nat>, issued: set<HandleId>, i: nat)
    requires TableOk(entries, head, count, free, issued) && i < |entries| && i !in free && entries[i].target.None?
    requires HandleId(i, entries[i].generation) !in issued
    ensures var entries' := entries[i := entries[i].(nextFree := head)];
            TableOk(entries', i, count, [i] + free, issued) && NoRevival(issued, entries, entries')
                && OthersKept(entries, entries', None)
  {
    var e := entries[i].(nextFree := head);
    var entries', free' := entries[i := e], [i] + free;
    ThreadsPush(entries, free, head, i, e);
    CountUpdate(entries, i, e);
    forall id | id in issued ensures IdOk(entries', free', id) {
      assert IdOk(entries, free, id);
      assert id.index == i ==> id != HandleId(i, entries[i].generation);
    }
    forall j: nat | j < |entries'| ensures SlotOk(entries', issued, j) { assert SlotOk(entries, issued, j); }
  }

  /** The first free slot is filled and its id handed out. */
  lemma FillKeeps(entries: seq<Entry>, head: int, count: nat, free: seq<nat>, issued: set<HandleId>, target: nat,
                  rights: set<nat>)
    requires TableOk(entries, head, count, free, issued) && free != []
    ensures
      var i := free[0];
      && i < |entries|
      && var entries' := entries[i := Entry(Some(target), rights, entries[i].generation, -1)];
         var id := HandleId(i, entries[i].generation);
         && TableOk(entries', entries[i].nextFree, count + 1, free[1..], issued + {id})
         && id !in issued && id.generation <= MAX_GENERATION && NoRevival(issued, entries, entries')
         && OthersKept(entries, entries', None)
  {
    var i := free[0];
    ThreadsPop(entries, free, head);
    var e, id := Entry(Some(target), rights, entries[i].generation, -1), HandleId(i, entries[i].generation);
    var entries', rest := entries[i := e], free[1..];
    ThreadsElsewhere(entries, rest, entries[i].nextFree, i, e);
    CountUpdate(entries, i, e);
    assert SlotOk(entries, issued, i);
    assert id !in issued by { if id in issued { FreeUnissued(entries, free, id); } }
    forall d | d in issued + {id} ensures IdOk(entries', rest, d) {
      if d != id { assert IdOk(entries, free, d); }
    }
    forall j: nat | j < |entries'| ensures SlotOk(entries', issued + {id}, j) { assert SlotOk(entries, issued, j); }
    forall d | d in issued && Live(entries', d) ensures Live(entries, d) { assert IdOk(entries, free, d); }
  }

  lemma FreeUnissued(entries: seq<Entry>, free: seq<nat>, id: HandleId)
    requires IdOk(entries, free, id) && id.index in free
    ensures id.generation < entries[id.index].generation
  {
  }

  /** What a closed slot becomes: a newer generation, or the same one for good. */
  function Retired(e: Entry, next: int): Entry {
    Entry(None, {}, if e.generation == MAX_GENERATION then MAX_GENERATION else e.generation + 1, next)
  }

  /** A live slot is emptied without joining the free list. */
  lemma EmptyKeeps(entries: seq<Entry>, head: int, count: nat, free: seq<nat>, issued: set<HandleId>, i: nat)
    requires TableOk(entries, head, count, free, issued) && i < |entries| && entries[i].target.Some?
    ensures
      var id, entries' := HandleId(i, entries[i].generation), entries[i := Retired(entries[i], -1)];
      && i !in free && count > 0 && TableOk(entries', head, count - 1, free, issued)
      && NoRevival(issued, entries, entries')
      && !Live(entries', id) && OthersKept(entries, entries', Some(id))
      && (entries[i].generation < MAX_GENERATION ==> HandleId(i, entries[i].generation + 1) !in issued)
  {
    var e := Retired(entries[i], -1);
    var entries' := entries[i := e];
    if i in free { LiveNotFree(entries, free, head, i); }
    ThreadsElsewhere(entries, free, head, i, e);
    CountUpdate(entries, i, e);
    assert SlotOk(entries, issued, i);
    forall id | id in issued ensures IdOk(entries', free, id) { assert IdOk(entries, free, id); }
    forall j: nat | j < |entries'| ensures SlotOk(entries', issued, j) { assert SlotOk(entries, issued, j); }
    if HandleId(i, entries[i].generation + 1) in issued {
      TooNew(entries, free, HandleId(i, entries[i].generation + 1));
    }
  }

  lemma TooNew(entries: seq<Entry>, free: seq<nat>, id: HandleId)
    requires IdOk(entries, free, id)
    ensures id.generation <= entries[id.index].generation
  {
  }

  lemma LiveNotFree(entries: seq<Entry>, free: seq<nat>, head: int, i: nat)
    requires Threads(entries, free, head) && i in free
    ensures i < |entries| && entries[i].target.None?
  {
    var k: nat :| k < |free| && free[k] == i;
    assert LinkOk(entries, free, k);
  }

  function Ascending(lo: nat, hi: nat): (s: seq<nat>)
    requires lo <= hi
    ensures |s| == hi - lo && forall k | 0 <= k < |s| :: s[k] == lo + k
    decreases hi - lo
  {
    if lo == hi then [] else [lo] + Ascending(lo + 1, hi)
  }

  class Table {
    var entries: seq<Entry>
    var freeHead: int
    var count: nat
    ghost var free: seq<nat>
    ghost var issued: set<HandleId>   // every id ever handed out

    ghost predicate Valid()
      reads this
    {
      TableOk(entries, freeHead, count, free, issued)
    }

    constructor ()
      ensures Valid() && entries == [] && issued == {} && count == 0
    {
      entries, freeHead, count := [], -1, 0;
      free, issued := [], {};
    }

    /** grow: pushes is how many new slots the vector can take. Short of a batch the slots it did take
        stay unused. New slots are handed out in ascending order. */
    method Grow(pushes: nat) returns (ok: bool)
      requires Valid() && free == []
      modifies this`entries, this`freeHead, this`free
      ensures Valid() && ok == (pushes >= GROW_BATCH)
      ensures NoRevival(issued, old(entries), entries) && OthersKept(old(entries), entries, None)
      ensures free == if ok then Ascending(|old(entries)|, |old(entries)| + GROW_BATCH) else []
    {
      var oldSize, i := |entries|, 0;
      ghost var start := entries;
      while i < GROW_BATCH
        invariant i <= GROW_BATCH && i <= pushes && |entries| == oldSize + i && Valid() && free == []
        invariant entries[..oldSize] == start && forall j | oldSize <= j < |entries| :: entries[j] == BLANK
        modifies this`entries
      {
        if i == pushes {
          Untouched(issued, start, entries);
          return false;
        }
        PushKeeps(entries, freeHead, count, free, issued);
        entries := entries + [BLANK];
        i := i + 1;
      }
      assert entries[..oldSize] == start;
      NewUnissued(start, issued, free, entries);
      i := oldSize + GROW_BATCH;
      while i > oldSize
        invariant oldSize <= i <= oldSize + GROW_BATCH == |entries| && Valid()
        invariant free == Ascending(i, oldSize + GROW_BATCH)
        invariant entries[..oldSize] == start
        invariant forall j | oldSize <= j < |entries| :: entries[j].(nextFree := -1) == BLANK
        modifies this`entries, this`freeHead, this`free
      {
        i := i - 1;
        ChainKeeps(entries, freeHead, count, free, issued, i);
        entries := entries[i := entries[i].(nextFree := freeHead)];
        freeHead := i;
        free := [i] + free;
      }
      Untouched(issued, start, entries);
      return true;
    }

    /** create_handle. The id is new: no id handed out before, dead or alive, is equal to it. */
    method Create(target: Option<nat>, rights: set<nat>, contract: Option<set<nat>>, pushes: nat)
        returns (r: Result<HandleId>)
      requires Valid()
      modifies this
      ensures Valid()
      ensures r == Err(NullArgument) <==> target.None?
      ensures r == Err(WrongType) <==> target.Some? && contract.None?
      ensures r == Err(RightsViolation) <==> target.Some? && contract.Some? && !(rights <= contract.value)
      ensures r == Err(Oom) <==>
        target.Some? && contract.Some? && rights <= contract.value && old(free) == [] && pushes < GROW_BATCH
      ensures r != Err(HandleInvalid) && NoRevival(old(issued), old(entries), entries)
      ensures OthersKept(old(entries), entries, None)
      ensures r.Err? ==> issued == old(issued) && count == old(count)
      ensures r.Ok? ==> r.value !in old(issued) && issued == old(issued) + {r.value} && count == old(count) + 1
      ensures r.Ok? ==> Live(entries, r.value) && r.value.generation <= MAX_GENERATION
      ensures r.Ok? ==> entries[r.value.index].target == target && entries[r.value.index].rights == rights
      ensures r.Ok? ==> View(entries) == View(old(entries))[r.value := Capability(target.value, rights)]
    {
      LiveIssued(entries, freeHead, count, free, issued);
      if target.None? { return Err(NullArgument); }
      if contract.None? { return Err(WrongType); }
      if !(rights <= contract.value) { return Err(RightsViolation); }
      if freeHead == -1 {
        var grown := Grow(pushes);
        if !grown { return Err(Oom); }
      }
      ghost var grown := entries;
      var id := Fill(target.value, rights);
      TwoSteps(old(issued), old(entries), grown, entries, None);
      LiveIssued(entries, freeHead, count, free, issued);
      InsertView(old(entries), entries, old(issued), id, Capability(target.value, rights));
      return Ok(id);
    }

    /** The first free slot takes the capability. */
    method Fill(target: nat, rights: set<nat>) returns (id: HandleId)
      requires Valid() && freeHead != -1
      modifies this
      ensures Valid() && id !in old(issued) && issued == old(issued) + {id} && count == old(count) + 1
      ensures NoRevival(old(issued), old(entries), entries) && OthersKept(old(entries), entries, None)
      ensures Live(entries, id) && id.generation <= MAX_GENERATION
      ensures entries[id.index].target == Some(target) && entries[id.index].rights == rights
    {
      FillKeeps(entries, freeHead, count, free, issued, target, rights);
      var slot := freeHead;
      id := HandleId(slot, entries[slot].generation);
      freeHead := entries[slot].nextFree;
      entries := entries[slot := Entry(Some(target), rights, id.generation, -1)];
      count := count + 1;
      free, issued := free[1..], issued + {id};
    }

    /** take, which close also goes through: the entry's capability leaves the table, and the id is
        dead from here on. */
    method Take(id: HandleId) returns (r: Result<Capability>)
      requires Valid()
      modifies this
      ensures Valid() && issued == old(issued) && NoRevival(issued, old(entries), entries) && !Live(entries, id)
      ensures r.Ok? <==> Live(old(entries), id)
      ensures r.Err? ==> r == Err(HandleInvalid) && entries == old(entries)
      ensures r.Ok? ==>
        old(entries)[id.index].target == Some(r.value.target) && old(entries)[id.index].rights == r.value.rights
      ensures r.Ok? ==> OthersKept(old(entries), entries, Some(id)) && count == old(count) - 1
      ensures View(entries) == View(old(entries)) - {id}
      ensures (r.Ok? ==> id in View(old(entries)) && r.value == View(old(entries))[id])
    {
      if !Live(entries, id) { return Err(HandleInvalid); }
      var i, e := id.index, entries[id.index];
      EmptyKeeps(entries, freeHead, count, free, issued, i);
      ghost var was := entries;
      entries := entries[i := Retired(e, -1)];
      count := count - 1;
      if e.generation != MAX_GENERATION {
        ghost var emptied := entries;
        ChainKeeps(entries, freeHead, count, free, issued, i);
        entries := entries[i := Retired(e, freeHead)];
        freeHead := i;
        free := [i] + free;
        TwoSteps(issued, was, emptied, entries, Some(id));
      }
      LiveIssued(entries, freeHead, count, free, issued);
      TakeView(old(entries), entries, issued, id);
      return Ok(Capability(e.target.value, e.rights));
    }

    /** verify: lookup, then type, then rights, and the first failure is the answer. */
    method Verify(id: HandleId, required: set<nat>, expected: Option<nat>, typeOf: nat -> nat)
        returns (r: Result<Capability>)
      requires Valid()
      ensures r == Err(HandleInvalid) <==> !Live(entries, id)
      ensures r == Err(WrongType) <==>
        Live(entries, id) && expected.Some? && typeOf(entries[id.index].target.value) != expected.value
      ensures r == Err(RightsViolation) <==>
        Live(entries, id) && (expected.None? || typeOf(entries[id.index].target.value) == expected.value)
                                             && !(required <= entries[id.index].rights)
      ensures r.Ok? ==>
        Live(entries, id) && required <= r.value.rights
            && r.value == Capability(entries[id.index].target.value, entries[id.index].rights)
      ensures r.Err? ==> r.error in {HandleInvalid, WrongType, RightsViolation}
    {
      if !Live(entries, id) { return Err(HandleInvalid); }
      var e := entries[id.index];
      if expected.Some? && typeOf(e.target.value) != expected.value { return Err(WrongType); }
      if !(required <= e.rights) { return Err(RightsViolation); }
      return Ok(Capability(e.target.value, e.rights));
    }

    /** duplicate: the copy names the same object with no right the source lacks. */
    method Duplicate(source: HandleId, mask: set<nat>, contract: Option<set<nat>>, pushes: nat)
        returns (r: Result<HandleId>)
      requires Valid()
      modifies this
      ensures Valid() && NoRevival(old(issued), old(entries), entries) && OthersKept(old(entries), entries, None)
      ensures r == Err(HandleInvalid) <==> !Live(old(entries), source)
      ensures Live(old(entries), source) ==>
        var rights := old(entries)[source.index].rights;
        && (r == Err(RightsViolation) <==>
           DUPLICATE !in rights || (contract.Some? && !(rights * mask <= contract.value)))
        && (r == Err(WrongType) <==> DUPLICATE in rights && contract.None?)
        && (r == Err(Oom) <==> DUPLICATE in rights && contract.Some? && rights * mask <= contract.value
                               && old(free) == [] && pushes < GROW_BATCH)
      ensures r.Err? ==> issued == old(issued) && count == old(count)
      ensures r.Ok? ==>
        Live(old(entries), source) && DUPLICATE in old(entries)[source.index].rights && Live(entries, r.value)
            && r.value !in old(issued)
      ensures r.Ok? ==> entries[r.value.index].target == old(entries)[source.index].target
      ensures r.Ok? ==> entries[r.value.index].rights == old(entries)[source.index].rights * mask
    {
      if !Live(entries, source) { return Err(HandleInvalid); }
      var e := entries[source.index];
      if DUPLICATE !in e.rights { return Err(RightsViolation); }
      r := Create(e.target, e.rights * mask, contract, pushes);
    }

    /** One locked block of clear: the next live entry at or after index is closed. Its slot is not
        free until the list is rebuilt. */
    method ClearNext(index: nat) returns (next: nat, victim: Option<nat>)
      requires Valid()
      modifies this`entries, this`count
      ensures Valid() && NoRevival(issued, old(entries), entries) && |entries| == |old(entries)|
      ensures forall i: nat | i < |entries| :: (entries[i].target.Some? ==> entries[i] == old(entries)[i])
      ensures forall i: nat | index <= i < next && i < |entries| :: entries[i].target.None?
      ensures victim.None? ==> next >= |entries| && entries == old(entries)
      ensures victim.Some? ==>
        next < |entries| && entries[next].target.None? && victim == old(entries)[next].target && count == old(count) - 1
    {
      next := index;
      while next < |entries| && entries[next].target.None?
        invariant index <= next && forall i: nat | index <= i < next && i < |entries| :: entries[i].target.None?
      {
        next := next + 1;
      }
      if next >= |entries| { return next, None; }
      EmptyKeeps(entries, freeHead, count, free, issued, next);
      victim := entries[next].target;
      entries := entries[next := Retired(entries[next], -1)];
      count := count - 1;
    }

    /** The rebuild that ends clear: the free list is the dead slots below the last generation, in
        ascending order. */
    method Rebuild()
      requires Valid()
      modifies this`entries, this`freeHead, this`free
      ensures Valid() && NoRevival(issued, old(entries), entries) && OthersKept(old(entries), entries, None)
      ensures free == Reusable(entries, 0)
    {
      ghost var start := entries;
      freeHead := -1;
      free := [];
      ListEmpty(start, old(freeHead), count, old(free), issued);
      var i := |entries|;
      while i > 0
        invariant 0 <= i <= |entries| == |start| && Valid() && free == Reusable(entries, i) && LinksOnly(start, entries)
        modifies this`entries, this`freeHead, this`free
      {
        i := i - 1;
        RebuildSlot(i, start);
      }
      SameButLinks(issued, start, entries);
    }

    method RebuildSlot(i: nat, ghost start: seq<Entry>)
      requires Valid() && i < |entries| && free == Reusable(entries, i + 1) && LinksOnly(start, entries)
      modifies this`entries, this`freeHead, this`free
      ensures Valid() && |entries| == |old(entries)| && free == Reusable(entries, i) && LinksOnly(start, entries)
    {
      assert SlotOk(entries, issued, i) && i !in free;
      if entries[i].target.Some? || entries[i].generation == MAX_GENERATION {
        UnlinkKeeps(entries, freeHead, count, free, issued, i);
        entries := entries[i := entries[i].(nextFree := -1)];
      } else {
        ChainKeeps(entries, freeHead, count, free, issued, i);
        entries := entries[i := entries[i].(nextFree := freeHead)];
        freeHead := i;
        free := [i] + free;
      }
      ReusableSame(old(entries), entries, i + 1);
    }
  }

  /** The two differ in links only. */
  ghost predicate LinksOnly(start: seq<Entry>, entries: seq<Entry>) {
    |entries| == |start| && forall j: nat {:trigger entries[j]} | j < |entries| ::
        entries[j] == start[j].(nextFree := entries[j].nextFree)
  }

  /** The dead slots from i up that may be handed out again. */
  ghost function Reusable(entries: seq<Entry>, i: nat): (s: seq<nat>)
    requires i <= |entries|
    ensures forall j | j in s :: i <= j < |entries|
    decreases |entries| - i
  {
    if i == |entries| then [] else Spare(entries[i], i) + Reusable(entries, i + 1)
  }

  function Spare(e: Entry, i: nat): (s: seq<nat>)
    ensures forall j | j in s :: j == i
  {
    if e.target.Some? || e.generation == MAX_GENERATION then [] else [i]
  }

  lemma {:induction false} ReusableSame(entries: seq<Entry>, entries': seq<Entry>, i: nat)
    requires |entries| == |entries'| && i <= |entries|
    requires forall j | i <= j < |entries| ::
      entries[j].target == entries'[j].target && entries[j].generation == entries'[j].generation
    ensures Reusable(entries, i) == Reusable(entries', i)
    decreases |entries| - i
  {
    if i < |entries| {
      ReusableSame(entries, entries', i + 1);
      assert Spare(entries[i], i) == Spare(entries'[i], i);
    }
  }

  lemma UnlinkKeeps(entries: seq<Entry>, head: int, count: nat, free: seq<nat>, issued: set<HandleId>, i: nat)
    requires TableOk(entries, head, count, free, issued) && i < |entries| && i !in free
    ensures TableOk(entries[i := entries[i].(nextFree := -1)], head, count, free, issued)
  {
    var e := entries[i].(nextFree := -1);
    var entries' := entries[i := e];
    ThreadsElsewhere(entries, free, head, i, e);
    CountUpdate(entries, i, e);
    forall id | id in issued ensures IdOk(entries', free, id) { assert IdOk(entries, free, id); }
    forall j: nat | j < |entries'| ensures SlotOk(entries', issued, j) { assert SlotOk(entries, issued, j); }
  }

  lemma ListEmpty(entries: seq<Entry>, head: int, count: nat, free: seq<nat>, issued: set<HandleId>)
    requires TableOk(entries, head, count, free, issued)
    ensures TableOk(entries, -1, count, [], issued)
  {
    forall id | id in issued ensures IdOk(entries, [], id) { assert IdOk(entries, free, id); }
  }

  /** Only links moved, so every id is what it was. */
  lemma SameButLinks(issued: set<HandleId>, start: seq<Entry>, entries: seq<Entry>)
    requires LinksOnly(start, entries)
    ensures NoRevival(issued, start, entries) && OthersKept(start, entries, None)
  {
    forall j: nat | j < |entries|
      ensures entries[j].target == start[j].target && entries[j].rights == start[j].rights
      ensures entries[j].generation == start[j].generation {}
  }

  lemma Untouched(issued: set<HandleId>, start: seq<Entry>, entries: seq<Entry>)
    requires |start| <= |entries| && entries[..|start|] == start
    requires forall j | |start| <= j < |entries| :: entries[j].target.None?
    ensures NoRevival(issued, start, entries) && OthersKept(start, entries, None)
  {
    forall j | 0 <= j < |start| ensures entries[j] == start[j] { assert entries[..|start|][j] == start[j]; }
  }

  lemma NewUnissued(start: seq<Entry>, issued: set<HandleId>, free: seq<nat>, entries: seq<Entry>)
    requires forall id | id in issued :: id.index < |start|
    ensures forall j: nat, g: nat | |start| <= j :: HandleId(j, g) !in issued
  {
  }

  lemma TwoSteps(issued: set<HandleId>, a: seq<Entry>, b: seq<Entry>, c: seq<Entry>, except: Option<HandleId>)
    requires NoRevival(issued, a, b) && NoRevival(issued, b, c) && OthersKept(a, b, except) && OthersKept(b, c, None)
    ensures NoRevival(issued, a, c) && OthersKept(a, c, except)
  {
  }

  /** What the table stands for: its live ids, and the capability of each. */
  ghost function View(entries: seq<Entry>): imap<HandleId, Capability> {
    imap id: HandleId | Live(entries, id) :: Capability(entries[id.index].target.value, entries[id.index].rights)
  }

  /** An insert adds one id, never given out before, and changes nothing else. */
  lemma InsertView(entries: seq<Entry>, entries': seq<Entry>, issued: set<HandleId>, id: HandleId, cap: Capability)
    requires forall d: HandleId | Live(entries, d) :: d in issued
    requires forall d: HandleId | Live(entries', d) :: d == id || d in issued
    requires id !in issued && NoRevival(issued, entries, entries') && OthersKept(entries, entries', None)
    requires Live(entries', id) && entries'[id.index].target == Some(cap.target)
    requires entries'[id.index].rights == cap.rights
    ensures View(entries') == View(entries)[id := cap]
  {
  }

  /** A take removes one id and changes nothing else. */
  lemma TakeView(entries: seq<Entry>, entries': seq<Entry>, issued: set<HandleId>, id: HandleId)
    requires forall d: HandleId | Live(entries', d) :: d in issued
    requires NoRevival(issued, entries, entries') && OthersKept(entries, entries', Some(id)) && !Live(entries', id)
    ensures View(entries') == View(entries) - {id}
  {
  }

  lemma LiveIssued(entries: seq<Entry>, head: int, count: nat, free: seq<nat>, issued: set<HandleId>)
    requires TableOk(entries, head, count, free, issued)
    ensures forall d: HandleId | Live(entries, d) :: d in issued
  {
    forall d: HandleId | Live(entries, d) ensures d in issued { assert SlotOk(entries, issued, d.index); }
  }

  /** A history of a table: each operation hands out ids and revives none. */
  ghost predicate History(tables: seq<seq<Entry>>, issued: seq<set<HandleId>>) {
    && |tables| == |issued|
    && forall k {:trigger tables[k]} | 0 < k < |tables| ::
       issued[k - 1] <= issued[k] && NoRevival(issued[k - 1], tables[k - 1], tables[k])
  }

  /** Once an id handed out is dead, it is dead for the rest of the table's life, however often its slot
      is used again. */
  lemma {:induction false} DeadForever(tables: seq<seq<Entry>>, issued: seq<set<HandleId>>, id: HandleId, j: nat,
                                       k: nat)
    requires History(tables, issued) && j <= k < |tables| && id in issued[j] && !Live(tables[j], id)
    ensures id in issued[k] && !Live(tables[k], id)
    decreases k - j
  {
    if j < k {
      DeadForever(tables, issued, id, j, k - 1);
      assert NoRevival(issued[k - 1], tables[k - 1], tables[k]);
    }
  }

  // ---------------------------------------------------------------- the packed form

  const HALF: nat := 0x1_0000_0000

  function Pack(id: HandleId): nat { id.index + id.generation * HALF }

  function Unpack(h: nat): HandleId { HandleId(h % HALF, h / HALF) }

  /** A packed handle unpacks to itself and, for every id a table hands out, never has its sign bit
      set. */
  lemma PackRoundTrip(id: HandleId)
    requires id.index < HALF && id.generation <= MAX_GENERATION
    ensures Unpack(Pack(id)) == id && Pack(id) < 0x8000_0000_0000_0000
  {
  }
}
