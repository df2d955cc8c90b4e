/** The doubly linked list of slabs that have room, threaded through the slab headers. */
module PartialList {

  import opened Basics

  datatype Link = Link(next: Option<nat>, prev: Option<nat>)

  const LOOSE := Link(None, None)

  function LinkOf(links: imap<nat, Link>, p: nat): Link { if p in links then links[p] else LOOSE }

  function First(q: seq<nat>): Option<nat> { if q == [] then None else Some(q[0]) }

  /** What the i-th header of the list should hold. */
  function Want(q: seq<nat>, i: nat): Link
    requires i < |q|
  {
    Link(if i + 1 < |q| then Some(q[i + 1]) else None, if i > 0 then Some(q[i - 1]) else None)
  }

  /** The list from this head is these pages in this order, linked both ways. */
  ghost predicate Chain(links: imap<nat, Link>, head: Option<nat>, q: seq<nat>) {
    NoDup(q) && head == First(q) && forall i | 0 <= i < |q| :: LinkOf(links, q[i]) == Want(q, i)
  }

  function SetNext(links: imap<nat, Link>, p: Option<nat>, next: Option<nat>): imap<nat, Link> {
    if p.Some? then links[p.value := LinkOf(links, p.value).(next := next)] else links
  }

  function SetPrev(links: imap<nat, Link>, p: Option<nat>, prev: Option<nat>): imap<nat, Link> {
    if p.Some? then links[p.value := LinkOf(links, p.value).(prev := prev)] else links
  }

  /** The page goes in front; its own prev is not touched. */
  function PushFront(links: imap<nat, Link>, head: Option<nat>, p: nat): imap<nat, Link> {
    SetPrev(SetNext(links, Some(p), head), head, Some(p))
  }

  lemma PushKeeps(links: imap<nat, Link>, head: Option<nat>, q: seq<nat>, p: nat)
    requires Chain(links, head, q) && p !in q && LinkOf(links, p).prev.None?
    ensures Chain(PushFront(links, head, p), Some(p), [p] + q)
    ensures forall x | x != p && x !in q :: LinkOf(PushFront(links, head, p), x) == LinkOf(links, x)
  {
    var now, all := PushFront(links, head, p), [p] + q;
    forall i | 0 <= i < |all| ensures LinkOf(now, all[i]) == Want(all, i) {
      if i > 0 { assert all[i] == q[i - 1] && LinkOf(links, q[i - 1]) == Want(q, i - 1); }
    }
  }

  /** unlink_partial: neighbours are joined and the page left loose. */
  function Unlink(links: imap<nat, Link>, p: nat): imap<nat, Link> {
    var l := LinkOf(links, p);
    SetPrev(SetNext(links, l.prev, l.next), l.next, l.prev)[p := LOOSE]
  }

  function HeadWithout(links: imap<nat, Link>, head: Option<nat>, p: nat): Option<nat> {
    if head == Some(p) then LinkOf(links, p).next else head
  }

  lemma UnlinkAt(links: imap<nat, Link>, q: seq<nat>, i: nat, k: nat)
    requires NoDup(q) && i < |q| && k < |q| && k != i && LinkOf(links, q[i]) == Want(q, i)
    requires LinkOf(links, q[k]) == Want(q, k)
    ensures LinkOf(Unlink(links, q[i]), q[k]) ==
            Want(q, k).(next := if k + 1 == i then Want(q, i).next else Want(q, k).next, prev := if k == i + 1
                then Want(q, i).prev else Want(q, k).prev)
  {
    assert q[k] != q[i];
    if i > 0 && k != i - 1 { assert q[k] != q[i - 1]; }
    if i + 1 < |q| && k != i + 1 { assert q[k] != q[i + 1]; }
  }

  lemma UnlinkElsewhere(links: imap<nat, Link>, q: seq<nat>, i: nat, x: nat)
    requires i < |q| && LinkOf(links, q[i]) == Want(q, i) && x !in q
    ensures LinkOf(Unlink(links, q[i]), x) == LinkOf(links, x)
  {
  }

  function Drop(q: seq<nat>, i: nat): (d: seq<nat>)
    requires i < |q|
    ensures |d| == |q| - 1 && forall j | 0 <= j < |d| :: d[j] == q[if j < i then j else j + 1]
  {
    q[..i] + q[i + 1..]
  }

  lemma DropHas(q: seq<nat>, i: nat)
    requires i < |q| && NoDup(q)
    ensures NoDup(Drop(q, i)) && forall x :: x in Drop(q, i) <==> x in q && x != q[i]
  {
    assert q == q[..i] + [q[i]] + q[i + 1..];
    assert forall j | 0 <= j < |q| && j != i :: q[j] != q[i];
  }

  lemma UnlinkKeeps(links: imap<nat, Link>, head: Option<nat>, q: seq<nat>, i: nat)
    requires Chain(links, head, q) && i < |q|
    ensures var now := Unlink(links, q[i]);
      && Chain(now, HeadWithout(links, head, q[i]), Drop(q, i)) && LinkOf(now, q[i]) == LOOSE
      && forall x | x !in q :: LinkOf(now, x) == LinkOf(links, x)
  {
    var now, d := Unlink(links, q[i]), Drop(q, i);
    DropHas(q, i);
    assert LinkOf(links, q[i]) == Want(q, i);
    forall j | 0 <= j < |d| ensures LinkOf(now, d[j]) == Want(d, j) {
      var k := if j < i then j else j + 1;
      assert LinkOf(links, q[k]) == Want(q, k);
      UnlinkAt(links, q, i, k);
    }
    forall x | x !in q ensures LinkOf(now, x) == LinkOf(links, x) { UnlinkElsewhere(links, q, i, x); }
    if i > 0 { assert q[0] != q[i]; }
  }

  /** A page that is not on the list and is loose already is left as it is, and so is the list. */
  lemma UnlinkLoose(links: imap<nat, Link>, head: Option<nat>, q: seq<nat>, p: nat)
    requires Chain(links, head, q) && p !in q && LinkOf(links, p) == LOOSE
    ensures var now := Unlink(links, p);
      Chain(now, HeadWithout(links, head, p), q) && HeadWithout(links, head, p) == head && forall x ::
          LinkOf(now, x) == LinkOf(links, x)
  {
    var now := Unlink(links, p);
    forall i | 0 <= i < |q| ensures LinkOf(now, q[i]) == Want(q, i) { assert LinkOf(links, q[i]) == Want(q, i); }
  }

  /** Changes to the links of other pages do not matter to a list. */
  lemma ChainStays(links: imap<nat, Link>, now: imap<nat, Link>, head: Option<nat>, q: seq<nat>)
    requires Chain(links, head, q) && forall x | x in q :: LinkOf(now, x) == LinkOf(links, x)
    ensures Chain(now, head, q)
  {
  }

  // ---------------------------------------------------------------- one list for each class

  ghost predicate ListOk(links: imap<nat, Link>, head: Option<nat>, q: seq<nat>, room: imap<nat, nat>, c: nat) {
    Chain(links, head, q) && forall p: nat :: p in q <==> p in room && room[p] == c
  }

  /** A page is on the list of its class exactly when it has room; any other page is loose. */
  ghost predicate Lists(links: imap<nat, Link>, heads: seq<Option<nat>>, lists: seq<seq<nat>>, room: imap<nat, nat>) {
    && |lists| == |heads|
    && (forall c {:trigger ListOk(links, heads[c], lists[c], room, c)} | 0 <= c < |heads| ::
       ListOk(links, heads[c], lists[c], room, c))
    && (forall p: nat | p in room :: room[p] < |heads|)
    && (forall p: nat | p !in room :: LinkOf(links, p) == LOOSE)
  }

  lemma LooseAgain(links: imap<nat, Link>, heads: seq<Option<nat>>, lists: seq<seq<nat>>, room: imap<nat, nat>, p: nat)
    requires Lists(links, heads, lists, room) && p !in room
    ensures Lists(links[p := LOOSE], heads, lists, room)
  {
    var now := links[p := LOOSE];
    forall c | 0 <= c < |heads| ensures ListOk(now, heads[c], lists[c], room, c) {
      assert ListOk(links, heads[c], lists[c], room, c);
      ChainStays(links, now, heads[c], lists[c]);
    }
  }

  lemma ListsPush(links: imap<nat, Link>, heads: seq<Option<nat>>, lists: seq<seq<nat>>, room: imap<nat, nat>, p: nat,
                  c: nat)
    requires Lists(links, heads, lists, room) && p !in room && c < |heads|
    ensures Lists(PushFront(links, heads[c], p), heads[c := Some(p)], lists[c := [p] + lists[c]], room[p := c])
  {
    var now, q, room' := PushFront(links, heads[c], p), lists[c], room[p := c];
    assert ListOk(links, heads[c], q, room, c);
    PushKeeps(links, heads[c], q, p);
    var heads', lists' := heads[c := Some(p)], lists[c := [p] + q];
    forall d | 0 <= d < |heads| ensures ListOk(now, heads'[d], lists'[d], room', d) {
      assert ListOk(links, heads[d], lists[d], room, d);
      if d != c { ChainStays(links, now, heads[d], lists[d]); }
    }
  }

  lemma ListsUnlink(links: imap<nat, Link>, heads: seq<Option<nat>>, lists: seq<seq<nat>>, room: imap<nat, nat>, p: nat)
      returns (less: seq<nat>)
    requires Lists(links, heads, lists, room) && p in room
    ensures var c := room[p];
      Lists(Unlink(links, p), heads[c := HeadWithout(links, heads[c], p)], lists[c := less], room - {p})
  {
    var c := room[p];
    var q := lists[c];
    assert ListOk(links, heads[c], q, room, c) && p in q;
    var i :| 0 <= i < |q| && q[i] == p;
    less := Drop(q, i);
    UnlinkKeeps(links, heads[c], q, i);
    DropHas(q, i);
    var now, heads', lists', room' := Unlink(links, p), heads[c := HeadWithout(links, heads[c], p)], lists[c := less],
        room - {p};
    forall d | 0 <= d < |heads| ensures ListOk(now, heads'[d], lists'[d], room', d) {
      assert ListOk(links, heads[d], lists[d], room, d);
      if d != c { ChainStays(links, now, heads[d], lists[d]); }
    }
  }

  /** Unlinking a page that is on no list changes nothing that matters. */
  lemma ListsUnlinkLoose(links: imap<nat, Link>, heads: seq<Option<nat>>, lists: seq<seq<nat>>, room: imap<nat, nat>,
                         p: nat, c: nat)
    requires Lists(links, heads, lists, room) && p !in room && c < |heads|
    ensures Lists(Unlink(links, p), heads[c := HeadWithout(links, heads[c], p)], lists, room)
    ensures HeadWithout(links, heads[c], p) == heads[c]
  {
    var now := Unlink(links, p);
    assert ListOk(links, heads[c], lists[c], room, c);
    UnlinkLoose(links, heads[c], lists[c], p);
    forall d | 0 <= d < |heads| ensures ListOk(now, heads[d], lists[d], room, d) {
      assert ListOk(links, heads[d], lists[d], room, d);
      ChainStays(links, now, heads[d], lists[d]);
    }
  }

  /** The head of a list has room, and a class with no head has no page with room. */
  lemma HeadHasRoom(links: imap<nat, Link>, heads: seq<Option<nat>>, lists: seq<seq<nat>>, room: imap<nat, nat>, c: nat)
    requires Lists(links, heads, lists, room) && c < |heads|
    ensures heads[c].Some? ==> heads[c].value in room && room[heads[c].value] == c
    ensures heads[c].None? <==> forall p: nat :: !(p in room && room[p] == c)
  {
    assert ListOk(links, heads[c], lists[c], room, c);
    if lists[c] != [] { assert lists[c][0] in lists[c]; }
  }

  /** A page whose next is empty is the last; at the head too, it is the only one. */
  lemma OnlyOne(links: imap<nat, Link>, heads: seq<Option<nat>>, lists: seq<seq<nat>>, room: imap<nat, nat>, p: nat)
    requires Lists(links, heads, lists, room) && p in room
    ensures var c := room[p];
      (heads[c] == Some(p) && LinkOf(links, p).next.None?) <==> forall x: nat | x in room && room[x] == c :: x == p
  {
    var c := room[p];
    var q := lists[c];
    assert ListOk(links, heads[c], q, room, c) && p in q;
    assert LinkOf(links, q[0]) == Want(q, 0) && q[0] in q;
    if |q| > 1 { assert q[1] in q && q[0] != q[1]; }
  }
}
