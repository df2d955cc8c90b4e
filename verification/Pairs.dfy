/** Channel and socket pairs: two endpoints with a circular buffer each way and signals that say, at
    the end of every locked block, exactly what an endpoint could do next. */
module Pairs {

  datatype Error = PeerClosed | CapacityExhausted | WouldBlock | Truncated | OutOfRange

  datatype Result<T> = Ok(value: T) | Err(error: Error)

  /** The i-th element of a circular buffer lies here. */
  function Place(head: nat, i: nat, cap: nat): nat
    requires head < cap && i <= cap
  {
    if head + i < cap then head + i else head + i - cap
  }

  lemma PlaceIsMod(head: nat, i: nat, cap: nat)
    requires head < cap && i <= cap
    ensures (head + i) % cap == Place(head, i, cap) < cap
  {
    if head + i >= cap { ModOnce(head + i - cap, cap); }
  }

  lemma PlaceShift(head: nat, n: nat, j: nat, cap: nat)
    requires head < cap && n + j <= cap && n < cap
    ensures Place(head, n, cap) < cap && Place(Place(head, n, cap), j, cap) == Place(head, n + j, cap)
  {
  }

  lemma ModOnce(x: nat, cap: nat)
    requires x < cap
    ensures (x + cap) % cap == x
  {
  }

  /** What a circular buffer holds, oldest first. */
  function Circle<T>(s: seq<T>, head: nat, count: nat): (q: seq<T>)
    requires head < |s| && count <= |s|
    ensures |q| == count
  {
    if count == 0 then [] else Circle(s, head, count - 1) + [s[Place(head, count - 1, |s|)]]
  }

  lemma {:induction false} CircleAt<T>(s: seq<T>, head: nat, count: nat, i: nat)
    requires head < |s| && i < count <= |s|
    ensures Place(head, i, |s|) < |s| && Circle(s, head, count)[i] == s[Place(head, i, |s|)]
  {
    if i < count - 1 { CircleAt(s, head, count - 1, i); }
  }

  /** Two runs, to the edge and from the start, are the front. */
  function TwoRuns<T>(s: seq<T>, head: nat, take: nat): (q: seq<T>)
    requires head < |s| && take <= |s|
  {
    var first := if take < |s| - head then take else |s| - head;
    s[head..head + first] + s[..take - first]
  }

  lemma TwoRunsAreFront<T>(s: seq<T>, head: nat, take: nat)
    requires head < |s| && take <= |s|
    ensures TwoRuns(s, head, take) == Circle(s, head, take)
  {
    var q, r := TwoRuns(s, head, take), Circle(s, head, take);
    forall i | 0 <= i < take ensures q[i] == r[i] { CircleAt(s, head, take, i); }
  }

  lemma TakeFront<T>(s: seq<T>, head: nat, count: nat, take: nat)
    requires head < |s| && take <= count <= |s|
    ensures var next := Place(head, take, |s|);
      next < |s| && Circle(s, head, count) == Circle(s, head, take) + Circle(s, next, count - take)
  {
    var next := Place(head, take, |s|);
    var q, r := Circle(s, head, count), Circle(s, head, take) + Circle(s, next, count - take);
    forall i | 0 <= i < count ensures q[i] == r[i] {
      CircleAt(s, head, count, i);
      if i < take { CircleAt(s, head, take, i); }
      else { CircleAt(s, next, count - take, i - take); }
    }
  }

  lemma PutBack<T>(s: seq<T>, t: seq<T>, head: nat, count: nat, data: seq<T>)
    requires head < |s| == |t| && count + |data| <= |s|
    requires forall i | 0 <= i < count :: t[Place(head, i, |s|)] == s[Place(head, i, |s|)]
    requires forall j | 0 <= j < |data| :: t[Place(head, count + j, |s|)] == data[j]
    ensures Circle(t, head, count + |data|) == Circle(s, head, count) + data
  {
    var q, r := Circle(t, head, count + |data|), Circle(s, head, count) + data;
    forall i | 0 <= i < |q| ensures q[i] == r[i] {
      CircleAt(t, head, count + |data|, i);
      if i < count { CircleAt(s, head, count, i); }
      else { assert t[Place(head, count + (i - count), |s|)] == data[i - count]; }
    }
  }

  class Ring<T(0)> {
    const cap: nat
    const slots: array<T>
    var head: nat
    var count: nat

    ghost predicate Valid()
      reads this, slots
    {
      0 < cap == slots.Length && head < cap && count <= cap
    }

    ghost function Items(): (q: seq<T>)
      requires Valid()
      reads this, slots
      ensures |q| == count
    {
      Circle(slots[..], head, count)
    }

    constructor (n: nat)
      requires n > 0
      ensures Valid() && cap == n && Items() == [] && fresh(slots)
    {
      cap, head, count := n, 0, 0;
      slots := new T[n];
    }

    /** One element behind the last. */
    method Push(x: T)
      requires Valid() && count < cap
      modifies this`count, slots
      ensures Valid() && Items() == old(Items()) + [x]
    {
      PlaceIsMod(head, count, cap);
      slots[(head + count) % cap] := x;
      PutBack(old(slots[..]), slots[..], head, count, [x]);
      count := count + 1;
    }

    method Pop() returns (x: T)
      requires Valid() && count > 0
      modifies this`head, this`count
      ensures Valid() && old(Items()) == [x] + Items()
    {
      PlaceIsMod(head, 1, cap);
      TakeFront(slots[..], head, count, 1);
      CircleAt(slots[..], head, 1, 0);
      x := slots[head];
      head, count := (head + 1) % cap, count - 1;
    }

    /** memcpy into the buffer. */
    method CopyIn(at: nat, src: seq<T>)
      requires Valid() && at + |src| <= cap
      modifies slots
      ensures forall k | 0 <= k < cap :: slots[k] == if at <= k < at + |src| then src[k - at] else old(slots[k])
    {
      var i := 0;
      while i < |src|
        invariant i <= |src|
        invariant forall k | 0 <= k < cap :: slots[k] == if at <= k < at + i then src[k - at] else old(slots[k])
      {
        slots[at + i] := src[i];
        i := i + 1;
      }
    }

    /** The two runs of a write: to the edge, then from the front. */
    method CopyBoth(tail: nat, data: seq<T>)
      requires Valid() && tail < cap && |data| <= cap
      modifies slots
      ensures forall j | 0 <= j < |data| :: slots[Place(tail, j, cap)] == data[j]
      ensures forall k | 0 <= k < cap && (forall j | 0 <= j < |data| :: k != Place(tail, j, cap)) ::
        slots[k] == old(slots[k])
    {
      var first := if |data| < cap - tail then |data| else cap - tail;
      CopyIn(tail, data[..first]);
      CopyIn(0, data[first..]);
      forall k | 0 <= k < cap && slots[k] != old(slots[k])
          ensures exists j | 0 <= j < |data| :: k == Place(tail, j, cap) {
        if tail <= k < tail + first {
          assert Place(tail, k - tail, cap) == k;
        } else {
          assert Place(tail, first + k, cap) == k;
        }
      }
    }

    method Extend(tail: nat, data: seq<T>)
      requires Valid() && count < cap && tail == Place(head, count, cap) < cap && count + |data| <= cap
      modifies this`count, slots
      ensures Valid() && Items() == old(Items()) + data && count == old(count) + |data|
    {
      CopyBoth(tail, data);
      forall j | 0 <= j < |data| ensures slots[Place(head, count + j, cap)] == data[j] {
        PlaceShift(head, count, j, cap);
      }
      forall i | 0 <= i < count ensures slots[Place(head, i, cap)] == old(slots[Place(head, i, cap)]) {
        forall j | 0 <= j < |data| ensures Place(head, i, cap) != Place(tail, j, cap) {
          PlaceShift(head, count, j, cap);
        }
      }
      PutBack(old(slots[..]), slots[..], head, count, data);
      count := count + |data|;
    }

    /** As much as fits. */
    method Write(data: seq<T>) returns (take: nat)
      requires Valid() && count < cap
      modifies this`count, slots
      ensures Valid() && take == (if |data| < cap - old(count) then |data| else cap - old(count))
      ensures Items() == old(Items()) + data[..take]
    {
      take := if |data| < cap - count then |data| else cap - count;
      PlaceIsMod(head, count, cap);
      Extend((head + count) % cap, data[..take]);
    }

    /** As much as is wanted and there, in at most two runs. */
    method Read(capacity: nat) returns (out: seq<T>)
      requires Valid() && count > 0
      modifies this`head, this`count
      ensures Valid() && |out| == (if capacity < old(count) then capacity else old(count))
      ensures old(Items()) == out + Items()
    {
      var take := if capacity < count then capacity else count;
      out := TwoRuns(slots[..], head, take);
      PlaceIsMod(head, take, cap);
      TwoRunsAreFront(slots[..], head, take);
      TakeFront(slots[..], head, count, take);
      head, count := (head + take) % cap, count - take;
    }
  }

  // ---------------------------------------------------------------- one direction of a pair

  /** What one endpoint writes and the other reads, with the two signals that are about it: the
      reader's READABLE and the writer's WRITABLE. */
  class Direction<T(0)> {
    const ring: Ring<T>
    var reader: bool
    var writer: bool
    var readable: bool
    var writable: bool
    ghost var sent: seq<T>
    ghost var taken: seq<T>

    /** The signals mean what they say, and everything accepted has been read or is still there, in order. */
    ghost predicate Valid()
      reads this, ring, ring.slots
    {
      && ring.Valid() && sent == taken + ring.Items()
      && (reader ==> (readable <==> ring.count > 0))
      && (writer ==> (writable <==> reader && ring.count < ring.cap))
    }

    constructor (cap: nat)
      requires cap > 0
      ensures Valid() && reader && writer && sent == taken == [] && ring.cap == cap && fresh(ring) && fresh(ring.slots)
    {
      ring := new Ring<T>(cap);
      reader, writer, readable, writable, sent, taken := true, true, false, true, [], [];
    }

    /** Channel::write, once the message is known to be fit to send. */
    method Send(m: T) returns (r: Result<()>)
      requires Valid() && writer
      modifies this`readable, this`writable, this`sent, ring, ring.slots
      ensures Valid() && (r == Err(PeerClosed) <==> !reader)
      ensures (r == Err(CapacityExhausted) <==> reader && old(ring.count) == ring.cap)
      ensures r.Err? ==>
        r.error in {PeerClosed, CapacityExhausted} && sent == old(sent) && readable == old(readable)
            && writable == old(writable)
      ensures r.Ok? ==> sent == old(sent) + [m]
    {
      if !reader { return Err(PeerClosed); }
      if ring.count == ring.cap { return Err(CapacityExhausted); }
      ring.Push(m);
      sent := sent + [m];
      readable := true;
      if ring.count == ring.cap { writable := false; }
      return Ok(());
    }

    /** Channel::read: the front message comes off even when it does not fit. */
    method Receive(fits: T -> bool) returns (r: Result<T>)
      requires Valid() && reader
      modifies this`readable, this`writable, this`taken, ring
      ensures Valid() && (r == Err(WouldBlock) <==> old(ring.count) == 0 && writer)
      ensures (r == Err(PeerClosed) <==> old(ring.count) == 0 && !writer)
      ensures old(ring.count) == 0 ==> taken == old(taken) && readable == old(readable) && writable == old(writable)
      ensures old(ring.count) > 0 ==> var front := old(ring.Items())[0];
        r == (if fits(front) then Ok(front) else Err(Truncated)) && taken == old(taken) + [front]
    {
      if ring.count == 0 { return Err(if writer then WouldBlock else PeerClosed); }
      var wasFull := ring.count == ring.cap;
      var m := ring.Pop();
      taken := taken + [m];
      if ring.count == 0 { readable := false; }
      if wasFull && writer { writable := true; }
      return if fits(m) then Ok(m) else Err(Truncated);
    }

    /** Socket::write: as many bytes as fit. */
    method Put(data: seq<T>) returns (r: Result<nat>)
      requires Valid() && writer
      modifies this`readable, this`writable, this`sent, ring, ring.slots
      ensures Valid() && (r == Err(PeerClosed) <==> !reader)
      ensures r == Err(CapacityExhausted) <==> reader && data != [] && old(ring.count) == ring.cap
      ensures r.Err? ==> r.error in {PeerClosed, CapacityExhausted} && sent == old(sent)
      ensures r.Ok? ==>
        r.value <= |data| && sent == old(sent) + data[..r.value] && (r.value == |data| || ring.count == ring.cap)
    {
      if !reader { return Err(PeerClosed); }
      if data == [] { return Ok(0); }
      if ring.count == ring.cap { return Err(CapacityExhausted); }
      var take := ring.Write(data);
      sent := sent + data[..take];
      readable := true;
      if ring.count == ring.cap { writable := false; }
      return Ok(take);
    }

    /** Socket::read: as many bytes as there are, up to the capacity. */
    method Get(capacity: nat) returns (r: Result<seq<T>>)
      requires Valid() && reader
      modifies this`readable, this`writable, this`taken, ring
      ensures Valid() && (r == Err(WouldBlock) <==> old(ring.count) == 0 && writer)
      ensures (r == Err(PeerClosed) <==> old(ring.count) == 0 && !writer)
      ensures r.Err? ==> r.error in {WouldBlock, PeerClosed} && taken == old(taken)
      ensures r.Ok? ==>
        |r.value| <= capacity && taken == old(taken) + r.value && (|r.value| == capacity || ring.count == 0)
    {
      if ring.count == 0 { return Err(if writer then WouldBlock else PeerClosed); }
      if capacity == 0 { return Ok([]); }
      var wasFull := ring.count == ring.cap;
      var out := ring.Read(capacity);
      taken := taken + out;
      if ring.count == 0 { readable := false; }
      if wasFull && writer { writable := true; }
      return Ok(out);
    }
  }

  // ---------------------------------------------------------------- the pair

  class Pair<T(0)> {
    /** to0 is what endpoint 0 reads and endpoint 1 writes. */
    const to0: Direction<T>
    const to1: Direction<T>
    var alive: seq<bool>
    var closed: seq<bool>

    ghost predicate Valid()
      reads this, to0, to1, to0.ring, to1.ring, to0.ring.slots, to1.ring.slots
    {
      && to0 != to1 && to0.ring != to1.ring && to0.ring.slots != to1.ring.slots && to0.Valid() && to1.Valid()
      && |alive| == |closed| == 2
      && to0.reader == alive[0] == to1.writer && to1.reader == alive[1] == to0.writer
      && (forall k | 0 <= k < 2 && alive[k] :: closed[k] <==> !alive[1 - k])
    }

    constructor (cap: nat)
      requires cap > 0
      ensures Valid() && alive == [true, true] && to0.ring.cap == to1.ring.cap == cap && to0.sent == to1.sent == []
    {
      to0 := new Direction<T>(cap);
      to1 := new Direction<T>(cap);
      alive, closed := [true, true], [false, false];
    }

    /** The endpoint's last reference is gone: its peer writes no more, sees PEER_CLOSED, and can still
        read what was sent. */
    method Destroy(k: nat)
      requires Valid() && k < 2 && alive[k]
      modifies this`alive, this`closed, to0`reader, to0`writer, to0`writable, to1`reader, to1`writer, to1`writable
      ensures Valid() && alive == old(alive)[k := false] && to0.readable == old(to0.readable)
      ensures to1.readable == old(to1.readable)
    {
      var own, out := if k == 0 then to0 else to1, if k == 0 then to1 else to0;
      alive := alive[k := false];
      own.reader, out.writer := false, false;
      if alive[1 - k] {
        own.writable := false;
        closed := closed[1 - k := true];
      }
    }
  }

  // ---------------------------------------------------------------- system calls over a paged buffer

  const PAGE_SIZE: nat := 4096

  ghost predicate Paged<T>(pages: seq<seq<T>>) { forall p | 0 <= p < |pages| :: |pages[p]| == PAGE_SIZE }

  /** The buffer as the program sees it. */
  ghost function Flat<T>(pages: seq<seq<T>>): (b: seq<T>)
    requires Paged(pages)
    ensures |b| == |pages| * PAGE_SIZE
  {
    if pages == [] then [] else Flat(pages[..|pages| - 1]) + pages[|pages| - 1]
  }

  lemma PageOf(at: nat, n: nat)
    requires at < n * PAGE_SIZE
    ensures at / PAGE_SIZE < n && at == at / PAGE_SIZE * PAGE_SIZE + at % PAGE_SIZE
  {
  }

  lemma SliceOfSum<T>(a: seq<T>, b: seq<T>, x: nat, n: nat)
    requires x + n <= |a| + |b|
    ensures x + n <= |a| ==> (a + b)[x..x + n] == a[x..x + n]
    ensures |a| <= x ==> (a + b)[x..x + n] == b[x - |a|..x - |a| + n]
  {
  }

  /** One run of the buffer lies in one page. */
  lemma {:induction false} FlatRun<T>(pages: seq<seq<T>>, p: nat, q: nat, at: nat, n: nat)
    requires Paged(pages) && p < |pages| && q + n <= PAGE_SIZE && at == p * PAGE_SIZE + q
    ensures at + n <= |pages| * PAGE_SIZE && pages[p][q..q + n] == Flat(pages)[at..at + n]
  {
    var k := |pages| - 1;
    SliceOfSum(Flat(pages[..k]), pages[k], at, n);
    if p < k { FlatRun(pages[..k], p, q, at, n); }
  }

  /** A run written into one page changes that run of the buffer and nothing else. */
  lemma {:induction false} FlatPut<T>(pages: seq<seq<T>>, p: nat, q: nat, at: nat, data: seq<T>)
    requires Paged(pages) && p < |pages| && q + |data| <= PAGE_SIZE && at == p * PAGE_SIZE + q
    ensures var pages' := pages[p := pages[p][..q] + data + pages[p][q + |data|..]];
      Paged(pages') && Patched(Flat(pages), Flat(pages'), at, data)
  {
    var k := |pages| - 1;
    var now := pages[p][..q] + data + pages[p][q + |data|..];
    var pages' := pages[p := now];
    if p < k {
      FlatPut(pages[..k], p, q, at, data);
      assert pages'[..k] == pages[..k][p := now];
      PatchedFirst(Flat(pages[..k]), Flat(pages'[..k]), at, data, pages[k]);
    } else {
      assert pages'[..k] == pages[..k];
      PatchedLast(pages[k], now, q, data, Flat(pages[..k]));
    }
  }

  lemma PatchedFirst<T>(was: seq<T>, now: seq<T>, at: nat, data: seq<T>, rest: seq<T>)
    requires Patched(was, now, at, data)
    ensures Patched(was + rest, now + rest, at, data)
  {
    assert (was + rest)[..at] == was[..at] && (was + rest)[at + |data|..] == was[at + |data|..] + rest;
  }

  lemma PatchedLast<T>(was: seq<T>, now: seq<T>, at: nat, data: seq<T>, before: seq<T>)
    requires Patched(was, now, at, data)
    ensures Patched(before + was, before + now, |before| + at, data)
  {
    assert (before + was)[..|before| + at] == before + was[..at]
        && (before + was)[|before| + at + |data|..] == was[at + |data|..];
  }

  /** The buffer reads as before but for this stretch of it. */
  ghost predicate Patched<T>(was: seq<T>, now: seq<T>, offset: nat, data: seq<T>) {
    offset + |data| <= |was| && now == was[..offset] + data + was[offset + |data|..]
  }

  /** Everything up to at, and then n more. */
  ghost predicate SoFar<T>(pre: seq<T>, all: seq<T>, from: nat, at: nat, now: seq<T>) {
    from <= at <= |all| && now == pre + all[from..at]
  }

  lemma Onward<T>(pre: seq<T>, all: seq<T>, from: nat, at: nat, n: nat, was: seq<T>, now: seq<T>)
    requires SoFar(pre, all, from, at, was) && SoFar(was, all, at, at + n, now)
    ensures SoFar(pre, all, from, at + n, now)
  {
    assert all[from..at] + all[at..at + n] == all[from..at + n];
  }

  /** One turn of the writing loop: the rest of the page at hand, or of the request. */
  method WriteRun<T(0)>(d: Direction<T>, pages: seq<seq<T>>, at: nat, limit: nat)
      returns (wrote: Result<nat>, attempt: nat)
    requires d.Valid() && d.writer && Paged(pages) && 0 < limit && at + limit <= |pages| * PAGE_SIZE
    modifies d`readable, d`writable, d`sent, d.ring, d.ring.slots
    ensures d.Valid() && 0 < attempt <= limit && wrote != Err(OutOfRange)
    ensures wrote.Err? ==>
      d.sent == old(d.sent) && (if d.reader then d.ring.count == d.ring.cap && wrote.error.CapacityExhausted?
          else wrote.error.PeerClosed?)
    ensures wrote.Ok? ==>
      d.reader && wrote.value <= attempt && SoFar(old(d.sent), Flat(pages), at, at + wrote.value, d.sent)
    ensures wrote.Ok? && wrote.value < attempt ==> d.ring.count == d.ring.cap
  {
    var run := PAGE_SIZE - at % PAGE_SIZE;
    attempt := if run < limit then run else limit;
    var p, q := at / PAGE_SIZE, at % PAGE_SIZE;
    PageOf(at, |pages|);
    FlatRun(pages, p, q, at, attempt);
    ghost var all := Flat(pages)[at..at + attempt];
    wrote := d.Put(pages[p][q..q + attempt]);
    if wrote.Ok? { assert all[..wrote.value] == Flat(pages)[at..at + wrote.value]; }
  }

  /** What a socket accepts is a prefix of what it was offered, and it stops short only when it is full. */
  method SocketWrite<T(0)>(d: Direction<T>, pages: seq<seq<T>>, offset: nat, length: nat) returns (r: Result<nat>)
    requires d.Valid() && d.writer && Paged(pages)
    modifies d`readable, d`writable, d`sent, d.ring, d.ring.slots
    ensures d.Valid() && (r == Err(OutOfRange) <==> offset + length > |pages| * PAGE_SIZE)
    ensures r.Err? ==> d.sent == old(d.sent)
    ensures r.Ok? ==> r.value <= length && SoFar(old(d.sent), Flat(pages), offset, offset + r.value, d.sent)
    ensures r.Ok? && r.value < length ==> d.ring.count == d.ring.cap
    ensures r == Err(PeerClosed) <==> !d.reader && length > 0 && r != Err(OutOfRange)
  {
    if offset + length > |pages| * PAGE_SIZE { return Err(OutOfRange); }
    r := WriteAll(d, pages, offset, length);
  }

  /** One more run, after what has been written since the offset. */
  method WriteOn<T(0)>(d: Direction<T>, pages: seq<seq<T>>, offset: nat, at: nat, limit: nat, ghost pre: seq<T>)
      returns (wrote: Result<nat>, attempt: nat)
    requires d.Valid() && d.writer && Paged(pages) && 0 < limit && at + limit <= |pages| * PAGE_SIZE
    requires SoFar(pre, Flat(pages), offset, at, d.sent)
    modifies d`readable, d`writable, d`sent, d.ring, d.ring.slots
    ensures d.Valid() && 0 < attempt <= limit && wrote != Err(OutOfRange)
    ensures wrote.Err? ==>
      d.sent == old(d.sent) && (if d.reader then d.ring.count == d.ring.cap && wrote.error.CapacityExhausted?
          else wrote.error.PeerClosed?)
    ensures wrote.Ok? ==> d.reader && wrote.value <= attempt
    ensures wrote.Ok? ==> SoFar(pre, Flat(pages), offset, at + wrote.value, d.sent)
    ensures wrote.Ok? && wrote.value < attempt ==> d.ring.count == d.ring.cap
  {
    wrote, attempt := WriteRun(d, pages, at, limit);
    if wrote.Ok? { Onward(pre, Flat(pages), offset, at, wrote.value, old(d.sent), d.sent); }
  }

  /** The writing loop. */
  method WriteAll<T(0)>(d: Direction<T>, pages: seq<seq<T>>, offset: nat, length: nat) returns (r: Result<nat>)
    requires d.Valid() && d.writer && Paged(pages) && offset + length <= |pages| * PAGE_SIZE
    modifies d`readable, d`writable, d`sent, d.ring, d.ring.slots
    ensures d.Valid() && r != Err(OutOfRange) && (r.Err? ==> d.sent == old(d.sent))
    ensures r.Ok? ==> r.value <= length && SoFar(old(d.sent), Flat(pages), offset, offset + r.value, d.sent)
    ensures r.Ok? && r.value < length ==> d.ring.count == d.ring.cap
    ensures r == Err(PeerClosed) <==> !d.reader && length > 0
  {
    var done := 0;
    ghost var all := Flat(pages);
    assert SoFar(d.sent, all, offset, offset, d.sent);
    while done < length
      invariant done <= length && d.Valid() && SoFar(old(d.sent), all, offset, offset + done, d.sent)
      invariant done > 0 ==> d.reader
      invariant done == 0 ==> d.sent == old(d.sent)
    {
      var wrote, attempt := WriteOn(d, pages, offset, offset + done, length - done, old(d.sent));
      if wrote.Err? { return if done != 0 then Ok(done) else Err(wrote.error); }
      done := done + wrote.value;
      if wrote.value < attempt { break; }
    }
    return Ok(done);
  }

  /** One turn of the reading loop. */
  method ReadRun<T(0)>(d: Direction<T>, pages: seq<seq<T>>, at: nat, limit: nat)
      returns (got: Result<seq<T>>, space: nat, now: seq<seq<T>>)
    requires d.Valid() && d.reader && Paged(pages) && 0 < limit && at + limit <= |pages| * PAGE_SIZE
    modifies d`readable, d`writable, d`taken, d.ring
    ensures d.Valid() && 0 < space <= limit && Paged(now) && |now| == |pages| && got != Err(OutOfRange)
    ensures got.Err? ==> d.taken == old(d.taken) && now == pages && d.ring.count == 0
    ensures got.Ok? ==> && 0 < |got.value| <= space && d.taken == old(d.taken) + got.value
                        && Patched(Flat(pages), Flat(now), at, got.value)
    ensures got.Ok? && |got.value| < space ==> d.ring.count == 0
  {
    var run := PAGE_SIZE - at % PAGE_SIZE;
    space, now := if run < limit then run else limit, pages;
    got := d.Get(space);
    if got.Ok? {
      var p, q, data := at / PAGE_SIZE, at % PAGE_SIZE, got.value;
      PageOf(at, |pages|);
      FlatPut(pages, p, q, at, data);
      now := pages[p := pages[p][..q] + data + pages[p][q + |data|..]];
    }
  }

  /** What a socket delivers is the front of what was buffered, laid out in order from the offset, and
      nothing else in the buffer changes. */
  method SocketRead<T(0)>(d: Direction<T>, pages: seq<seq<T>>, offset: nat, capacity: nat)
    returns (r: Result<nat>, now: seq<seq<T>>, ghost data: seq<T>)
    requires d.Valid() && d.reader && Paged(pages)
    modifies d`readable, d`writable, d`taken, d.ring
    ensures d.Valid() && (r == Err(OutOfRange) <==> offset + capacity > |pages| * PAGE_SIZE) && Paged(now)
    ensures d.taken == old(d.taken) + data
    ensures r.Err? ==> data == [] && now == pages
    ensures r.Ok? ==> |data| == r.value <= capacity && Patched(Flat(pages), Flat(now), offset, data)
    ensures r.Ok? && r.value < capacity ==> d.ring.count == 0
  {
    now, data := pages, [];
    if offset + capacity > |pages| * PAGE_SIZE { return Err(OutOfRange), now, data; }
    var done := 0;
    ghost var all := Flat(pages);
    assert Patched(all, Flat(now), offset, data);
    while done < capacity
      invariant done == |data| <= capacity && d.Valid() && Paged(now) && |now| == |pages|
      invariant (done == 0 ==> now == pages)
      invariant d.taken == old(d.taken) + data && Patched(all, Flat(now), offset, data)
    {
      ghost var was := Flat(now);
      var got, space, next := ReadRun(d, now, offset + done, capacity - done);
      if got.Err? { return if done != 0 then Ok(done) else Err(got.error), now, data; }
      PatchMore(all, was, Flat(next), offset, data, got.value);
      assert old(d.taken) + data + got.value == old(d.taken) + (data + got.value);
      done, now, data := done + |got.value|, next, data + got.value;
      if |got.value| < space { break; }
    }
    return Ok(done), now, data;
  }

  lemma PatchMore<T>(b: seq<T>, was: seq<T>, now: seq<T>, offset: nat, data: seq<T>, more: seq<T>)
    requires Patched(b, was, offset, data) && Patched(was, now, offset + |data|, more)
    ensures Patched(b, now, offset, data + more)
  {
    assert was[..offset + |data|] == b[..offset] + data;
    assert was[offset + |data| + |more|..] == b[offset + |data| + |more|..];
  }
}
