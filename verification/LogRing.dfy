/** The lock-free log ring: any number of producers and drainers, interleaved one atomic access
    at a time. Every atomic is sequentially consistent and sequences do not wrap. */
module LogRing {

  import opened Basics

  datatype SlotState = Free | Writing | Ready | Flushed

  datatype Slot<T> = Slot(state: SlotState, seqno: nat, value: T)

  /** Where a party stands: the constructor names what it has already done. */
  datatype Pc =
    | Idle
    | Reserving                        // about to load the write index
    | LoadedWrite(w: nat)
    | LoadedRead(w: nat, r: nat)
    | Claimed(w: nat)                  // compare-exchange won
    | Stamped(w: nat)                  // slot sequence stored, WRITING not yet
    | Filling(w: nat)                  // WRITING stored; the caller owns the payload
    | Holding                          // flushing flag taken
    | Scanning(r: nat)                 // about to load the state of slot r
    | Emitting(r: nat)                 // saw READY
    | Flushing(r: nat)                 // emitted
    | Advancing(r: nat)                // FLUSHED stored, read index not yet
    | Releasing                        // about to clear the flag

  /** The shared memory. `log` records what was published under each sequence and `emitted` what
      the drainers have passed to `emit`; the code reads neither. */
  datatype Ring<T> = Ring(
    write: nat, read: nat, flushing: bool, dropped: nat,
    slots: seq<Slot<T>>, log: seq<Option<T>>, emitted: seq<T>)

  datatype State<T> = State(ring: Ring<T>, procs: map<nat, Pc>)

  /** Reserve and Drain start a call, Fill writes the payload the caller owns, Go performs the
      party's next atomic access. */
  datatype Act<T> = Reserve | Drain | Fill(v: T) | Go

  function PcOf<T>(s: State<T>, p: nat): Pc {
    if p in s.procs then s.procs[p] else Idle
  }

  /** `n % capacity`, by repeated subtraction (see IndexIsRemainder). */
  function Index(n: nat, capacity: nat): (i: nat)
    requires capacity > 0
    ensures i < capacity
  {
    if n < capacity then n else Index(n - capacity, capacity)
  }

  function At<T>(g: Ring<T>, n: nat): Slot<T>
    requires |g.slots| > 0
  {
    g.slots[Index(n, |g.slots|)]
  }

  function Put<T>(g: Ring<T>, n: nat, slot: Slot<T>): Ring<T>
    requires |g.slots| > 0
  {
    g.(slots := g.slots[Index(n, |g.slots|) := slot])
  }

  /** `w - r >= Capacity` on unsigned words: a write index already passed by the read index wraps
      to a huge difference. */
  predicate LooksFull(w: nat, r: nat, capacity: nat) {
    w < r || w - r >= capacity
  }

  function Step<T>(s: State<T>, p: nat, a: Act<T>): State<T>
    requires |s.ring.slots| > 0
  {
    var pc := PcOf(s, p);
    var (g, pc') := Access(s.ring, pc, a);
    if pc' == pc then State(g, s.procs) else State(g, s.procs[p := pc'])
  }

  /** One atomic access by a party at pc. */
  function Access<T>(g: Ring<T>, pc: Pc, a: Act<T>): (Ring<T>, Pc)
    requires |g.slots| > 0
  {
    match a
    case Reserve => (g, if pc.Idle? then Reserving else pc)
    case Drain => if pc.Idle? && !g.flushing then (g.(flushing := true), Holding) else (g, pc)
    case Fill(v) => (if pc.Filling? then Put(g, pc.w, At(g, pc.w).(value := v)) else g, pc)
    case Go =>
      match pc
      case Idle => (g, pc)
      case Reserving => (g, LoadedWrite(g.write))
      case LoadedWrite(w) => (g, LoadedRead(w, g.read))
      case LoadedRead(w, r) =>
        if LooksFull(w, r, |g.slots|) then (g.(dropped := g.dropped + 1), Idle)
        else if g.write == w then (g.(write := w + 1, log := g.log + [None]), Claimed(w))
        else (g, Reserving)
      case Claimed(w) => (Put(g, w, At(g, w).(seqno := w)), Stamped(w))
      case Stamped(w) => (Put(g, w, At(g, w).(state := Writing)), Filling(w))
      case Filling(w) => (Publish(g, w), Idle)
      case Holding => (g, Scanning(g.read))
      case Scanning(r) => (g, if At(g, r).state == Ready then Emitting(r) else Releasing)
      case Emitting(r) => (g.(emitted := g.emitted + [At(g, r).value]), Flushing(r))
      case Flushing(r) => (Put(g, r, At(g, r).(state := Flushed)), Advancing(r))
      case Advancing(r) => (g.(read := r + 1), Scanning(r + 1))
      case Releasing => (g.(flushing := false), Idle)
  }

  function Publish<T>(g: Ring<T>, w: nat): Ring<T>
    requires |g.slots| > 0
  {
    Put(g, w, At(g, w).(state := Ready)).(
      log := if w < |g.log| then g.log[w := Some(At(g, w).value)] else g.log)
  }

  function Init<T>(capacity: nat, blank: T): (s: State<T>)
    ensures |s.ring.slots| == capacity
  {
    State(Ring(0, 0, false, 0, seq(capacity, _ => Slot(Free, 0, blank)), [], []), map[])
  }

  function Run<T>(s: State<T>, acts: seq<(nat, Act<T>)>): (r: State<T>)
    requires |s.ring.slots| > 0
    ensures |r.ring.slots| == |s.ring.slots|
  {
    if acts == [] then s
    else
      var before := Run(s, acts[..|acts| - 1]);
      var (p, a) := acts[|acts| - 1];
      Step(before, p, a)
  }

  // ---------------------------------------------------------------- the invariant

  predicate Owns(pc: Pc) { pc.Claimed? || pc.Stamped? || pc.Filling? }

  predicate Drains(pc: Pc) {
    pc.Holding? || pc.Scanning? || pc.Emitting? || pc.Flushing? || pc.Advancing? || pc.Releasing?
  }

  ghost predicate PcOk<T>(g: Ring<T>, pc: Pc)
    requires |g.slots| > 0
  {
    match pc
    case Idle => true
    case Reserving => true
    case LoadedWrite(w) => w <= g.write
    case LoadedRead(w, r) => w <= g.write && r <= g.read
    case Claimed(w) => Reserved(g, w) && At(g, w).state in {Free, Flushed} && Stale(g, w)
    case Stamped(w) => Reserved(g, w) && At(g, w).seqno == w
                       && At(g, w).state == (if |g.slots| <= w then Flushed else Free)
    case Filling(w) => Reserved(g, w) && At(g, w).state == Writing && At(g, w).seqno == w
    case Holding => g.flushing && |g.emitted| == g.read
    case Scanning(r) => g.flushing && r == g.read == |g.emitted|
    case Emitting(r) => g.flushing && r == g.read == |g.emitted| && Published(g, r) && At(g, r).state == Ready
    case Flushing(r) => g.flushing && r == g.read && |g.emitted| == r + 1 && Published(g, r) && At(g, r).state == Ready
    case Advancing(r) => g.flushing && r == g.read && |g.emitted| == r + 1 && Published(g, r)
                         && At(g, r).state == Flushed
    case Releasing => g.flushing && |g.emitted| == g.read
  }

  /** n is assigned, unpublished and not yet drained. */
  predicate Reserved<T>(g: Ring<T>, n: nat) {
    g.read <= n < g.write && n < |g.log| && g.log[n].None?
  }

  /** n is published and its slot still holds exactly its payload. */
  ghost predicate Published<T>(g: Ring<T>, n: nat)
    requires |g.slots| > 0
  {
    n < g.write && n < |g.log| && At(g, n).seqno == n && g.log[n] == Some(At(g, n).value)
  }

  /** The slot n will reuse still carries the previous lap. */
  predicate Stale<T>(g: Ring<T>, n: nat)
    requires |g.slots| > 0
  {
    if |g.slots| <= n then At(g, n).state == Flushed && At(g, n).seqno != n else At(g, n).state == Free
  }

  ghost predicate IndicesOk<T>(g: Ring<T>) {
    && |g.slots| > 0
    && g.read <= g.write <= g.read + |g.slots|
    && |g.log| == g.write
    && g.read <= |g.emitted| <= g.read + 1 && |g.emitted| <= g.write
    && (!g.flushing ==> |g.emitted| == g.read)
    && forall i | 0 <= i < |g.emitted| :: g.log[i] == Some(g.emitted[i])
  }

  /** What slot n % Capacity holds, for every n in [write - Capacity, read + Capacity). */
  ghost predicate SlotOk<T>(g: Ring<T>, n: nat)
    requires |g.slots| > 0
  {
    if n < g.read then
      g.write <= n + |g.slots| ==> Published(g, n) && At(g, n).state == Flushed
    else if n < g.write then
      if Reserved(g, n) then At(g, n).state != Ready
      else Published(g, n) && (At(g, n).state == Ready || (At(g, n).state == Flushed && n < |g.emitted|))
    else
      Stale(g, n)
  }

  ghost predicate RingOk<T>(g: Ring<T>) {
    && IndicesOk(g)
    && forall n: nat | n < g.read + |g.slots| :: SlotOk(g, n)
  }

  ghost predicate Inv<T>(s: State<T>) {
    && RingOk(s.ring)
    && (forall p | p in s.procs :: PcOk(s.ring, s.procs[p]))
    && (forall p, q | p in s.procs && q in s.procs && p != q :: Apart(s.procs[p], s.procs[q]))
  }

  /** Two parties never own the same sequence and never both drain. */
  predicate Apart(a: Pc, b: Pc) {
    !(Owns(a) && Owns(b) && a.w == b.w) && !(Drains(a) && Drains(b))
  }

  // ---------------------------------------------------------------- preservation

  lemma {:induction false} IndexIsRemainder(n: nat, capacity: nat)
    requires capacity > 0
    ensures Index(n, capacity) == n % capacity
  {
    if n >= capacity {
      IndexIsRemainder(n - capacity, capacity);
      Lap(n - capacity, capacity);
    }
  }

  lemma Lap(n: nat, capacity: nat)
    requires capacity > 0
    ensures (n + capacity) % capacity == n % capacity
  {
    var q, r := n / capacity, n % capacity;
    var q', r' := (n + capacity) / capacity, (n + capacity) % capacity;
    var d := q' - q - 1;
    assert capacity * d == r - r';
  }

  lemma {:induction false} Distinct(a: nat, b: nat, c: nat)
    requires a < b < a + c
    ensures Index(a, c) != Index(b, c)
  {
    if a >= c { Distinct(a - c, b - c, c); }
  }

  /** Changing the slot of n leaves every other sequence of the same window alone. */
  lemma OtherSlots<T>(g: Ring<T>, n: nat, slot: Slot<T>)
    requires |g.slots| > 0
    ensures At(Put(g, n, slot), n) == slot
    ensures forall m: nat | m != n && m < n + |g.slots| && n < m + |g.slots| :: At(Put(g, n, slot), m) == At(g, m)
  {
    forall m: nat | m != n && m < n + |g.slots| && n < m + |g.slots|
      ensures At(Put(g, n, slot), m) == At(g, m)
    {
      if m < n { Distinct(m, n, |g.slots|); } else { Distinct(n, m, |g.slots|); }
    }
  }

  /** The effect of a step on the ring, its own party and every other party. */
  ghost predicate Fits<T>(g: Ring<T>, pc: Pc, a: Act<T>)
    requires |g.slots| > 0
  {
    var (g', pc') := Access(g, pc, a);
    && RingOk(g') && PcOk(g', pc')
    && forall other | PcOk(g, other) && Apart(pc, other) :: PcOk(g', other) && Apart(pc', other)
  }

  lemma MoveFits<T>(g: Ring<T>, pc: Pc, a: Act<T>)
    requires RingOk(g) && PcOk(g, pc) && Access(g, pc, a).0 == g
    ensures Fits(g, pc, a)
  {
    if pc.Scanning? { assert SlotOk(g, pc.r); }
  }

  lemma ReserveFits<T>(g: Ring<T>, pc: Pc)
    requires RingOk(g) && PcOk(g, pc) && pc.LoadedRead? && !LooksFull(pc.w, pc.r, |g.slots|) && g.write == pc.w
    ensures Fits(g, pc, Go)
  {
    var (g', pc') := Access(g, pc, Go);
    forall n: nat | n < g'.read + |g'.slots| ensures SlotOk(g', n) {
      assert SlotOk(g, n);
    }
    assert SlotOk(g, g.write);
  }

  /** Storing into a reserved slot disturbs nobody but its owner. */
  lemma OwnerPut<T>(g: Ring<T>, w: nat, slot: Slot<T>)
    requires RingOk(g) && Reserved(g, w) && slot.state != Ready
    ensures RingOk(Put(g, w, slot)) && At(Put(g, w, slot), w) == slot
    ensures forall other | PcOk(g, other) && !(Owns(other) && other.w == w) :: PcOk(Put(g, w, slot), other)
  {
    var g' := Put(g, w, slot);
    OtherSlots(g, w, slot);
    forall n: nat | n < g'.read + |g'.slots| ensures SlotOk(g', n) {
      assert SlotOk(g, n);
    }
    forall other | PcOk(g, other) && !(Owns(other) && other.w == w) ensures PcOk(g', other) {
      OwnerPutOther(g, w, slot, other);
    }
  }

  lemma OwnerPutOther<T>(g: Ring<T>, w: nat, slot: Slot<T>, other: Pc)
    requires RingOk(g) && Reserved(g, w) && PcOk(g, other) && !(Owns(other) && other.w == w)
    ensures PcOk(Put(g, w, slot), other)
  {
    OtherSlots(g, w, slot);
  }

  /** The owner of a sequence stores its stamp, its state or its payload. */
  lemma OwnerFits<T>(g: Ring<T>, pc: Pc, a: Act<T>)
    requires RingOk(g) && PcOk(g, pc)
    requires (pc.Claimed? && a.Go?) || (pc.Stamped? && a.Go?) || (pc.Filling? && a.Fill?)
    ensures Fits(g, pc, a)
  {
    var slot := if pc.Claimed? then At(g, pc.w).(seqno := pc.w)
                else if pc.Stamped? then At(g, pc.w).(state := Writing) else At(g, pc.w).(value := a.v);
    OwnerPut(g, pc.w, slot);
  }

  lemma PublishFits<T>(g: Ring<T>, pc: Pc)
    requires RingOk(g) && PcOk(g, pc) && pc.Filling?
    ensures Fits(g, pc, Go)
  {
    var g' := Publish(g, pc.w);
    OtherSlots(g, pc.w, At(g, pc.w).(state := Ready));
    forall n: nat | n < g'.read + |g'.slots| ensures SlotOk(g', n) {
      assert SlotOk(g, n);
    }
    forall other | PcOk(g, other) && Apart(pc, other) ensures PcOk(g', other) {
      PublishOther(g, pc.w, other);
    }
  }

  lemma PublishOther<T>(g: Ring<T>, w: nat, other: Pc)
    requires RingOk(g) && Reserved(g, w) && PcOk(g, other) && !(Owns(other) && other.w == w)
    ensures PcOk(Publish(g, w), other)
  {
    OtherSlots(g, w, At(g, w).(state := Ready));
  }

  lemma EmitFits<T>(g: Ring<T>, pc: Pc)
    requires RingOk(g) && PcOk(g, pc) && pc.Emitting?
    ensures Fits(g, pc, Go)
  {
    var (g', pc') := Access(g, pc, Go);
    forall n: nat | n < g'.read + |g'.slots| ensures SlotOk(g', n) {
      assert SlotOk(g, n);
    }
  }

  lemma FlushFits<T>(g: Ring<T>, pc: Pc)
    requires RingOk(g) && PcOk(g, pc) && pc.Flushing?
    ensures Fits(g, pc, Go)
  {
    var (g', pc') := Access(g, pc, Go);
    OtherSlots(g, pc.r, At(g, pc.r).(state := Flushed));
    forall n: nat | n < g'.read + |g'.slots| ensures SlotOk(g', n) {
      assert SlotOk(g, n);
    }
  }

  lemma AdvanceFits<T>(g: Ring<T>, pc: Pc)
    requires RingOk(g) && PcOk(g, pc) && pc.Advancing?
    ensures Fits(g, pc, Go)
  {
    var (g', pc') := Access(g, pc, Go);
    assert At(g, pc.r + |g.slots|) == At(g, pc.r);
    forall n: nat | n < g'.read + |g'.slots| ensures SlotOk(g', n) {
      if n < g.read + |g.slots| { assert SlotOk(g, n); }
    }
  }

  lemma ScalarFits<T>(g: Ring<T>, pc: Pc, a: Act<T>)
    requires RingOk(g) && PcOk(g, pc)
    requires (pc.Idle? && a.Drain?) || (pc.Releasing? && a.Go?)
             || (pc.LoadedRead? && LooksFull(pc.w, pc.r, |g.slots|) && a.Go?)
    ensures Fits(g, pc, a)
  {
    var (g', pc') := Access(g, pc, a);
    ScalarRing(g, g');
  }

  /** A ring that differs in its flag and its count of drops only. */
  lemma ScalarRing<T>(g: Ring<T>, g': Ring<T>)
    requires RingOk(g) && g' == g.(flushing := g'.flushing, dropped := g'.dropped)
    requires (!g'.flushing ==> |g.emitted| == g.read)
    ensures RingOk(g')
  {
    forall n: nat | n < g'.read + |g'.slots| ensures SlotOk(g', n) {
      assert SlotOk(g, n);
    }
  }

  lemma AccessFits<T>(g: Ring<T>, pc: Pc, a: Act<T>)
    requires RingOk(g) && PcOk(g, pc)
    ensures Fits(g, pc, a)
  {
    if Access(g, pc, a).0 == g { MoveFits(g, pc, a); }
    else if a.Fill? { OwnerFits(g, pc, a); }
    else if a.Drain? { ScalarFits(g, pc, a); }
    else {
      match pc
      case LoadedRead(w, r) => if LooksFull(w, r, |g.slots|) { ScalarFits(g, pc, a); } else { ReserveFits(g, pc); }
      case Claimed(_) => OwnerFits(g, pc, a);
      case Stamped(_) => OwnerFits(g, pc, a);
      case Filling(_) => PublishFits(g, pc);
      case Emitting(_) => EmitFits(g, pc);
      case Flushing(_) => FlushFits(g, pc);
      case Advancing(_) => AdvanceFits(g, pc);
      case Releasing => ScalarFits(g, pc, a);
      case _ =>
    }
  }

  lemma Assemble<T>(s: State<T>, p: nat, g: Ring<T>, pc: Pc)
    requires Inv(s) && RingOk(g) && PcOk(g, pc)
    requires forall other | PcOk(s.ring, other) && Apart(PcOf(s, p), other) :: PcOk(g, other) && Apart(pc, other)
    ensures Inv(State(g, s.procs[p := pc]))
  {
    forall q | q in s.procs && q != p ensures PcOk(g, s.procs[q]) && Apart(pc, s.procs[q]) {
      assert PcOk(s.ring, s.procs[q]) && Apart(PcOf(s, p), s.procs[q]);
    }
  }

  /** Every atomic access of every party keeps the invariant. */
  lemma StepKeeps<T>(s: State<T>, p: nat, a: Act<T>)
    requires Inv(s)
    ensures Inv(Step(s, p, a))
  {
    var (g, pc) := Access(s.ring, PcOf(s, p), a);
    AccessFits(s.ring, PcOf(s, p), a);
    Assemble(s, p, g, pc);
    if pc == PcOf(s, p) && p in s.procs { assert s.procs[p := pc] == s.procs; }
  }

  lemma InitOk<T>(capacity: nat, blank: T)
    requires capacity > 0
    ensures Inv(Init(capacity, blank))
  {
    var g := Init(capacity, blank).ring;
    forall n: nat | n < g.read + |g.slots| ensures SlotOk(g, n) {
      assert Index(n, |g.slots|) == n;
    }
  }

  lemma {:induction false} RunKeeps<T>(s: State<T>, acts: seq<(nat, Act<T>)>)
    requires Inv(s)
    ensures Inv(Run(s, acts))
  {
    if acts != [] {
      RunKeeps(s, acts[..|acts| - 1]);
      StepKeeps(Run(s, acts[..|acts| - 1]), acts[|acts| - 1].0, acts[|acts| - 1].1);
    }
  }

  // ---------------------------------------------------------------- what every run guarantees

  /** The indices stay within one capacity of each other, and there is a log entry for every sequence
      ever assigned. */
  predicate Window<T>(g: Ring<T>, capacity: nat) { g.read <= g.write <= g.read + capacity && |g.log| == g.write }

  /** What has been emitted is exactly what was published under 0, 1, 2, ... up to the read index, or one
      further while a drainer has emitted and not yet advanced it. */
  ghost predicate Faithful<T>(g: Ring<T>) {
    && g.read <= |g.emitted| <= g.read + 1 && (!g.flushing ==> |g.emitted| == g.read)
    && forall i | 0 <= i < |g.emitted| :: i < |g.log| && g.log[i] == Some(g.emitted[i])
  }

  /** The sequence whose slot the party is about to read or write. */
  function Uses(pc: Pc): Option<nat> {
    if Owns(pc) then Some(pc.w) else if pc.Emitting? || pc.Flushing? || pc.Advancing? then Some(pc.r) else None
  }

  /** Two parties that use slots use different ones, and they do not both drain. */
  predicate Clear(a: Pc, b: Pc, capacity: nat)
    requires capacity > 0
  {
    && !(Drains(a) && Drains(b))
    && (Uses(a).Some? && Uses(b).Some? ==>
       Uses(a).value != Uses(b).value && Uses(a).value % capacity != Uses(b).value % capacity)
  }

  /** After any interleaving the ring is within its capacity, the drainers have emitted the published
      messages in order, and no slot is used by two parties: neither by two producers nor by a producer
      and the drainer. */
  lemma RingSafety<T>(capacity: nat, blank: T, acts: seq<(nat, Act<T>)>)
    requires capacity > 0
    ensures
      var s := Run(Init(capacity, blank), acts);
      && Window(s.ring, capacity) && Faithful(s.ring)
      && forall p, q | p in s.procs && q in s.procs && p != q :: Clear(s.procs[p], s.procs[q], capacity)
  {
    InitOk(capacity, blank);
    RunKeeps(Init(capacity, blank), acts);
    var s := Run(Init(capacity, blank), acts);
    forall p, q | p in s.procs && q in s.procs && p != q ensures Clear(s.procs[p], s.procs[q], capacity) {
      assert Apart(s.procs[p], s.procs[q]) && PcOk(s.ring, s.procs[p]) && PcOk(s.ring, s.procs[q]);
      ClearParties(s.ring, s.procs[p], s.procs[q]);
    }
  }

  lemma ClearParties<T>(g: Ring<T>, a: Pc, b: Pc)
    requires IndicesOk(g) && PcOk(g, a) && PcOk(g, b) && Apart(a, b)
    ensures Clear(a, b, |g.slots|)
  {
    if Uses(a).Some? && Uses(b).Some? {
      var x, y := Uses(a).value, Uses(b).value;
      assert x != y;
      if x < y { Distinct(x, y, |g.slots|); } else { Distinct(y, x, |g.slots|); }
      IndexIsRemainder(x, |g.slots|);
      IndexIsRemainder(y, |g.slots|);
    }
  }

  /** Nothing published or emitted is ever changed, repeated or withdrawn by a later step. */
  lemma HistoryGrows<T>(s: State<T>, p: nat, a: Act<T>)
    requires Inv(s)
    ensures
      var g, g' := s.ring, Step(s, p, a).ring;
      && g.emitted <= g'.emitted
      && |g.log| <= |g'.log|
      && (forall i | 0 <= i < |g.log| && g.log[i].Some? :: g'.log[i] == g.log[i])
      && g.read <= g'.read && g.write <= g'.write
  {
    assert PcOk(s.ring, PcOf(s, p));
  }

  /** A reservation is refused exactly when, at the moment the read index is loaded, the ring is
      full, or the drainer has already passed the write index loaded before it. */
  lemma RefusedExactly<T>(s: State<T>, p: nat)
    requires Inv(s) && PcOf(s, p).LoadedWrite?
    ensures
      var g, w := s.ring, PcOf(s, p).w;
      var pc' := PcOf(Step(s, p, Go), p);
      LooksFull(pc'.w, pc'.r, |g.slots|) <==> (w < g.read || (w == g.write && g.write == g.read + |g.slots|))
  {
    assert PcOk(s.ring, PcOf(s, p));
  }

  // ---------------------------------------------------------------- the history scan

  predicate OwnerOf(pc: Pc, n: nat) { Owns(pc) && pc.w == n }

  /** Every assigned, unpublished sequence belongs to a party still inside reserve or its fill. */
  ghost predicate Owned<T>(s: State<T>) {
    forall n: nat | Reserved(s.ring, n) :: exists p | p in s.procs :: OwnerOf(s.procs[p], n)
  }

  lemma StepKeepsOwned<T>(s: State<T>, p: nat, a: Act<T>)
    requires Inv(s) && Owned(s)
    ensures Owned(Step(s, p, a))
  {
    var s' := Step(s, p, a);
    var (g, pc) := Access(s.ring, PcOf(s, p), a);
    assert PcOk(s.ring, PcOf(s, p));
    forall n: nat | Reserved(s'.ring, n) ensures exists q | q in s'.procs :: OwnerOf(s'.procs[q], n) {
      OwnerStays(s.ring, PcOf(s, p), a, n);
      if Reserved(s.ring, n) {
        var q :| q in s.procs && OwnerOf(s.procs[q], n);
        assert q in s'.procs && OwnerOf(s'.procs[q], n);
      } else {
        assert p in s'.procs && OwnerOf(s'.procs[p], n);
      }
    }
  }

  /** A party keeps the sequence it owns until it publishes it, and one newly assigned is its own. */
  lemma OwnerStays<T>(g: Ring<T>, pc: Pc, a: Act<T>, n: nat)
    requires IndicesOk(g) && PcOk(g, pc)
    ensures
      var (g', pc') := Access(g, pc, a);
      Reserved(g', n) ==> if Reserved(g, n) then OwnerOf(pc, n) ==>
          OwnerOf(pc', n) else OwnerOf(pc', n) && !OwnerOf(pc, n)
  {
  }

  lemma {:induction false} RunKeepsOwned<T>(s: State<T>, acts: seq<(nat, Act<T>)>)
    requires Inv(s) && Owned(s)
    ensures Inv(Run(s, acts)) && Owned(Run(s, acts))
  {
    if acts != [] {
      RunKeepsOwned(s, acts[..|acts| - 1]);
      var before := Run(s, acts[..|acts| - 1]);
      StepKeeps(before, acts[|acts| - 1].0, acts[|acts| - 1].1);
      StepKeepsOwned(before, acts[|acts| - 1].0, acts[|acts| - 1].1);
    }
  }

  /** Every state the ring can come to is one a history scan may start from. */
  lemma RunOwned<T>(capacity: nat, blank: T, acts: seq<(nat, Act<T>)>)
    requires capacity > 0
    ensures Inv(Run(Init(capacity, blank), acts)) && Owned(Run(Init(capacity, blank), acts))
  {
    RunKeepsOwned(Init(capacity, blank), acts);
  }

  /** The test for_each applies to window position n. */
  predicate Visits<T>(g: Ring<T>, n: nat)
    requires |g.slots| > 0
  {
    At(g, n).state in {Ready, Flushed} && At(g, n).seqno == n
  }

  function WindowStart(write: nat, capacity: nat, minSeq: nat): nat {
    var start := if write > capacity then write - capacity else 0;
    if start < minSeq then minSeq else start
  }

  /** The payloads published under [lo, hi), in order. */
  function Retained<T>(log: seq<Option<T>>, lo: nat, hi: nat): seq<T>
    requires hi <= |log|
  {
    if lo >= hi then []
    else Retained(log, lo, hi - 1) + (if log[hi - 1].Some? then [log[hi - 1].value] else [])
  }

  /** A producer that has stamped a recycled slot but not yet marked it WRITING. */
  predicate HalfClaimed<T>(s: State<T>, p: nat, minSeq: nat) {
    p in s.procs && s.procs[p].Stamped? && s.procs[p].w >= |s.ring.slots| && s.procs[p].w >= minSeq
  }

  /** A producer is half way through claiming a slot of the window before n. */
  ghost predicate TornBefore<T>(s: State<T>, minSeq: nat, n: nat) {
    exists p :: HalfClaimed(s, p, minSeq) && WindowStart(s.ring.write, |s.ring.slots|, minSeq) <= s.procs[p].w < n
  }

  /** What the scan has seen when it comes to n. */
  ghost predicate Scanned<T>(s: State<T>, minSeq: nat, n: nat, visited: seq<T>, next: nat)
    requires Inv(s)
  {
    var g, start := s.ring, WindowStart(s.ring.write, |s.ring.slots|, minSeq);
    && start <= n && (n <= g.write || (n == start && visited == []))
    && minSeq <= next <= n && (next > minSeq ==> Visits(g, next - 1) && next <= g.write)
    && (forall m: nat | start <= m < n && m >= next && m < g.write :: !Visits(g, m))
    && (n <= g.write ==> if TornBefore(s, minSeq, n) then |visited| > |Retained(g.log, start, n)|
                         else visited == Retained(g.log, start, n))
  }

  lemma ScanOn<T>(s: State<T>, minSeq: nat, n: nat, visited: seq<T>, next: nat)
    requires Inv(s) && Owned(s) && Scanned(s, minSeq, n, visited, next) && n < s.ring.write
    ensures if Visits(s.ring, n) then Scanned(s, minSeq, n + 1, visited + [At(s.ring, n).value], n + 1)
            else Scanned(s, minSeq, n + 1, visited, next)
  {
    VisitsExactly(s, n, minSeq);
    TornOn(s, minSeq, n);
  }

  lemma TornOn<T>(s: State<T>, minSeq: nat, n: nat)
    requires WindowStart(s.ring.write, |s.ring.slots|, minSeq) <= n
    ensures TornBefore(s, minSeq, n + 1) <==>
      TornBefore(s, minSeq, n) || exists p :: HalfClaimed(s, p, minSeq) && s.procs[p].w == n
  {
  }

  /** for_each over a ring that does not change meanwhile. It visits exactly the messages published
      under the retained window, in order, if and only if no producer is half way through claiming
      a recycled slot; such a producer makes it visit the previous lap's payload as well. */
  method ForEach<T>(s: State<T>, minSeq: nat) returns (visited: seq<T>, next: nat)
    requires Inv(s) && Owned(s)
    ensures
      var window := Retained(s.ring.log, WindowStart(s.ring.write, |s.ring.slots|, minSeq), s.ring.write);
      visited == window <==> !exists p :: HalfClaimed(s, p, minSeq)
    ensures minSeq <= next && (next > minSeq ==> next <= s.ring.write && Visits(s.ring, next - 1))
    ensures forall n: nat | WindowStart(s.ring.write, |s.ring.slots|, minSeq) <= n < s.ring.write && n >= next ::
              !Visits(s.ring, n)
  {
    var g := s.ring;
    var start := WindowStart(g.write, |g.slots|, minSeq);
    visited, next := [], minSeq;
    var n := start;
    while n < g.write
      invariant Scanned(s, minSeq, n, visited, next)
    {
      ScanOn(s, minSeq, n, visited, next);
      if Visits(g, n) {
        visited := visited + [At(g, n).value];
        next := n + 1;
      }
      n := n + 1;
    }
    forall p | HalfClaimed(s, p, minSeq) ensures start <= s.procs[p].w < g.write {
      assert PcOk(g, s.procs[p]);
    }
    assert n == g.write || Retained(g.log, start, g.write) == [];
  }

  lemma VisitsExactly<T>(s: State<T>, n: nat, minSeq: nat)
    requires Inv(s) && Owned(s) && WindowStart(s.ring.write, |s.ring.slots|, minSeq) <= n < s.ring.write
    ensures s.ring.log[n].Some? ==> Visits(s.ring, n) && s.ring.log[n].value == At(s.ring, n).value
    ensures s.ring.log[n].None? ==> (Visits(s.ring, n) <==> exists p :: HalfClaimed(s, p, minSeq) && s.procs[p].w == n)
    ensures s.ring.log[n].Some? ==> !exists p :: HalfClaimed(s, p, minSeq) && s.procs[p].w == n
  {
    var g := s.ring;
    assert SlotOk(g, n);
    forall p | HalfClaimed(s, p, minSeq) && s.procs[p].w == n ensures g.log[n].None? && Visits(g, n) {
      assert PcOk(g, s.procs[p]);
    }
    if g.log[n].None? {
      assert Reserved(g, n);
      var p :| p in s.procs && OwnerOf(s.procs[p], n);
      assert PcOk(g, s.procs[p]);
      if Visits(g, n) { assert HalfClaimed(s, p, minSeq); }
    }
  }

  /** That window is real: once the ring has gone round once and is not full, any idle producer
      reaches it by five accesses of its own. */
  lemma HalfClaimHappens<T>(s: State<T>, p: nat)
    requires Inv(s) && PcOf(s, p).Idle? && |s.ring.slots| <= s.ring.write < s.ring.read + |s.ring.slots|
    ensures HalfClaimed(Step(Step(Step(Step(Step(s, p, Reserve), p, Go), p, Go), p, Go), p, Go), p, 0)
  {
    var s1 := Step(s, p, Reserve);
    var s2 := Step(s1, p, Go);
    var s3 := Step(s2, p, Go);
    assert PcOf(s3, p) == LoadedRead(s.ring.write, s.ring.read);
    var s4 := Step(s3, p, Go);
    assert PcOf(s4, p) == Claimed(s.ring.write);
  }
}
