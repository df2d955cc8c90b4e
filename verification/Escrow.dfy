/** Handles in channel messages, as a transition system: any number of threads sending and receiving,
    handles dying in transit, endpoints and whole channels going away. A step is one locked block of a
    handle table or of a channel. A handle is an entry of a table under a slot and generation; moving it
    takes the entry out of one table and puts one under a new id into another. */
module Escrow {

  import opened Basics
  import HandleTable

  type HandleId = HandleTable.HandleId
  type Capability = HandleTable.Capability

  /** The kernel's own table, where the handles of messages are. Every other table is a task's. */
  const KERNEL: nat := 0

  const READ: nat := 0
  const WRITE: nat := 1
  const TRANSFER: nat := 3
  const WAIT: nat := 5

  /** What a channel handle is made with and keeps: channel handles are never duplicated. */
  const CHANNEL_RIGHTS: set<nat> := {READ, WRITE, TRANSFER, WAIT}

  const QUEUE_DEPTH: nat := 8

  /** An endpoint is one side of a pair; the queue it reads has its name. */
  datatype End = End(pair: nat, side: bool)

  function Peer(e: End): End { End(e.pair, !e.side) }

  /** Objects are numbered, and the odd numbers are endpoints. */
  function EndAt(target: nat): Option<End> {
    if target % 4 == 1 then Some(End(target / 4, false)) else if target % 4 == 3 then Some(End(target / 4, true))
        else None
  }

  function NumberOf(e: End): nat { e.pair * 4 + (if e.side then 3 else 1) }

  /** An entry: what the handle stands for, and a tag that tells it from every other handle ever made. */
  datatype Item = Item(tag: nat, cap: Capability)

  /** A handle table: its live entries, and every id it ever gave out. */
  datatype Tab = Tab(live: imap<HandleId, Item>, issued: set<HandleId>)

  /** Where a handle is. */
  datatype Place = At(table: nat, id: HandleId) | InHand(thread: nat) | Closed

  datatype Stage = Unused | Held(thread: nat) | Queued(end: End) | Dying | Spent

  /** What a thread is doing; end is the endpoint it holds a reference to. todo lists the ids still to be
      moved into the message. */
  datatype Pc =
    | Idle
    | Staging(end: End, task: nat, msg: nat, todo: seq<HandleId>)
    | Moving(end: End, task: nat, msg: nat, todo: seq<HandleId>, item: Item)
    | Writing(end: End, msg: nat)
    | Unpacking(end: End, task: nat, msg: nat)
    | Delivering(end: End, task: nat, msg: nat, item: Item)

  /** place and minted are the history of every handle: where it is, and what it was made for. */
  datatype Handles = Handles(tabs: imap<nat, Tab>, place: imap<nat, Place>, minted: imap<nat, Capability>)

  /** cargo has the ids a message, or the receiver that has unpacked part of it, names in the kernel's
      table; owner has, for each of the kernel's ids, the message it was made for. asked and gave are the
      ids the sender named and the entries that left the sender's table for them. */
  datatype Messages = Messages(cargo: imap<nat, seq<HandleId>>, owner: imap<HandleId, nat>, stage: imap<nat, Stage>,
                               asked: imap<nat, seq<HandleId>>, gave: imap<nat, seq<Item>>)

  /** inbound has each endpoint's queue; sent, taken and lost are what was ever put on it, taken off it
      and thrown away with it. made has the pairs there are. */
  datatype Channels = Channels(inbound: imap<End, seq<nat>>, made: set<nat>, dead: set<End>,
                               sent: imap<End, seq<nat>>, taken: imap<End, seq<nat>>, lost: imap<End, seq<nat>>)

  datatype State = State(hs: Handles, ms: Messages, cs: Channels, pc: imap<nat, Pc>)

  function TabOf(tabs: imap<nat, Tab>, t: nat): Tab { if t in tabs then tabs[t] else Tab(imap[], {}) }

  function CargoOf(cargo: imap<nat, seq<HandleId>>, m: nat): seq<HandleId> { if m in cargo then cargo[m] else [] }

  function GaveOf(gave: imap<nat, seq<Item>>, m: nat): seq<Item> { if m in gave then gave[m] else [] }

  function StageOf(stage: imap<nat, Stage>, m: nat): Stage { if m in stage then stage[m] else Unused }

  function ListOf(lists: imap<End, seq<nat>>, e: End): seq<nat> { if e in lists then lists[e] else [] }

  function PcOf(pc: imap<nat, Pc>, t: nat): Pc { if t in pc then pc[t] else Idle }

  predicate LiveIn(s: State, t: nat, id: HandleId) { id in TabOf(s.hs.tabs, t).live }

  function ItemIn(s: State, t: nat, id: HandleId): Item
    requires LiveIn(s, t, id)
  {
    TabOf(s.hs.tabs, t).live[id]
  }

  predicate NewIn(s: State, t: nat, id: HandleId) { id !in TabOf(s.hs.tabs, t).issued }

  // ---------------------------------------------------------------- pieces of steps

  /** insert: a new id for the entry. */
  function PutIn(s: State, t: nat, id: HandleId, x: Item): State {
    var tab := TabOf(s.hs.tabs, t);
    s.(hs := s.hs.(tabs := s.hs.tabs[t := Tab(tab.live[id := x], tab.issued + {id})],
        place := s.hs.place[x.tag := At(t, id)]))
  }

  /** take: the entry leaves the table, and its id is dead. */
  function TakeOut(s: State, t: nat, id: HandleId, to: Place): State
    requires LiveIn(s, t, id)
  {
    var tab := TabOf(s.hs.tabs, t);
    s.(hs := s.hs.(tabs := s.hs.tabs[t := Tab(tab.live - {id}, tab.issued)],
        place := s.hs.place[tab.live[id].tag := to]))
  }

  /** A reference in hand is dropped. */
  function Drop(s: State, x: Item): State { s.(hs := s.hs.(place := s.hs.place[x.tag := Closed])) }

  function Mark(s: State, m: nat, st: Stage): State { s.(ms := s.ms.(stage := s.ms.stage[m := st])) }

  function Load(s: State, m: nat, c: seq<HandleId>): State { s.(ms := s.ms.(cargo := s.ms.cargo[m := c])) }

  function Goto(s: State, t: nat, pc: Pc): State { s.(pc := s.pc[t := pc]) }

  /** The endpoint an entry of the kernel's table refers to, if it does. */
  function Carried(s: State, id: HandleId): Option<End> {
    if LiveIn(s, KERNEL, id) then EndAt(ItemIn(s, KERNEL, id).cap.target) else None
  }

  /** The message's handles include an endpoint of this pair. */
  predicate Carries(s: State, m: nat, pair: nat) {
    exists id | id in CargoOf(s.ms.cargo, m) :: Carried(s, id).Some? && Carried(s, id).value.pair == pair
  }

  /** The thread drops the message it holds. */
  function Fail(s: State, t: nat, m: nat): State { Goto(Mark(s, m, Dying), t, Idle) }

  // ---------------------------------------------------------------- sending

  function Took(s: State, t: nat): State
    requires PcOf(s.pc, t).Staging? && PcOf(s.pc, t).todo != [] && LiveIn(s, PcOf(s.pc, t).task, PcOf(s.pc, t).todo[0])
  {
    var pc := PcOf(s.pc, t);
    var x := ItemIn(s, pc.task, pc.todo[0]);
    var out := TakeOut(s, pc.task, pc.todo[0], InHand(t));
    Goto(out.(ms := s.ms.(gave := s.ms.gave[pc.msg := GaveOf(s.ms.gave, pc.msg) + [x]])), t,
         Moving(pc.end, pc.task, pc.msg, pc.todo[1..], x))
  }

  function TakeNext(s: State, t: nat): State
    requires PcOf(s.pc, t).Staging? && PcOf(s.pc, t).todo != []
  {
    var pc := PcOf(s.pc, t);
    if LiveIn(s, pc.task, pc.todo[0]) then Took(s, t) else Fail(s, t, pc.msg)
  }

  function Stowed(s: State, t: nat, id: HandleId): State
    requires PcOf(s.pc, t).Moving?
  {
    var pc := PcOf(s.pc, t);
    var put := PutIn(s, KERNEL, id, pc.item);
    Goto(put.(ms := s.ms.(cargo := s.ms.cargo[pc.msg := CargoOf(s.ms.cargo, pc.msg) + [id]],
        owner := s.ms.owner[id := pc.msg])), t,
         Staging(pc.end, pc.task, pc.msg, pc.todo))
  }

  /** The kernel's table takes the entry under a new id, or there is no memory and it is dropped. */
  function EscrowNext(s: State, t: nat, ok: bool, id: HandleId): State
    requires PcOf(s.pc, t).Moving?
  {
    var pc := PcOf(s.pc, t);
    if !ok then Fail(Drop(s, pc.item), t, pc.msg) else if NewIn(s, KERNEL, id) then Stowed(s, t, id) else s
  }

  /** Channel::write. */
  function Write(s: State, t: nat): State
    requires PcOf(s.pc, t).Writing?
  {
    var pc := PcOf(s.pc, t);
    var to := Peer(pc.end);
    if Carries(s, pc.msg, pc.end.pair) || to in s.cs.dead || |ListOf(s.cs.inbound, to)| == QUEUE_DEPTH
        then Fail(s, t, pc.msg)
    else Enqueue(s, t)
  }

  function Enqueue(s: State, t: nat): State
    requires PcOf(s.pc, t).Writing?
  {
    var m, to := PcOf(s.pc, t).msg, Peer(PcOf(s.pc, t).end);
    Append(Goto(Mark(s, m, Queued(to)), t, Idle), to, m)
  }

  function Append(s: State, e: End, m: nat): State {
    s.(cs := s.cs.(inbound := s.cs.inbound[e := ListOf(s.cs.inbound, e) + [m]],
        sent := s.cs.sent[e := ListOf(s.cs.sent, e) + [m]]))
  }

  // ---------------------------------------------------------------- receiving

  /** Channel::read: the front message comes off, and is dropped if it does not fit. */
  function Read(s: State, t: nat, task: nat, e: End, fits: bool): State {
    var q := ListOf(s.cs.inbound, e);
    if q == [] then s
    else
      var off := s.(cs := s.cs.(inbound := s.cs.inbound[e := q[1..]],
          taken := s.cs.taken[e := ListOf(s.cs.taken, e) + [q[0]]]));
      if fits then Goto(Mark(off, q[0], Held(t)), t, Unpacking(e, task, q[0])) else Mark(off, q[0], Dying)
  }

  function Unpacked(s: State, t: nat): State
    requires PcOf(s.pc, t).Unpacking? && CargoOf(s.ms.cargo, PcOf(s.pc, t).msg) != []
    requires LiveIn(s, KERNEL, CargoOf(s.ms.cargo, PcOf(s.pc, t).msg)[0])
  {
    var pc := PcOf(s.pc, t);
    var c := CargoOf(s.ms.cargo, pc.msg);
    Goto(Load(TakeOut(s, KERNEL, c[0], InHand(t)), pc.msg, c[1..]), t,
        Delivering(pc.end, pc.task, pc.msg, ItemIn(s, KERNEL, c[0])))
  }

  /** The next id is taken out of the kernel's table; one the table does not know is passed over. */
  function UnpackNext(s: State, t: nat): State
    requires PcOf(s.pc, t).Unpacking?
  {
    var pc := PcOf(s.pc, t);
    var c := CargoOf(s.ms.cargo, pc.msg);
    if c == [] then Goto(Mark(s, pc.msg, Spent), t, Idle)
    else if LiveIn(s, KERNEL, c[0]) then Unpacked(s, t)
    else Load(s, pc.msg, c[1..])
  }

  /** The receiver's table takes the entry under a new id, or there is no memory and it is dropped. */
  function Deliver(s: State, t: nat, ok: bool, id: HandleId): State
    requires PcOf(s.pc, t).Delivering?
  {
    var pc := PcOf(s.pc, t);
    if !ok then Goto(Drop(s, pc.item), t, Unpacking(pc.end, pc.task, pc.msg))
    else if NewIn(s, pc.task, id) then Goto(PutIn(s, pc.task, id, pc.item), t, Unpacking(pc.end, pc.task, pc.msg))
    else s
  }

  function Advance(s: State, t: nat, ok: bool, id: HandleId): State {
    var pc := PcOf(s.pc, t);
    if pc.Staging? && pc.todo == [] then Goto(s, t, Writing(pc.end, pc.msg))
    else if pc.Staging? then TakeNext(s, t)
    else if pc.Moving? then EscrowNext(s, t, ok, id)
    else if pc.Writing? then Write(s, t)
    else if pc.Unpacking? then UnpackNext(s, t)
    else if pc.Delivering? then Deliver(s, t, ok, id)
    else s
  }

  // ---------------------------------------------------------------- everything else

  datatype Action =
    | Mint(task: nat, id: HandleId, tag: nat, cap: Capability)           // any object but an endpoint
    | NewPair(task: nat, pair: nat, id: HandleId, id': HandleId, tag: nat, tag': nat)
    | CloseHandle(task: nat, id: HandleId)                               // a task closes its own
    | Send(thread: nat, task: nat, via: HandleId, msg: nat, todo: seq<HandleId>)
    | Go(thread: nat, ok: bool, id: HandleId)                            // the next block; ok and id answer an insert
    | Receive(thread: nat, task: nat, via: HandleId, fits: bool)         // fits unless oversized
    | Bury(msg: nat)                                                     // one handle of a dying message is closed
    | Destroy(end: End)                                                  // the endpoint's last reference is gone
    | Discard(end: End)                                                  // a queue slot dies with its channel

  /** task holds via, which names an endpoint and has the rights. */
  predicate Holds(s: State, task: nat, via: HandleId, needed: set<nat>) {
    && task != KERNEL && LiveIn(s, task, via)
    && EndAt(ItemIn(s, task, via).cap.target).Some? && needed <= ItemIn(s, task, via).cap.rights
  }

  function ViaEnd(s: State, task: nat, via: HandleId, needed: set<nat>): End
    requires Holds(s, task, via, needed)
  {
    EndAt(ItemIn(s, task, via).cap.target).value
  }

  function SendRights(todo: seq<HandleId>): set<nat> { {WRITE} + (if todo != [] then {TRANSFER} else {}) }

  /** The thread has a fresh message, and the endpoint the caller named. */
  function StartSend(s: State, t: nat, e: End, task: nat, m: nat, todo: seq<HandleId>): State {
    Goto(s.(ms := s.ms.(asked := s.ms.asked[m := todo], gave := s.ms.gave[m := []], stage := s.ms.stage[m := Held(t)])),
        t,
         Staging(e, task, m, todo))
  }

  function Born(s: State, task: nat, id: HandleId, x: Item): State {
    var put := PutIn(s, task, id, x);
    put.(hs := put.hs.(minted := s.hs.minted[x.tag := x.cap]))
  }

  function EndItem(tag: nat, e: End): Item { Item(tag, HandleTable.Capability(NumberOf(e), CHANNEL_RIGHTS)) }

  function Paired(s: State, task: nat, pair: nat, id: HandleId, id': HandleId, tag: nat, tag': nat): State {
    var made := s.(cs := s.cs.(made := s.cs.made + {pair}));
    Born(Born(made, task, id, EndItem(tag, End(pair, false))), task, id', EndItem(tag', End(pair, true)))
  }

  function EndOf(pc: Pc): Option<End> { if pc.Idle? then None else Some(pc.end) }

  function HandOf(pc: Pc): Option<Item> { if pc.Moving? || pc.Delivering? then Some(pc.item) else None }

  function MsgOf(pc: Pc): Option<nat> { if pc.Idle? then None else Some(pc.msg) }

  /** No table, no thread's hand and no thread's send or receive refers to the endpoint. What ports and other
      calls refer to is EscrowWatch's; an endpoint may go here while one of those has it. */
  ghost predicate Unreferenced(s: State, e: End) {
    && (forall t: nat, id: HandleId | LiveIn(s, t, id) :: EndAt(ItemIn(s, t, id).cap.target) != Some(e))
    && (forall t: nat | HandOf(PcOf(s.pc, t)).Some? :: EndAt(HandOf(PcOf(s.pc, t)).value.cap.target) != Some(e))
    && (forall t: nat :: EndOf(PcOf(s.pc, t)) != Some(e))
  }

  /** One id of a dying message: closed, if the table knows it. */
  function BuryNext(s: State, m: nat): State {
    var c := CargoOf(s.ms.cargo, m);
    if !StageOf(s.ms.stage, m).Dying? || c == [] then s
    else if LiveIn(s, KERNEL, c[0]) then Load(TakeOut(s, KERNEL, c[0], Closed), m, c[1..])
    else Load(s, m, c[1..])
  }

  function DiscardNext(s: State, e: End): State {
    var q := ListOf(s.cs.inbound, e);
    if q == [] then s
    else Mark(s.(cs := s.cs.(inbound := s.cs.inbound[e := q[1..]],
        lost := s.cs.lost[e := ListOf(s.cs.lost, e) + [q[0]]])), q[0], Dying)
  }

  predicate MayMint(s: State, task: nat, id: HandleId, tag: nat, cap: Capability) {
    task != KERNEL && NewIn(s, task, id) && tag !in s.hs.place && EndAt(cap.target).None?
  }

  predicate MayPair(s: State, task: nat, pair: nat, id: HandleId, id': HandleId, tag: nat, tag': nat) {
    && task != KERNEL && NewIn(s, task, id) && NewIn(s, task, id') && id != id' && tag !in s.hs.place
    && tag' !in s.hs.place && tag != tag'
    && pair !in s.cs.made
  }

  ghost function Step(s: State, a: Action): State {
    match a
    case Mint(task, id, tag, cap) => if MayMint(s, task, id, tag, cap) then Born(s, task, id, Item(tag, cap)) else s
    case NewPair(task, pair, id, id', tag, tag') =>
      if MayPair(s, task, pair, id, id', tag, tag') then Paired(s, task, pair, id, id', tag, tag') else s
    case CloseHandle(task, id) => if task != KERNEL && LiveIn(s, task, id) then TakeOut(s, task, id, Closed) else s
    case Send(t, task, via, m, todo) =>
      if PcOf(s.pc, t).Idle? && StageOf(s.ms.stage, m).Unused? && Holds(s, task, via, SendRights(todo))
      then StartSend(s, t, ViaEnd(s, task, via, SendRights(todo)), task, m, todo)
      else s
    case Go(t, ok, id) => Advance(s, t, ok, id)
    case Receive(t, task, via, fits) =>
      if PcOf(s.pc, t).Idle? && Holds(s, task, via, {READ}) then Read(s, t, task, ViaEnd(s, task, via, {READ}), fits)
          else s
    case Bury(m) => BuryNext(s, m)
    case Destroy(e) => if e.pair in s.cs.made && Unreferenced(s, e) then s.(cs := s.cs.(dead := s.cs.dead + {e})) else s
    case Discard(e) => if e in s.cs.dead && Peer(e) in s.cs.dead then DiscardNext(s, e) else s
  }

  ghost function Runs(s: State, acts: seq<Action>): State {
    if acts == [] then s else Step(Runs(s, acts[..|acts| - 1]), acts[|acts| - 1])
  }

  function Initial(): State {
    State(Handles(imap[], imap[], imap[]), Messages(imap[], imap[], imap[], imap[], imap[]),
          Channels(imap[], {}, {}, imap[], imap[], imap[]), imap[])
  }

  // ---------------------------------------------------------------- what every step keeps

  /** A reference is what it was made for, and an endpoint it names is made and not destroyed. */
  ghost predicate Genuine(s: State, x: Item) {
    && x.tag in s.hs.minted && s.hs.minted[x.tag] == x.cap
    && (EndAt(x.cap.target).Some? ==>
          && x.cap.rights == CHANNEL_RIGHTS && EndAt(x.cap.target).value !in s.cs.dead
          && EndAt(x.cap.target).value.pair in s.cs.made)
  }

  ghost predicate EntryOk(s: State, t: nat, id: HandleId) {
    LiveIn(s, t, id) ==>
      && id in TabOf(s.hs.tabs, t).issued && Genuine(s, ItemIn(s, t, id))
      && ItemIn(s, t, id).tag in s.hs.place && s.hs.place[ItemIn(s, t, id).tag] == At(t, id)
  }

  ghost predicate PlaceOk(s: State, g: nat) {
    g in s.hs.place ==>
      && g in s.hs.minted
      && (s.hs.place[g].At? ==> LiveIn(s, s.hs.place[g].table, s.hs.place[g].id)
                                && ItemIn(s, s.hs.place[g].table, s.hs.place[g].id).tag == g)
      && (s.hs.place[g].InHand? ==>
         HandOf(PcOf(s.pc, s.hs.place[g].thread)).Some? && HandOf(PcOf(s.pc, s.hs.place[g].thread)).value.tag == g)
  }

  /** An entry of the kernel's table is named by the message it was made for. */
  ghost predicate EscrowOk(s: State, id: HandleId) {
    && (LiveIn(s, KERNEL, id) ==> id in s.ms.owner && id in CargoOf(s.ms.cargo, s.ms.owner[id]))
    && (id in s.ms.owner ==> id in TabOf(s.hs.tabs, KERNEL).issued)
  }

  ghost predicate MessageOk(s: State, m: nat) {
    var c, st := CargoOf(s.ms.cargo, m), StageOf(s.ms.stage, m);
    && NoDup(c) && (forall id | id in c :: LiveIn(s, KERNEL, id) && id in s.ms.owner && s.ms.owner[id] == m)
    && (st.Unused? || st.Spent? ==> c == [])
    && (st.Held? ==> MsgOf(PcOf(s.pc, st.thread)) == Some(m))
    && (st.Queued? ==> m in ListOf(s.cs.inbound, st.end))
  }

  ghost predicate ThreadOk(s: State, t: nat) {
    var pc := PcOf(s.pc, t);
    && (MsgOf(pc).Some? ==> StageOf(s.ms.stage, MsgOf(pc).value) == Held(t))
    && (HandOf(pc).Some? ==> && Genuine(s, HandOf(pc).value) && HandOf(pc).value.tag in s.hs.place
                             && s.hs.place[HandOf(pc).value.tag] == InHand(t))
    && (EndOf(pc).Some? ==> EndOf(pc).value !in s.cs.dead && EndOf(pc).value.pair in s.cs.made)
    && (pc.Staging? || pc.Moving? || pc.Unpacking? || pc.Delivering? ==> pc.task != KERNEL)
  }

  /** A queue names its messages, each once and in order, and none of them carries its own pair. */
  ghost predicate QueueOk(s: State, e: End) {
    var q := ListOf(s.cs.inbound, e);
    && NoDup(q) && |q| <= QUEUE_DEPTH && (forall m | m in q ::
       StageOf(s.ms.stage, m) == Queued(e) && !Carries(s, m, e.pair))
    && ListOf(s.cs.sent, e) == ListOf(s.cs.taken, e) + ListOf(s.cs.lost, e) + q
    && (ListOf(s.cs.lost, e) != [] ==> e in s.cs.dead && Peer(e) in s.cs.dead)
    && (q != [] || e in s.cs.dead ==> e.pair in s.cs.made)
  }

  /** The handles' own books. */
  ghost predicate Entries(s: State) {
    && (forall t: nat, id: HandleId {:trigger EntryOk(s, t, id)} :: EntryOk(s, t, id))
    && (forall g: nat {:trigger PlaceOk(s, g)} :: PlaceOk(s, g))
  }

  /** The messages', the threads' and the queues'. */
  ghost predicate Traffic(s: State) {
    && (forall id: HandleId {:trigger EscrowOk(s, id)} :: EscrowOk(s, id))
    && (forall m: nat {:trigger MessageOk(s, m)} :: MessageOk(s, m))
    && (forall t: nat {:trigger ThreadOk(s, t)} :: ThreadOk(s, t))
    && (forall e: End {:trigger QueueOk(s, e)} :: QueueOk(s, e))
  }

  ghost predicate Inv(s: State) { Entries(s) && Traffic(s) }

  // ---------------------------------------------------------------- the handles' books stay right

  /** Every thread's hand is as it was, but for one thread's. */
  ghost predicate HandsBut(s: State, s': State, u: nat) {
    forall t: nat | t != u :: HandOf(PcOf(s'.pc, t)) == HandOf(PcOf(s.pc, t))
  }

  ghost predicate SameEnds(s: State, s': State) { s'.cs.dead == s.cs.dead && s'.cs.made == s.cs.made }

  lemma EntriesSame(s: State, s': State, u: nat)
    requires Entries(s) && s'.hs == s.hs && SameEnds(s, s') && HandsBut(s, s', u)
    requires HandOf(PcOf(s'.pc, u)) == HandOf(PcOf(s.pc, u))
    ensures Entries(s')
  {
    forall t: nat, id: HandleId ensures EntryOk(s', t, id) { assert EntryOk(s, t, id); }
    forall g: nat ensures PlaceOk(s', g) { assert PlaceOk(s, g); }
  }

  lemma EntriesPut(s: State, s': State, t: nat, id: HandleId, u: nat)
    requires Entries(s) && NewIn(s, t, id) && HandOf(PcOf(s.pc, u)).Some? && ThreadOk(s, u)
    requires s'.hs == PutIn(s, t, id, HandOf(PcOf(s.pc, u)).value).hs && SameEnds(s, s')
    requires HandsBut(s, s', u) && HandOf(PcOf(s'.pc, u)).None?
    ensures Entries(s')
  {
    assert EntryOk(s, t, id);
    forall v: nat, d: HandleId ensures EntryOk(s', v, d) { assert EntryOk(s, v, d); }
    forall g: nat ensures PlaceOk(s', g) { assert PlaceOk(s, g); }
  }

  lemma EntriesTake(s: State, s': State, t: nat, id: HandleId, u: nat)
    requires Entries(s) && LiveIn(s, t, id) && HandOf(PcOf(s.pc, u)).None?
    requires s'.hs == TakeOut(s, t, id, InHand(u)).hs && SameEnds(s, s')
    requires HandsBut(s, s', u) && HandOf(PcOf(s'.pc, u)) == Some(ItemIn(s, t, id))
    ensures Entries(s')
  {
    assert EntryOk(s, t, id);
    forall v: nat, d: HandleId ensures EntryOk(s', v, d) { assert EntryOk(s, v, d); }
    forall g: nat ensures PlaceOk(s', g) { assert PlaceOk(s, g); }
  }

  lemma EntriesClose(s: State, s': State, t: nat, id: HandleId)
    requires Entries(s) && LiveIn(s, t, id) && s'.hs == TakeOut(s, t, id, Closed).hs && SameEnds(s, s') && s'.pc == s.pc
    ensures Entries(s')
  {
    assert EntryOk(s, t, id);
    forall v: nat, d: HandleId ensures EntryOk(s', v, d) { assert EntryOk(s, v, d); }
    forall g: nat ensures PlaceOk(s', g) { assert PlaceOk(s, g); }
  }

  lemma EntriesDrop(s: State, s': State, u: nat)
    requires Entries(s) && HandOf(PcOf(s.pc, u)).Some? && ThreadOk(s, u)
    requires s'.hs == Drop(s, HandOf(PcOf(s.pc, u)).value).hs && SameEnds(s, s')
    requires HandsBut(s, s', u) && HandOf(PcOf(s'.pc, u)).None?
    ensures Entries(s')
  {
    forall v: nat, d: HandleId ensures EntryOk(s', v, d) { assert EntryOk(s, v, d); }
    forall g: nat ensures PlaceOk(s', g) { assert PlaceOk(s, g); }
  }

  lemma EntriesBorn(s: State, t: nat, id: HandleId, x: Item)
    requires Entries(s) && NewIn(s, t, id) && x.tag !in s.hs.place
    requires EndAt(x.cap.target).Some? ==>
      x.cap.rights == CHANNEL_RIGHTS && EndAt(x.cap.target).value !in s.cs.dead
          && EndAt(x.cap.target).value.pair in s.cs.made
    ensures Entries(Born(s, t, id, x))
  {
    var s' := Born(s, t, id, x);
    assert EntryOk(s, t, id);
    forall v: nat, d: HandleId ensures EntryOk(s', v, d) {
      assert EntryOk(s, v, d);
      if LiveIn(s, v, d) { assert PlaceOk(s, ItemIn(s, v, d).tag); }
    }
    forall g: nat ensures PlaceOk(s', g) { assert PlaceOk(s, g); }
  }

  // ---------------------------------------------------------------- the traffic's books stay right

  /** What a queue's messages name, and what that refers to, has not changed. */
  lemma SameCargo(s: State, s': State, e: End)
    requires QueueOk(s, e) && s'.cs.inbound == s.cs.inbound
    requires forall m | m in ListOf(s.cs.inbound, e) :: CargoOf(s'.ms.cargo, m) == CargoOf(s.ms.cargo, m)
    requires forall m, id | m in ListOf(s.cs.inbound, e) && id in CargoOf(s.ms.cargo, m) ::
      Carried(s', id) == Carried(s, id)
    ensures forall m | m in ListOf(s.cs.inbound, e) :: !Carries(s', m, e.pair)
  {
    forall m | m in ListOf(s.cs.inbound, e) ensures !Carries(s', m, e.pair) { assert !Carries(s, m, e.pair); }
  }

  /** A step that leaves the kernel's table, the messages and the threads alone. */
  lemma TrafficApart(s: State, s': State)
    requires Traffic(s) && s'.ms == s.ms && s'.pc == s.pc && s'.cs == s.cs
    requires TabOf(s'.hs.tabs, KERNEL) == TabOf(s.hs.tabs, KERNEL)
    requires forall t: nat | HandOf(PcOf(s.pc, t)).Some? ::
      var x := HandOf(PcOf(s.pc, t)).value; x.tag in s'.hs.place && s'.hs.place[x.tag] == InHand(t) && Genuine(s', x)
    ensures Traffic(s')
  {
    forall id: HandleId ensures EscrowOk(s', id) { assert EscrowOk(s, id); }
    forall m: nat ensures MessageOk(s', m) { assert MessageOk(s, m); }
    forall t: nat ensures ThreadOk(s', t) { assert ThreadOk(s, t); }
    forall e: End ensures QueueOk(s', e) { assert QueueOk(s, e); SameCargo(s, s', e); }
  }

  /** A hand holds what no table does. */
  lemma HandApart(s: State, t: nat, v: nat, id: HandleId)
    requires Entries(s) && ThreadOk(s, t) && HandOf(PcOf(s.pc, t)).Some? && LiveIn(s, v, id)
    ensures ItemIn(s, v, id).tag != HandOf(PcOf(s.pc, t)).value.tag
  {
    assert EntryOk(s, v, id);
  }

  lemma BornKeeps(s: State, task: nat, id: HandleId, x: Item)
    requires Inv(s) && task != KERNEL && NewIn(s, task, id) && x.tag !in s.hs.place
    requires EndAt(x.cap.target).Some? ==>
      x.cap.rights == CHANNEL_RIGHTS && EndAt(x.cap.target).value !in s.cs.dead
          && EndAt(x.cap.target).value.pair in s.cs.made
    ensures Inv(Born(s, task, id, x))
  {
    EntriesBorn(s, task, id, x);
    var s' := Born(s, task, id, x);
    forall t: nat | HandOf(PcOf(s.pc, t)).Some?
      ensures var y := HandOf(PcOf(s.pc, t)).value;
        y.tag in s'.hs.place && s'.hs.place[y.tag] == InHand(t) && Genuine(s', y)
    {
      assert ThreadOk(s, t);
    }
    TrafficApart(s, s');
  }

  lemma MadeKeeps(s: State, pair: nat)
    requires Inv(s)
    ensures Inv(s.(cs := s.cs.(made := s.cs.made + {pair})))
  {
    var s' := s.(cs := s.cs.(made := s.cs.made + {pair}));
    forall t: nat, id: HandleId ensures EntryOk(s', t, id) { assert EntryOk(s, t, id); }
    forall g: nat ensures PlaceOk(s', g) { assert PlaceOk(s, g); }
    forall id: HandleId ensures EscrowOk(s', id) { assert EscrowOk(s, id); }
    forall m: nat ensures MessageOk(s', m) { assert MessageOk(s, m); }
    forall t: nat ensures ThreadOk(s', t) { assert ThreadOk(s, t); }
    forall e: End ensures QueueOk(s', e) { assert QueueOk(s, e); SameCargo(s, s', e); }
  }

  lemma NumberBack(e: End)
    ensures EndAt(NumberOf(e)) == Some(e)
  {
    if e.side {
      assert NumberOf(e) / 4 == e.pair && NumberOf(e) % 4 == 3;
    } else {
      assert NumberOf(e) / 4 == e.pair && NumberOf(e) % 4 == 1;
    }
  }

  lemma PairKeeps(s: State, task: nat, pair: nat, id: HandleId, id': HandleId, tag: nat, tag': nat)
    requires Inv(s) && MayPair(s, task, pair, id, id', tag, tag')
    ensures Inv(Paired(s, task, pair, id, id', tag, tag'))
  {
    assert QueueOk(s, End(pair, false)) && QueueOk(s, End(pair, true));
    NumberBack(End(pair, false));
    NumberBack(End(pair, true));
    var made := s.(cs := s.cs.(made := s.cs.made + {pair}));
    MadeKeeps(s, pair);
    BornKeeps(made, task, id, EndItem(tag, End(pair, false)));
    BornKeeps(Born(made, task, id, EndItem(tag, End(pair, false))), task, id', EndItem(tag', End(pair, true)));
  }

  lemma CloseKeeps(s: State, task: nat, id: HandleId)
    requires Inv(s) && task != KERNEL && LiveIn(s, task, id)
    ensures Inv(TakeOut(s, task, id, Closed))
  {
    var s' := TakeOut(s, task, id, Closed);
    EntriesClose(s, s', task, id);
    forall t: nat | HandOf(PcOf(s.pc, t)).Some?
      ensures var y := HandOf(PcOf(s.pc, t)).value;
        y.tag in s'.hs.place && s'.hs.place[y.tag] == InHand(t) && Genuine(s', y)
    {
      assert ThreadOk(s, t);
      HandApart(s, t, task, id);
    }
    TrafficApart(s, s');
  }

  /** Nothing of any other message in the kernel's table is touched. */
  ghost predicate OthersApart(s: State, s': State, m: nat) {
    forall id: HandleId | id in s.ms.owner && s.ms.owner[id] != m ::
      && id in s'.ms.owner && s'.ms.owner[id] == s.ms.owner[id] && LiveIn(s', KERNEL, id) == LiveIn(s, KERNEL, id)
      && id in TabOf(s'.hs.tabs, KERNEL).issued
      && (LiveIn(s, KERNEL, id) ==> ItemIn(s', KERNEL, id) == ItemIn(s, KERNEL, id))
  }

  /** Everything else in the kernel's table is this message's. */
  ghost predicate RestIsMine(s: State, s': State, m: nat) {
    forall id: HandleId {:trigger LiveIn(s', KERNEL, id)} {:trigger id in s'.ms.owner}
        | !(id in s.ms.owner && s.ms.owner[id] != m) ::
      && (LiveIn(s', KERNEL, id) ==> id in s'.ms.owner && s'.ms.owner[id] == m && id in CargoOf(s'.ms.cargo, m))
      && (id in s'.ms.owner ==> id in TabOf(s'.hs.tabs, KERNEL).issued)
  }

  ghost predicate HandsKept(s: State, s': State, t: nat) {
    forall u: nat | u != t && HandOf(PcOf(s.pc, u)).Some? ::
      var g := HandOf(PcOf(s.pc, u)).value.tag;
      && g in s.hs.place && g in s'.hs.place && s'.hs.place[g] == s.hs.place[g]
      && g in s.hs.minted && g in s'.hs.minted && s'.hs.minted[g] == s.hs.minted[g]
  }

  /** A step of one thread with one message that is on no queue: all the rest is as it was. */
  ghost predicate Local(s: State, s': State, t: nat, m: nat) {
    && s'.cs == s.cs && (forall u: nat | u != t :: PcOf(s'.pc, u) == PcOf(s.pc, u))
    && (forall n: nat | n != m ::
       CargoOf(s'.ms.cargo, n) == CargoOf(s.ms.cargo, n) && StageOf(s'.ms.stage, n) == StageOf(s.ms.stage, n))
    && !StageOf(s.ms.stage, m).Queued? && !StageOf(s'.ms.stage, m).Queued?
    && (StageOf(s.ms.stage, m).Held? ==> StageOf(s.ms.stage, m) == Held(t))
    && (PcOf(s'.pc, t) == PcOf(s.pc, t) || PcOf(s.pc, t).Idle? || PcOf(s.pc, t).msg == m)
  }

  lemma LocalTraffic(s: State, s': State, t: nat, m: nat)
    requires Traffic(s) && Local(s, s', t, m) && OthersApart(s, s', m) && RestIsMine(s, s', m) && HandsKept(s, s', t)
    requires MessageOk(s', m) && ThreadOk(s', t)
    ensures Traffic(s')
  {
    forall id: HandleId ensures EscrowOk(s', id) { assert EscrowOk(s, id); }
    forall n: nat ensures MessageOk(s', n) { if n != m { LocalMessage(s, s', t, m, n); } }
    forall u: nat ensures ThreadOk(s', u) { if u != t { LocalThread(s, s', t, m, u); } }
    forall e: End ensures QueueOk(s', e) { LocalQueue(s, s', t, m, e); }
  }

  lemma LocalMessage(s: State, s': State, t: nat, m: nat, n: nat)
    requires Traffic(s) && Local(s, s', t, m) && OthersApart(s, s', m) && n != m && ThreadOk(s', t)
    ensures MessageOk(s', n)
  {
    assert MessageOk(s, n);
    var st := StageOf(s.ms.stage, n);
    if st.Held? { assert ThreadOk(s, st.thread); if st.thread == t { LocalHeld(s, s', t, m, n); } }
  }

  /** A thread has one message. */
  lemma LocalHeld(s: State, s': State, t: nat, m: nat, n: nat)
    requires Traffic(s) && Local(s, s', t, m) && n != m && ThreadOk(s', t) && StageOf(s.ms.stage, n) == Held(t)
    ensures MsgOf(PcOf(s'.pc, t)) == Some(n)
  {
    assert MessageOk(s, n);
  }

  lemma LocalThread(s: State, s': State, t: nat, m: nat, u: nat)
    requires Traffic(s) && Local(s, s', t, m) && HandsKept(s, s', t) && u != t
    ensures ThreadOk(s', u)
  {
    assert ThreadOk(s, u);
  }

  lemma LocalQueue(s: State, s': State, t: nat, m: nat, e: End)
    requires Traffic(s) && Local(s, s', t, m) && OthersApart(s, s', m)
    ensures QueueOk(s', e)
  {
    assert QueueOk(s, e);
    forall n, id | n in ListOf(s.cs.inbound, e) && id in CargoOf(s.ms.cargo, n)
        ensures Carried(s', id) == Carried(s, id) {
      assert MessageOk(s, n);
    }
    SameCargo(s, s', e);
  }

  // ---------------------------------------------------------------- the steps of one thread

  /** Where a hand's handle is, and that it is genuine, for every thread. */
  lemma HandsAre(s: State, s': State, t: nat, changed: nat)
    requires Inv(s) && s'.hs.minted == s.hs.minted
    requires forall g: nat | g != changed && g in s.hs.place :: g in s'.hs.place && s'.hs.place[g] == s.hs.place[g]
    requires forall u: nat | u != t && HandOf(PcOf(s.pc, u)).Some? :: HandOf(PcOf(s.pc, u)).value.tag != changed
    ensures HandsKept(s, s', t)
  {
    forall u: nat | u != t && HandOf(PcOf(s.pc, u)).Some?
      ensures var g := HandOf(PcOf(s.pc, u)).value.tag;
        && g in s.hs.place && g in s'.hs.place && s'.hs.place[g] == s.hs.place[g]
        && g in s.hs.minted && g in s'.hs.minted && s'.hs.minted[g] == s.hs.minted[g]
    {
      assert ThreadOk(s, u);
    }
  }

  lemma KernelSame(s: State, s': State, m: nat)
    requires Traffic(s) && TabOf(s'.hs.tabs, KERNEL) == TabOf(s.hs.tabs, KERNEL) && s'.ms.owner == s.ms.owner
    requires CargoOf(s'.ms.cargo, m) == CargoOf(s.ms.cargo, m)
    ensures OthersApart(s, s', m) && RestIsMine(s, s', m)
  {
    forall id: HandleId | id in s.ms.owner && s.ms.owner[id] != m ensures id in TabOf(s.hs.tabs, KERNEL).issued {
      assert EscrowOk(s, id);
    }
    forall id: HandleId | !(id in s.ms.owner && s.ms.owner[id] != m)
      ensures LiveIn(s', KERNEL, id) ==> id in s'.ms.owner && s'.ms.owner[id] == m && id in CargoOf(s'.ms.cargo, m)
      ensures id in s'.ms.owner ==> id in TabOf(s'.hs.tabs, KERNEL).issued
    {
      assert EscrowOk(s, id);
    }
  }

  lemma SendKeeps(s: State, t: nat, e: End, task: nat, m: nat, todo: seq<HandleId>)
    requires Inv(s) && PcOf(s.pc, t).Idle? && StageOf(s.ms.stage, m).Unused? && e !in s.cs.dead && e.pair in s.cs.made
    requires task != KERNEL
    ensures Inv(StartSend(s, t, e, task, m, todo))
  {
    var s' := StartSend(s, t, e, task, m, todo);
    assert MessageOk(s, m) && ThreadOk(s, t);
    EntriesSame(s, s', t);
    KernelSame(s, s', m);
    HandsSame(s, s', t);
    LocalTraffic(s, s', t, m);
  }

  /** The tables did not change. */
  lemma HandsSame(s: State, s': State, t: nat)
    requires Inv(s) && s'.hs == s.hs
    ensures HandsKept(s, s', t)
  {
    forall u: nat | u != t && HandOf(PcOf(s.pc, u)).Some?
      ensures var g := HandOf(PcOf(s.pc, u)).value.tag; g in s.hs.place && g in s.hs.minted { assert ThreadOk(s, u); }
  }

  lemma ReadyKeeps(s: State, t: nat)
    requires Inv(s) && PcOf(s.pc, t).Staging?
    ensures Inv(Goto(s, t, Writing(PcOf(s.pc, t).end, PcOf(s.pc, t).msg)))
  {
    var s', m := Goto(s, t, Writing(PcOf(s.pc, t).end, PcOf(s.pc, t).msg)), PcOf(s.pc, t).msg;
    assert MessageOk(s, m) && ThreadOk(s, t);
    EntriesSame(s, s', t);
    KernelSame(s, s', m);
    HandsSame(s, s', t);
    LocalTraffic(s, s', t, m);
  }

  lemma FailKeeps(s: State, t: nat)
    requires Inv(s) && MsgOf(PcOf(s.pc, t)).Some? && HandOf(PcOf(s.pc, t)).None?
    ensures Inv(Fail(s, t, PcOf(s.pc, t).msg))
  {
    var s', m := Fail(s, t, PcOf(s.pc, t).msg), PcOf(s.pc, t).msg;
    assert MessageOk(s, m) && ThreadOk(s, t);
    EntriesSame(s, s', t);
    KernelSame(s, s', m);
    HandsSame(s, s', t);
    LocalTraffic(s, s', t, m);
  }

  lemma TookKeeps(s: State, t: nat)
    requires Inv(s) && PcOf(s.pc, t).Staging? && PcOf(s.pc, t).todo != []
    requires LiveIn(s, PcOf(s.pc, t).task, PcOf(s.pc, t).todo[0])
    ensures Inv(Took(s, t))
  {
    var s', pc := Took(s, t), PcOf(s.pc, t);
    var x := ItemIn(s, pc.task, pc.todo[0]);
    assert MessageOk(s, pc.msg) && ThreadOk(s, t) && EntryOk(s, pc.task, pc.todo[0]);
    EntriesTake(s, s', pc.task, pc.todo[0], t);
    KernelSame(s, s', pc.msg);
    forall u: nat | u != t && HandOf(PcOf(s.pc, u)).Some? ensures HandOf(PcOf(s.pc, u)).value.tag != x.tag {
      assert ThreadOk(s, u);
      HandApart(s, u, pc.task, pc.todo[0]);
    }
    HandsAre(s, s', t, x.tag);
    LocalTraffic(s, s', t, pc.msg);
  }

  /** No two hands hold the same handle. */
  lemma OtherHands(s: State, t: nat)
    requires Inv(s) && HandOf(PcOf(s.pc, t)).Some?
    ensures forall u: nat | u != t && HandOf(PcOf(s.pc, u)).Some? ::
      HandOf(PcOf(s.pc, u)).value.tag != HandOf(PcOf(s.pc, t)).value.tag
  {
    forall u: nat | u != t && HandOf(PcOf(s.pc, u)).Some?
        ensures HandOf(PcOf(s.pc, u)).value.tag != HandOf(PcOf(s.pc, t)).value.tag {
      assert ThreadOk(s, t) && ThreadOk(s, u);
    }
  }

  lemma StowedKeeps(s: State, t: nat, id: HandleId)
    requires Inv(s) && PcOf(s.pc, t).Moving? && NewIn(s, KERNEL, id)
    ensures Inv(Stowed(s, t, id))
  {
    var s', pc := Stowed(s, t, id), PcOf(s.pc, t);
    assert MessageOk(s, pc.msg) && ThreadOk(s, t) && EntryOk(s, KERNEL, id);
    EntriesPut(s, s', KERNEL, id, t);
    OtherHands(s, t);
    HandsAre(s, s', t, pc.item.tag);
    StowedOthers(s, t, id);
    LocalTraffic(s, s', t, pc.msg);
  }

  lemma StowedOthers(s: State, t: nat, id: HandleId)
    requires Inv(s) && PcOf(s.pc, t).Moving? && NewIn(s, KERNEL, id)
    ensures OthersApart(s, Stowed(s, t, id), PcOf(s.pc, t).msg) && RestIsMine(s, Stowed(s, t, id), PcOf(s.pc, t).msg)
  {
    var s', m := Stowed(s, t, id), PcOf(s.pc, t).msg;
    assert EscrowOk(s, id);
    forall d: HandleId | d in s.ms.owner && s.ms.owner[d] != m
      ensures d in s'.ms.owner && s'.ms.owner[d] == s.ms.owner[d] && LiveIn(s', KERNEL, d) == LiveIn(s, KERNEL, d)
      ensures d in TabOf(s'.hs.tabs, KERNEL).issued
      ensures (LiveIn(s, KERNEL, d) ==> ItemIn(s', KERNEL, d) == ItemIn(s, KERNEL, d))
    {
      assert EscrowOk(s, d);
    }
    forall d: HandleId | !(d in s.ms.owner && s.ms.owner[d] != m)
      ensures LiveIn(s', KERNEL, d) ==> d in s'.ms.owner && s'.ms.owner[d] == m && d in CargoOf(s'.ms.cargo, m)
      ensures d in s'.ms.owner ==> d in TabOf(s'.hs.tabs, KERNEL).issued
    {
      assert EscrowOk(s, d);
    }
  }

  lemma LostKeeps(s: State, t: nat)
    requires Inv(s) && PcOf(s.pc, t).Moving?
    ensures Inv(Fail(Drop(s, PcOf(s.pc, t).item), t, PcOf(s.pc, t).msg))
  {
    var pc := PcOf(s.pc, t);
    var s' := Fail(Drop(s, pc.item), t, pc.msg);
    assert MessageOk(s, pc.msg) && ThreadOk(s, t);
    EntriesDrop(s, s', t);
    KernelSame(s, s', pc.msg);
    OtherHands(s, t);
    HandsAre(s, s', t, pc.item.tag);
    LocalTraffic(s, s', t, pc.msg);
  }

  lemma TailOf<T>(q: seq<T>)
    requires NoDup(q) && q != []
    ensures NoDup(q[1..]) && q[0] !in q[1..] && forall m :: m in q <==> m == q[0] || m in q[1..]
  {
    assert q == [q[0]] + q[1..];
  }

  /** A message's first id leaves the kernel's table. */
  lemma KernelTake(s: State, s': State, m: nat)
    requires Inv(s) && CargoOf(s.ms.cargo, m) != [] && s'.ms.owner == s.ms.owner
    requires CargoOf(s'.ms.cargo, m) == CargoOf(s.ms.cargo, m)[1..]
    requires var tab := TabOf(s.hs.tabs, KERNEL);
      TabOf(s'.hs.tabs, KERNEL) == Tab(tab.live - {CargoOf(s.ms.cargo, m)[0]}, tab.issued)
    ensures OthersApart(s, s', m) && RestIsMine(s, s', m)
    ensures NoDup(CargoOf(s'.ms.cargo, m))
    ensures forall id | id in CargoOf(s'.ms.cargo, m) ::
      LiveIn(s', KERNEL, id) && id in s'.ms.owner && s'.ms.owner[id] == m
  {
    var c := CargoOf(s.ms.cargo, m);
    assert MessageOk(s, m) && c[0] in c;
    TailOf(c);
    forall id: HandleId | id in s.ms.owner && s.ms.owner[id] != m ensures id in TabOf(s.hs.tabs, KERNEL).issued {
      assert EscrowOk(s, id);
    }
    forall id: HandleId | !(id in s.ms.owner && s.ms.owner[id] != m)
      ensures LiveIn(s', KERNEL, id) ==> id in s'.ms.owner && s'.ms.owner[id] == m && id in CargoOf(s'.ms.cargo, m)
      ensures id in s'.ms.owner ==> id in TabOf(s'.hs.tabs, KERNEL).issued
    {
      assert EscrowOk(s, id);
    }
  }

  lemma SpentKeeps(s: State, t: nat)
    requires Inv(s) && PcOf(s.pc, t).Unpacking? && CargoOf(s.ms.cargo, PcOf(s.pc, t).msg) == []
    ensures Inv(Goto(Mark(s, PcOf(s.pc, t).msg, Spent), t, Idle))
  {
    var s', m := Goto(Mark(s, PcOf(s.pc, t).msg, Spent), t, Idle), PcOf(s.pc, t).msg;
    assert MessageOk(s, m) && ThreadOk(s, t);
    EntriesSame(s, s', t);
    KernelSame(s, s', m);
    HandsSame(s, s', t);
    LocalTraffic(s, s', t, m);
  }

  /** The kernel's table always knows the ids a message names, so no take of one fails. */
  lemma CargoIsLive(s: State, m: nat)
    requires Inv(s) && CargoOf(s.ms.cargo, m) != []
    ensures LiveIn(s, KERNEL, CargoOf(s.ms.cargo, m)[0])
  {
    assert MessageOk(s, m) && CargoOf(s.ms.cargo, m)[0] in CargoOf(s.ms.cargo, m);
  }

  lemma UnpackedKeeps(s: State, t: nat)
    requires Inv(s) && PcOf(s.pc, t).Unpacking? && CargoOf(s.ms.cargo, PcOf(s.pc, t).msg) != []
    requires LiveIn(s, KERNEL, CargoOf(s.ms.cargo, PcOf(s.pc, t).msg)[0])
    ensures Inv(Unpacked(s, t))
  {
    var s', pc := Unpacked(s, t), PcOf(s.pc, t);
    var id := CargoOf(s.ms.cargo, pc.msg)[0];
    assert MessageOk(s, pc.msg) && ThreadOk(s, t) && EntryOk(s, KERNEL, id);
    EntriesTake(s, s', KERNEL, id, t);
    KernelTake(s, s', pc.msg);
    forall u: nat | u != t && HandOf(PcOf(s.pc, u)).Some?
        ensures HandOf(PcOf(s.pc, u)).value.tag != ItemIn(s, KERNEL, id).tag {
      assert ThreadOk(s, u);
      HandApart(s, u, KERNEL, id);
    }
    HandsAre(s, s', t, ItemIn(s, KERNEL, id).tag);
    LocalTraffic(s, s', t, pc.msg);
  }

  lemma DeliveredKeeps(s: State, t: nat, id: HandleId)
    requires Inv(s) && PcOf(s.pc, t).Delivering? && NewIn(s, PcOf(s.pc, t).task, id)
    ensures Inv(Deliver(s, t, true, id))
  {
    var s', pc := Deliver(s, t, true, id), PcOf(s.pc, t);
    assert MessageOk(s, pc.msg) && ThreadOk(s, t);
    EntriesPut(s, s', pc.task, id, t);
    KernelSame(s, s', pc.msg);
    OtherHands(s, t);
    HandsAre(s, s', t, pc.item.tag);
    LocalTraffic(s, s', t, pc.msg);
  }

  lemma UndeliveredKeeps(s: State, t: nat, id: HandleId)
    requires Inv(s) && PcOf(s.pc, t).Delivering?
    ensures Inv(Deliver(s, t, false, id))
  {
    var s', pc := Deliver(s, t, false, id), PcOf(s.pc, t);
    assert MessageOk(s, pc.msg) && ThreadOk(s, t);
    EntriesDrop(s, s', t);
    KernelSame(s, s', pc.msg);
    OtherHands(s, t);
    HandsAre(s, s', t, pc.item.tag);
    LocalTraffic(s, s', t, pc.msg);
  }

  lemma BuryKeeps(s: State, m: nat)
    requires Inv(s) && StageOf(s.ms.stage, m).Dying? && CargoOf(s.ms.cargo, m) != []
    ensures Inv(BuryNext(s, m))
  {
    CargoIsLive(s, m);
    var s', id := BuryNext(s, m), CargoOf(s.ms.cargo, m)[0];
    assert MessageOk(s, m) && EntryOk(s, KERNEL, id);
    EntriesClose(s, s', KERNEL, id);
    KernelTake(s, s', m);
    forall u: nat | HandOf(PcOf(s.pc, u)).Some? ensures HandOf(PcOf(s.pc, u)).value.tag != ItemIn(s, KERNEL, id).tag {
      assert ThreadOk(s, u);
      HandApart(s, u, KERNEL, id);
    }
    HandsAre(s, s', 0, ItemIn(s, KERNEL, id).tag);
    assert ThreadOk(s, 0);
    LocalTraffic(s, s', 0, m);
  }

  // ---------------------------------------------------------------- the steps of a queue

  /** A message changes places; the tables, the cargo and the other messages do not. */
  ghost predicate QueueMove(s: State, s': State, m: nat) {
    && s'.hs == s.hs && SameEnds(s, s') && s'.ms.cargo == s.ms.cargo && s'.ms.owner == s.ms.owner
    && (forall n: nat | n != m :: StageOf(s'.ms.stage, n) == StageOf(s.ms.stage, n))
  }

  /** Where only a message changes places, it is enough to look at it, its thread and the queues. */
  lemma QueueTraffic(s: State, s': State, t: nat, m: nat)
    requires Inv(s) && QueueMove(s, s', m) && MessageOk(s', m) && ThreadOk(s', t)
    requires forall u: nat | u != t :: PcOf(s'.pc, u) == PcOf(s.pc, u)
    requires HandOf(PcOf(s'.pc, t)) == HandOf(PcOf(s.pc, t))
    requires (PcOf(s.pc, t).Idle? || PcOf(s.pc, t).msg == m || PcOf(s'.pc, t) == PcOf(s.pc, t))
    requires StageOf(s.ms.stage, m).Held? ==> StageOf(s.ms.stage, m) == Held(t)
    requires forall n: nat, e: End | n != m && StageOf(s.ms.stage, n) == Queued(e) :: n in ListOf(s'.cs.inbound, e)
    requires forall e: End {:trigger QueueOk(s', e)} :: QueueOk(s', e)
    ensures Inv(s')
  {
    EntriesSame(s, s', t);
    forall id: HandleId ensures EscrowOk(s', id) { assert EscrowOk(s, id); }
    forall n: nat ensures MessageOk(s', n) { if n != m { assert MessageOk(s, n); } }
    forall u: nat ensures ThreadOk(s', u) { if u != t { assert ThreadOk(s, u); } }
  }

  lemma CarriesSame(s: State, s': State, m: nat, n: nat, pair: nat)
    requires QueueMove(s, s', m)
    ensures Carries(s', n, pair) == Carries(s, n, pair)
  {
    assert forall id: HandleId :: Carried(s', id) == Carried(s, id);
  }

  ghost predicate MayEnqueue(s: State, t: nat) {
    && PcOf(s.pc, t).Writing?
    && var to := Peer(PcOf(s.pc, t).end);
      !Carries(s, PcOf(s.pc, t).msg, to.pair) && to !in s.cs.dead && |ListOf(s.cs.inbound, to)| < QUEUE_DEPTH
  }

  lemma EnqueueQueue(s: State, t: nat, q: End)
    requires Inv(s) && MayEnqueue(s, t)
    ensures QueueOk(Enqueue(s, t), q)
  {
    assert ThreadOk(s, t) && QueueOk(s, q);
    EnqueuedOne(s, t, q);
  }

  lemma EnqueuedOne(s: State, t: nat, q: End)
    requires QueueOk(s, q) && MayEnqueue(s, t) && PcOf(s.pc, t).msg !in ListOf(s.cs.inbound, q)
    requires Peer(PcOf(s.pc, t).end).pair in s.cs.made
    requires q in s.cs.dead ==> q.pair in s.cs.made
    ensures QueueOk(Enqueue(s, t), q)
  {
    EnqueueCarries(s, t, q);
  }

  lemma EnqueueCarries(s: State, t: nat, q: End)
    requires QueueOk(s, q) && MayEnqueue(s, t)
    ensures forall n | n in ListOf(Enqueue(s, t).cs.inbound, q) :: !Carries(Enqueue(s, t), n, q.pair)
  {
    var s', m := Enqueue(s, t), PcOf(s.pc, t).msg;
    forall n | n in ListOf(s'.cs.inbound, q) ensures !Carries(s', n, q.pair) {
      CarriesSame(s, s', m, n, q.pair);
      assert n == m || !Carries(s, n, q.pair);
    }
  }

  lemma EnqueueKeeps(s: State, t: nat)
    requires Inv(s) && MayEnqueue(s, t)
    ensures Inv(Enqueue(s, t))
  {
    var s', m := Enqueue(s, t), PcOf(s.pc, t).msg;
    assert ThreadOk(s, t) && MessageOk(s, m);
    forall q ensures QueueOk(s', q) { EnqueueQueue(s, t, q); }
    forall n: nat, e: End | n != m && StageOf(s.ms.stage, n) == Queued(e) ensures n in ListOf(s'.cs.inbound, e) {
      assert MessageOk(s, n);
    }
    QueueTraffic(s, s', t, m);
  }

  lemma ReadQueue(s: State, t: nat, task: nat, e: End, fits: bool, q: End)
    requires Inv(s) && PcOf(s.pc, t).Idle? && e !in s.cs.dead && ListOf(s.cs.inbound, e) != []
    ensures QueueOk(Read(s, t, task, e, fits), q)
  {
    var q0 := ListOf(s.cs.inbound, e);
    var s', m := Read(s, t, task, e, fits), q0[0];
    assert QueueOk(s, e) && QueueOk(s, q) && m in q0;
    TailOf(q0);
    ReadCarries(s, t, task, e, fits, q);
    if q == e { assert [m] + q0[1..] == q0; }
  }

  lemma ReadCarries(s: State, t: nat, task: nat, e: End, fits: bool, q: End)
    requires QueueOk(s, e) && QueueOk(s, q) && ListOf(s.cs.inbound, e) != []
    ensures forall n | n in ListOf(Read(s, t, task, e, fits).cs.inbound, q) ::
      !Carries(Read(s, t, task, e, fits), n, q.pair) && n in ListOf(s.cs.inbound, q)
  {
    var q0 := ListOf(s.cs.inbound, e);
    var s', m := Read(s, t, task, e, fits), q0[0];
    TailOf(q0);
    forall n | n in ListOf(s'.cs.inbound, q) ensures !Carries(s', n, q.pair) && n in ListOf(s.cs.inbound, q) {
      CarriesSame(s, s', m, n, q.pair);
      assert n in ListOf(s.cs.inbound, q) && !Carries(s, n, q.pair);
    }
  }

  lemma ReadKeeps(s: State, t: nat, task: nat, e: End, fits: bool)
    requires Inv(s) && PcOf(s.pc, t).Idle? && e !in s.cs.dead && e.pair in s.cs.made && ListOf(s.cs.inbound, e) != []
    requires task != KERNEL
    ensures Inv(Read(s, t, task, e, fits))
  {
    var q0 := ListOf(s.cs.inbound, e);
    var s', m := Read(s, t, task, e, fits), q0[0];
    assert QueueOk(s, e) && m in q0 && MessageOk(s, m) && ThreadOk(s, t);
    forall q ensures QueueOk(s', q) { ReadQueue(s, t, task, e, fits, q); }
    StillQueued(s, s', e, m);
    QueueTraffic(s, s', t, m);
  }

  lemma StillQueued(s: State, s': State, e: End, m: nat)
    requires Inv(s) && ListOf(s.cs.inbound, e) != [] && m == ListOf(s.cs.inbound, e)[0]
    requires forall q :: ListOf(s'.cs.inbound, q) == if q == e then ListOf(s.cs.inbound, e)[1..]
      else ListOf(s.cs.inbound, q)
    ensures forall n: nat, q: End | n != m && StageOf(s.ms.stage, n) == Queued(q) :: n in ListOf(s'.cs.inbound, q)
  {
    assert QueueOk(s, e);
    TailOf(ListOf(s.cs.inbound, e));
    forall n: nat, q: End | n != m && StageOf(s.ms.stage, n) == Queued(q) ensures n in ListOf(s'.cs.inbound, q) {
      assert MessageOk(s, n);
    }
  }

  lemma DiscardQueue(s: State, e: End, q: End)
    requires Inv(s) && e in s.cs.dead && Peer(e) in s.cs.dead && ListOf(s.cs.inbound, e) != []
    ensures QueueOk(DiscardNext(s, e), q)
  {
    var q0 := ListOf(s.cs.inbound, e);
    var s', m := DiscardNext(s, e), q0[0];
    assert QueueOk(s, e) && QueueOk(s, q) && m in q0;
    TailOf(q0);
    forall n | n in ListOf(s'.cs.inbound, q) ensures StageOf(s'.ms.stage, n) == Queued(q) && !Carries(s', n, q.pair) {
      CarriesSame(s, s', m, n, q.pair);
      assert !Carries(s, n, q.pair);
    }
    if q == e {
      assert ListOf(s.cs.taken, e) + ListOf(s.cs.lost, e) + q0
          == ListOf(s.cs.taken, e) + (ListOf(s.cs.lost, e) + [m]) + q0[1..];
    }
  }

  lemma DiscardKeeps(s: State, e: End)
    requires Inv(s) && e in s.cs.dead && Peer(e) in s.cs.dead && ListOf(s.cs.inbound, e) != []
    ensures Inv(DiscardNext(s, e))
  {
    var s', m := DiscardNext(s, e), ListOf(s.cs.inbound, e)[0];
    assert QueueOk(s, e) && m in ListOf(s.cs.inbound, e) && MessageOk(s, m);
    forall q ensures QueueOk(s', q) { DiscardQueue(s, e, q); }
    StillQueued(s, s', e, m);
    assert ThreadOk(s, 0);
    QueueTraffic(s, s', 0, m);
  }

  lemma DestroyKeeps(s: State, e: End)
    requires Inv(s) && e.pair in s.cs.made && Unreferenced(s, e)
    ensures Inv(s.(cs := s.cs.(dead := s.cs.dead + {e})))
  {
    var s' := s.(cs := s.cs.(dead := s.cs.dead + {e}));
    forall t: nat, id: HandleId ensures EntryOk(s', t, id) { assert EntryOk(s, t, id); }
    forall g: nat ensures PlaceOk(s', g) { assert PlaceOk(s, g); }
    forall id: HandleId ensures EscrowOk(s', id) { assert EscrowOk(s, id); }
    forall n: nat ensures MessageOk(s', n) { assert MessageOk(s, n); }
    forall u: nat ensures ThreadOk(s', u) { assert ThreadOk(s, u) && EndOf(PcOf(s.pc, u)) != Some(e); }
    forall q ensures QueueOk(s', q) { assert QueueOk(s, q); SameCargo(s, s', q); }
  }

  // ---------------------------------------------------------------- every step, every run

  lemma WriteKeeps(s: State, t: nat)
    requires Inv(s) && PcOf(s.pc, t).Writing?
    ensures Inv(Write(s, t))
  {
    var pc := PcOf(s.pc, t);
    var to := Peer(pc.end);
    if Carries(s, pc.msg, pc.end.pair) || to in s.cs.dead || |ListOf(s.cs.inbound, to)| == QUEUE_DEPTH {
      FailKeeps(s, t);
    }
    else {
      assert QueueOk(s, to);
      EnqueueKeeps(s, t);
    }
  }

  lemma AdvanceKeeps(s: State, t: nat, ok: bool, id: HandleId)
    requires Inv(s)
    ensures Inv(Advance(s, t, ok, id))
  {
    var pc := PcOf(s.pc, t);
    if pc.Staging? && pc.todo == [] { ReadyKeeps(s, t); }
    else if pc.Staging? { if LiveIn(s, pc.task, pc.todo[0]) { TookKeeps(s, t); } else { FailKeeps(s, t); } }
    else if pc.Moving? { if !ok { LostKeeps(s, t); } else if NewIn(s, KERNEL, id) { StowedKeeps(s, t, id); } }
    else if pc.Writing? { WriteKeeps(s, t); }
    else if pc.Unpacking? {
      if CargoOf(s.ms.cargo, pc.msg) == [] { SpentKeeps(s, t); }
      else {
        CargoIsLive(s, pc.msg);
        UnpackedKeeps(s, t);
      }
    }
    else if pc.Delivering? {
      if !ok { UndeliveredKeeps(s, t, id); } else if NewIn(s, pc.task, id) { DeliveredKeeps(s, t, id); }
    }
  }

  /** A handle in use names an endpoint that is there. */
  lemma ViaAlive(s: State, task: nat, via: HandleId, needed: set<nat>)
    requires Inv(s) && Holds(s, task, via, needed)
    ensures ViaEnd(s, task, via, needed) !in s.cs.dead && ViaEnd(s, task, via, needed).pair in s.cs.made
  {
    assert EntryOk(s, task, via);
  }

  lemma StepKeeps(s: State, a: Action)
    requires Inv(s)
    ensures Inv(Step(s, a))
  {
    match a
    case Mint(task, id, tag, cap) => if MayMint(s, task, id, tag, cap) { BornKeeps(s, task, id, Item(tag, cap)); }
    case NewPair(task, pair, id, id', tag, tag') =>
      if MayPair(s, task, pair, id, id', tag, tag') { PairKeeps(s, task, pair, id, id', tag, tag'); }
    case CloseHandle(task, id) => if task != KERNEL && LiveIn(s, task, id) { CloseKeeps(s, task, id); }
    case Send(t, task, via, m, todo) =>
      if PcOf(s.pc, t).Idle? && StageOf(s.ms.stage, m).Unused? && Holds(s, task, via, SendRights(todo)) {
        ViaAlive(s, task, via, SendRights(todo));
        SendKeeps(s, t, ViaEnd(s, task, via, SendRights(todo)), task, m, todo);
      }
    case Go(t, ok, id) => AdvanceKeeps(s, t, ok, id);
    case Receive(t, task, via, fits) =>
      if PcOf(s.pc, t).Idle? && Holds(s, task, via, {READ}) {
        ViaAlive(s, task, via, {READ});
        if ListOf(s.cs.inbound, ViaEnd(s, task, via, {READ})) != [] {
          ReadKeeps(s, t, task, ViaEnd(s, task, via, {READ}), fits);
        }
      }
    case Bury(m) => if StageOf(s.ms.stage, m).Dying? && CargoOf(s.ms.cargo, m) != [] { BuryKeeps(s, m); }
    case Destroy(e) => if e.pair in s.cs.made && Unreferenced(s, e) { DestroyKeeps(s, e); }
    case Discard(e) => if e in s.cs.dead && Peer(e) in s.cs.dead && ListOf(s.cs.inbound, e) != [] {
      DiscardKeeps(s, e);
    }
  }

  lemma InitialKeeps()
    ensures Inv(Initial())
  {
    var s := Initial();
    forall t: nat, id: HandleId ensures EntryOk(s, t, id) {}
    forall g: nat ensures PlaceOk(s, g) {}
    forall id: HandleId ensures EscrowOk(s, id) {}
    forall m: nat ensures MessageOk(s, m) {}
    forall t: nat ensures ThreadOk(s, t) {}
    forall e: End ensures QueueOk(s, e) {}
  }

  lemma {:induction false} RunsKeep(s: State, acts: seq<Action>)
    requires Inv(s)
    ensures Inv(Runs(s, acts))
  {
    if acts != [] {
      RunsKeep(s, acts[..|acts| - 1]);
      StepKeeps(Runs(s, acts[..|acts| - 1]), acts[|acts| - 1]);
    }
  }

  lemma RunKeeps(acts: seq<Action>)
    ensures Inv(Runs(Initial(), acts))
  {
    InitialKeeps();
    RunsKeep(Initial(), acts);
  }
}
