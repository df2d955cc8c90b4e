/** The user-space coordinator: it spawns the boot images, lets them claim names and brokers
    connections between them, parking a connect until its name appears. */
module Coordinator {

  import opened Basics

  datatype Registration = Registration(child: nat, name: string)

  /** A connect waiting for its name; request numbers the requests in order of arrival. */
  datatype Parked = Parked(child: nat, request: nat, name: string)

  /** What has become of a request: an answer was sent and arrived, was sent and did not, or was never
      due because the child is gone. */
  datatype Fate = Waiting | Answered(status: int) | Undelivered(status: int) | Dropped

  predicate Sent(f: Fate) { f.Answered? || f.Undelivered? }

  /** A child's end of its mailbox: open until it dies, with at most DEPTH messages queued. */
  datatype Box = Box(open: bool, queued: nat)

  predicate Takes(b: Box) { b.open && b.queued < DEPTH }

  /** A child in a slot; life tells it from the slot's earlier children. */
  datatype Who = Who(slot: nat, life: nat)

  /** An answer may carry an end of a new channel pair; a connection carries the other end. */
  datatype Mail = Answer(request: nat, status: int, end: Option<nat>) | Connection(name: string, pair: nat)

  datatype Post = Post(to: Who, mail: Mail)

  /** What the kernel does for one connect: whether it makes the pair, whether it finds the memory for the
      message to the server and for the answer, and whether a send that fails has taken its handle. */
  datatype Luck = Luck(minted: bool, server: bool, answer: bool, tookFirst: bool, tookSecond: bool)

  datatype Opcode = Register | Connect | Unknown

  const SLOTS: nat := 8
  const NAME_MAX: nat := 31
  const DEPTH: nat := 8

  const OK := 0
  const UNREACHABLE := -1
  const NO_CHANNEL := -4
  const TAKEN := -7
  const REFUSED := -10

  // ---------------------------------------------------------------- what every step keeps

  ghost predicate NamesOk(children: seq<Option<string>>, names: seq<Option<Registration>>) {
    && (forall i | 0 <= i < |names| && names[i].Some? ::
          names[i].value.child < |children| && children[names[i].value.child].Some? && names[i].value.name != [])
    && (forall i, j | 0 <= i < j < |names| && names[i].Some? && names[j].Some? ::
       names[i].value.name != names[j].value.name)
  }

  ghost predicate Registered(names: seq<Option<Registration>>, name: string) {
    exists i | 0 <= i < |names| :: names[i].Some? && names[i].value.name == name
  }

  ghost predicate ParkedOk(children: seq<Option<string>>, names: seq<Option<Registration>>, p: Parked) {
    p.child < |children| && children[p.child].Some? && !Registered(names, p.name)
  }

  /** A request waits exactly while it is parked, and it is parked once. */
  ghost predicate Ledger(fate: seq<Fate>, pending: seq<Option<Parked>>) {
    && (forall i | 0 <= i < |pending| && pending[i].Some? ::
       pending[i].value.request < |fate| && fate[pending[i].value.request].Waiting?)
    && (forall i, j | 0 <= i < j < |pending| && pending[i].Some? && pending[j].Some? ::
       pending[i].value.request != pending[j].value.request)
    && (forall r {:trigger IsParked(pending, r)} | 0 <= r < |fate| && fate[r].Waiting? :: IsParked(pending, r))
  }

  ghost predicate IsParked(pending: seq<Option<Parked>>, r: nat) {
    exists i | 0 <= i < |pending| :: pending[i].Some? && pending[i].value.request == r
  }

  function Live(children: seq<Option<string>>): nat {
    if children == [] then 0 else Live(children[..|children| - 1]) + (if children[|children| - 1].Some? then 1 else 0)
  }

  lemma {:induction false} LiveSet(children: seq<Option<string>>, i: nat, c: Option<string>)
    requires i < |children|
    ensures Live(children[i := c]) + (if children[i].Some? then 1 else 0) == Live(children) + (if c.Some? then 1 else 0)
  {
    var k := |children| - 1;
    if i == k { assert children[i := c][..k] == children[..k]; }
    else {
      assert children[i := c][..k] == children[..k][i := c];
      LiveSet(children[..k], i, c);
    }
  }

  /** Parked for no registered name, unless it is the one that has just appeared. */
  ghost predicate ParkedBut(children: seq<Option<string>>, names: seq<Option<Registration>>, p: Parked, name: string) {
    p.child < |children| && children[p.child].Some? && (Registered(names, p.name) ==> p.name == name)
  }

  lemma NewName(names: seq<Option<Registration>>, e: nat, g: Registration, name: string)
    requires e < |names| && names[e].None?
    ensures Registered(names[e := Some(g)], name) <==> Registered(names, name) || name == g.name
  {
    var now := names[e := Some(g)];
    if Registered(names, name) {
      var i :| 0 <= i < |names| && names[i].Some? && names[i].value.name == name;
      assert now[i].Some?;
    }
    if name == g.name { assert now[e].Some?; }
  }

  lemma FewerNames(was: seq<Option<Registration>>, now: seq<Option<Registration>>, name: string)
    requires |now| == |was| && forall j | 0 <= j < |now| && now[j].Some? :: now[j] == was[j]
    ensures Registered(now, name) ==> Registered(was, name)
  {
  }

  function Empty<T>(): (c: seq<Option<T>>)
    ensures |c| == SLOTS && forall i | 0 <= i < |c| :: c[i].None?
  {
    [None, None, None, None, None, None, None, None]
  }

  lemma {:induction false} NoneLive(c: seq<Option<string>>)
    requires forall i | 0 <= i < |c| :: c[i].None?
    ensures Live(c) == 0
  {
    if c != [] { NoneLive(c[..|c| - 1]); }
  }

  method FirstFree<T>(table: seq<Option<T>>) returns (i: nat)
    ensures i <= |table| && (i < |table| ==> table[i].None?) && forall j | 0 <= j < i :: table[j].Some?
  {
    i := 0;
    while i < |table|
      invariant i <= |table| && forall j | 0 <= j < i :: table[j].Some?
    {
      if table[i].None? { return; }
      i := i + 1;
    }
  }

  // ---------------------------------------------------------------- the ledger

  /** A new request, waiting and not parked, is all that stands between the books and their balance. */
  ghost predicate Owing(fate: seq<Fate>, pending: seq<Option<Parked>>, r: nat) {
    r < |fate| && fate[r].Waiting? && !IsParked(pending, r) && Ledger(fate[r := Dropped], pending)
  }

  lemma OweNew(fate: seq<Fate>, pending: seq<Option<Parked>>)
    requires Ledger(fate, pending)
    ensures Owing(fate + [Waiting], pending, |fate|)
  {
    var more, r := fate + [Waiting], |fate|;
    var paid := more[r := Dropped];
    forall q | 0 <= q < |paid| && paid[q].Waiting? ensures IsParked(pending, q) { assert fate[q].Waiting?; }
  }

  lemma OwePaid(fate: seq<Fate>, pending: seq<Option<Parked>>, r: nat, done: Fate)
    requires Owing(fate, pending, r) && !done.Waiting?
    ensures Ledger(fate[r := done], pending)
  {
    var before, after := fate[r := Dropped], fate[r := done];
    forall q | 0 <= q < |after| && after[q].Waiting? ensures IsParked(pending, q) { assert before[q].Waiting?; }
    forall i | 0 <= i < |pending| && pending[i].Some?
        ensures pending[i].value.request < |after| && after[pending[i].value.request].Waiting? {
      assert before[pending[i].value.request].Waiting?;
    }
  }

  lemma OweParked(fate: seq<Fate>, pending: seq<Option<Parked>>, r: nat, i: nat, p: Parked)
    requires Owing(fate, pending, r) && i < |pending| && pending[i].None? && p.request == r
    ensures Ledger(fate, pending[i := Some(p)])
  {
    var before, now := fate[r := Dropped], pending[i := Some(p)];
    forall q | 0 <= q < |fate| && fate[q].Waiting? ensures IsParked(now, q) {
      if q == r { assert now[i].Some? && now[i].value.request == q; }
      else {
        assert before[q].Waiting? && IsParked(pending, q);
        var k :| 0 <= k < |pending| && pending[k].Some? && pending[k].value.request == q;
        assert now[k].Some? && now[k].value.request == q;
      }
    }
    forall k | 0 <= k < |now| && now[k].Some?
        ensures now[k].value.request < |fate| && fate[now[k].value.request].Waiting? {
      if k != i { assert pending[k].value.request != r; }
    }
  }

  /** A parked request taken out is owed again. */
  lemma OweTaken(fate: seq<Fate>, pending: seq<Option<Parked>>, i: nat)
    requires Ledger(fate, pending) && i < |pending| && pending[i].Some?
    ensures Owing(fate, pending[i := None], pending[i].value.request)
  {
    var r, now := pending[i].value.request, pending[i := None];
    var after := fate[r := Dropped];
    forall q | 0 <= q < |after| && after[q].Waiting? ensures IsParked(now, q) {
      assert IsParked(pending, q);
      var k :| 0 <= k < |pending| && pending[k].Some? && pending[k].value.request == q;
      assert now[k].Some? && now[k].value.request == q;
    }
    assert forall k | 0 <= k < |now| && now[k].Some? :: now[k] == pending[k] && k != i;
  }

  // ---------------------------------------------------------------- what was delivered

  function Replies(log: seq<Post>, r: nat): nat {
    if log == [] then 0
    else
      var m := log[|log| - 1].mail;
      Replies(log[..|log| - 1], r) + (if m.Answer? && m.request == r then 1 else 0)
  }

  lemma RepliesMore(log: seq<Post>, post: Post, r: nat)
    ensures Replies(log + [post], r) == Replies(log, r) + (if post.mail.Answer? && post.mail.request == r then 1 else 0)
  {
    assert (log + [post])[..|log|] == log;
  }

  /** A request has one reply among what was delivered if it is answered and none if it is not, and every
      reply went to the child that asked. */
  ghost predicate Books(fate: seq<Fate>, asker: seq<Who>, log: seq<Post>) {
    && |asker| == |fate|
    && (forall r {:trigger Replies(log, r)} | 0 <= r < |fate| :: Replies(log, r) == if fate[r].Answered? then 1 else 0)
    && (forall k | 0 <= k < |log| && log[k].mail.Answer? ::
       log[k].mail.request < |asker| && log[k].to == asker[log[k].mail.request])
  }

  predicate IsReply(log: seq<Post>, k: nat, r: nat) { k < |log| && log[k].mail.Answer? && log[k].mail.request == r }

  lemma {:induction false} Counted(log: seq<Post>, k: nat, r: nat)
    requires IsReply(log, k, r)
    ensures Replies(log, r) >= 1
  {
    if k < |log| - 1 { Counted(log[..|log| - 1], k, r); }
  }

  lemma {:induction false} CountedTwice(log: seq<Post>, j: nat, k: nat, r: nat)
    requires j < k && IsReply(log, j, r) && IsReply(log, k, r)
    ensures Replies(log, r) >= 2
  {
    if k < |log| - 1 { CountedTwice(log[..|log| - 1], j, k, r); } else { Counted(log[..|log| - 1], j, r); }
  }

  lemma {:induction false} Found(log: seq<Post>, r: nat) returns (k: nat)
    requires Replies(log, r) > 0
    ensures IsReply(log, k, r)
  {
    k := |log| - 1;
    if !IsReply(log, k, r) { k := Found(log[..k], r); }
  }

  /** In every state the books allow, a request was answered exactly if one reply to it was delivered; there
      is never a second, and it went to the child that asked. */
  lemma OneReply(fate: seq<Fate>, asker: seq<Who>, log: seq<Post>, r: nat)
    requires Books(fate, asker, log) && r < |fate|
    ensures fate[r].Answered? <==> exists k: nat :: IsReply(log, k, r)
    ensures forall j: nat, k: nat | IsReply(log, j, r) && IsReply(log, k, r) :: j == k
    ensures forall k: nat | IsReply(log, k, r) :: log[k].to == asker[r]
  {
    assert Replies(log, r) == if fate[r].Answered? then 1 else 0;
    if fate[r].Answered? { var k := Found(log, r); }
    forall k: nat | IsReply(log, k, r) ensures fate[r].Answered? { Counted(log, k, r); }
    forall j: nat, k: nat | IsReply(log, j, r) && IsReply(log, k, r) ensures j == k {
      if j < k { CountedTwice(log, j, k, r); } else if k < j { CountedTwice(log, k, j, r); }
    }
  }

  lemma {:induction false} NoReplyYet(log: seq<Post>, r: nat)
    requires forall k | 0 <= k < |log| && log[k].mail.Answer? :: log[k].mail.request < r
    ensures Replies(log, r) == 0
  {
    if log != [] { NoReplyYet(log[..|log| - 1], r); }
  }

  lemma BooksNew(fate: seq<Fate>, asker: seq<Who>, log: seq<Post>, who: Who)
    requires Books(fate, asker, log)
    ensures Books(fate + [Waiting], asker + [who], log)
  {
    NoReplyYet(log, |fate|);
  }

  lemma BooksOther(fate: seq<Fate>, asker: seq<Who>, log: seq<Post>, post: Post)
    requires Books(fate, asker, log) && post.mail.Connection?
    ensures Books(fate, asker, log + [post])
  {
    forall q | 0 <= q < |fate| ensures Replies(log + [post], q) == if fate[q].Answered? then 1 else 0 {
      RepliesMore(log, post, q);
    }
  }

  lemma BooksReply(fate: seq<Fate>, asker: seq<Who>, log: seq<Post>, r: nat, status: int, pair: Option<nat>)
    requires Books(fate, asker, log) && r < |fate| && fate[r].Waiting?
    ensures Books(fate[r := Answered(status)], asker, log + [Post(asker[r], Answer(r, status, pair))])
  {
    var post := Post(asker[r], Answer(r, status, pair));
    forall q | 0 <= q < |fate|
        ensures Replies(log + [post], q) == if fate[r := Answered(status)][q].Answered? then 1 else 0 {
      RepliesMore(log, post, q);
    }
  }

  /** Sending only fills mailboxes. */
  ghost predicate Fuller(was: seq<Box>, now: seq<Box>) {
    |now| == |was| && forall i | 0 <= i < |was| :: now[i].open == was[i].open && was[i].queued <= now[i].queued
  }

  function Fill(boxes: seq<Box>, i: nat): seq<Box>
    requires i < |boxes|
  {
    boxes[i := boxes[i].(queued := boxes[i].queued + 1)]
  }

  /** The server's copy is on its way. */
  predicate Reached(boxes: seq<Box>, server: nat, l: Luck)
    requires server < |boxes|
  {
    l.minted && Takes(boxes[server]) && l.server
  }

  /** The answer to a connect arrives exactly when the requester's end is open and has room for it, and for
      the server's copy before it if the requester is itself the server. */
  predicate AnswerArrives(boxes: seq<Box>, requester: nat, server: nat, l: Luck)
    requires requester < |boxes| && server < |boxes|
  {
    Takes((if Reached(boxes, server, l) then Fill(boxes, server) else boxes)[requester]) && l.answer
  }

  /** The mailboxes after a connect has been served. */
  function AfterConnect(boxes: seq<Box>, requester: nat, server: nat, l: Luck): (r: seq<Box>)
    requires requester < |boxes| && server < |boxes|
    ensures |r| == |boxes|
  {
    var b := if Reached(boxes, server, l) then Fill(boxes, server) else boxes;
    if AnswerArrives(boxes, requester, server, l) then Fill(b, requester) else b
  }

  predicate WaitsFor(pending: seq<Option<Parked>>, name: string, i: nat) {
    i < |pending| && pending[i].Some? && pending[i].value.name == name
  }

  /** The mailboxes when it is the i-th slot's turn: those parked for the name before it have been served. */
  function BoxesAt(boxes: seq<Box>, pending: seq<Option<Parked>>, name: string, server: nat, luck: nat -> Luck, i: nat)
      : (r: seq<Box>)
    requires server < |boxes| && i <= |pending|
    ensures |r| == |boxes|
  {
    if i == 0 then boxes
    else
      var b := BoxesAt(boxes, pending, name, server, luck, i - 1);
      if WaitsFor(pending, name, i - 1) && pending[i - 1].value.child < |boxes|
      then AfterConnect(b, pending[i - 1].value.child, server, luck(pending[i - 1].value.request)) else b
  }

  /** A connect is sent one answer, with the status the mailboxes call for, which arrives exactly when the
      requester's mailbox takes it. */
  ghost predicate AnsweredAs(f: Fate, boxes: seq<Box>, requester: nat, server: nat, l: Luck)
    requires requester < |boxes| && server < |boxes|
  {
    Sent(f) && f.status == ConnectStatus(boxes, server, l) && (f.Answered? <==>
        AnswerArrives(boxes, requester, server, l))
  }

  /** What is parked for the name in the i-th slot has been served in its turn. */
  ghost predicate InTurn(fate: seq<Fate>, boxes: seq<Box>, pending: seq<Option<Parked>>, name: string, server: nat,
                         luck: nat -> Luck, i: nat)
    requires server < |boxes| && i < |pending|
  {
    WaitsFor(pending, name, i) ==>
      var p := pending[i].value;
      && p.child < |boxes| && p.request < |fate|
      && AnsweredAs(fate[p.request], BoxesAt(boxes, pending, name, server, luck, i), p.child, server, luck(p.request))
  }

  method NameEqual(a: string, b: string) returns (same: bool)
    ensures same <==> a == b
  {
    if |a| != |b| { return false; }
    var i := 0;
    while i < |a|
      invariant i <= |a| && a[..i] == b[..i]
    {
      if a[i] != b[i] { return false; }
      i := i + 1;
    }
    return true;
  }

  class Broker {
    /** Each child's name, by slot, and its end of the mailbox. */
    var children: seq<Option<string>>
    var boxes: seq<Box>
    var names: seq<Option<Registration>>
    var pending: seq<Option<Parked>>
    /** Handles the coordinator holds: a task and a mailbox for each child. */
    var held: nat
    var pairs: nat
    ghost var life: seq<nat>
    ghost var fate: seq<Fate>
    ghost var asker: seq<Who>
    ghost var log: seq<Post>

    ghost predicate Tables()
      reads this
    {
      && |children| == |boxes| == |names| == |pending| == |life| == SLOTS && NamesOk(children, names)
      && (forall i | 0 <= i < SLOTS && pending[i].Some? :: ParkedOk(children, names, pending[i].value))
    }

    /** A parked request is the request of the child now in the slot. */
    ghost predicate Mine(p: Parked)
      reads this
    {
      p.child < |life| && p.request < |asker| && asker[p.request] == Who(p.child, life[p.child])
    }

    ghost predicate Accounts()
      reads this
    {
      Books(fate, asker, log) && forall i | 0 <= i < |pending| && pending[i].Some? :: Mine(pending[i].value)
    }

    ghost predicate Valid()
      reads this
    {
      Tables() && Ledger(fate, pending) && Accounts() && held == 2 * Live(children)
    }

    constructor ()
      ensures Valid() && held == 0 && fate == [] && log == []
      ensures forall i | 0 <= i < SLOTS :: children[i].None? && names[i].None?
    {
      children, names, pending, held, pairs, fate, asker, log := Empty(), Empty(), Empty(), 0, 0, [], [], [];
      boxes := seq(SLOTS, _ => Box(false, 0));
      life := seq(SLOTS, _ => 0);
      NoneLive(Empty());
    }

    /** A send: it goes through exactly when the far end is open, has room, and there is memory. */
    method Deliver(slot: nat, mail: Mail, memory: bool) returns (ok: bool)
      requires slot < |boxes| == |life|
      modifies this`boxes, this`log
      ensures ok <==> Takes(old(boxes)[slot]) && memory
      ensures boxes == if ok then Fill(old(boxes), slot) else old(boxes)
      ensures log == if ok then old(log) + [Post(Who(slot, life[slot]), mail)] else old(log)
    {
      ok := Takes(boxes[slot]) && memory;
      if ok {
        boxes := Fill(boxes, slot);
        log := log + [Post(Who(slot, life[slot]), mail)];
      }
    }

    /** The one answer a waiting request is sent, and whether it arrived. */
    method Reply(slot: nat, request: nat, status: int, pair: Option<nat>, memory: bool) returns (ok: bool)
      requires slot < |boxes| == |life| && Books(fate, asker, log) && request < |fate| && fate[request].Waiting?
      requires asker[request] == Who(slot, life[slot])
      modifies this`boxes, this`log, this`fate
      ensures Books(fate, asker, log) && (ok <==> Takes(old(boxes)[slot]) && memory)
      ensures fate == old(fate)[request := if ok then Answered(status) else Undelivered(status)]
      ensures boxes == if ok then Fill(old(boxes), slot) else old(boxes)
      ensures log == if ok then old(log) + [Post(Who(slot, life[slot]), Answer(request, status, pair))] else old(log)
    {
      BooksReply(fate, asker, log, request, status, pair);
      ok := Deliver(slot, Answer(request, status, pair), memory);
      fate := fate[request := if ok then Answered(status) else Undelivered(status)];
    }

    /** Close a handle that a failed send may have taken already. */
    method Close(gone: bool)
      requires !gone ==> held > 0
      modifies this`held
      ensures held == old(held) - (if gone then 0 else 1)
    {
      if !gone { held := held - 1; }
    }

    /** The server's end of a new pair: delivered, or closed with the other end. */
    method Offer(server: nat, mail: Mail, l: Luck) returns (sent: bool)
      requires server < |boxes| == |life| && Books(fate, asker, log) && !mail.Answer? && held >= 2 && l.minted
      modifies this`boxes, this`held, this`log
      ensures sent <==> Reached(old(boxes), server, l)
      ensures held == old(held) - (if sent then 1 else 2) && Books(fate, asker, log)
      ensures boxes == if sent then Fill(old(boxes), server) else old(boxes)
      ensures log == if sent then old(log) + [Post(Who(server, life[server]), mail)] else old(log)
    {
      sent := Deliver(server, mail, l.server);
      if sent { BooksOther(fate, asker, old(log), Post(Who(server, life[server]), mail)); }
      if sent || l.tookFirst { held := held - 1; }
      if !sent {
        Close(l.tookFirst);
        Close(false);
      }
    }

    /** Mint a pair and deliver both ends: one to the server, one to the requester. The request is sent one
        answer, which arrives exactly when AnswerArrives; neither end stays behind whatever fails. */
    method ServeConnect(requester: nat, request: nat, name: string, server: nat, l: Luck)
      requires requester < |boxes| == |life| && server < |boxes| && Books(fate, asker, log) && request < |fate|
      requires fate[request].Waiting?
      requires asker[request] == Who(requester, life[requester])
      modifies this`boxes, this`held, this`pairs, this`log, this`fate
      ensures held == old(held) && Books(fate, asker, log) && Fuller(old(boxes), boxes) && old(log) <= log
      ensures |fate| == |old(fate)| && fate == old(fate)[request := fate[request]] && Sent(fate[request])
      ensures AnsweredAs(fate[request], old(boxes), requester, server, l)
      ensures boxes == AfterConnect(old(boxes), requester, server, l)
      ensures fate[request] == Answered(OK) ==>
        log == old(log) + [Post(Who(server, life[server]), Connection(name, old(pairs))),
                           Post(Who(requester, life[requester]), Answer(request, OK, Some(old(pairs))))]
    {
      if !l.minted {
        var told := Reply(requester, request, NO_CHANNEL, None, l.answer);
        return;
      }
      var pair := pairs;
      held, pairs := held + 2, pairs + 1;
      ghost var was := log;
      var sent := Offer(server, Connection(name, pair), l);
      if !sent {
        var told := Reply(requester, request, UNREACHABLE, None, l.answer);
        return;
      }
      sent := Reply(requester, request, OK, Some(pair), l.answer);
      if sent || l.tookSecond { held := held - 1; }
      if !sent { Close(l.tookSecond); }
      assert was + [Post(Who(server, life[server]), Connection(name, pair))]
          + [Post(Who(requester, life[requester]), Answer(request, OK, Some(pair)))]
          == was + [Post(Who(server, life[server]), Connection(name, pair)),
              Post(Who(requester, life[requester]), Answer(request, OK, Some(pair)))];
    }

    method FindName(name: string) returns (i: nat)
      requires |names| == SLOTS
      ensures i <= SLOTS && (i < SLOTS <==> Registered(names, name))
      ensures i < SLOTS ==> names[i].Some? && names[i].value.name == name
    {
      i := 0;
      while i < SLOTS
        invariant i <= SLOTS && forall j | 0 <= j < i && names[j].Some? :: names[j].value.name != name
      {
        if names[i].Some? {
          var same := NameEqual(names[i].value.name, name);
          if same { return; }
        }
        i := i + 1;
      }
    }

    /** A name has just appeared: every connect parked for it is served. */
    method ServePending(name: string, server: nat, luck: nat -> Luck)
      requires |children| == |boxes| == |names| == |pending| == |life| == SLOTS && NamesOk(children, names)
      requires Ledger(fate, pending)
      requires Accounts() && server < SLOTS
      requires forall i | 0 <= i < SLOTS && pending[i].Some? :: ParkedBut(children, names, pending[i].value, name)
      modifies this`boxes, this`pending, this`held, this`pairs, this`log, this`fate
      ensures Tables() && Ledger(fate, pending) && Accounts() && held == old(held) && Fuller(old(boxes), boxes)
      ensures old(log) <= log
      ensures forall i | 0 <= i < SLOTS :: pending[i] == if old(pending)[i].Some? && old(pending)[i].value.name == name
        then None else old(pending)[i]
      ensures Served(old(fate), fate) && boxes == BoxesAt(old(boxes), old(pending), name, server, luck, SLOTS)
      ensures forall i: nat | i < SLOTS :: InTurn(fate, old(boxes), old(pending), name, server, luck, i)
    {
      var i := 0;
      while i < SLOTS
        invariant i <= SLOTS && |boxes| == |pending| == SLOTS && Ledger(fate, pending) && Accounts()
        invariant held == old(held) && Fuller(old(boxes), boxes) && old(log) <= log && Served(old(fate), fate)
        invariant Round(fate, boxes, pending, old(boxes), old(pending), name, server, luck, i)
      {
        ghost var hadFate, hadBoxes, hadPending := fate, boxes, pending;
        var mine := false;
        if pending[i].Some? { mine := NameEqual(pending[i].value.name, name); }
        if mine { ServeParked(i, server, luck(pending[i].value.request)); }
        RoundOn(hadFate, hadBoxes, hadPending, fate, boxes, pending, old(boxes), old(pending), name, server, luck, i);
        i := i + 1;
      }
    }

    /** One parked connect leaves the table and is served. */
    method ServeParked(i: nat, server: nat, l: Luck)
      requires |children| == |boxes| == |names| == |pending| == |life| == SLOTS && Ledger(fate, pending) && Accounts()
      requires i < SLOTS && pending[i].Some? && server < SLOTS
      modifies this`boxes, this`pending, this`held, this`pairs, this`log, this`fate
      ensures pending == old(pending)[i := None] && Ledger(fate, pending) && Accounts() && held == old(held)
      ensures |boxes| == SLOTS && Fuller(old(boxes), boxes) && old(log) <= log && Served(old(fate), fate)
      ensures var p := old(pending)[i].value;
        && p.child < SLOTS && p.request < |fate| && fate == old(fate)[p.request := fate[p.request]]
        && AnsweredAs(fate[p.request], old(boxes), p.child, server, l)
        && boxes == AfterConnect(old(boxes), p.child, server, l)
    {
      var p := pending[i].value;
      assert Mine(p);
      OweTaken(fate, pending, i);
      pending := pending[i := None];
      ghost var was := fate;
      ServeConnect(p.child, p.request, p.name, server, l);
      OwePaid(was, pending, p.request, fate[p.request]);
    }

    /** REGISTER: the first to claim a name has it, and whoever was waiting for it is served. The claimant
        hears of it exactly when its mailbox takes the answer. */
    method RegisterName(slot: nat, name: string, r: nat, luck: nat -> Luck)
      requires Tables() && Accounts() && Owing(fate, pending, r) && slot < SLOTS && children[slot].Some?
      requires asker[r] == Who(slot, life[slot])
      modifies this`boxes, this`names, this`pending, this`held, this`pairs, this`log, this`fate
      ensures Tables() && Ledger(fate, pending) && Accounts() && held == old(held) && |fate| == |old(fate)|
      ensures Sent(fate[r])
      ensures fate[r].Answered? <==> Takes(old(boxes)[slot]) && luck(r).answer
      ensures fate[r].status == RegisterStatus(old(names), name)
      ensures fate[r].status != OK ==> names == old(names) && pending == old(pending)
      ensures fate[r].status != OK ==> boxes == if fate[r].Answered? then Fill(old(boxes), slot) else old(boxes)
      ensures fate[r].status == OK ==>
        && (exists e | 0 <= e < SLOTS ::
           old(names)[e].None? && names == old(names)[e := Some(Registration(slot, name))])
        && (forall i | 0 <= i < SLOTS && pending[i].Some? :: pending[i].value.name != name)
      ensures fate[r].status == OK ==>
        var told := if fate[r].Answered? then Fill(old(boxes), slot) else old(boxes);
        forall i: nat | i < SLOTS :: InTurn(fate, told, old(pending), name, slot, luck, i)
    {
      var i := FindName(name);
      if i < SLOTS {
        ghost var was := fate;
        var told := Reply(slot, r, TAKEN, None, luck(r).answer);
        OwePaid(was, pending, r, fate[r]);
        return;
      }
      var e := FirstFree(names);
      if e == SLOTS || name == [] {
        ghost var was := fate;
        var told := Reply(slot, r, REFUSED, None, luck(r).answer);
        OwePaid(was, pending, r, fate[r]);
        return;
      }
      Enter(e, slot, name, r, luck);
    }

    /** The name is entered, its claimant told, and those who waited for it served. */
    method Enter(e: nat, slot: nat, name: string, r: nat, luck: nat -> Luck)
      requires Tables() && Accounts() && Owing(fate, pending, r) && slot < SLOTS && children[slot].Some?
      requires asker[r] == Who(slot, life[slot])
      requires e < SLOTS && names[e].None? && !Registered(names, name) && name != []
      modifies this`boxes, this`names, this`pending, this`held, this`pairs, this`log, this`fate
      ensures Tables() && Ledger(fate, pending) && Accounts() && held == old(held) && |fate| == |old(fate)|
      ensures fate[r] == if Takes(old(boxes)[slot]) && luck(r).answer then Answered(OK) else Undelivered(OK)
      ensures names == old(names)[e := Some(Registration(slot, name))]
      ensures forall i | 0 <= i < SLOTS && pending[i].Some? :: pending[i].value.name != name
      ensures var told := if fate[r].Answered? then Fill(old(boxes), slot) else old(boxes);
        forall i: nat | i < SLOTS :: InTurn(fate, told, old(pending), name, slot, luck, i)
    {
      ghost var was, had := names, fate;
      names := names[e := Some(Registration(slot, name))];
      forall j | 0 <= j < SLOTS && pending[j].Some? ensures ParkedBut(children, names, pending[j].value, name) {
        NewName(was, e, Registration(slot, name), pending[j].value.name);
      }
      var told := Reply(slot, r, OK, None, luck(r).answer);
      OwePaid(had, pending, r, fate[r]);
      ServePending(name, slot, luck);
    }

    /** CONNECT: served at once if the name is there, parked if there is room, refused otherwise. It goes to
        the child registered under the name. */
    method ConnectTo(slot: nat, name: string, r: nat, luck: nat -> Luck) returns (ghost server: nat)
      requires Tables() && Accounts() && Owing(fate, pending, r) && slot < SLOTS && children[slot].Some?
      requires asker[r] == Who(slot, life[slot])
      modifies this`boxes, this`pending, this`held, this`pairs, this`log, this`fate
      ensures Tables() && Ledger(fate, pending) && Accounts() && held == old(held) && |fate| == |old(fate)|
      ensures Registered(names, name) ==> ServedAs(fate[r], names, old(boxes), slot, name, luck(r))
      ensures Registered(names, name) ==>
        && server < SLOTS && (exists i | 0 <= i < SLOTS :: names[i] == Some(Registration(server, name)))
        && (fate[r] == Answered(OK) ==>
              log == old(log) + [Post(Who(server, life[server]), Connection(name, old(pairs))),
                                 Post(Who(slot, life[slot]), Answer(r, OK, Some(old(pairs))))])
      ensures fate[r].Waiting? <==> !Registered(names, name) && exists i | 0 <= i < SLOTS :: old(pending)[i].None?
      ensures fate[r].Waiting? ==>
        exists i | 0 <= i < SLOTS :: old(pending)[i].None? && pending == old(pending)[i := Some(Parked(slot, r, name))]
      ensures !fate[r].Waiting? ==> Sent(fate[r]) && pending == old(pending)
      ensures !fate[r].Waiting? && !Registered(names, name) ==>
        fate[r].status == REFUSED && (fate[r].Answered? <==> Takes(old(boxes)[slot]) && luck(r).answer)
    {
      server := 0;
      ghost var was := fate;
      var i := FindName(name);
      if i < SLOTS {
        server := names[i].value.child;
        assert names[i] == Some(Registration(server, name));
        ServeConnect(slot, r, name, names[i].value.child, luck(r));
        OwePaid(was, pending, r, fate[r]);
        return;
      }
      var e := FirstFree(pending);
      if e < SLOTS {
        OweParked(fate, pending, r, e, Parked(slot, r, name));
        pending := pending[e := Some(Parked(slot, r, name))];
      } else {
        var told := Reply(slot, r, REFUSED, None, luck(r).answer);
        OwePaid(was, pending, r, fate[r]);
      }
    }

    /** A request arrives. */
    method Admit(slot: nat)
      requires Valid() && slot < SLOTS
      modifies this`fate, this`asker
      ensures Tables() && Accounts() && Owing(fate, pending, |old(fate)|) && |fate| == |old(fate)| + 1
      ensures asker == old(asker) + [Who(slot, life[slot])]
    {
      OweNew(fate, pending);
      BooksNew(fate, asker, log, Who(slot, life[slot]));
      fate, asker := fate + [Waiting], asker + [Who(slot, life[slot])];
    }

    /** One message from a child. A request is sent one answer or waits; anything else is ignored. */
    method HandleMessage(slot: nat, op: Opcode, name: string, r: nat, luck: nat -> Luck)
      requires Valid() && slot < SLOTS && children[slot].Some? && r == |fate|
      modifies this`boxes, this`names, this`pending, this`held, this`pairs, this`log, this`fate, this`asker
      ensures Valid() && held == old(held)
      ensures op.Unknown? ==> fate == old(fate) && names == old(names) && pending == old(pending) && log == old(log)
      ensures !op.Unknown? ==>
        |fate| == r + 1 && !fate[r].Dropped? && (op.Register? || |name| > NAME_MAX ==> Sent(fate[r]))
            && asker == old(asker) + [Who(slot, life[slot])]
      ensures op.Register? || (!op.Unknown? && |name| > NAME_MAX) ==>
        (fate[r].Answered? <==> Takes(old(boxes)[slot]) && luck(r).answer)
      ensures op.Connect? && |name| <= NAME_MAX && Registered(old(names), name) ==>
        ServedAs(fate[r], old(names), old(boxes), slot, name, luck(r))
      ensures op.Connect? && |name| <= NAME_MAX && !Registered(old(names), name) ==>
        if exists i | 0 <= i < SLOTS :: old(pending)[i].None? then fate[r].Waiting?
        else Sent(fate[r]) && fate[r].status == REFUSED
             && (fate[r].Answered? <==> Takes(old(boxes)[slot]) && luck(r).answer)
      ensures op.Register? && |name| <= NAME_MAX ==> fate[r].status == RegisterStatus(old(names), name)
      ensures op.Register? && fate[r].status != OK ==>
        names == old(names) && boxes == if fate[r].Answered? then Fill(old(boxes), slot) else old(boxes)
      ensures |name| > NAME_MAX && !op.Unknown? ==>
        fate[r].status == REFUSED && names == old(names) && pending == old(pending)
    {
      if op.Unknown? { return; }
      Admit(slot);
      if |name| > NAME_MAX {
        ghost var was := fate;
        var told := Reply(slot, r, REFUSED, None, luck(r).answer);
        OwePaid(was, pending, r, fate[r]);
      } else if op.Register? {
        RegisterName(slot, name, r, luck);
      } else {
        ghost var server := ConnectTo(slot, name, r, luck);
      }
    }

    /** A child is gone: its names and its parked connects go with it, and so do both handles. Nothing
        of it is left for the next child in its slot. */
    method ChildGone(slot: nat)
      requires Valid() && slot < SLOTS && children[slot].Some?
      modifies this`children, this`names, this`pending, this`held, this`fate
      ensures Valid() && children == old(children)[slot := None] && held == old(held) - 2
      ensures forall i | 0 <= i < SLOTS :: names[i] == if old(names)[i].Some? && old(names)[i].value.child == slot
        then None else old(names)[i]
      ensures forall i | 0 <= i < SLOTS :: pending[i] == if old(pending)[i].Some? && old(pending)[i].value.child == slot
        then None else old(pending)[i]
      ensures OnlyDropped(old(fate), fate)
    {
      ForgetNames(slot);
      ForgetParked(slot);
      LiveSet(children, slot, None);
      held := held - 2;
      children := children[slot := None];
    }

    method ForgetNames(slot: nat)
      requires Tables()
      modifies this`names
      ensures Tables()
      ensures forall i | 0 <= i < SLOTS :: names[i] == if old(names)[i].Some? && old(names)[i].value.child == slot
        then None else old(names)[i]
    {
      var i := 0;
      while i < SLOTS
        invariant i <= SLOTS && |names| == SLOTS && forall j | i <= j < SLOTS :: names[j] == old(names)[j]
        invariant forall j | 0 <= j < i :: names[j] == if old(names)[j].Some? && old(names)[j].value.child == slot
          then None else old(names)[j]
      {
        if names[i].Some? && names[i].value.child == slot { names := names[i := None]; }
        i := i + 1;
      }
      assert forall j | 0 <= j < SLOTS && names[j].Some? :: names[j] == old(names)[j];
      forall j | 0 <= j < SLOTS && pending[j].Some? ensures ParkedOk(children, names, pending[j].value) {
        FewerNames(old(names), names, pending[j].value.name);
      }
    }

    method ForgetParked(slot: nat)
      requires Tables() && Ledger(fate, pending) && Accounts()
      modifies this`pending, this`fate
      ensures Tables() && Ledger(fate, pending) && Accounts() && OnlyDropped(old(fate), fate)
      ensures forall i | 0 <= i < SLOTS :: pending[i] == if old(pending)[i].Some? && old(pending)[i].value.child == slot
        then None else old(pending)[i]
    {
      var i := 0;
      while i < SLOTS
        invariant i <= SLOTS && |pending| == SLOTS && Ledger(fate, pending)
        invariant forall j | i <= j < SLOTS :: pending[j] == old(pending)[j]
        invariant forall j | 0 <= j < i :: pending[j] == if old(pending)[j].Some? && old(pending)[j].value.child == slot
          then None else old(pending)[j]
        invariant OnlyDropped(old(fate), fate)
      {
        if pending[i].Some? && pending[i].value.child == slot {
          OweTaken(fate, pending, i);
          OwePaid(fate, pending[i := None], pending[i].value.request, Dropped);
          fate := fate[pending[i].value.request := Dropped];
          pending := pending[i := None];
        }
        i := i + 1;
      }
      DropBooks(old(fate), fate, asker, log);
    }

    /** A child moves into a free slot. */
    method Settle(i: nat, name: string)
      requires Valid() && i < SLOTS && children[i].None?
      modifies this`children, this`boxes, this`held, this`life
      ensures Valid() && children == old(children)[i := Some(name)] && boxes == old(boxes)[i := Box(true, 1)]
      ensures held == old(held) + 2
      ensures forall j | 0 <= j < SLOTS && names[j].Some? :: names[j].value.child != i
      ensures forall j | 0 <= j < SLOTS && pending[j].Some? :: pending[j].value.child != i
    {
      LiveSet(children, i, Some(name));
      held := held + 2;
      children := children[i := Some(name)];
      boxes, life := boxes[i := Box(true, 1)], life[i := life[i] + 1];
    }

    /** An image to spawn: a child in the first free slot, or nothing at all. The image's own handle is
        closed either way. The child's mailbox starts with the bootstrap message in it. */
    method HandleImage(name: string, spawned: bool, bound: bool) returns (slot: Option<nat>)
      requires Valid()
      modifies this`children, this`boxes, this`held, this`life
      ensures Valid() && (slot.None? ==> children == old(children) && held == old(held))
      ensures slot.None? <==>
        |name| > NAME_MAX || name == "init" || (forall i | 0 <= i < SLOTS :: old(children)[i].Some?) || !spawned
            || !bound
      ensures slot.Some? ==>
        && slot.value < SLOTS && old(children)[slot.value].None? && children == old(children)[slot.value := Some(name)]
        && (forall i | 0 <= i < slot.value :: old(children)[i].Some?)
                             && boxes[slot.value] == Box(true, 1)
                             && (forall i | 0 <= i < SLOTS && names[i].Some? :: names[i].value.child != slot.value)
                             && (forall i | 0 <= i < SLOTS && pending[i].Some? :: pending[i].value.child != slot.value)
    {
      if |name| > NAME_MAX { return None; }
      var own := NameEqual(name, "init");
      if own { return None; }
      var i := FirstFree(children);
      if i == SLOTS || !spawned { return None; }
      Settle(i, name);
      if !bound {
        LiveSet(children, i, None);
        held := held - 2;
        children := children[i := None];
        assert children == old(children);
        return None;
      }
      return Some(i);
    }

    /** A child takes a message off its end. */
    method ChildReads(slot: nat)
      requires Valid() && slot < SLOTS && boxes[slot].queued > 0
      modifies this`boxes
      ensures Valid() && boxes == old(boxes)[slot := old(boxes)[slot].(queued := old(boxes)[slot].queued - 1)]
    {
      boxes := boxes[slot := boxes[slot].(queued := boxes[slot].queued - 1)];
    }

    /** A child exits, crashes or is killed; the coordinator hears of it later. */
    method ChildCloses(slot: nat)
      requires Valid() && slot < SLOTS
      modifies this`boxes
      ensures Valid() && boxes == old(boxes)[slot := old(boxes)[slot].(open := false)]
    {
      boxes := boxes[slot := boxes[slot].(open := false)];
    }
  }

  /** What a connect to a registered name is told. */
  function ConnectStatus(boxes: seq<Box>, server: nat, l: Luck): int
    requires server < |boxes|
  {
    if !l.minted then NO_CHANNEL else if Reached(boxes, server, l) then OK else UNREACHABLE
  }

  /** The request went to the child that has the name: it is sent one answer, with that status, which arrives
      exactly when the requester's mailbox takes it. */
  ghost predicate ServedAs(f: Fate, names: seq<Option<Registration>>, boxes: seq<Box>, slot: nat, name: string, l: Luck)
    requires slot < |boxes|
  {
    exists i | 0 <= i < |names| ::
      && names[i].Some? && names[i].value.name == name && names[i].value.child < |boxes|
      && AnsweredAs(f, boxes, slot, names[i].value.child, l)
  }

  /** Those parked for the name before the i-th slot are gone and served, the rest is as it was. */
  ghost predicate Round(fate: seq<Fate>, boxes: seq<Box>, pending: seq<Option<Parked>>, boxes0: seq<Box>,
                        pending0: seq<Option<Parked>>, name: string, server: nat, luck: nat -> Luck, i: nat)
    requires server < |boxes0| && i <= |pending0|
  {
    && |pending| == |pending0| && boxes == BoxesAt(boxes0, pending0, name, server, luck, i)
    && (forall j: nat | i <= j < |pending| :: pending[j] == pending0[j])
    && (forall j: nat | j < i :: pending[j] == if WaitsFor(pending0, name, j) then None else pending0[j])
    && (forall j: nat | j < i :: InTurn(fate, boxes0, pending0, name, server, luck, j))
    && (forall j: nat, k: nat | j < k < |pending0| && pending0[j].Some? && pending0[k].Some? ::
       pending0[j].value.request != pending0[k].value.request)
  }

  /** One more slot: served if it waits for the name, passed over if not. */
  lemma RoundOn(fate: seq<Fate>, boxes: seq<Box>, pending: seq<Option<Parked>>, fate': seq<Fate>, boxes': seq<Box>,
                pending': seq<Option<Parked>>, boxes0: seq<Box>, pending0: seq<Option<Parked>>, name: string,
                server: nat, luck: nat -> Luck, i: nat)
    requires server < |boxes0| && i < |pending0| && Round(fate, boxes, pending, boxes0, pending0, name, server, luck, i)
    requires if !WaitsFor(pending, name, i) then fate' == fate && boxes' == boxes && pending' == pending
      else
        var p := pending[i].value;
        && pending' == pending[i := None] && p.child < |boxes| && p.request < |fate| == |fate'|
        && fate' == fate[p.request := fate'[p.request]]
        && AnsweredAs(fate'[p.request], boxes, p.child, server, luck(p.request))
        && boxes' == AfterConnect(boxes, p.child, server, luck(p.request))
    ensures Round(fate', boxes', pending', boxes0, pending0, name, server, luck, i + 1)
  {
    assert pending[i] == pending0[i];
    forall j: nat | j < i + 1 ensures InTurn(fate', boxes0, pending0, name, server, luck, j) {
      if j < i { assert InTurn(fate, boxes0, pending0, name, server, luck, j); }
    }
  }

  /** What a claim to a name is told. */
  ghost function RegisterStatus(names: seq<Option<Registration>>, name: string): int {
    if Registered(names, name) then TAKEN
    else if name == [] || (forall i | 0 <= i < |names| :: names[i].Some?) then REFUSED
    else OK
  }

  /** Requests that were waiting have been sent their answer, and no other has changed. */
  ghost predicate Served(was: seq<Fate>, now: seq<Fate>) {
    |now| == |was| && forall r | 0 <= r < |was| && now[r] != was[r] :: was[r].Waiting? && Sent(now[r])
  }

  ghost predicate OnlyDropped(was: seq<Fate>, now: seq<Fate>) {
    |now| == |was| && forall r | 0 <= r < |was| && now[r] != was[r] :: was[r].Waiting? && now[r].Dropped?
  }

  lemma DropBooks(was: seq<Fate>, now: seq<Fate>, asker: seq<Who>, log: seq<Post>)
    requires Books(was, asker, log) && OnlyDropped(was, now)
    ensures Books(now, asker, log)
  {
    forall r | 0 <= r < |now| ensures Replies(log, r) == if now[r].Answered? then 1 else 0 {
      assert Replies(log, r) == if was[r].Answered? then 1 else 0;
    }
  }

  /** A live child can be left without an answer: if it does not read, the bootstrap message and seven
      answers fill its mailbox, and the answer to its eighth request does not arrive. */
  method FullMailboxUnanswered() returns (b: Broker, slot: nat)
    ensures b.Valid() && slot < SLOTS && b.children[slot].Some? && b.boxes[slot].open && |b.fate| == 8
    ensures b.fate[7] == Undelivered(REFUSED)
  {
    b := new Broker();
    var child := b.HandleImage("a", true, true);
    slot := child.value;
    var n := 0;
    while n < 8
      invariant n <= 8 && fresh(b) && b.Valid() && |b.fate| == n && b.children[slot].Some? && slot < SLOTS
      invariant b.boxes[slot] == if n < 8 then Box(true, n + 1) else Box(true, 8)
      invariant n == 8 ==> b.fate[7] == Undelivered(REFUSED)
      invariant forall i | 0 <= i < SLOTS :: b.names[i].None?
    {
      assert !Registered(b.names, "");
      b.HandleMessage(slot, Register, "", n, _ => Luck(true, true, true, true, true));
      n := n + 1;
    }
  }
}
