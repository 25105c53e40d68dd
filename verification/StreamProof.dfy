/**
  What every run of a stream keeps, however its protocols behave: no byte is lost,
  made up or handed up twice, and the write buffer counts exactly what the peer has
  not been handed.
*/
module StreamProof {
  import opened Stream

  // ------------------------------------------------------------------
  // The invariant
  // ------------------------------------------------------------------

  /** No data follows the end of stream, only packet 0 is a handshake, and bytes know their places. */
  ghost predicate SentOk(sent: seq<Packet>, eofSent: bool) {
    && |sent| > 0 && sent[0] == Hand
    && (forall i :: 0 < i < |sent| ==> !sent[i].Hand?)
    && (forall i :: 0 <= i < |sent| && sent[i].Data? ==> sent[i].payload != [])
    && (forall i, j :: 0 <= i < j < |sent| && sent[i] == Fin ==> !sent[j].Data?)
    && (eofSent <==> Fin in sent)
    && InPlace(Written(sent))
  }

  ghost predicate InPlace(bytes: Bytes) {
    forall k :: 0 <= k < |bytes| ==> bytes[k].place == k
  }

  /** Every packet is in one place: on the wire, held by a cut, lost with a machine, early, or dispatched. */
  ghost predicate Placed(wire: set<nat>, held: set<nat>, lost: set<nat>, next: nat, early: map<nat, Packet>, sent: seq<Packet>) {
    && wire !! held && wire !! lost && held !! lost
    && (forall i :: i in early ==> next <= i < |sent| && early[i] == sent[i])
    && (forall i :: i in wire || i in held || i in lost ==> next <= i < |sent| && i !in early)
    && (forall i :: next <= i < |sent| ==> i in wire || i in held || i in lost || i in early)
  }

  /** The bytes of packets being fed that have not been handed up yet. */
  function Left(stack: seq<Frame>): Bytes {
    if stack == [] then []
    else
      var f := stack[|stack| - 1];
      Left(stack[..|stack| - 1]) + if f.Feeding? then f.left else []
  }

  /** Everything the reading end has been given: handed up, being fed, or waiting. */
  ghost function Given(rcv: Receiver, stack: seq<Frame>): multiset<Octet> {
    multiset(rcv.handed) + multiset(Left(stack)) + multiset(Joined(rcv.backlog))
  }

  /** An open end has been given exactly what was dispatched; once it is gone, no more. */
  ghost predicate Kept(rcv: Receiver, stack: seq<Frame>, sent: seq<Packet>)
    requires rcv.next <= |sent|
  {
    && Given(rcv, stack) <= multiset(Written(sent[..rcv.next]))
    && (rcv.status == Open ==> Given(rcv, stack) == multiset(Written(sent[..rcv.next])))
    && (rcv.status == Absent ==> rcv.next == 0 && rcv.handed == [] && rcv.backlog == [] && Left(stack) == [])
    && (forall i :: 0 <= i < |rcv.backlog| ==> rcv.backlog[i] != [])
  }

  ghost predicate FinOk(rcv: Receiver, sent: seq<Packet>)
    requires rcv.next <= |sent|
  {
    rcv.eofPending || rcv.eofSeen ==> Fin in sent[..rcv.next]
  }

  /** Whatever waits, waits because reading is paused or a drain is under way. */
  ghost predicate Waits(rcv: Receiver, stack: seq<Frame>) {
    rcv.status == Open && (rcv.backlog != [] || rcv.eofPending) ==> rcv.readPaused || Drain in stack
  }

  /** The reassembly loop is only ever the outermost call, and between calls it has nothing left to do. */
  ghost predicate StackOk(rcv: Receiver, stack: seq<Frame>) {
    && (forall i :: 0 < i < |stack| ==> stack[i] != Dispatch)
    && (stack == [] || stack[0] != Dispatch ==> rcv.next !in rcv.early)
    && (forall i :: 0 <= i < |stack| && stack[i].Feeding? ==> |stack[i].left| <= stack[i].n)
  }

  /** Bytes handed up by calls that have not returned, and so not paid for yet. */
  function Owed(stack: seq<Frame>): int {
    if stack == [] then 0
    else
      var f := stack[|stack| - 1];
      Owed(stack[..|stack| - 1]) + if f.Feeding? then f.n - |f.left| else 0
  }

  /** The buffer counts every byte written that has not been handed up and paid for. */
  ghost predicate Balanced(snd: Sender, rcv: Receiver, sent: seq<Packet>, stack: seq<Frame>) {
    && (!snd.closed ==> snd.buffer == |Written(sent)| - |rcv.handed| + Owed(stack) + rcv.stranded)
    && (rcv.status != Gone ==> rcv.stranded == 0)
  }

  ghost predicate Marked(snd: Sender, low: nat, high: nat) {
    && low <= high
    && (snd.buffer > high ==> snd.paused)
    && (snd.paused ==> snd.buffer > low)
  }

  /** Pause and resume alternate, a pause first. */
  ghost predicate Alternates(snd: Sender) {
    && (forall i :: 0 <= i < |snd.signals| ==> (snd.signals[i] <==> i % 2 == 0))
    && (!snd.closed ==> (snd.paused <==> |snd.signals| % 2 == 1))
    && (snd.closed ==> !snd.paused && snd.buffer == 0)
  }

  ghost predicate Inv(x: Stream) {
    && SentOk(x.sent, x.snd.eofSent)
    && x.rcv.next <= |x.sent|
    && Placed(x.wire, x.held, x.lost, x.rcv.next, x.rcv.early, x.sent)
    && Kept(x.rcv, x.stack, x.sent) && FinOk(x.rcv, x.sent)
    && Waits(x.rcv, x.stack) && StackOk(x.rcv, x.stack)
    && Balanced(x.snd, x.rcv, x.sent, x.stack)
    && Marked(x.snd, x.low, x.high) && Alternates(x.snd)
  }

  // ------------------------------------------------------------------
  // Sequences
  // ------------------------------------------------------------------

  lemma WrittenAppend(sent: seq<Packet>, p: Packet)
    ensures Written(sent + [p]) == Written(sent) + if p.Data? then p.payload else []
  {
    assert (sent + [p])[..|sent|] == sent;
  }

  lemma WrittenNone()
    ensures Written([]) == []
  {
  }

  lemma {:induction false} WrittenPrefix(sent: seq<Packet>, k: nat)
    requires k <= |sent|
    ensures Written(sent[..k]) <= Written(sent)
    ensures (forall i :: k <= i < |sent| ==> !sent[i].Data?) ==> Written(sent[..k]) == Written(sent)
    decreases |sent|
  {
    if k < |sent| {
      var front := sent[..|sent| - 1];
      WrittenPrefix(front, k);
      assert front[..k] == sent[..k];
    } else {
      assert sent[..k] == sent;
    }
  }

  lemma WrittenNext(sent: seq<Packet>, k: nat)
    requires k < |sent|
    ensures Written(sent[..k + 1]) == Written(sent[..k]) + if sent[k].Data? then sent[k].payload else []
  {
    assert sent[..k + 1] == sent[..k] + [sent[k]];
    WrittenAppend(sent[..k], sent[k]);
  }

  lemma {:induction false} JoinedAppend(chunks: seq<Bytes>, c: Bytes)
    ensures Joined(chunks + [c]) == Joined(chunks) + c
  {
    if chunks == [] {
      assert chunks + [c] == [c];
    } else {
      JoinedAppend(chunks[1..], c);
      assert (chunks + [c])[1..] == chunks[1..] + [c];
    }
  }

  lemma StackPush(stack: seq<Frame>, f: Frame)
    ensures Owed(Push(stack, f)) == Owed(stack) + if f.Feeding? then f.n - |f.left| else 0
    ensures Left(Push(stack, f)) == Left(stack) + if f.Feeding? then f.left else []
    ensures forall g :: g in Push(stack, f) <==> g in stack || g == f
  {
    assert (stack + [f])[..|stack|] == stack;
  }

  /** The stack as its top and what is under it. */
  lemma StackPop(stack: seq<Frame>)
    requires stack != []
    ensures var rest, f := stack[..|stack| - 1], stack[|stack| - 1];
      && stack == Push(rest, f)
      && Owed(stack) == Owed(rest) + (if f.Feeding? then f.n - |f.left| else 0)
      && Left(stack) == Left(rest) + (if f.Feeding? then f.left else [])
      && forall g :: g in stack <==> g in rest || g == f
  {
    StackPush(stack[..|stack| - 1], stack[|stack| - 1]);
  }

  lemma {:induction false} OwedIsNat(stack: seq<Frame>)
    requires forall i :: 0 <= i < |stack| && stack[i].Feeding? ==> |stack[i].left| <= stack[i].n
    ensures Owed(stack) >= 0
  {
    if stack != [] {
      OwedIsNat(stack[..|stack| - 1]);
    }
  }

  lemma SubBag(a: multiset<Octet>, b: multiset<Octet>)
    requires a <= b
    ensures |a| <= |b|
  {
    assert b == a + (b - a);
  }

  /** No more is handed up than was written. */
  lemma HandedFits(x: Stream)
    requires Inv(x)
    ensures |x.rcv.handed| <= |Written(x.sent)|
  {
    hide Left, Joined, Written, Placed, SentOk;
    SubBag(multiset(x.rcv.handed), multiset(Written(x.sent[..x.rcv.next])));
    WrittenPrefix(x.sent, x.rcv.next);
  }

  /** Nothing was handed up, fed or parked, and no data was dispatched. */
  lemma KeptStays(r: Receiver, stack: seq<Frame>, sent: seq<Packet>, q: Receiver, after: seq<Frame>)
    requires r.next <= |sent| && Kept(r, stack, sent) && q.next <= |sent|
    requires q.handed == r.handed && q.backlog == r.backlog && Left(after) == Left(stack)
    requires Written(sent[..q.next]) == Written(sent[..r.next])
    requires q.status == r.status || q.status == Gone
    requires q.status == Absent ==> q.next == r.next
    ensures Kept(q, after, sent)
  {
    hide Left, Joined, Written;
  }

  // ------------------------------------------------------------------
  // The writing end keeps the invariant
  // ------------------------------------------------------------------

  /** A packet joins the stream: nothing already dispatched is disturbed. */
  lemma TransmitKeeps(x: Stream, p: Packet, y: Stream)
    requires x.rcv.next <= |x.sent| && Placed(x.wire, x.held, x.lost, x.rcv.next, x.rcv.early, x.sent)
    requires y == Transmit(x, p)
    ensures y.rcv.next <= |y.sent| && Placed(y.wire, y.held, y.lost, y.rcv.next, y.rcv.early, y.sent)
    ensures y.sent[..y.rcv.next] == x.sent[..x.rcv.next]
  {
    assert y.sent[..y.rcv.next] == x.sent[..x.rcv.next];
  }

  lemma WriteKeeps(x: Stream, data: seq<bv8>)
    requires Inv(x)
    ensures Inv(Write(x, data))
  {
    hide Placed, Written, Left, Owed, Joined, Kept, SentOk, Waits, StackOk, Marked, Alternates;
    if !(x.snd.eofSent || x.snd.closing || x.snd.closed || data == []) {
      var p := Data(Numbered(data, |Written(x.sent)|));
      TransmitKeeps(x, p, Transmit(x, p));
      WrittenAppend(x.sent, p);
      WriteSent(x, data);
      ChargeKeeps(x.snd, x.low, x.high, |data|);
      CallbackWaits(x);
      KeptSent(x.rcv, x.stack, x.sent, x.sent + [p]);
      KeptSent(x.rcv, Push(x.stack, Callback), x.sent, x.sent + [p]);
    }
  }

  lemma WriteSent(x: Stream, data: seq<bv8>)
    requires Inv(x) && !x.snd.eofSent && data != []
    ensures SentOk(x.sent + [Data(Numbered(data, |Written(x.sent)|))], false)
  {
    hide Placed, Written, Kept, Balanced;
    WrittenAppend(x.sent, Data(Numbered(data, |Written(x.sent)|)));
    assert Fin !in x.sent;
  }

  /** What was dispatched is all that the reading end depends on. */
  lemma KeptSent(rcv: Receiver, stack: seq<Frame>, sent: seq<Packet>, more: seq<Packet>)
    requires rcv.next <= |sent| && Kept(rcv, stack, sent) && sent <= more
    ensures Kept(rcv, stack, more)
  {
    hide Written, Left, Joined;
    assert more[..rcv.next] == sent[..rcv.next];
  }

  /** A callback on top of the stack changes nothing that the reading end depends on. */
  lemma CallbackWaits(x: Stream)
    requires Inv(x)
    ensures var stack := Push(x.stack, Callback);
      && Waits(x.rcv, stack) && StackOk(x.rcv, stack) && Kept(x.rcv, stack, x.sent)
      && Owed(stack) == Owed(x.stack)
  {
    hide Placed, Written, Left, Owed, Joined, SentOk;
    StackPush(x.stack, Callback);
  }

  ghost function Charged(s: Sender, high: nat, n: nat): Sender {
    var t := s.(buffer := s.buffer + n);
    if t.buffer <= high || t.paused then t else t.(paused := true, signals := t.signals + [true])
  }

  lemma ChargeKeeps(s: Sender, low: nat, high: nat, n: nat)
    requires Marked(s, low, high) && Alternates(s) && !s.closed
    ensures Marked(Charged(s, high, n), low, high) && Alternates(Charged(s, high, n))
  {
  }

  /** A packet that carries no data changes nothing that is counted. */
  lemma SignalKeeps(x: Stream, s: Sender, p: Packet)
    requires Inv(x) && (p == Fin || p == Rst) && (p == Fin ==> !x.snd.eofSent)
    requires s == x.snd.(eofSent := x.snd.eofSent || p == Fin, closing := s.closing)
    ensures Inv(Transmit(x.(snd := s), p))
  {
    hide Placed, Written, Left, Owed, Joined, SentOk, Kept;
    TransmitKeeps(x, p, Transmit(x, p));
    WrittenAppend(x.sent, p);
    SignalSent(x.sent, x.snd.eofSent, p);
    KeptSent(x.rcv, x.stack, x.sent, x.sent + [p]);
  }

  lemma SignalSent(sent: seq<Packet>, eofSent: bool, p: Packet)
    requires SentOk(sent, eofSent) && (p == Fin || p == Rst) && (p == Fin ==> !eofSent)
    ensures SentOk(sent + [p], eofSent || p == Fin)
  {
    hide Written, InPlace;
    WrittenAppend(sent, p);
    assert Written(sent + [p]) == Written(sent);
    assert forall q :: q in sent + [p] <==> q in sent || q == p;
  }

  lemma FinishKeeps(x: Stream)
    requires Inv(x)
    ensures Inv(FinishSender(x))
  {
  }

  // ------------------------------------------------------------------
  // The reading end keeps the invariant
  // ------------------------------------------------------------------

  /** Moving the dispatch point over packet `next`. */
  lemma PassKeeps(x: Stream)
    requires Inv(x) && x.rcv.next in x.rcv.early
    ensures x.rcv.next < |x.sent| && x.rcv.early[x.rcv.next] == x.sent[x.rcv.next]
    ensures Placed(x.wire, x.held, x.lost, x.rcv.next + 1, x.rcv.early - {x.rcv.next}, x.sent)
    ensures forall p :: p in x.sent[..x.rcv.next] ==> p in x.sent[..x.rcv.next + 1]
    ensures x.sent[x.rcv.next] in x.sent[..x.rcv.next + 1]
  {
    hide Kept, FinOk, Waits, Balanced, Marked, Alternates, SentOk;
    assert x.sent[..x.rcv.next + 1] == x.sent[..x.rcv.next] + [x.sent[x.rcv.next]];
  }

  ghost predicate AtHead(x: Stream, p: Packet) {
    && Inv(x) && x.stack == [Dispatch] && x.rcv.next in x.rcv.early && x.rcv.early[x.rcv.next] == p
    && x.rcv.next < |x.sent| && x.sent[x.rcv.next] == p
    && Placed(x.wire, x.held, x.lost, x.rcv.next + 1, x.rcv.early - {x.rcv.next}, x.sent)
    && (forall q :: q in x.sent[..x.rcv.next] ==> q in x.sent[..x.rcv.next + 1]) && p in x.sent[..x.rcv.next + 1]
    && Written(x.sent[..x.rcv.next + 1]) == Written(x.sent[..x.rcv.next]) + if p.Data? then p.payload else []
  }

  lemma HeadIs(x: Stream)
    requires Inv(x) && x.stack != [] && x.stack[|x.stack| - 1] == Dispatch && x.rcv.next in x.rcv.early
    ensures AtHead(x, x.rcv.early[x.rcv.next])
  {
    hide Placed, Written, Marked, Alternates, Kept, Balanced;
    assert x.stack == [Dispatch];
    PassKeeps(x);
    WrittenNext(x.sent, x.rcv.next);
  }

  lemma DispatchKeeps(x: Stream)
    requires Inv(x) && x.stack != [] && x.stack[|x.stack| - 1] == Dispatch
    ensures Inv(DispatchOne(x))
  {
    hide Inv, AtHead;
    if x.rcv.next in x.rcv.early {
      HeadIs(x);
      match x.rcv.early[x.rcv.next]
      case Hand => DispatchHand(x);
      case Data(data) => DispatchData(x, data);
      case Fin => DispatchFin(x);
      case Rst => DispatchRst(x);
    } else {
      DispatchEnds(x);
    }
  }

  lemma DispatchEnds(x: Stream)
    requires Inv(x) && x.stack != [] && x.stack[|x.stack| - 1] == Dispatch && x.rcv.next !in x.rcv.early
    ensures Inv(DispatchOne(x))
  {
    hide Placed, Written, Marked, Alternates, SentOk, Joined, Left, Owed, Kept;
    assert x.stack == [Dispatch];
    StackPop(x.stack);
    KeptStays(x.rcv, x.stack, x.sent, x.rcv, []);
  }

  lemma DispatchHand(x: Stream)
    requires AtHead(x, Hand)
    ensures Inv(DispatchOne(x))
  {
    hide Written, Marked, Alternates, Placed, Joined, Left, Owed, Kept, SentOk;
    StackPush(x.stack, Callback);
    if x.rcv.status == Absent {
      AbsentWaits(x);
    }
    HandKept(x);
  }

  /** An end that does not exist yet has nothing waiting for it. */
  lemma AbsentWaits(x: Stream)
    requires Inv(x) && x.rcv.status == Absent
    ensures x.rcv.backlog == [] && !x.rcv.eofPending
  {
    hide Written, Joined, Left, Placed, Balanced;
    assert x.sent[..0] == [];
  }

  lemma HandKept(x: Stream)
    requires AtHead(x, Hand)
    ensures var y := DispatchOne(x); Kept(y.rcv, y.stack, x.sent)
  {
    hide Written, Marked, Alternates, Placed, Joined, Left, Owed, Balanced, Waits, FinOk;
    StackPush(x.stack, Callback);
    WrittenNone();
    assert x.sent[..0] == [];
    NothingJoined();
  }

  lemma NothingJoined()
    ensures Joined([]) == [] && Left([]) == [] && Owed([]) == 0
  {
  }

  lemma DispatchData(x: Stream, data: Bytes)
    requires AtHead(x, Data(data))
    ensures Inv(DispatchOne(x))
  {
    hide Written, Marked, Alternates, Placed, Joined, Left, Owed, Kept;
    StackPush(x.stack, Feeding([], |data|));
    StackPush(x.stack, Feeding(data, |data|));
    DataKept(x, data);
  }

  lemma DataKept(x: Stream, data: Bytes)
    requires AtHead(x, Data(data))
    ensures var y := DispatchOne(x); Kept(y.rcv, y.stack, x.sent)
  {
    hide Inv, AtHead, Kept;
    HeadKept(x, data);
    var r := x.rcv.(next := x.rcv.next + 1, early := x.rcv.early - {x.rcv.next});
    if r.status == Open {
      Parked(r, x.stack, data);
      MoreKept(x.rcv, x.stack, x.sent, data, r.(backlog := r.backlog + [data]), x.stack);
      MoreKept(x.rcv, x.stack, x.sent, data, r.(handed := r.handed + data), Push(x.stack, Feeding([], |data|)));
      MoreKept(x.rcv, x.stack, x.sent, data, r, Push(x.stack, Feeding(data, |data|)));
    } else {
      GoneKept(x.rcv, x.stack, x.sent, data, r);
    }
  }

  lemma HeadKept(x: Stream, data: Bytes)
    requires AtHead(x, Data(data))
    ensures x.rcv.next in x.rcv.early && x.rcv.early[x.rcv.next] == Data(data) && data != []
    ensures x.rcv.next < |x.sent| && x.rcv.status != Absent && Kept(x.rcv, x.stack, x.sent)
    ensures Written(x.sent[..x.rcv.next + 1]) == Written(x.sent[..x.rcv.next]) + data
  {
    hide Written, Marked, Alternates, Placed, Left, Owed, Joined, Balanced, Waits, StackOk, FinOk, Kept;
    HandFirst(x);
  }

  /** Parked, handed up or about to be fed, a packet is given to the end once. */
  lemma Parked(r: Receiver, stack: seq<Frame>, data: Bytes)
    ensures Given(r.(backlog := r.backlog + [data]), stack) == Given(r, stack) + multiset(data)
    ensures Given(r.(handed := r.handed + data), Push(stack, Feeding([], |data|))) == Given(r, stack) + multiset(data)
    ensures Given(r, Push(stack, Feeding(data, |data|))) == Given(r, stack) + multiset(data)
  {
    hide Left, Joined;
    JoinedAppend(r.backlog, data);
    StackPush(stack, Feeding([], |data|));
    StackPush(stack, Feeding(data, |data|));
  }

  lemma MoreKept(r: Receiver, stack: seq<Frame>, sent: seq<Packet>, data: Bytes, q: Receiver, after: seq<Frame>)
    requires r.next < |sent| && Kept(r, stack, sent) && r.status == q.status == Open && q.next == r.next + 1
    requires Written(sent[..r.next + 1]) == Written(sent[..r.next]) + data && data != []
    requires Given(q, after) == Given(r, stack) + multiset(data)
    requires q.backlog == r.backlog || q.backlog == r.backlog + [data]
    ensures Kept(q, after, sent)
  {
    hide Written, Given;
  }

  lemma GoneKept(r: Receiver, stack: seq<Frame>, sent: seq<Packet>, data: Bytes, q: Receiver)
    requires r.next < |sent| && Kept(r, stack, sent) && q.status == r.status == Gone && q.next == r.next + 1
    requires Written(sent[..r.next + 1]) == Written(sent[..r.next]) + data
    requires q.backlog == r.backlog && q.handed == r.handed
    ensures Kept(q, stack, sent)
  {
    hide Written, Left, Joined;
    assert Given(q, stack) == Given(r, stack);
  }

  lemma DispatchFin(x: Stream)
    requires AtHead(x, Fin)
    ensures Inv(DispatchOne(x))
  {
    hide Written, Marked, Alternates, Placed, Left, Owed, Joined, Kept;
    StackPush(x.stack, Callback);
    assert x.rcv.status != Absent by { HandFirst(x); }
    var y := DispatchOne(x);
    KeptStays(x.rcv, x.stack, x.sent, y.rcv, y.stack);
  }

  /** Until the handshake there is no end to speak of, and after it there is. */
  lemma HandFirst(x: Stream)
    requires Inv(x) && x.rcv.next < |x.sent| && !x.sent[x.rcv.next].Hand?
    ensures x.rcv.status != Absent
  {
    hide Written, Joined, Left;
  }

  lemma DispatchRst(x: Stream)
    requires AtHead(x, Rst)
    ensures Inv(DispatchOne(x))
  {
    hide Written, Marked, Alternates, Placed, Left, Owed, Joined, Kept;
    StackPush(x.stack, Callback);
    var y := DispatchOne(x);
    KeptStays(x.rcv, x.stack, x.sent, y.rcv, y.stack);
  }

  lemma DrainKeeps(x: Stream)
    requires Inv(x) && x.stack != [] && x.stack[|x.stack| - 1] == Drain
    ensures Inv(DrainOne(x))
  {
    var r := x.rcv;
    if r.backlog != [] && !r.readPaused && r.status == Open {
      DrainHands(x);
    } else {
      DrainEnds(x);
    }
  }

  lemma DrainHands(x: Stream)
    requires Inv(x) && x.stack != [] && x.stack[|x.stack| - 1] == Drain
    requires x.rcv.backlog != [] && !x.rcv.readPaused && x.rcv.status == Open
    ensures Inv(DrainOne(x))
  {
    hide Written, Marked, Alternates, Placed, Owed, Left, Kept;
    var chunk := x.rcv.backlog[0];
    StackPush(x.stack, Feeding([], |chunk|));
    StackPush(x.stack, Feeding(chunk, |chunk|));
    DrainKept(x);
  }

  lemma DrainKept(x: Stream)
    requires Inv(x) && x.stack != [] && x.rcv.backlog != [] && !x.rcv.readPaused && x.rcv.status == Open
    ensures var y := DrainOne(x); Kept(y.rcv, y.stack, x.sent)
  {
    hide Written, Marked, Alternates, Placed, Owed, Balanced, SentOk, Given, Joined;
    Unparked(x.rcv, x.stack);
  }

  /** A parked packet that is taken out is handed up or about to be fed, and nothing else changes. */
  lemma Unparked(r: Receiver, stack: seq<Frame>)
    requires r.backlog != []
    ensures var chunk, q := r.backlog[0], r.(backlog := r.backlog[1..]);
      && Given(q.(handed := r.handed + chunk), Push(stack, Feeding([], |chunk|))) == Given(r, stack)
      && Given(q, Push(stack, Feeding(chunk, |chunk|))) == Given(r, stack)
  {
    var chunk, rest := r.backlog[0], r.backlog[1..];
    assert Joined(r.backlog) == chunk + Joined(rest);
    hide Joined, Left;
    StackPush(stack, Feeding([], |chunk|));
    StackPush(stack, Feeding(chunk, |chunk|));
  }

  lemma DrainEnds(x: Stream)
    requires Inv(x) && x.stack != [] && x.stack[|x.stack| - 1] == Drain
    requires !(x.rcv.backlog != [] && !x.rcv.readPaused && x.rcv.status == Open)
    ensures Inv(DrainOne(x))
  {
    hide Inv;
    DrainOver(x, DrainOne(x));
  }

  /** The drain is over: what still waits is waiting for reading to be resumed. */
  lemma DrainOver(x: Stream, y: Stream)
    requires Inv(x) && x.stack != [] && x.stack[|x.stack| - 1] == Drain
    requires y == x.(rcv := y.rcv, stack := y.stack)
    requires y.stack == x.stack[..|x.stack| - 1] || y.stack == Push(x.stack[..|x.stack| - 1], Callback)
    requires y.rcv == x.rcv.(eofPending := y.rcv.eofPending, eofSeen := y.rcv.eofSeen)
    requires y.rcv.eofPending || y.rcv.eofSeen ==> x.rcv.eofPending || x.rcv.eofSeen
    requires y.rcv.status == Open && (y.rcv.backlog != [] || y.rcv.eofPending) ==> y.rcv.readPaused
    ensures Inv(y)
  {
    hide Written, Marked, Alternates, Placed, Owed, Left, Joined, SentOk, Kept, FinOk, Balanced, StackOk;
    var rest := x.stack[..|x.stack| - 1];
    StackPop(x.stack);
    StackPush(rest, Callback);
    KeptStays(x.rcv, x.stack, x.sent, y.rcv, y.stack);
    BalanceStays(x, y);
    DrainPops(x.rcv, x.stack, y.rcv, y.stack);
  }

  lemma DrainPops(r: Receiver, stack: seq<Frame>, q: Receiver, after: seq<Frame>)
    requires StackOk(r, stack) && stack != [] && stack[|stack| - 1] == Drain
    requires q.next == r.next && q.early == r.early
    requires after == stack[..|stack| - 1] || after == Push(stack[..|stack| - 1], Callback)
    ensures StackOk(q, after)
  {
  }

  lemma BalanceStays(x: Stream, y: Stream)
    requires x.rcv.next <= |x.sent| && Balanced(x.snd, x.rcv, x.sent, x.stack) && FinOk(x.rcv, x.sent)
    requires y.rcv.next == x.rcv.next && y.rcv.handed == x.rcv.handed && Owed(y.stack) == Owed(x.stack)
    requires y.rcv.stranded == x.rcv.stranded && y.rcv.status == x.rcv.status
    requires y.rcv.eofPending || y.rcv.eofSeen ==> x.rcv.eofPending || x.rcv.eofSeen
    ensures Balanced(x.snd, y.rcv, x.sent, y.stack) && FinOk(y.rcv, x.sent)
  {
    hide Written, Owed;
  }

  lemma FeedKeeps(x: Stream, take: nat)
    requires Inv(x) && x.stack != [] && x.stack[|x.stack| - 1].Feeding? && CanTake(x.stack[|x.stack| - 1], take)
    ensures Inv(FeedOne(x, take))
  {
    var f := x.stack[|x.stack| - 1];
    if f.left == [] {
      CreditKeeps(x, f.n);
    } else if x.rcv.status != Open {
      FeedFails(x);
    } else {
      FeedTakes(x, take);
    }
  }

  lemma FeedFails(x: Stream)
    requires Inv(x) && x.stack != [] && x.stack[|x.stack| - 1].Feeding? && x.rcv.status != Open
    requires x.stack[|x.stack| - 1].left != []
    ensures Inv(FeedOne(x, 1))
  {
    hide Written, Marked, Alternates, Placed, Owed, Left, Joined, SentOk;
    StackPop(x.stack);
  }

  lemma FeedTakes(x: Stream, take: nat)
    requires Inv(x) && x.stack != [] && x.stack[|x.stack| - 1].Feeding? && x.rcv.status == Open
    requires 0 < take <= |x.stack[|x.stack| - 1].left|
    ensures Inv(FeedOne(x, take))
  {
    hide Written, Marked, Alternates, Placed, Owed, Left, Joined, SentOk, Kept;
    StackPop(x.stack);
    var f, rest := x.stack[|x.stack| - 1], x.stack[..|x.stack| - 1];
    StackPush(rest, Feeding(f.left[take..], f.n));
    TakeKept(x, take);
  }

  lemma TakeKept(x: Stream, take: nat)
    requires Inv(x) && x.stack != [] && x.stack[|x.stack| - 1].Feeding? && x.rcv.status == Open
    requires 0 < take <= |x.stack[|x.stack| - 1].left|
    ensures var y := FeedOne(x, take); Kept(y.rcv, y.stack, x.sent)
  {
    hide Written, Marked, Alternates, Placed, Owed, Left, Joined, SentOk, Balanced, StackOk;
    StackPop(x.stack);
    var f, rest := x.stack[|x.stack| - 1], x.stack[..|x.stack| - 1];
    StackPush(rest, Feeding(f.left[take..], f.n));
    assert f.left == f.left[..take] + f.left[take..];
  }

  /** A credit is never clamped: what is owed was charged. */
  lemma CreditKeeps(x: Stream, n: nat)
    requires Inv(x) && x.stack != [] && x.stack[|x.stack| - 1] == Feeding([], n)
    ensures Inv(Credit(x.(stack := x.stack[..|x.stack| - 1]), n))
    ensures !x.snd.closed ==> x.snd.buffer >= n
  {
    hide Written, Placed, SentOk, Owed, Left, Joined, Marked, Alternates, Kept;
    var rest := x.stack[..|x.stack| - 1];
    StackPop(x.stack);
    StackPush(rest, Callback);
    OwedIsNat(rest);
    HandedFits(x);
    KeptStays(x.rcv, x.stack, x.sent, x.rcv, rest);
    KeptStays(x.rcv, x.stack, x.sent, x.rcv, Push(rest, Callback));
    if !x.snd.closed {
      CreditMarks(x.snd, x.low, x.high, n);
    }
  }

  ghost function Credited(s: Sender, low: nat, n: nat): Sender {
    var t := s.(buffer := if s.buffer >= n then s.buffer - n else 0);
    if !t.paused || t.buffer > low then t else t.(paused := false, signals := t.signals + [false])
  }

  lemma CreditMarks(s: Sender, low: nat, high: nat, n: nat)
    requires Marked(s, low, high) && Alternates(s) && !s.closed
    ensures Marked(Credited(s, low, n), low, high) && Alternates(Credited(s, low, n))
  {
  }

  lemma CallbackKeeps(x: Stream)
    requires Inv(x) && x.stack != [] && x.stack[|x.stack| - 1] == Callback
    ensures Inv(x.(stack := x.stack[..|x.stack| - 1]))
  {
    hide Written, Placed, SentOk, Left, Owed, Joined, Marked, Alternates;
    StackPop(x.stack);
  }

  lemma ResumeKeeps(x: Stream)
    requires Inv(x)
    ensures Inv(ResumeReading(x))
  {
    hide Written, Marked, Alternates, SentOk, Placed, Owed, Joined, Left;
    StackPush(x.stack, Drain);
  }

  lemma PauseKeeps(x: Stream)
    requires Inv(x)
    ensures Inv(PauseReading(x))
  {
    hide Written, Marked, Alternates, SentOk, Placed, Owed, Joined, Left, Kept;
    KeptStays(x.rcv, x.stack, x.sent, x.rcv.(readPaused := true), x.stack);
  }

  lemma GoneKeeps(x: Stream)
    requires Inv(x)
    ensures Inv(x.(rcv := x.rcv.(status := Gone)))
  {
    hide Written, Marked, Alternates, SentOk, Placed, Owed, Joined, Left, Kept;
    KeptStays(x.rcv, x.stack, x.sent, x.rcv.(status := Gone), x.stack);
  }

  lemma ProtocolKeeps(x: Stream, buffered: bool)
    requires Inv(x)
    ensures Inv(x.(rcv := x.rcv.(buffered := buffered)))
  {
    hide Written, Marked, Alternates, SentOk, Placed, Owed, Joined, Left, Kept;
    KeptStays(x.rcv, x.stack, x.sent, x.rcv.(buffered := buffered), x.stack);
  }

  lemma HealKeeps(x: Stream)
    requires Inv(x)
    ensures Inv(x.(cut := false, wire := x.wire + x.held, held := {}))
  {
    hide Written, Marked, Alternates, SentOk, Owed, Joined, Kept;
  }

  lemma ArriveKeeps(x: Stream, i: nat)
    requires Inv(x) && x.stack == [] && i in x.wire
    ensures Inv(Next(x, Arrive(i)))
  {
    hide Written, Marked, Alternates, SentOk, Owed, Joined, Left, Kept, Placed, FinOk, Balanced;
    StackPush([], Dispatch);
    assert Push([], Dispatch) == [Dispatch];
    NothingJoined();
    var y := Next(x, Arrive(i));
    ArrivePlaced(x, i);
    KeptStays(x.rcv, x.stack, x.sent, y.rcv, y.stack);
    BalanceStays(x, y);
  }

  /** A packet that arrives waits its turn, or is held back by a cut. */
  lemma ArrivePlaced(x: Stream, i: nat)
    requires x.rcv.next <= |x.sent| && i in x.wire
    requires Placed(x.wire, x.held, x.lost, x.rcv.next, x.rcv.early, x.sent)
    ensures i < |x.sent|
    ensures Placed(x.wire - {i}, x.held + {i}, x.lost, x.rcv.next, x.rcv.early, x.sent)
    ensures Placed(x.wire - {i}, x.held, x.lost, x.rcv.next, x.rcv.early[i := x.sent[i]], x.sent)
  {
  }

  lemma LoseKeeps(x: Stream, i: nat)
    requires Inv(x) && Enabled(x, Lose(i))
    ensures Inv(Next(x, Lose(i)))
  {
    hide Written, Marked, Alternates, SentOk, Owed, Joined, Kept;
  }

  // ------------------------------------------------------------------
  // Runs
  // ------------------------------------------------------------------

  lemma StepKeeps(x: Stream, s: Step)
    requires Inv(x) && Enabled(x, s)
    ensures Inv(Next(x, s))
  {
    hide Inv;
    match s
    case DoWrite(data) => WriteKeeps(x, data);
    case DoWriteEof => EofKeeps(x);
    case DoClose => EofKeeps(x);
    case DoAbort => EofKeeps(x);
    case DoFinishSender => FinishKeeps(x);
    case DoPause => PauseKeeps(x);
    case DoResume => ResumeKeeps(x);
    case DoFinishReceiver => GoneKeeps(x);
    case DoSetProtocol(buffered) => ProtocolKeeps(x, buffered);
    case Cut => CutKeeps(x);
    case Heal => HealKeeps(x);
    case Arrive(i) => ArriveKeeps(x, i);
    case Lose(i) => LoseKeeps(x, i);
    case Proceed(take) =>
      match x.stack[|x.stack| - 1]
      case Dispatch => DispatchKeeps(x);
      case Drain => DrainKeeps(x);
      case Feeding(_, _) => FeedKeeps(x, take);
      case Callback => CallbackKeeps(x);
  }

  lemma CutKeeps(x: Stream)
    requires Inv(x)
    ensures Inv(x.(cut := true))
  {
  }

  lemma EofKeeps(x: Stream)
    requires Inv(x)
    ensures Inv(WriteEof(x)) && Inv(Close(x)) && Inv(Abort(x))
  {
    hide Inv;
    if !x.snd.eofSent && !x.snd.closed {
      SignalKeeps(x, x.snd.(eofSent := true), Fin);
    }
    if !x.snd.closing && !x.snd.closed {
      if !x.snd.eofSent {
        SignalKeeps(x, x.snd.(eofSent := true, closing := true), Fin);
      } else {
        ClosingKeeps(x);
      }
    }
    if !x.snd.closed {
      SignalKeeps(x, x.snd.(closing := true), Rst);
    }
  }

  lemma ClosingKeeps(x: Stream)
    requires Inv(x)
    ensures Inv(x.(snd := x.snd.(closing := true)))
  {
  }

  lemma InitialInv(x: Stream)
    requires Initial(x)
    ensures Inv(x)
  {
    hide Left, Owed, Joined, Written, Kept, SentOk;
    NothingJoined();
    InitialKept(x);
    InitialSent(x);
  }

  lemma InitialSent(x: Stream)
    requires Initial(x)
    ensures SentOk(x.sent, x.snd.eofSent) && Written(x.sent) == []
  {
    WrittenAppend([], Hand);
    assert [] + [Hand] == [Hand];
  }

  lemma InitialKept(x: Stream)
    requires Initial(x)
    ensures Kept(x.rcv, x.stack, x.sent)
  {
    assert x.sent[..0] == [];
  }

  lemma {:induction false} RunKeeps(r: Run, k: nat)
    requires IsRun(r) && k < |r.states|
    ensures Inv(r.states[k])
  {
    hide Inv, Next, Enabled;
    if k == 0 {
      InitialInv(r.states[0]);
    } else {
      RunKeeps(r, k - 1);
      StepKeeps(r.states[k - 1], r.steps[k - 1]);
    }
  }

  /** No byte is handed up twice or made up, in any run and in any order. */
  lemma EachOnce(r: Run, k: nat)
    requires IsRun(r) && k < |r.states|
    ensures multiset(r.states[k].rcv.handed) <= multiset(Written(r.states[k].sent))
  {
    hide Left, Joined, Written, Placed, SentOk, Initial, Next, Enabled;
    RunKeeps(r, k);
    var x := r.states[k];
    WrittenPrefix(x.sent, x.rcv.next);
    PrefixBag(Written(x.sent[..x.rcv.next]), Written(x.sent));
    assert multiset(x.rcv.handed) <= Given(x.rcv, x.stack);
  }

  lemma PrefixBag(a: Bytes, b: Bytes)
    requires a <= b
    ensures multiset(a) <= multiset(b)
  {
    assert b == a + b[|a|..];
  }

  /** Nothing is stuck: with no packet on the wire, held or lost, and reading not paused, an open
      reader has been handed every byte, once. */
  lemma NothingLost(r: Run, k: nat)
    requires IsRun(r) && k < |r.states|
    requires var x := r.states[k];
      && x.stack == [] && x.wire == {} && x.held == {} && x.lost == {}
      && x.rcv.status == Open && !x.rcv.readPaused
    ensures multiset(r.states[k].rcv.handed) == multiset(Written(r.states[k].sent)) && !r.states[k].rcv.eofPending
    ensures r.states[k].rcv.next == |r.states[k].sent|
  {
    RunKeeps(r, k);
    var x := r.states[k];
    assert x.rcv.next == |x.sent|;
    assert x.sent[..x.rcv.next] == x.sent;
    assert Left(x.stack) == [] && Joined(x.rcv.backlog) == [];
  }

  /** At every step boundary of an open writer, the write buffer is what was written less what the
      peer's protocol has been handed, but for what a peer that went away mid-packet never paid for. */
  lemma FlowConserved(r: Run, k: nat)
    requires IsRun(r) && k < |r.states| && r.states[k].stack == [] && !r.states[k].snd.closed
    ensures r.states[k].snd.buffer == |Written(r.states[k].sent)| - |r.states[k].rcv.handed| + r.states[k].rcv.stranded
    ensures r.states[k].rcv.status != Gone ==> r.states[k].rcv.stranded == 0
  {
    RunKeeps(r, k);
  }

  /** Over the high mark means paused, paused means over the low mark, and the callbacks alternate. */
  lemma WatermarksHold(r: Run, k: nat)
    requires IsRun(r) && k < |r.states|
    ensures r.states[k].snd.buffer > r.states[0].high ==> r.states[k].snd.paused
    ensures r.states[k].snd.paused ==> r.states[k].snd.buffer > r.states[0].low
    ensures forall i :: 0 <= i < |r.states[k].snd.signals| ==> (r.states[k].snd.signals[i] <==> i % 2 == 0)
    ensures !r.states[k].snd.closed ==> (r.states[k].snd.paused <==> |r.states[k].snd.signals| % 2 == 1)
  {
    RunKeeps(r, k);
    LimitsFixed(r, k);
  }

  /** The marks stay where they were set. */
  lemma {:induction false} LimitsFixed(r: Run, k: nat)
    requires IsRun(r) && k < |r.states|
    ensures r.states[k].low == r.states[0].low && r.states[k].high == r.states[0].high
  {
    hide Next, Initial;
    if k > 0 {
      LimitsFixed(r, k - 1);
      StepLimits(r.states[k - 1], r.steps[k - 1]);
    }
  }

  lemma StepLimits(x: Stream, s: Step)
    requires Enabled(x, s)
    ensures Next(x, s).low == x.low && Next(x, s).high == x.high
  {
    hide Written, Joined, Numbered, DispatchOne, DrainOne, FeedOne;
    if s.Proceed? {
      ReturnLimits(x, s.take);
    }
  }

  lemma ReturnLimits(x: Stream, take: nat)
    requires x.stack != []
    ensures DispatchOne(x).low == x.low == DrainOne(x).low && DispatchOne(x).high == x.high == DrainOne(x).high
    ensures x.stack[|x.stack| - 1].Feeding? && CanTake(x.stack[|x.stack| - 1], take) ==>
      FeedOne(x, take).low == x.low && FeedOne(x, take).high == x.high
  {
  }

  /** What was handed up is never taken back. */
  lemma {:induction false} HandedGrows(r: Run, i: nat, k: nat)
    requires IsRun(r) && i <= k < |r.states|
    ensures r.states[i].rcv.handed <= r.states[k].rcv.handed
  {
    hide Next, Initial;
    if i < k {
      HandedGrows(r, i, k - 1);
      StepGrows(r.states[k - 1], r.steps[k - 1]);
    }
  }

  lemma StepGrows(x: Stream, s: Step)
    requires Enabled(x, s)
    ensures x.rcv.handed <= Next(x, s).rcv.handed
  {
    hide Written, Joined, WriteEof, Close, Abort, Write, Return;
    SenderActs(x, s);
    if s.Proceed? {
      ReturnGrows(x, s.take);
    }
  }

  lemma ReturnGrows(x: Stream, take: nat)
    requires x.stack != [] && CanTake(x.stack[|x.stack| - 1], take)
    ensures x.rcv.handed <= Return(x, take).rcv.handed
  {
    hide Credit, DispatchOne, DrainOne;
    DispatchHands(x);
    DrainHandsUp(x);
    if x.stack[|x.stack| - 1].Feeding? {
      CreditHands(x.(stack := x.stack[..|x.stack| - 1]), x.stack[|x.stack| - 1].n);
    }
  }

  lemma DispatchHands(x: Stream)
    requires x.stack != []
    ensures x.rcv.handed <= DispatchOne(x).rcv.handed
  {
    hide DataArrives, EofArrives, ResetArrives;
    ArrivalHands(x.(rcv := x.rcv.(next := x.rcv.next + 1, early := x.rcv.early - {x.rcv.next})));
  }

  lemma ArrivalHands(y: Stream)
    ensures forall data :: y.rcv.handed <= DataArrives(y, data).rcv.handed
    ensures EofArrives(y).rcv.handed == ResetArrives(y).rcv.handed == y.rcv.handed
  {
  }

  lemma DrainHandsUp(x: Stream)
    requires x.stack != []
    ensures x.rcv.handed <= DrainOne(x).rcv.handed
  {
  }

  lemma SenderActs(x: Stream, s: Step)
    requires Enabled(x, s)
    ensures s.DoWrite? || s.DoWriteEof? || s.DoClose? || s.DoAbort? ==> Next(x, s).rcv == x.rcv
  {
    hide Written, Numbered;
  }

  lemma CreditHands(x: Stream, n: nat)
    ensures Credit(x, n).rcv == x.rcv
  {
  }

  /** Pairs the limits rule accepts are exactly the ordered, non-negative ones it derives. */
  lemma LimitsLegal(high: int, low: int, highGiven: bool, lowGiven: bool)
    ensures var (l, h) := Limits(high, low, highGiven, lowGiven);
      LegalLimits(l, h) <==>
        if lowGiven then low >= 0 && (!highGiven || high >= low) else !highGiven || high >= 0
    ensures var (l, h) := Limits(high, low, highGiven, lowGiven);
      && (lowGiven ==> l == low) && (highGiven ==> h == high)
      && (lowGiven && !highGiven ==> h == 4 * l)
      && (!lowGiven ==> 4 * l <= h < 4 * (l + 1))
      && (!lowGiven && !highGiven ==> h == 65536)
  {
  }

  /** A writer is told to pause only with more in its buffer than the high mark, and to resume only with no
      more than the low one; and a step tells it one thing at most. */
  lemma SignalsDue(x: Stream, s: Step)
    requires Enabled(x, s)
    ensures var a, b := x.snd.signals, Next(x, s).snd.signals;
      || b == a
      || (b == a + [true] && !x.snd.paused && Next(x, s).snd.paused && Next(x, s).snd.buffer > x.high)
      || (b == a + [false] && x.snd.paused && !Next(x, s).snd.paused && Next(x, s).snd.buffer <= x.low)
  {
    hide Written, Numbered, Return;
    if s.Proceed? {
      ReturnSignals(x, s.take);
    }
  }

  lemma ReturnSignals(x: Stream, take: nat)
    requires x.stack != [] && CanTake(x.stack[|x.stack| - 1], take)
    ensures var a, b := x.snd.signals, Return(x, take).snd.signals;
      || b == a
      || (b == a + [false] && x.snd.paused && !Return(x, take).snd.paused && Return(x, take).snd.buffer <= x.low)
  {
    hide DispatchOne, DrainOne;
    ReadingKeepsSender(x);
  }

  lemma ReadingKeepsSender(x: Stream)
    requires x.stack != []
    ensures DispatchOne(x).snd == x.snd == DrainOne(x).snd
  {
  }
}
