/**
  When a stream is delivered in order.  A protocol that is fed piece by piece and
  resumes reading in the middle of a packet starts the drain of what is parked
  behind that packet before the rest of it: bytes overtake each other, or the end of
  stream overtakes bytes.  That is the only way order is lost.
*/
module StreamOrder {
  import opened Stream
  import opened StreamProof

  // ------------------------------------------------------------------
  // The condition
  // ------------------------------------------------------------------

  /** A resume with a packet half fed has nothing parked behind it to let loose. */
  predicate Orderly(x: Stream, s: Step) {
    s.DoResume? && x.rcv.status == Open && x.rcv.readPaused ==>
      Left(x.stack) == [] || (x.rcv.backlog == [] && !x.rcv.eofPending)
  }

  ghost predicate IsOrderlyRun(r: Run) {
    IsRun(r) && forall i :: 0 <= i < |r.steps| ==> Orderly(r.states[i], r.steps[i])
  }

  // ------------------------------------------------------------------
  // The invariant
  // ------------------------------------------------------------------

  ghost predicate PartFed(f: Frame) {
    f.Feeding? && f.left != []
  }

  /** What was dispatched is what was handed up, then what is being fed, then what waits. */
  ghost predicate Sequenced(rcv: Receiver, stack: seq<Frame>, sent: seq<Packet>)
    requires rcv.next <= |sent|
  {
    && rcv.handed <= Written(sent[..rcv.next])
    && (rcv.status == Open ==> Written(sent[..rcv.next]) == rcv.handed + Left(stack) + Joined(rcv.backlog))
  }

  /** At most one packet is half fed, and no drain above it has anything to do. */
  ghost predicate NoOvertaking(rcv: Receiver, stack: seq<Frame>) {
    && (forall i, j :: 0 <= i < j < |stack| && PartFed(stack[i]) ==> !PartFed(stack[j]))
    && (forall i, j :: 0 <= i < j < |stack| && PartFed(stack[i]) && stack[j] == Drain ==>
         rcv.backlog == [] && !rcv.eofPending)
  }

  ghost predicate InOrder(x: Stream)
    requires x.rcv.next <= |x.sent|
  {
    && Sequenced(x.rcv, x.stack, x.sent)
    && NoOvertaking(x.rcv, x.stack)
    && (x.rcv.eofSeen ==> x.rcv.handed == Written(x.sent))
  }

  /** What a reader is promised. */
  ghost predicate Sound(x: Stream) {
    x.rcv.handed <= Written(x.sent) && (x.rcv.eofSeen ==> x.rcv.handed == Written(x.sent))
  }

  lemma OrderIsSound(x: Stream)
    requires Inv(x) && InOrder(x)
    ensures Sound(x)
  {
    WrittenPrefix(x.sent, x.rcv.next);
  }

  // ------------------------------------------------------------------
  // Every orderly step keeps order
  // ------------------------------------------------------------------

  lemma {:induction false} NothingLeft(stack: seq<Frame>)
    requires forall i :: 0 <= i < |stack| ==> !PartFed(stack[i])
    ensures Left(stack) == []
  {
    if stack != [] {
      NothingLeft(stack[..|stack| - 1]);
    }
  }

  /** With the end of stream dispatched, everything written has been. */
  lemma FinIsAll(x: Stream)
    requires Inv(x) && Fin in x.sent[..x.rcv.next]
    ensures Written(x.sent[..x.rcv.next]) == Written(x.sent)
  {
    hide Written, Kept, Balanced, Placed;
    var i :| 0 <= i < x.rcv.next && x.sent[..x.rcv.next][i] == Fin;
    assert x.sent[i] == Fin;
    WrittenPrefix(x.sent, x.rcv.next);
  }

  /** On a stack with no packet half fed, one more frame overtakes nothing and is all that is left. */
  lemma ClearPush(rcv: Receiver, stack: seq<Frame>, f: Frame)
    requires forall i :: 0 <= i < |stack| ==> !PartFed(stack[i])
    ensures NoOvertaking(rcv, Push(stack, f)) && Left(Push(stack, f)) == if f.Feeding? then f.left else []
  {
    NothingLeft(stack);
    StackPush(stack, f);
  }

  lemma SequencedAs(q: Receiver, stack: seq<Frame>, sent: seq<Packet>, h: Bytes, l: Bytes, j: Bytes)
    requires q.next <= |sent| && q.handed == h && Left(stack) == l && Joined(q.backlog) == j
    requires Written(sent[..q.next]) == h + l + j
    ensures Sequenced(q, stack, sent)
  {
    hide Written, Left, Joined;
  }

  lemma TakeSplit(w: Bytes, h: Bytes, left: Bytes, rest: Bytes, take: nat)
    requires take <= |left| && w == h + left + rest
    ensures w == (h + left[..take]) + left[take..] + rest && h + left[..take] <= w
  {
    assert left == left[..take] + left[take..];
  }

  /** Sending another packet leaves what was dispatched alone. */
  lemma SendOrder(x: Stream, y: Stream, p: Packet)
    requires Inv(x) && InOrder(x) && y.rcv == x.rcv && y.sent == x.sent + [p]
    requires y.stack == x.stack || y.stack == Push(x.stack, Callback)
    requires p.Data? ==> !x.snd.eofSent
    ensures y.rcv.next <= |y.sent| && InOrder(y)
  {
    hide Written, Left, Joined, Kept, Balanced, Placed;
    assert y.sent[..y.rcv.next] == x.sent[..x.rcv.next];
    WrittenAppend(x.sent, p);
    StackPush(x.stack, Callback);
  }

  lemma WriteOrder(x: Stream, data: seq<bv8>)
    requires Inv(x) && InOrder(x)
    ensures var y := Write(x, data); y.rcv.next <= |y.sent| && InOrder(y)
  {
    hide Written, Inv, InOrder;
    BoundOf(x);
    if !(x.snd.eofSent || x.snd.closing || x.snd.closed || data == []) {
      SendOrder(x, Write(x, data), Data(Numbered(data, |Written(x.sent)|)));
    }
  }

  lemma SignalOrder(x: Stream)
    requires Inv(x) && InOrder(x)
    ensures var y := WriteEof(x); y.rcv.next <= |y.sent| && InOrder(y)
    ensures var y := Close(x); y.rcv.next <= |y.sent| && InOrder(y)
    ensures var y := Abort(x); y.rcv.next <= |y.sent| && InOrder(y)
  {
    hide Written, Kept, Balanced, Placed, Left, Joined, SentOk;
    if WriteEof(x) != x {
      SendOrder(x, WriteEof(x), Fin);
    }
    if Close(x).sent != x.sent {
      SendOrder(x, Close(x), Fin);
    }
    if Abort(x) != x {
      SendOrder(x, Abort(x), Rst);
    }
  }

  /** The reading end's standing may change as long as nothing moves. */
  lemma StillOrder(x: Stream, y: Stream)
    requires Inv(x) && InOrder(x) && y.sent == x.sent && Left(y.stack) == Left(x.stack)
    requires y.rcv.next == x.rcv.next <= |y.sent| && y.rcv.handed == x.rcv.handed && y.rcv.backlog == x.rcv.backlog
    requires y.rcv.eofPending == x.rcv.eofPending && y.rcv.eofSeen == x.rcv.eofSeen
    requires y.rcv.status == x.rcv.status || y.rcv.status == Gone
    requires NoOvertaking(y.rcv, y.stack)
    ensures InOrder(y)
  {
    hide Written, Left, Joined;
  }

  lemma PopOrder(x: Stream, y: Stream)
    requires Inv(x) && InOrder(x) && x.stack != [] && y.sent == x.sent && y.rcv == x.rcv
    requires !PartFed(x.stack[|x.stack| - 1])
    requires y.rcv.next <= |y.sent| && (y.stack == x.stack[..|x.stack| - 1] || y.stack == Push(x.stack[..|x.stack| - 1], Callback))
    ensures InOrder(y)
  {
    hide Written, Left, Joined, Kept, Balanced, Placed, SentOk;
    StackPop(x.stack);
    StackPush(x.stack[..|x.stack| - 1], Callback);
    StillOrder(x, y);
  }

  lemma ResumeOrder(x: Stream)
    requires Inv(x) && InOrder(x) && Orderly(x, DoResume)
    ensures InOrder(ResumeReading(x))
  {
    hide Inv, Written, Joined, Left, Sequenced, NoOvertaking;
    BoundOf(x);
    var y := ResumeReading(x);
    if y != x {
      StackPush(x.stack, Drain);
      ResumeClear(x.rcv, x.stack);
      OvertakingSame(x.rcv, y.rcv, y.stack);
      StillOrder(x, y);
    }
  }

  /** A drain on top lets nothing loose, by the condition on resuming. */
  lemma ResumeClear(rcv: Receiver, stack: seq<Frame>)
    requires NoOvertaking(rcv, stack) && (Left(stack) == [] || (rcv.backlog == [] && !rcv.eofPending))
    ensures NoOvertaking(rcv, Push(stack, Drain))
  {
    hide Left;
    if Left(stack) == [] {
      forall i | 0 <= i < |stack| ensures !PartFed(stack[i]) {
        LeftShows(stack, i);
      }
      hide PartFed, NoOvertaking;
      ClearPush(rcv, stack, Drain);
    }
  }

  lemma OvertakingSame(r: Receiver, q: Receiver, stack: seq<Frame>)
    requires NoOvertaking(r, stack) && q.backlog == r.backlog && q.eofPending == r.eofPending
    ensures NoOvertaking(q, stack)
  {
  }

  lemma LeftShows(stack: seq<Frame>, i: nat)
    requires i < |stack| && Left(stack) == []
    ensures !PartFed(stack[i])
  {
    hide Left;
    if PartFed(stack[i]) {
      LeftHas(stack, i);
    }
  }

  lemma {:induction false} LeftHas(stack: seq<Frame>, i: nat)
    requires i < |stack| && PartFed(stack[i])
    ensures Left(stack) != []
  {
    if i < |stack| - 1 {
      LeftHas(stack[..|stack| - 1], i);
    }
  }

  lemma DispatchOrder(x: Stream, y: Stream)
    requires Inv(x) && InOrder(x) && x.stack != [] && x.stack[|x.stack| - 1] == Dispatch
    requires y == DispatchOne(x) && y.rcv.next <= |y.sent|
    ensures InOrder(y)
  {
    hide Inv, InOrder, AtHead;
    if x.rcv.next in x.rcv.early {
      HeadIs(x);
      match x.rcv.early[x.rcv.next]
      case Hand => HandOrder(x, y);
      case Data(data) => DataOrder(x, data, y);
      case Fin => FinOrder(x, y);
      case Rst => RstOrder(x, y);
    } else {
      EndOrder(x, y);
    }
  }

  lemma EndOrder(x: Stream, y: Stream)
    requires Inv(x) && InOrder(x) && x.stack != [] && x.stack[|x.stack| - 1] == Dispatch && x.rcv.next !in x.rcv.early
    requires y == DispatchOne(x) && y.rcv.next <= |y.sent|
    ensures InOrder(y)
  {
    hide Written, Left, Joined, Kept, Balanced, Placed, SentOk;
    PopOrder(x, y);
  }

  lemma HandOrder(x: Stream, y: Stream)
    requires AtHead(x, Hand) && InOrder(x)
    requires y == DispatchOne(x) && y.rcv.next <= |y.sent|
    ensures InOrder(y)
  {
    hide Written, Left, Joined, Balanced, Placed;
    StackPush(x.stack, Callback);
    WrittenNone();
    NothingJoined();
    assert x.sent[..0] == [];
  }

  lemma DataOrder(x: Stream, data: Bytes, y: Stream)
    requires AtHead(x, Data(data)) && InOrder(x)
    requires y == DispatchOne(x) && y.rcv.next <= |y.sent|
    ensures InOrder(y)
  {
    hide Written, Left, Joined, Kept, Balanced, Placed, SentOk, Sequenced;
    NoEofYet(x);
    ClearPush(y.rcv, x.stack, Feeding([], |data|));
    ClearPush(y.rcv, x.stack, Feeding(data, |data|));
    DataSequenced(x, data, y);
  }

  lemma DataSequenced(x: Stream, data: Bytes, y: Stream)
    requires AtHead(x, Data(data)) && InOrder(x)
    requires y == DispatchOne(x) && y.rcv.next <= |x.sent|
    ensures Sequenced(y.rcv, y.stack, x.sent)
  {
    HeadFacts(x, Data(data));
    if x.rcv.status != Open {
      GoneSequenced(x, data, y);
    } else {
      OpenSequenced(x, data, y);
    }
  }

  /** What an open end with data at the head of its queue has to go on. */
  lemma HeadFacts(x: Stream, p: Packet)
    requires AtHead(x, p) && !p.Hand?
    ensures x.rcv.status != Absent && Left(x.stack) == []
    ensures x.rcv.status == Open && !x.rcv.readPaused ==> x.rcv.backlog == []
  {
    hide Written, Left, Joined, Kept, Balanced, Placed;
    HandFirst(x);
    OnlyDispatch(x.stack);
  }

  lemma OpenSequenced(x: Stream, data: Bytes, y: Stream)
    requires x.stack == [Dispatch] && x.rcv.next < |x.sent| && x.sent[x.rcv.next] == Data(data)
    requires x.rcv.next in x.rcv.early && x.rcv.early[x.rcv.next] == Data(data)
    requires Sequenced(x.rcv, x.stack, x.sent) && x.rcv.status == Open && Left(x.stack) == []
    requires !x.rcv.readPaused ==> x.rcv.backlog == []
    requires Written(x.sent[..x.rcv.next + 1]) == Written(x.sent[..x.rcv.next]) + data
    requires y == DispatchOne(x) && y.rcv.next <= |x.sent|
    ensures Sequenced(y.rcv, y.stack, x.sent)
  {
    var w, h, j := Written(x.sent[..x.rcv.next]), x.rcv.handed, Joined(x.rcv.backlog);
    NothingJoined();
    hide Written, Left, Joined;
    if x.rcv.readPaused {
      JoinedAppend(x.rcv.backlog, data);
      AppendRight(w, h, [], j, data);
      SequencedAs(y.rcv, y.stack, x.sent, h, [], j + data);
    } else {
      HandedAll(w, h, data);
      ClearPush(y.rcv, x.stack, Feeding(if x.rcv.buffered then data else [], |data|));
      if x.rcv.buffered {
        SequencedAs(y.rcv, y.stack, x.sent, h, data, []);
      } else {
        SequencedAs(y.rcv, y.stack, x.sent, h + data, [], []);
      }
    }
  }

  lemma GoneSequenced(x: Stream, data: Bytes, y: Stream)
    requires AtHead(x, Data(data)) && InOrder(x) && x.rcv.status == Gone
    requires y == DispatchOne(x) && y.rcv.next <= |x.sent|
    ensures Sequenced(y.rcv, y.stack, x.sent)
  {
    hide Written, Left, Joined, Kept, Balanced, Placed, SentOk;
  }

  lemma AppendRight(w: Bytes, h: Bytes, l: Bytes, j: Bytes, data: Bytes)
    requires w == h + l + j
    ensures w + data == h + l + (j + data)
  {
  }

  lemma HandedAll(w: Bytes, h: Bytes, data: Bytes)
    requires w == h + [] + []
    ensures w + data == h + data + [] && w + data == (h + data) + [] + []
  {
  }

  lemma OnlyDispatch(stack: seq<Frame>)
    requires stack == [Dispatch]
    ensures Left(stack) == []
  {
    NothingLeft(stack);
  }

  /** Data at the head means the end has not been dispatched. */
  lemma NoEofYet(x: Stream)
    requires Inv(x) && x.rcv.next < |x.sent| && x.sent[x.rcv.next].Data?
    ensures !x.rcv.eofSeen && !x.rcv.eofPending
  {
    hide Written, Kept, Balanced, Placed;
    assert forall i :: 0 <= i < x.rcv.next ==> x.sent[..x.rcv.next][i] == x.sent[i];
  }

  lemma FinOrder(x: Stream, y: Stream)
    requires AtHead(x, Fin) && InOrder(x)
    requires y == DispatchOne(x) && y.rcv.next <= |y.sent|
    ensures InOrder(y)
  {
    hide Inv, Written, Left, Joined, Placed, NoOvertaking;
    HeadFacts(x, Fin);
    FinHead(x);
    NothingJoined();
    StackPush(x.stack, Callback);
    ClearPush(y.rcv, x.stack, Callback);
    ClearPush(y.rcv, [], Dispatch);
    assert Push([], Dispatch) == [Dispatch];
    if x.rcv.status == Open {
      FinSequenced(x, y);
    }
  }

  lemma FinSequenced(x: Stream, y: Stream)
    requires x.rcv.next < |x.sent| && Sequenced(x.rcv, x.stack, x.sent) && x.rcv.status == Open && Left(x.stack) == []
    requires x.stack == [Dispatch] && x.rcv.next in x.rcv.early && x.rcv.early[x.rcv.next] == Fin
    requires Left(Push(x.stack, Callback)) == []
    requires Written(x.sent[..x.rcv.next + 1]) == Written(x.sent[..x.rcv.next]) == Written(x.sent)
    requires !x.rcv.readPaused ==> x.rcv.backlog == [] && Joined(x.rcv.backlog) == []
    requires y == DispatchOne(x) && y.rcv.next <= |x.sent|
    ensures Sequenced(y.rcv, y.stack, x.sent) && (y.rcv.eofSeen && !x.rcv.eofSeen ==> y.rcv.handed == Written(x.sent))
  {
    hide Written, Left, Joined;
    SequencedAs(y.rcv, y.stack, x.sent, x.rcv.handed, [], Joined(x.rcv.backlog));
  }

  lemma FinHead(x: Stream)
    requires AtHead(x, Fin)
    ensures Written(x.sent[..x.rcv.next]) == Written(x.sent)
  {
    hide Written, Kept, Balanced, Placed;
    WrittenPrefix(x.sent, x.rcv.next);
  }

  lemma RstOrder(x: Stream, y: Stream)
    requires AtHead(x, Rst) && InOrder(x)
    requires y == DispatchOne(x) && y.rcv.next <= |y.sent|
    ensures InOrder(y)
  {
    hide Written, Left, Joined, Balanced, Placed, Kept;
    StackPush(x.stack, Callback);
  }

  lemma DrainOrder(x: Stream, y: Stream)
    requires Inv(x) && InOrder(x) && x.stack != [] && x.stack[|x.stack| - 1] == Drain
    requires y == DrainOne(x) && y.rcv.next <= |y.sent|
    ensures InOrder(y)
  {
    hide Inv, InOrder;
    var r := x.rcv;
    if r.backlog != [] && !r.readPaused && r.status == Open {
      DrainTakes(x, y);
    } else if r.eofPending && !r.readPaused && r.status == Open {
      DrainEof(x, y);
    } else {
      DrainRests(x, y);
    }
  }

  /** With something for it to do, a drain on top has no packet half fed under it. */
  lemma DrainClear(x: Stream)
    requires Inv(x) && InOrder(x) && x.stack != [] && x.stack[|x.stack| - 1] == Drain
    requires x.rcv.backlog != [] || x.rcv.eofPending
    ensures Left(x.stack) == [] && forall i :: 0 <= i < |x.stack| ==> !PartFed(x.stack[i])
  {
    hide Written, Left, Joined, Kept, Balanced, Placed, SentOk;
    NothingLeft(x.stack);
  }

  lemma DrainTakes(x: Stream, y: Stream)
    requires Inv(x) && InOrder(x) && x.stack != [] && x.stack[|x.stack| - 1] == Drain
    requires x.rcv.backlog != [] && !x.rcv.readPaused && x.rcv.status == Open
    requires y == DrainOne(x) && y.rcv.next <= |y.sent|
    ensures InOrder(y)
  {
    hide Written, Left, Joined, Inv, NoOvertaking, PartFed;
    DrainClear(x);
    BoundOf(x);
    var w, h := Written(x.sent[..x.rcv.next]), x.rcv.handed;
    var chunk, j := x.rcv.backlog[0], Joined(x.rcv.backlog[1..]);
    JoinedFirst(x.rcv.backlog);
    ClearPush(y.rcv, x.stack, Feeding([], |chunk|));
    ClearPush(y.rcv, x.stack, Feeding(chunk, |chunk|));
    WrittenPrefix(x.sent, x.rcv.next);
    DrainSplit(w, h, chunk, j);
    if x.rcv.buffered {
      SequencedAs(y.rcv, y.stack, x.sent, h, chunk, j);
    } else {
      SequencedAs(y.rcv, y.stack, x.sent, h + chunk, [], j);
    }
    EofStays(x, y);
  }

  lemma JoinedFirst(chunks: seq<Bytes>)
    requires chunks != []
    ensures Joined(chunks) == chunks[0] + Joined(chunks[1..])
  {
  }

  lemma DrainSplit(w: Bytes, h: Bytes, chunk: Bytes, j: Bytes)
    requires w == h + [] + (chunk + j)
    ensures w == h + chunk + j && w == (h + chunk) + [] + j
  {
  }

  /** Once all was handed up there is no more to hand. */
  lemma EofStays(x: Stream, y: Stream)
    requires x.rcv.next <= |x.sent| && y.sent == x.sent && y.rcv.next == x.rcv.next
    requires x.rcv.eofSeen ==> x.rcv.handed == Written(x.sent)
    requires x.rcv.handed <= y.rcv.handed <= Written(x.sent[..x.rcv.next]) <= Written(x.sent)
    requires y.rcv.eofSeen == x.rcv.eofSeen
    ensures y.rcv.eofSeen ==> y.rcv.handed == Written(y.sent)
  {
    hide Written;
  }

  lemma DrainEof(x: Stream, y: Stream)
    requires Inv(x) && InOrder(x) && x.stack != [] && x.stack[|x.stack| - 1] == Drain
    requires x.rcv.backlog == [] && x.rcv.eofPending && !x.rcv.readPaused && x.rcv.status == Open
    requires y == DrainOne(x) && y.rcv.next <= |y.sent|
    ensures InOrder(y)
  {
    hide Written, Left, Joined, Kept, Balanced, Placed, SentOk;
    DrainClear(x);
    FinIsAll(x);
    StackPop(x.stack);
    StackPush(x.stack[..|x.stack| - 1], Callback);
    NothingJoined();
  }

  lemma DrainRests(x: Stream, y: Stream)
    requires Inv(x) && InOrder(x) && x.stack != [] && x.stack[|x.stack| - 1] == Drain
    requires !(x.rcv.backlog != [] && !x.rcv.readPaused && x.rcv.status == Open)
    requires !(x.rcv.eofPending && !x.rcv.readPaused && x.rcv.status == Open)
    requires y == DrainOne(x) && y.rcv.next <= |y.sent|
    ensures InOrder(y)
  {
    hide Inv, InOrder;
    PopOrder(x, y);
  }

  lemma FeedOrder(x: Stream, take: nat, y: Stream)
    requires Inv(x) && InOrder(x) && x.stack != [] && x.stack[|x.stack| - 1].Feeding?
    requires CanTake(x.stack[|x.stack| - 1], take)
    requires y == FeedOne(x, take) && y.rcv.next <= |y.sent|
    ensures InOrder(y)
  {
    hide Inv, InOrder, Credit;
    BoundOf(x);
    var f := x.stack[|x.stack| - 1];
    if f.left == [] {
      FeedPaid(x, f.n, y);
    } else if x.rcv.status != Open {
      StillGone(x, y);
    } else {
      TakeOrder(x, take, y);
    }
  }

  lemma FeedPaid(x: Stream, n: nat, y: Stream)
    requires Inv(x) && InOrder(x) && x.stack != [] && x.stack[|x.stack| - 1] == Feeding([], n)
    requires y == Credit(x.(stack := x.stack[..|x.stack| - 1]), n) && y.rcv.next <= |y.sent|
    ensures InOrder(y)
  {
    hide Inv, InOrder;
    PopOrder(x, y);
  }

  lemma StillGone(x: Stream, y: Stream)
    requires Inv(x) && InOrder(x) && x.rcv.status != Open && x.stack != []
    requires y.rcv.next <= |y.sent| && y.sent == x.sent && y.rcv == x.rcv.(stranded := y.rcv.stranded) && y.stack == x.stack[..|x.stack| - 1]
    ensures InOrder(y)
  {
    hide Written, Left, Joined, Kept, Balanced, Placed, SentOk;
  }

  /** A packet half fed on top is all that is left. */
  lemma TopOnly(x: Stream)
    requires Inv(x) && InOrder(x) && x.stack != [] && PartFed(x.stack[|x.stack| - 1])
    ensures forall i :: 0 <= i < |x.stack| - 1 ==> !PartFed(x.stack[i])
    ensures Left(x.stack) == x.stack[|x.stack| - 1].left
  {
    hide Inv, Sequenced, Left;
    var f, rest := x.stack[|x.stack| - 1], x.stack[..|x.stack| - 1];
    assert x.stack == Push(rest, f);
    ClearPush(x.rcv, rest, f);
  }

  lemma TakeOrder(x: Stream, take: nat, y: Stream)
    requires Inv(x) && InOrder(x) && x.stack != [] && PartFed(x.stack[|x.stack| - 1]) && x.rcv.status == Open
    requires 0 < take <= |x.stack[|x.stack| - 1].left|
    requires y == FeedOne(x, take) && y.rcv.next <= |y.sent|
    ensures InOrder(y)
  {
    hide Inv, Written, Left, Joined, NoOvertaking;
    BoundOf(x);
    TopOnly(x);
    var f, rest := x.stack[|x.stack| - 1], x.stack[..|x.stack| - 1];
    ClearPush(y.rcv, rest, Feeding(f.left[take..], f.n));
    TakeSequenced(x, take, y);
    WrittenPrefix(x.sent, x.rcv.next);
    EofStays(x, y);
  }

  lemma TakeSequenced(x: Stream, take: nat, y: Stream)
    requires x.rcv.next <= |x.sent| && Sequenced(x.rcv, x.stack, x.sent) && x.rcv.status == Open
    requires x.stack != [] && PartFed(x.stack[|x.stack| - 1]) && Left(x.stack) == x.stack[|x.stack| - 1].left
    requires 0 < take <= |x.stack[|x.stack| - 1].left|
    requires y == FeedOne(x, take) && y.rcv.next <= |y.sent| && Left(y.stack) == x.stack[|x.stack| - 1].left[take..]
    ensures Sequenced(y.rcv, y.stack, x.sent)
  {
    hide Written, Left, Joined;
    var left := x.stack[|x.stack| - 1].left;
    TakeSplit(Written(x.sent[..x.rcv.next]), x.rcv.handed, left, Joined(x.rcv.backlog), take);
    SequencedAs(y.rcv, y.stack, x.sent, x.rcv.handed + left[..take], left[take..], Joined(x.rcv.backlog));
  }

  lemma StepOrder(x: Stream, s: Step, y: Stream)
    requires Inv(x) && InOrder(x) && Enabled(x, s) && Orderly(x, s) && y == Next(x, s)
    ensures y.rcv.next <= |y.sent| && InOrder(y)
  {
    hide Inv, InOrder, Orderly, Enabled, Next;
    StepKeeps(x, s);
    BoundOf(y);
    if s.Proceed? {
      ReturnOrder(x, s.take, y);
    } else if s.DoFinishSender? || s.DoPause? || s.DoFinishReceiver? || s.DoSetProtocol? || s.Cut? || s.Heal? || s.Lose? {
      QuietOrder(x, s, y);
    } else {
      ActOrder(x, s, y);
    }
  }

  /** Writing, closing, resuming, and a packet that arrives. */
  lemma ActOrder(x: Stream, s: Step, y: Stream)
    requires Inv(x) && InOrder(x) && Enabled(x, s) && Orderly(x, s) && y == Next(x, s) && y.rcv.next <= |y.sent|
    requires s.DoWrite? || s.DoWriteEof? || s.DoClose? || s.DoAbort? || s.DoResume? || s.Arrive?
    ensures InOrder(y)
  {
    hide Inv, InOrder, Orderly;
    match s
    case DoWrite(data) => WriteOrder(x, data);
    case DoResume => ResumeOrder(x);
    case Arrive(i) => ArriveOrder(x, i, y);
    case _ => SignalOrder(x);
  }

  lemma ReturnOrder(x: Stream, take: nat, y: Stream)
    requires Inv(x) && InOrder(x) && Enabled(x, Proceed(take)) && y == Next(x, Proceed(take)) && y.rcv.next <= |y.sent|
    ensures InOrder(y)
  {
    hide Inv, InOrder, DispatchOne, DrainOne, FeedOne;
    match x.stack[|x.stack| - 1]
    case Dispatch => DispatchOrder(x, y);
    case Drain => DrainOrder(x, y);
    case Feeding(_, _) => FeedOrder(x, take, y);
    case Callback => PopOrder(x, y);
  }

  lemma BoundOf(x: Stream)
    requires Inv(x)
    ensures x.rcv.next <= |x.sent|
  {
  }

  lemma ArriveOrder(x: Stream, i: nat, y: Stream)
    requires Inv(x) && InOrder(x) && Enabled(x, Arrive(i)) && y == Next(x, Arrive(i)) && y.rcv.next <= |y.sent|
    ensures InOrder(y)
  {
    hide Inv, Sequenced, Left, NoOvertaking;
    ArriveMoves(x, i, y);
    DispatchAlone(y.rcv);
    NothingLeft([]);
    OnlyDispatch([Dispatch]);
    StillOrder(x, y);
  }

  lemma ArriveMoves(x: Stream, i: nat, y: Stream)
    requires Enabled(x, Arrive(i)) && y == Next(x, Arrive(i))
    ensures x.stack == [] && y.stack in [[], [Dispatch]] && y.sent == x.sent
    ensures y.rcv == x.rcv.(early := y.rcv.early)
  {
  }

  /** A dispatch that has just begun overtakes nothing. */
  lemma DispatchAlone(rcv: Receiver)
    ensures NoOvertaking(rcv, []) && NoOvertaking(rcv, [Dispatch])
  {
  }

  /** Steps that move nothing towards the reader. */
  lemma QuietOrder(x: Stream, s: Step, y: Stream)
    requires Inv(x) && InOrder(x) && Enabled(x, s) && y == Next(x, s) && y.rcv.next <= |y.sent|
    requires s.DoFinishSender? || s.DoPause? || s.DoFinishReceiver? || s.DoSetProtocol? || s.Cut? || s.Heal? || s.Lose?
    ensures InOrder(y)
  {
    hide Inv, Sequenced, Left;
    QuietMoves(x, s, y);
    OvertakingSame(x.rcv, y.rcv, y.stack);
    StillOrder(x, y);
  }

  lemma QuietMoves(x: Stream, s: Step, y: Stream)
    requires Enabled(x, s) && y == Next(x, s)
    requires s.DoFinishSender? || s.DoPause? || s.DoFinishReceiver? || s.DoSetProtocol? || s.Cut? || s.Heal? || s.Lose?
    ensures y.sent == x.sent && y.stack == x.stack
    ensures y.rcv.next == x.rcv.next && y.rcv.handed == x.rcv.handed && y.rcv.backlog == x.rcv.backlog
    ensures y.rcv.eofPending == x.rcv.eofPending && y.rcv.eofSeen == x.rcv.eofSeen
    ensures y.rcv.status == x.rcv.status || y.rcv.status == Gone
  {
  }

  // ------------------------------------------------------------------
  // Runs
  // ------------------------------------------------------------------

  lemma InitialOrder(x: Stream)
    requires Initial(x)
    ensures x.rcv.next <= |x.sent| && InOrder(x)
  {
    assert x.sent[..0] == [];
  }

  lemma {:induction false} RunOrder(r: Run, k: nat)
    requires IsOrderlyRun(r) && k < |r.states|
    ensures Inv(r.states[k]) && r.states[k].rcv.next <= |r.states[k].sent| && InOrder(r.states[k])
  {
    hide Inv, InOrder, Next, Enabled, Orderly;
    RunKeeps(r, k);
    if k == 0 {
      InitialOrder(r.states[0]);
    } else {
      RunOrder(r, k - 1);
      RunKeeps(r, k - 1);
      StepOrder(r.states[k - 1], r.steps[k - 1], r.states[k]);
    }
  }

  /** Whatever the latencies, cuts, heals, losses and pauses, and however its protocol takes packets,
      a reader that resumes in an orderly way has been handed a prefix of what was written, and is told
      of the end only after all of it. */
  lemma PrefixDelivery(r: Run, k: nat)
    requires IsOrderlyRun(r) && k < |r.states|
    ensures r.states[k].rcv.handed <= Written(r.states[k].sent)
    ensures r.states[k].rcv.eofSeen ==> r.states[k].rcv.handed == Written(r.states[k].sent) && Fin in r.states[k].sent
  {
    RunOrder(r, k);
    OrderIsSound(r.states[k]);
  }

  /** Nothing is stuck: with no packet on the wire, held or lost, and reading not paused, an open
      reader has been handed every byte, in order. */
  lemma NothingStuck(r: Run, k: nat)
    requires IsOrderlyRun(r) && k < |r.states|
    requires var x := r.states[k];
      && x.stack == [] && x.wire == {} && x.held == {} && x.lost == {}
      && x.rcv.status == Open && !x.rcv.readPaused
    ensures r.states[k].rcv.handed == Written(r.states[k].sent) && !r.states[k].rcv.eofPending
  {
    hide Inv, Sequenced, Written, Left, Joined;
    RunOrder(r, k);
    NothingLost(r, k);
    AllHanded(r.states[k]);
  }

  lemma AllHanded(x: Stream)
    requires Inv(x) && InOrder(x) && x.rcv.next == |x.sent| && multiset(x.rcv.handed) == multiset(Written(x.sent))
    ensures x.rcv.handed == Written(x.sent)
  {
    hide Written, Left, Joined, Kept, Balanced, Placed, SentOk;
    assert x.sent[..x.rcv.next] == x.sent;
    assert |x.rcv.handed| == |multiset(x.rcv.handed)| == |Written(x.sent)|;
  }

  /** A protocol that takes every packet whole never has one half fed, so every run of it is orderly. */
  lemma PlainIsOrderly(r: Run)
    requires IsRun(r) && !r.states[0].rcv.buffered
    requires forall i :: 0 <= i < |r.steps| ==> r.steps[i] != DoSetProtocol(true)
    ensures IsOrderlyRun(r)
  {
    hide Next, Enabled, Initial;
    forall i | 0 <= i < |r.steps| ensures Orderly(r.states[i], r.steps[i]) {
      PlainNothingLeft(r, i);
    }
  }

  lemma {:induction false} PlainNothingLeft(r: Run, k: nat)
    requires IsRun(r) && k < |r.states|
    requires !r.states[0].rcv.buffered && forall i :: 0 <= i < |r.steps| ==> r.steps[i] != DoSetProtocol(true)
    ensures !r.states[k].rcv.buffered && Left(r.states[k].stack) == []
  {
    hide Next, Enabled, Left;
    if k == 0 {
      NothingJoined();
    } else {
      PlainNothingLeft(r, k - 1);
      PlainStep(r.states[k - 1], r.steps[k - 1]);
    }
  }

  lemma PlainStep(x: Stream, s: Step)
    requires Enabled(x, s) && !x.rcv.buffered && Left(x.stack) == [] && s != DoSetProtocol(true)
    ensures !Next(x, s).rcv.buffered && Left(Next(x, s).stack) == []
  {
    hide Left, Next, Enabled;
    EmptyOn(x.stack);
    if s.DoWrite? || s.DoWriteEof? || s.DoClose? || s.DoAbort? {
      PlainSends(x, s);
    } else if s.Proceed? {
      PlainProceeds(x, s);
    } else {
      PlainOther(x, s);
      NothingJoined();
      EmptyOn([]);
      assert Push([], Dispatch) == [Dispatch];
    }
  }

  /** The other steps start a drain or a dispatch at most. */
  lemma PlainOther(x: Stream, s: Step)
    requires Enabled(x, s) && s != DoSetProtocol(true) && !s.Proceed?
    requires !(s.DoWrite? || s.DoWriteEof? || s.DoClose? || s.DoAbort?)
    ensures Next(x, s).rcv.buffered ==> x.rcv.buffered
    ensures var t := Next(x, s).stack; t == x.stack || t == Push(x.stack, Drain) || (x.stack == [] && t == [Dispatch])
  {
    hide Written, Joined;
  }

  lemma PlainProceeds(x: Stream, s: Step)
    requires Enabled(x, s) && s.Proceed? && !x.rcv.buffered && Left(x.stack) == []
    ensures !Next(x, s).rcv.buffered && Left(Next(x, s).stack) == []
  {
    hide Left, DispatchOne, DrainOne, FeedOne;
    var rest := x.stack[..|x.stack| - 1];
    StackPop(x.stack);
    EmptyOn(x.stack);
    EmptyOn(rest);
    match x.stack[|x.stack| - 1]
    case Dispatch => PlainDispatch(x);
    case Drain => PlainDrain(x);
    case Feeding(left, n) => PlainFeed(x, s.take);
    case Callback =>
  }

  /** What a plain reader's frames can turn into. */
  ghost predicate PlainStack(x: Stream, y: Stream)
    requires x.stack != []
  {
    var rest := x.stack[..|x.stack| - 1];
    && y.rcv.buffered == x.rcv.buffered
    && (y.stack in [x.stack, rest, Push(x.stack, Callback), Push(rest, Callback)]
        || exists n: nat :: y.stack == Push(x.stack, Feeding([], n)))
  }

  lemma PlainDispatch(x: Stream)
    requires x.stack != [] && !x.rcv.buffered
    ensures PlainStack(x, DispatchOne(x))
  {
  }

  lemma PlainDrain(x: Stream)
    requires x.stack != [] && !x.rcv.buffered
    ensures PlainStack(x, DrainOne(x))
  {
    hide Joined;
  }

  lemma PlainFeed(x: Stream, take: nat)
    requires x.stack != [] && x.stack[|x.stack| - 1].Feeding? && x.stack[|x.stack| - 1].left == []
    ensures PlainStack(x, FeedOne(x, take))
  {
    hide Credit;
    CreditStack(x.(stack := x.stack[..|x.stack| - 1]), x.stack[|x.stack| - 1].n);
  }

  /** Frames that hold nothing leave nothing. */
  lemma EmptyOn(stack: seq<Frame>)
    requires Left(stack) == []
    ensures Left(Push(stack, Callback)) == [] && Left(Push(stack, Drain)) == [] && Left(Push(stack, Dispatch)) == []
    ensures forall n: nat :: Left(Push(stack, Feeding([], n))) == []
  {
    hide Left;
    StackPush(stack, Callback);
    StackPush(stack, Drain);
    StackPush(stack, Dispatch);
    forall n: nat ensures Left(Push(stack, Feeding([], n))) == [] {
      StackPush(stack, Feeding([], n));
    }
  }

  lemma PlainSends(x: Stream, s: Step)
    requires Enabled(x, s) && (s.DoWrite? || s.DoWriteEof? || s.DoClose? || s.DoAbort?)
    ensures Next(x, s).rcv == x.rcv && (Next(x, s).stack == x.stack || Next(x, s).stack == Push(x.stack, Callback))
  {
    hide Written, Numbered;
  }

  lemma CreditStack(x: Stream, n: nat)
    ensures Credit(x, n).rcv == x.rcv && (Credit(x, n).stack == x.stack || Credit(x, n).stack == Push(x.stack, Callback))
  {
  }
}
