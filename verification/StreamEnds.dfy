/**
  The two transports of a connection and the link between them as one object that
  its methods update.  Where the code calls a protocol, a method leaves a frame on
  the stack for the protocol to run in.  Every method keeps the stream's invariant
  and says what a caller gets; driven by any list of steps, the object delivers what
  a stream promises.
*/
module StreamEnds {
  import opened Stream
  import opened StreamProof
  import opened StreamOrder

  class Connection {
    const low: nat
    const high: nat
    var snd: Sender
    var rcv: Receiver
    var sent: seq<Packet>
    var wire: set<nat>
    var held: set<nat>
    var lost: set<nat>
    var cut: bool
    var stack: seq<Frame>

    function Snapshot(): Stream
      reads this
    {
      Stream(low, high, snd, rcv, sent, wire, held, lost, cut, stack)
    }

    constructor (low: nat, high: nat, buffered: bool)
      requires LegalLimits(low, high)
      ensures Initial(Snapshot()) && Inv(Snapshot())
    {
      this.low, this.high := low, high;
      snd := Sender(false, false, false, 0, false, []);
      rcv := Receiver(Absent, 0, map[], buffered, false, [], false, [], 0, false);
      sent, wire, held, lost, cut, stack := [Hand], {0}, {}, {}, false, [];
      new;
      InitialInv(Snapshot());
    }

    // ----------------------------------------------------------------
    // Outbound
    // ----------------------------------------------------------------

    method Send(p: Packet)
      modifies this`sent, this`wire, this`held
      ensures Snapshot() == Transmit(old(Snapshot()), p)
      ensures sent == old(sent) + [p]
      ensures wire == old(wire) + (if cut then {} else {|old(sent)|}) && held == old(held) + if cut then {|old(sent)|} else {}
    {
      var seqNo := |sent|;
      sent := sent + [p];
      if cut {
        held := held + {seqNo};
      } else {
        wire := wire + {seqNo};
      }
    }

    /** A write joins the stream and is charged, or is refused and leaves no trace. */
    method WriteData(data: seq<bv8>) returns (ok: bool)
      requires Inv(Snapshot())
      modifies this`sent, this`wire, this`held, this`snd, this`stack
      ensures Inv(Snapshot()) && Snapshot() == Write(old(Snapshot()), data)
      ensures ok == !(old(snd).eofSent || old(snd).closing || old(snd).closed)
      ensures |Written(sent)| == |old(Written(sent))| + (if ok then |data| else 0) && old(Written(sent)) <= Written(sent)
      ensures ok ==> forall i :: 0 <= i < |data| ==> Written(sent)[|old(Written(sent))| + i].value == data[i]
      ensures Written(sent) == old(Written(sent)) + if ok then Numbered(data, |old(Written(sent))|) else []
      ensures snd.buffer == old(snd).buffer + if ok then |data| else 0
      ensures |sent| == |old(sent)| + if ok && data != [] then 1 else 0
    {
      hide Inv, Written;
      WriteKeeps(Snapshot(), data);
      if snd.eofSent || snd.closing || snd.closed {
        return false;
      }
      if data != [] {
        WrittenAppend(sent, Data(Numbered(data, |Written(sent)|)));
        Send(Data(Numbered(data, |Written(sent)|)));
        ChargeBytes(|data|);
      }
      return true;
    }

    /** The end of stream goes out once, and nothing written is changed by it. */
    method SendEof()
      requires Inv(Snapshot())
      modifies this`snd, this`sent, this`wire, this`held
      ensures Inv(Snapshot()) && Snapshot() == WriteEof(old(Snapshot()))
      ensures Written(sent) == old(Written(sent)) && (!snd.closed ==> snd.eofSent && Fin in sent)
      ensures sent == old(sent) + if old(snd).eofSent || snd.closed then [] else [Fin]
    {
      hide Inv, Written;
      EofKeeps(Snapshot());
      EofMoves(Snapshot());
      if snd.eofSent || snd.closed {
        return;
      }
      snd := snd.(eofSent := true);
      Send(Fin);
    }

    /** Closing refuses later writes and lets the peer know the stream has ended. */
    method CloseGently()
      requires Inv(Snapshot())
      modifies this`snd, this`sent, this`wire, this`held
      ensures Inv(Snapshot()) && Snapshot() == Close(old(Snapshot()))
      ensures Written(sent) == old(Written(sent))
      ensures !snd.closed && !old(snd).closing ==> snd.closing && snd.eofSent && Fin in sent
      ensures sent == old(sent) + if old(snd).eofSent || snd.closed || old(snd).closing then [] else [Fin]
    {
      hide Inv, Written;
      EofKeeps(Snapshot());
      EofMoves(Snapshot());
      if snd.closing || snd.closed {
        return;
      }
      snd := snd.(closing := true);
      if !snd.eofSent {
        snd := snd.(eofSent := true);
        Send(Fin);
      }
    }

    /** An abort takes its turn behind everything already sent. */
    method ForceClose()
      requires Inv(Snapshot())
      modifies this`snd, this`sent, this`wire, this`held
      ensures Inv(Snapshot()) && Snapshot() == Abort(old(Snapshot()))
      ensures Written(sent) == old(Written(sent))
      ensures !snd.closed ==> snd.closing && sent == old(sent) + [Rst]
    {
      hide Inv, Written;
      EofKeeps(Snapshot());
      WrittenAppend(sent, Rst);
      if snd.closed {
        return;
      }
      snd := snd.(closing := true);
      Send(Rst);
    }

    /** Nothing is owed on a connection that is gone, and no paused writer is resumed for it. */
    method Finish()
      requires Inv(Snapshot())
      modifies this`snd
      ensures Inv(Snapshot()) && Snapshot() == FinishSender(old(Snapshot()))
      ensures snd.closed && snd.buffer == 0 && !snd.paused && snd.signals == old(snd).signals
    {
      hide Inv;
      FinishKeeps(Snapshot());
      snd := snd.(closed := true, closing := true, buffer := 0, paused := false);
    }

    // ----------------------------------------------------------------
    // Write flow control
    // ----------------------------------------------------------------

    method ChargeBytes(n: nat)
      modifies this`snd, this`stack
      ensures Snapshot() == Charge(old(Snapshot()), n) && snd.buffer == old(snd).buffer + n
      ensures snd.signals == old(snd).signals + (if snd.buffer > high && !old(snd).paused then [true] else [])
        && stack == old(stack) + if snd.buffer > high && !old(snd).paused then [Callback] else []
    {
      snd := snd.(buffer := snd.buffer + n);
      if snd.buffer <= high || snd.paused {
        return;
      }
      snd := snd.(paused := true, signals := snd.signals + [true]);
      stack := Push(stack, Callback);
    }

    method CreditBytes(n: nat)
      modifies this`snd, this`stack
      ensures Snapshot() == Credit(old(Snapshot()), n)
      ensures !snd.closed ==> var told := old(snd).paused && snd.buffer <= low;
        && snd.buffer == (if old(snd).buffer >= n then old(snd).buffer - n else 0)
        && snd.signals == old(snd).signals + (if told then [false] else [])
        && stack == old(stack) + if told then [Callback] else []
    {
      if snd.closed {
        return;
      }
      snd := snd.(buffer := if snd.buffer >= n then snd.buffer - n else 0);
      if !snd.paused || snd.buffer > low {
        return;
      }
      snd := snd.(paused := false, signals := snd.signals + [false]);
      stack := Push(stack, Callback);
    }

    // ----------------------------------------------------------------
    // Inbound
    // ----------------------------------------------------------------

    method DeliverUp(data: Bytes)
      modifies this`rcv, this`stack
      ensures Snapshot() == HandUp(old(Snapshot()), data)
      ensures rcv == old(rcv).(handed := old(rcv).handed + if rcv.buffered then [] else data)
      ensures stack == old(stack) + [Feeding(if rcv.buffered then data else [], |data|)]
    {
      if rcv.buffered {
        stack := Push(stack, Feeding(data, |data|));
        return;
      }
      rcv := rcv.(handed := rcv.handed + data);
      stack := Push(stack, Feeding([], |data|));
    }

    method DataArrived(data: Bytes)
      modifies this`rcv, this`stack
      ensures Snapshot() == DataArrives(old(Snapshot()), data)
    {
      if rcv.status != Open {
        return;
      }
      if rcv.readPaused {
        rcv := rcv.(backlog := rcv.backlog + [data]);
        return;
      }
      DeliverUp(data);
    }

    method EofArrived()
      modifies this`rcv, this`stack
      ensures Snapshot() == EofArrives(old(Snapshot()))
    {
      if rcv.status != Open {
        return;
      }
      if rcv.readPaused {
        rcv := rcv.(eofPending := true);
        return;
      }
      rcv := rcv.(eofSeen := true);
      stack := Push(stack, Callback);
    }

    /** A turn of the reassembly loop: the queue's head is never skipped, and the loop ends only without one. */
    method DispatchTurn()
      requires Inv(Snapshot()) && stack != [] && stack[|stack| - 1] == Dispatch
      modifies this`rcv, this`stack
      ensures Inv(Snapshot()) && Snapshot() == DispatchOne(old(Snapshot()))
      ensures rcv.next == old(rcv).next + if old(rcv).next in old(rcv).early then 1 else 0
      ensures old(rcv).next !in old(rcv).early ==> stack == []
      ensures old(rcv).next in old(rcv).early ==> Met(old(rcv).early[old(rcv).next], old(Snapshot()), Snapshot())
    {
      hide Inv, DataArrives, EofArrives, Met;
      DispatchKeeps(Snapshot());
      DispatchMoves(Snapshot());
      DispatchMeets(Snapshot());
      if rcv.next !in rcv.early {
        stack := stack[..|stack| - 1];
        return;
      }
      var packet := rcv.early[rcv.next];
      rcv := rcv.(next := rcv.next + 1, early := rcv.early - {rcv.next});
      match packet {
        case Hand => HandshakeArrived();
        case Data(data) => DataArrived(data);
        case Fin => EofArrived();
        case Rst => ResetArrived();
      }
    }

    method ResetArrived()
      modifies this`rcv, this`stack
      ensures Snapshot() == ResetArrives(old(Snapshot()))
    {
      if rcv.status != Gone {
        rcv := rcv.(status := Gone);
        stack := Push(stack, Callback);
      }
    }

    method HandshakeArrived()
      modifies this`rcv, this`stack
      ensures Snapshot() == if old(rcv).status != Absent then old(Snapshot())
        else old(Snapshot()).(rcv := old(rcv).(status := Open), stack := Push(old(stack), Callback))
    {
      if rcv.status == Absent {
        rcv := rcv.(status := Open);
        stack := Push(stack, Callback);
      }
    }

    /** A turn of the drain: what was parked first goes up first, and the end of stream only when
        nothing is parked in front of it. */
    method DrainTurn()
      requires Inv(Snapshot()) && stack != [] && stack[|stack| - 1] == Drain
      modifies this`rcv, this`stack
      ensures Inv(Snapshot()) && Snapshot() == DrainOne(old(Snapshot()))
      ensures rcv.backlog == old(rcv).backlog
        || (old(rcv).backlog != [] && [old(rcv).backlog[0]] + rcv.backlog == old(rcv).backlog)
      ensures rcv.eofSeen && !old(rcv).eofSeen ==> rcv.backlog == [] && old(rcv).eofPending
      ensures Drained(old(Snapshot()), Snapshot())
    {
      hide Inv, HandUp, EofArrives, Drained;
      DrainKeeps(Snapshot());
      DrainMoves(Snapshot());
      if rcv.backlog != [] && !rcv.readPaused && rcv.status == Open {
        var chunk := rcv.backlog[0];
        rcv := rcv.(backlog := rcv.backlog[1..]);
        DeliverUp(chunk);
        return;
      }
      stack := stack[..|stack| - 1];
      if rcv.eofPending && !rcv.readPaused && rcv.status == Open {
        rcv := rcv.(eofPending := false);
        EofArrived();
      }
    }

    /** A turn of the feeding loop: one more piece in order, or the packet's whole credit. */
    method FeedTurn(take: nat)
      requires Inv(Snapshot()) && stack != [] && stack[|stack| - 1].Feeding? && CanTake(stack[|stack| - 1], take)
      modifies this`rcv, this`snd, this`stack
      ensures Snapshot() == FeedOne(old(Snapshot()), take) && Fed(old(Snapshot()), take, Snapshot())
      ensures Inv(Snapshot())
    {
      hide Inv, Credit;
      var f := stack[|stack| - 1];
      FeedKeeps(Snapshot(), take);
      FeedMoves(Snapshot(), take);
      stack := stack[..|stack| - 1];
      if f.left == [] {
        CreditBytes(f.n);
      } else if rcv.status != Open {
        rcv := rcv.(stranded := rcv.stranded + if f.n >= |f.left| then f.n - |f.left| else 0);
      } else {
        rcv := rcv.(handed := rcv.handed + f.left[..take]);
        stack := Push(stack, Feeding(f.left[take..], f.n));
      }
    }

    method PauseRead()
      requires Inv(Snapshot())
      modifies this`rcv
      ensures Inv(Snapshot()) && Snapshot() == PauseReading(old(Snapshot()))
      ensures rcv.status == Open ==> rcv.readPaused
    {
      hide Inv;
      PauseKeeps(Snapshot());
      if rcv.status == Open && !rcv.readPaused {
        rcv := rcv.(readPaused := true);
      }
    }

    /** Resuming in the middle of a packet is safe for order exactly as `Orderly` says. */
    method ResumeRead() returns (ghost orderly: bool)
      requires Inv(Snapshot())
      modifies this`rcv, this`stack
      ensures Inv(Snapshot()) && Snapshot() == ResumeReading(old(Snapshot()))
      ensures orderly == Orderly(old(Snapshot()), DoResume)
      ensures orderly && old(InOrder(Snapshot())) ==> InOrder(Snapshot())
    {
      hide Inv, InOrder, Orderly;
      ghost var x := Snapshot();
      orderly := Orderly(x, DoResume);
      BoundOf(x);
      ResumeKeeps(x);
      if orderly && InOrder(x) {
        ResumeOrder(x);
      }
      if rcv.status != Open || !rcv.readPaused {
        return;
      }
      rcv := rcv.(readPaused := false);
      stack := Push(stack, Drain);
    }

    // ----------------------------------------------------------------
    // The link
    // ----------------------------------------------------------------

    /** A packet's latency is over: lost with a machine, held by a cut, or put in order; and never in two places. */
    method Deliver(seqNo: nat, bothUp: bool)
      requires Inv(Snapshot()) && stack == [] && seqNo in wire
      modifies this`wire, this`held, this`lost, this`rcv, this`stack
      ensures Inv(Snapshot()) && Snapshot() == Next(old(Snapshot()), if bothUp then Arrive(seqNo) else Lose(seqNo))
      ensures seqNo !in wire && (seqNo in lost <==> !bothUp) && (seqNo in held <==> bothUp && cut)
    {
      hide Inv;
      PlacedOnce(Snapshot(), seqNo);
      if bothUp {
        ArriveKeeps(Snapshot(), seqNo);
      } else {
        LoseKeeps(Snapshot(), seqNo);
      }
      wire := wire - {seqNo};
      if !bothUp {
        lost := lost + {seqNo};
        held := held - {seqNo};
      } else if cut {
        held := held + {seqNo};
      } else {
        rcv := rcv.(early := rcv.early[seqNo := sent[seqNo]]);
        stack := [Dispatch];
      }
    }

    /** A heal loses nothing: every held packet is on its way again. */
    method HealLink()
      requires Inv(Snapshot()) && Quiet(stack)
      modifies this`cut, this`wire, this`held
      ensures Inv(Snapshot()) && Snapshot() == Next(old(Snapshot()), Heal)
      ensures held == {} && wire == old(wire) + old(held)
    {
      hide Inv;
      HealKeeps(Snapshot());
      cut := false;
      var released := held;
      held := {};
      wire := wire + released;
    }

    // ----------------------------------------------------------------
    // Driving it
    // ----------------------------------------------------------------

    /** The innermost call takes its next turn, or returns. */
    method Turn(take: nat)
      requires Inv(Snapshot()) && stack != [] && CanTake(stack[|stack| - 1], take)
      modifies this`rcv, this`snd, this`stack
      ensures Inv(Snapshot()) && Snapshot() == Return(old(Snapshot()), take)
    {
      hide Inv, DispatchOne, DrainOne, FeedOne;
      var top := stack[|stack| - 1];
      match top {
        case Dispatch => DispatchTurn();
        case Drain => DrainTurn();
        case Feeding(_, _) => FeedTurn(take);
        case Callback =>
          CallbackKeeps(Snapshot());
          stack := stack[..|stack| - 1];
      }
    }

    method Perform(s: Step)
      requires Inv(Snapshot()) && Enabled(Snapshot(), s)
      modifies this
      ensures Inv(Snapshot()) && Snapshot() == Next(old(Snapshot()), s)
    {
      hide Inv, Write, WriteEof, Close, Abort, FinishSender, PauseReading, ResumeReading, Return;
      StepKeeps(Snapshot(), s);
      match s {
        case DoWrite(data) => var _ := WriteData(data);
        case DoWriteEof => SendEof();
        case DoClose => CloseGently();
        case DoAbort => ForceClose();
        case DoFinishSender => Finish();
        case DoPause => PauseRead();
        case DoResume => ghost var _ := ResumeRead();
        case DoFinishReceiver => rcv := rcv.(status := Gone);
        case DoSetProtocol(buffered) => rcv := rcv.(buffered := buffered);
        case Cut => cut := true;
        case Heal => HealLink();
        case Arrive(i) => Deliver(i, true);
        case Lose(i) => wire, held, lost := wire - {i}, held - {i}, lost + {i};
        case Proceed(take) => Turn(take);
      }
    }

    /** Any list of steps, those that cannot be taken skipped: bytes are handed up once each and, as long
        as every resume was orderly, in order, with the end of stream last; and the write buffer is exact. */
    method Drive(steps: seq<Step>) returns (orderly: bool, ghost r: Run)
      requires Initial(Snapshot())
      modifies this
      ensures Snapshot() == AfterSteps(old(Snapshot()), steps)
      ensures IsRun(r) && r.states[|r.steps|] == Snapshot() && (orderly ==> IsOrderlyRun(r))
      ensures multiset(rcv.handed) <= multiset(Written(sent))
      ensures orderly ==> rcv.handed <= Written(sent) && (rcv.eofSeen ==> rcv.handed == Written(sent))
      ensures stack == [] && !snd.closed && rcv.status != Gone ==> snd.buffer == |Written(sent)| - |rcv.handed|
    {
      hide Inv, Next, Enabled, Orderly, Written;
      InitialInv(Snapshot());
      orderly, r := true, Run([Snapshot()], []);
      for i := 0 to |steps|
        invariant IsRun(r) && r.states[|r.steps|] == Snapshot() && Inv(Snapshot())
        invariant orderly ==> IsOrderlyRun(r)
        invariant Snapshot() == AfterSteps(old(Snapshot()), steps[..i])
      {
        assert steps[..i + 1][..i] == steps[..i];
        var s := steps[i];
        if Enabled(Snapshot(), s) {
          orderly := orderly && Orderly(Snapshot(), s);
          Longer(r, s, orderly);
          Perform(s);
          r := Run(r.states + [Snapshot()], r.steps + [s]);
        }
      }
      assert steps[..|steps|] == steps;
      EachOnce(r, |r.steps|);
      if orderly {
        PrefixDelivery(r, |r.steps|);
      }
      if stack == [] && !snd.closed {
        FlowConserved(r, |r.steps|);
      }
    }
  }

  /** Where the model gets to with those of the steps that it can take. */
  function AfterSteps(x: Stream, steps: seq<Step>): Stream {
    if steps == [] then x
    else
      var y := AfterSteps(x, steps[..|steps| - 1]);
      if Enabled(y, steps[|steps| - 1]) then Next(y, steps[|steps| - 1]) else y
  }

  lemma Longer(r: Run, s: Step, orderly: bool)
    requires IsRun(r) && Enabled(r.states[|r.steps|], s)
    requires orderly ==> IsOrderlyRun(r) && Orderly(r.states[|r.steps|], s)
    ensures var q := Run(r.states + [Next(r.states[|r.steps|], s)], r.steps + [s]);
      IsRun(q) && (orderly ==> IsOrderlyRun(q))
  {
    hide Enabled, Next, Initial, Orderly;
    var q := Run(r.states + [Next(r.states[|r.steps|], s)], r.steps + [s]);
    forall i | 0 <= i < |q.steps|
      ensures Enabled(q.states[i], q.steps[i]) && q.states[i + 1] == Next(q.states[i], q.steps[i])
      ensures orderly ==> Orderly(q.states[i], q.steps[i])
    {
      if i < |r.steps| {
        assert Enabled(r.states[i], r.steps[i]) && r.states[i + 1] == Next(r.states[i], r.steps[i]);
        assert orderly ==> Orderly(r.states[i], r.steps[i]);
      }
    }
  }

  /** A packet on the wire was sent, and is nowhere else. */
  lemma PlacedOnce(x: Stream, i: nat)
    requires Inv(x) && i in x.wire
    ensures i < |x.sent| && i !in x.held && i !in x.lost
  {
    hide Kept, Balanced, SentOk;
  }

  /** The end of stream adds no data, and is in the stream from then on. */
  lemma EofMoves(x: Stream)
    requires Inv(x)
    ensures Written(WriteEof(x).sent) == Written(x.sent) == Written(Close(x).sent)
    ensures !x.snd.closed ==> WriteEof(x).snd.eofSent && Fin in WriteEof(x).sent
    ensures !x.snd.closed && !x.snd.closing ==> Close(x).snd.closing && Close(x).snd.eofSent && Fin in Close(x).sent
    ensures WriteEof(x).snd.closed == x.snd.closed == Close(x).snd.closed
  {
    hide Written, Kept, Balanced, Placed;
    WrittenAppend(x.sent, Fin);
  }

  lemma DispatchMoves(x: Stream)
    requires Inv(x) && x.stack != [] && x.stack[|x.stack| - 1] == Dispatch
    ensures var y := DispatchOne(x);
      && y.rcv.next == x.rcv.next + (if x.rcv.next in x.rcv.early then 1 else 0)
      && (x.rcv.next !in x.rcv.early ==> y.stack == [])
  {
    hide Inv, DataArrives, EofArrives;
    DispatchAlone(x);
    DataStays(x);
  }

  lemma DispatchAlone(x: Stream)
    requires Inv(x) && x.stack != [] && x.stack[|x.stack| - 1] == Dispatch
    ensures x.stack == [Dispatch]
  {
    hide Kept, Balanced, SentOk, Placed, Waits, Alternates, Marked, FinOk;
  }

  /** What an end makes of the packet at the head of its queue, and whether its protocol is called. */
  ghost predicate Met(p: Packet, x: Stream, y: Stream) {
    var r, q := x.rcv, y.rcv;
    match p
    case Hand =>
      && q.status == (if r.status == Absent then Open else r.status)
      && y.stack == x.stack + if r.status == Absent then [Callback] else []
    case Rst => q.status == Gone && q.handed == r.handed && y.stack == x.stack + if r.status != Gone then [Callback] else []
    case Fin =>
      && q.handed == r.handed && (r.status == Open ==> if r.readPaused then q.eofPending else q.eofSeen)
      && y.stack == x.stack + if r.status == Open && !r.readPaused then [Callback] else []
    case Data(data) =>
      var fed := r.status == Open && !r.readPaused;
      && q.handed == r.handed + (if fed && !r.buffered then data else [])
      && q.backlog == r.backlog + (if r.status == Open && r.readPaused then [data] else [])
      && y.stack == x.stack + if fed then [Feeding(if r.buffered then data else [], |data|)] else []
  }

  lemma DispatchMeets(x: Stream)
    requires x.stack != []
    ensures x.rcv.next in x.rcv.early ==> Met(x.rcv.early[x.rcv.next], x, DispatchOne(x))
  {
    assert x.rcv.handed + [] == x.rcv.handed && x.rcv.backlog + [] == x.rcv.backlog && x.stack + [] == x.stack;
  }

  /** What a packet means to the reader does not move the dispatch point. */
  lemma DataStays(x: Stream)
    ensures forall y: Stream, data :: DataArrives(y, data).rcv.next == y.rcv.next
    ensures forall y: Stream :: EofArrives(y).rcv.next == y.rcv.next
  {
  }

  lemma DrainMoves(x: Stream)
    requires x.stack != []
    ensures var y := DrainOne(x);
      && (y.rcv.backlog == x.rcv.backlog || (x.rcv.backlog != [] && [x.rcv.backlog[0]] + y.rcv.backlog == x.rcv.backlog))
      && (y.rcv.eofSeen && !x.rcv.eofSeen ==> y.rcv.backlog == [] && x.rcv.eofPending)
    ensures Drained(x, DrainOne(x))
  {
    assert x.stack[..|x.stack| - 1] + [] == x.stack[..|x.stack| - 1];
  }

  /** A drain that may go on feeds what was parked first; one that is over tells of a parked end, if any. */
  ghost predicate Drained(x: Stream, y: Stream)
    requires x.stack != []
  {
    var r, may := x.rcv, !x.rcv.readPaused && x.rcv.status == Open;
    if may && r.backlog != [] then
      && y.rcv.backlog == r.backlog[1..] && y.rcv.eofPending == r.eofPending && y.rcv.eofSeen == r.eofSeen
      && y.rcv.handed == r.handed + (if r.buffered then [] else r.backlog[0])
      && y.stack == x.stack + [Feeding(if r.buffered then r.backlog[0] else [], |r.backlog[0]|)]
    else
      && y.rcv.backlog == r.backlog && y.rcv.handed == r.handed
      && y.rcv.eofSeen == (r.eofSeen || (may && r.eofPending)) && y.rcv.eofPending == (r.eofPending && !may)
      && y.stack == x.stack[..|x.stack| - 1] + if may && r.eofPending then [Callback] else []
  }

  /** A turn of feeding hands the next piece up, or pays for the whole packet. */
  ghost predicate Fed(x: Stream, take: nat, y: Stream)
    requires x.stack != [] && x.stack[|x.stack| - 1].Feeding? && CanTake(x.stack[|x.stack| - 1], take)
  {
    var f := x.stack[|x.stack| - 1];
    && (f.left != [] && x.rcv.status == Open ==> y.rcv.handed == x.rcv.handed + f.left[..take])
    && (f.left == [] && !x.snd.closed ==> y.snd.buffer == x.snd.buffer - f.n)
    && y.rcv.status == x.rcv.status && y.snd.closed == x.snd.closed
  }

  lemma FeedMoves(x: Stream, take: nat)
    requires Inv(x) && x.stack != [] && x.stack[|x.stack| - 1].Feeding? && CanTake(x.stack[|x.stack| - 1], take)
    ensures Fed(x, take, FeedOne(x, take))
  {
    hide Inv;
    if x.stack[|x.stack| - 1].left == [] {
      CreditKeeps(x, x.stack[|x.stack| - 1].n);
    }
  }
}
