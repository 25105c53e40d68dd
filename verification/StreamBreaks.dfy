/** Exactly when a resume in the middle of a packet breaks order, and two runs in which one does. */
module StreamBreaks {
  import opened Stream
  import opened StreamProof
  import opened StreamOrder

  // ------------------------------------------------------------------
  // The resume step, both ways
  // ------------------------------------------------------------------

  /** `y` is where the calls in progress lead if the protocol takes these pieces and does nothing else. */
  ghost predicate Unwinds(x: Stream, takes: seq<nat>, y: Stream)
    decreases |takes|
  {
    if takes == [] then y == x
    else Enabled(x, Proceed(takes[0])) && Unwinds(Next(x, Proceed(takes[0])), takes[1..], y)
  }

  lemma {:induction false} UnwindsInOrder(x: Stream, takes: seq<nat>, y: Stream)
    requires Inv(x) && InOrder(x) && Unwinds(x, takes, y)
    ensures Inv(y) && y.rcv.next <= |y.sent| && InOrder(y)
    decreases |takes|
  {
    hide Inv, InOrder, Next, Enabled;
    BoundOf(x);
    if takes != [] {
      StepKeeps(x, Proceed(takes[0]));
      StepOrder(x, Proceed(takes[0]), Next(x, Proceed(takes[0])));
      UnwindsInOrder(Next(x, Proceed(takes[0])), takes[1..], y);
    }
  }

  /** A reader in order that may resume. */
  ghost predicate MayResume(x: Stream) {
    Inv(x) && InOrder(x) && Quiet(x.stack) && x.rcv.status == Open && x.rcv.readPaused
  }

  /** A resume keeps its promises, whatever comes of the calls it is in the middle of, exactly when
      nothing of a packet is left to feed, or nothing is parked behind it. */
  lemma ResumeExact(x: Stream)
    requires MayResume(x)
    ensures Orderly(x, DoResume) <==>
      forall takes, y :: Unwinds(ResumeReading(x), takes, y) ==> Sound(y)
  {
    hide Orderly, MayResume, Unwinds, Sound, ResumeReading;
    if Orderly(x, DoResume) {
      forall takes, y | Unwinds(ResumeReading(x), takes, y) ensures Sound(y) {
        ResumeSound(x, takes, y);
      }
    } else {
      var takes, y := ResumeBreaks(x);
    }
  }

  lemma ResumeSound(x: Stream, takes: seq<nat>, y: Stream)
    requires MayResume(x) && Orderly(x, DoResume) && Unwinds(ResumeReading(x), takes, y)
    ensures Sound(y)
  {
    hide Inv, InOrder, Orderly, Unwinds, Sound;
    ResumeKeeps(x);
    ResumeOrder(x);
    UnwindsInOrder(ResumeReading(x), takes, y);
    OrderIsSound(y);
  }

  lemma ResumeBreaks(x: Stream) returns (takes: seq<nat>, y: Stream)
    requires MayResume(x) && !Orderly(x, DoResume)
    ensures Unwinds(ResumeReading(x), takes, y) && !Sound(y)
    ensures x.rcv.backlog != [] ==> !(y.rcv.handed <= Written(y.sent))
    ensures x.rcv.backlog == [] ==> y.rcv.eofSeen && |y.rcv.handed| < |Written(y.sent)|
  {
    hide Inv, InOrder, Unwinds, Next, Written;
    LeftBehind(x);
    if x.rcv.backlog == [] {
      takes, y := BreaksEnd(x);
    } else if x.rcv.buffered {
      takes, y := BreaksPiece(x);
    } else {
      takes, y := BreaksWhole(x);
    }
  }

  lemma BreaksEnd(x: Stream) returns (takes: seq<nat>, y: Stream)
    requires MayResume(x) && x.rcv.backlog == [] && x.rcv.eofPending && |x.rcv.handed| < |Written(x.sent)|
    ensures Unwinds(ResumeReading(x), takes, y) && y.rcv.eofSeen && y.rcv.handed == x.rcv.handed && y.sent == x.sent
  {
    hide Inv, InOrder, Unwinds, Written;
    var z := ResumeReading(x);
    y, takes := Next(z, Proceed(0)), [0];
    assert y.rcv.eofSeen && y.rcv.handed == x.rcv.handed && y.sent == x.sent;
    UnwindOne(z, 0);
  }

  lemma BreaksPiece(x: Stream) returns (takes: seq<nat>, y: Stream)
    requires MayResume(x) && x.rcv.backlog != [] && x.rcv.buffered
    requires x.rcv.backlog[0] != [] && x.rcv.backlog[0][0].place > |x.rcv.handed|
    ensures Unwinds(ResumeReading(x), takes, y) && !(y.rcv.handed <= Written(y.sent))
  {
    hide Inv, InOrder, Unwinds, Written, Sound;
    var z, chunk := ResumeReading(x), x.rcv.backlog[0];
    var w := Next(z, Proceed(0));
    assert w.stack == Push(z.stack, Feeding(chunk, |chunk|)) && w.rcv.status == Open;
    y, takes := Next(w, Proceed(1)), [0, 1];
    assert y.rcv.handed == x.rcv.handed + chunk[..1];
    UnwindTwo(z, 0, 1);
    OutOfPlace(x, y, chunk[0]);
  }

  lemma BreaksWhole(x: Stream) returns (takes: seq<nat>, y: Stream)
    requires MayResume(x) && x.rcv.backlog != [] && !x.rcv.buffered
    requires x.rcv.backlog[0] != [] && x.rcv.backlog[0][0].place > |x.rcv.handed|
    ensures Unwinds(ResumeReading(x), takes, y) && !(y.rcv.handed <= Written(y.sent))
  {
    hide Inv, InOrder, Unwinds, Written, Sound;
    var z, chunk := ResumeReading(x), x.rcv.backlog[0];
    y, takes := Next(z, Proceed(0)), [0];
    assert y.rcv.handed == x.rcv.handed + chunk;
    UnwindOne(z, 0);
    OutOfPlace(x, y, chunk[0]);
  }

  lemma UnwindOne(x: Stream, a: nat)
    requires Enabled(x, Proceed(a))
    ensures Unwinds(x, [a], Next(x, Proceed(a)))
  {
    hide Next, Enabled;
    assert Unwinds(Next(x, Proceed(a)), [], Next(x, Proceed(a)));
  }

  lemma UnwindTwo(x: Stream, a: nat, b: nat)
    requires Enabled(x, Proceed(a)) && Enabled(Next(x, Proceed(a)), Proceed(b))
    ensures Unwinds(x, [a, b], Next(Next(x, Proceed(a)), Proceed(b)))
  {
    hide Next, Enabled;
    UnwindOne(Next(x, Proceed(a)), b);
    assert [a, b][1..] == [b];
  }

  /** With a packet half fed, not all that was written is handed up, and what waits comes later. */
  lemma LeftBehind(x: Stream)
    requires Inv(x) && InOrder(x) && x.rcv.status == Open && Left(x.stack) != []
    ensures |x.rcv.handed| < |Written(x.sent)|
    ensures x.rcv.backlog != [] ==> x.rcv.backlog[0] != [] && x.rcv.backlog[0][0].place > |x.rcv.handed|
  {
    hide Written, Left, Placed, Balanced;
    WrittenPrefix(x.sent, x.rcv.next);
    var w, h, l := Written(x.sent[..x.rcv.next]), x.rcv.handed, Left(x.stack);
    if x.rcv.backlog != [] {
      var chunk, j := x.rcv.backlog[0], Joined(x.rcv.backlog[1..]);
      assert Joined(x.rcv.backlog) == chunk + j;
      assert w == h + l + (chunk + j);
      assert w[|h| + |l|] == chunk[0];
      assert Written(x.sent)[|h| + |l|] == chunk[0];
    }
  }

  lemma PrefixInPlace(a: Bytes, w: Bytes, i: nat)
    requires InPlace(w) && i < |a|
    ensures a <= w ==> a[i].place == i
  {
  }

  lemma OutOfPlace(x: Stream, y: Stream, b: Octet)
    requires Inv(x) && y.sent == x.sent && b.place > |x.rcv.handed|
    requires x.rcv.handed + [b] <= y.rcv.handed
    ensures !(y.rcv.handed <= Written(y.sent))
  {
    hide Written, Placed, Balanced, Kept;
    assert y.rcv.handed[|x.rcv.handed|] == b;
    PrefixInPlace(y.rcv.handed, Written(y.sent), |x.rcv.handed|);
  }

  // ------------------------------------------------------------------
  // Two runs
  // ------------------------------------------------------------------

  ghost predicate Reachable(x: Stream) {
    exists r :: Reaches(r, x)
  }

  ghost predicate Reaches(r: Run, x: Stream) {
    IsOrderlyRun(r) && r.states[|r.steps|] == x
  }

  function Longer(r: Run, s: Step, y: Stream): Run {
    Run(r.states + [y], r.steps + [s])
  }

  lemma Extended(r: Run, s: Step)
    requires IsRun(r) && Enabled(r.states[|r.steps|], s)
    ensures IsRun(Longer(r, s, Next(r.states[|r.steps|], s)))
  {
    hide Enabled, Next, Initial;
    var q := Longer(r, s, Next(r.states[|r.steps|], s));
    forall i | 0 <= i < |q.steps|
      ensures Enabled(q.states[i], q.steps[i]) && q.states[i + 1] == Next(q.states[i], q.steps[i])
    {
      if i < |r.steps| {
        assert Enabled(r.states[i], r.steps[i]) && r.states[i + 1] == Next(r.states[i], r.steps[i]);
      }
    }
  }

  lemma Walk(x: Stream, s: Step) returns (y: Stream)
    requires Reachable(x) && Enabled(x, s) && Orderly(x, s)
    ensures y == Next(x, s) && Reachable(y)
  {
    hide Enabled, Next, Initial, Orderly;
    y := Next(x, s);
    var r :| Reaches(r, x);
    Extended(r, s);
    var q := Longer(r, s, y);
    forall i | 0 <= i < |q.steps| ensures Orderly(q.states[i], q.steps[i]) {
      if i < |r.steps| {
        assert Orderly(r.states[i], r.steps[i]);
      }
    }
    assert Reaches(q, y);
  }

  lemma {:induction false} WalkOut(r: Run, takes: seq<nat>, y: Stream) returns (q: Run)
    requires IsRun(r) && Unwinds(r.states[|r.steps|], takes, y)
    ensures IsRun(q) && q.states[|q.steps|] == y
    decreases |takes|
  {
    hide Enabled, Next, Initial;
    q := r;
    if takes != [] {
      var s := Proceed(takes[0]);
      Extended(r, s);
      q := WalkOut(Longer(r, s, Next(r.states[|r.steps|], s)), takes[1..], y);
    }
  }

  /** Connected, a buffered reader that has paused, and what has been parked for it. */
  ghost predicate Parked(x: Stream, backlog: seq<Bytes>, eof: bool) {
    && Reachable(x) && x.stack == [] && x.wire == {} && x.held == {} && !x.cut
    && x.rcv.status == Open && x.rcv.readPaused && x.rcv.buffered
    && x.rcv.next == |x.sent| && x.rcv.early == map[] && x.rcv.handed == []
    && x.rcv.backlog == backlog && x.rcv.eofPending == eof
    && x.snd.eofSent == eof && !x.snd.closing && !x.snd.closed && !x.snd.paused
    && x.snd.buffer == |Written(x.sent)| && x.high == 65536
  }

  lemma Connect() returns (x: Stream)
    ensures Parked(x, [], false) && Written(x.sent) == []
  {
    hide Reachable, Written;
    var x0 := Fresh();
    var x1 := Walk(x0, Arrive(0));
    assert x1.stack == [Dispatch] && x1.rcv.early == map[0 := Hand];
    var x2 := Walk(x1, Proceed(0));
    assert x2.stack == [Dispatch, Callback] && x2.rcv.status == Open && x2.rcv.early == map[];
    var x3 := Walk(x2, Proceed(0));
    assert x3.stack == [Dispatch];
    var x4 := Walk(x3, Proceed(0));
    x := Walk(x4, DoPause);
    WrittenNone();
    WrittenAppend([], Hand);
    assert [] + [Hand] == [Hand];
  }

  lemma Fresh() returns (x: Stream)
    ensures Reachable(x)
    ensures x == Stream(16384, 65536, Sender(false, false, false, 0, false, []),
                        Receiver(Absent, 0, map[], true, false, [], false, [], 0, false),
                        [Hand], {0}, {}, {}, false, [])
  {
    x := Stream(16384, 65536, Sender(false, false, false, 0, false, []),
                Receiver(Absent, 0, map[], true, false, [], false, [], 0, false),
                [Hand], {0}, {}, {}, false, []);
    assert Reaches(Run([x], []), x);
  }

  /** One more packet is written, arrives and is parked. */
  lemma Park(x: Stream, backlog: seq<Bytes>, data: seq<bv8>) returns (y: Stream)
    requires Parked(x, backlog, false) && 0 < |data| && |Written(x.sent)| + |data| <= 65536
    ensures var chunk := Numbered(data, |Written(x.sent)|);
      Parked(y, backlog + [chunk], false) && Written(y.sent) == Written(x.sent) + chunk
  {
    hide Written, Reachable;
    var p, i := Data(Numbered(data, |Written(x.sent)|)), |x.sent|;
    var x1 := Walk(x, DoWrite(data));
    WrittenAppend(x.sent, p);
    assert x1.sent == x.sent + [p] && x1.wire == {i} && x1.stack == [];
    var x2 := Walk(x1, Arrive(i));
    assert x2.stack == [Dispatch] && x2.rcv.early == map[i := p];
    var x3 := Walk(x2, Proceed(0));
    assert x3.rcv.backlog == backlog + [p.payload] && x3.stack == [Dispatch] && x3.rcv.early == map[];
    y := Walk(x3, Proceed(0));
  }

  lemma ParkEnd(x: Stream, backlog: seq<Bytes>) returns (y: Stream)
    requires Parked(x, backlog, false)
    ensures Parked(y, backlog, true) && Written(y.sent) == Written(x.sent)
  {
    hide Written, Reachable;
    var i := |x.sent|;
    var x1 := Walk(x, DoWriteEof);
    WrittenAppend(x.sent, Fin);
    assert x1.sent == x.sent + [Fin] && x1.wire == {i} && x1.stack == [];
    var x2 := Walk(x1, Arrive(i));
    assert x2.stack == [Dispatch] && x2.rcv.early == map[i := Fin];
    var x3 := Walk(x2, Proceed(0));
    assert x3.stack == [Dispatch] && x3.rcv.early == map[];
    y := Walk(x3, Proceed(0));
  }

  /** The drain feeds one byte of the first packet, and the protocol pauses and resumes before the next. */
  lemma Interrupt(x: Stream, chunk: Bytes, rest: seq<Bytes>, eof: bool) returns (y: Stream)
    requires Parked(x, [chunk] + rest, eof) && |chunk| == 2
    ensures Reachable(y) && y.sent == x.sent && y.rcv.status == Open && y.rcv.readPaused
    ensures y.rcv.handed == chunk[..1] && y.stack == [Drain, Feeding(chunk[1..], 2)]
    ensures y.rcv.backlog == rest && y.rcv.eofPending == eof
  {
    hide Written, Reachable;
    var x1 := Walk(x, DoResume);
    assert x1.stack == [Drain];
    var x2 := Walk(x1, Proceed(0));
    assert x2.rcv.backlog == rest && x2.stack == [Drain, Feeding(chunk, 2)];
    var x3 := Walk(x2, Proceed(1));
    assert x3.rcv.handed == chunk[..1] && x3.stack == [Drain, Feeding(chunk[1..], 2)];
    y := Walk(x3, DoPause);
  }

  /** From a reachable place where a resume is not orderly, a run goes on to break its promises. */
  lemma Break(x: Stream) returns (r: Run)
    requires Reachable(x) && Quiet(x.stack) && x.rcv.status == Open && x.rcv.readPaused && !Orderly(x, DoResume)
    ensures IsRun(r)
    ensures x.rcv.backlog != [] ==> !(r.states[|r.steps|].rcv.handed <= Written(r.states[|r.steps|].sent))
    ensures x.rcv.backlog == [] ==>
      r.states[|r.steps|].rcv.eofSeen && |r.states[|r.steps|].rcv.handed| < |Written(r.states[|r.steps|].sent)|
  {
    hide Inv, InOrder, Orderly, Unwinds, Written, ResumeReading, Initial;
    var q :| Reaches(q, x);
    RunOrder(q, |q.steps|);
    var takes, y := ResumeBreaks(x);
    assert Enabled(x, DoResume) && Next(x, DoResume) == ResumeReading(x);
    Extended(q, DoResume);
    r := WalkOut(Longer(q, DoResume, ResumeReading(x)), takes, y);
  }

  lemma NotOrderly(x: Stream, chunk: Bytes)
    requires |chunk| == 2 && x.stack == [Drain, Feeding(chunk[1..], 2)] && x.rcv.status == Open && x.rcv.readPaused
    requires x.rcv.backlog != [] || x.rcv.eofPending
    ensures !Orderly(x, DoResume)
  {
    LeftHas(x.stack, 1);
  }

  /** Two packets of two bytes are parked; the reader takes one byte of the first, pauses and resumes,
      and is handed the second packet before the rest of the first. */
  lemma BytesOvertake() returns (r: Run)
    ensures IsRun(r) && !(r.states[|r.steps|].rcv.handed <= Written(r.states[|r.steps|].sent))
  {
    hide Parked, Reachable, Written;
    var x0 := Connect();
    var a, b := Numbered([97, 98], 0), Numbered([99, 100], 2);
    var x1 := Park(x0, [], [97, 98]);
    assert [] + [a] == [a] && [a] + [b] == [a, b];
    var x2 := Park(x1, [a], [99, 100]);
    var y := Interrupt(x2, a, [b], false);
    NotOrderly(y, a);
    r := Break(y);
  }

  /** One packet of two bytes and the end of stream are parked; the reader takes one byte, pauses and
      resumes, and is told of the end before the other byte. */
  lemma EndOvertakes() returns (r: Run)
    ensures IsRun(r)
    ensures r.states[|r.steps|].rcv.eofSeen && |r.states[|r.steps|].rcv.handed| < |Written(r.states[|r.steps|].sent)|
  {
    hide Parked, Reachable, Written;
    var x0 := Connect();
    var a := Numbered([97, 98], 0);
    var x1 := Park(x0, [], [97, 98]);
    assert [] + [a] == [a] == [a] + [];
    var x2 := ParkEnd(x1, [a]);
    var y := Interrupt(x2, a, [], true);
    NotOrderly(y, a);
    r := Break(y);
  }
}
