/**
  One direction of a simulated stream connection: the writing end, the packets
  between, and the reading end with its reassembly, its pause and backlog, and the
  credit it gives back.

  Protocol callbacks may act on either end before they return, so what the code
  has called and not yet returned from is kept as a stack of frames: between two
  frames' own moves any protocol action may come.  A plain protocol takes a packet
  in one call; a buffered one is fed piece by piece, in pieces of its choosing, and
  may act between them.  The stack is empty at every step boundary of the event
  loop, which is when a packet can arrive.
*/
module Stream {
  /** A byte of the stream, and the place it was written at. */
  datatype Octet = Octet(value: bv8, place: nat)

  type Bytes = seq<Octet>

  /** Bytes as they are written, from a place on. */
  function Numbered(data: seq<bv8>, from: nat): Bytes {
    seq(|data|, i requires 0 <= i < |data| => Octet(data[i], from + i))
  }

  /** Sequence number 0 is this direction's handshake packet. */
  datatype Packet = Hand | Data(payload: Bytes) | Fin | Rst

  datatype Frame =
    | Dispatch                      // releasing packets in sequence order
    | Drain                         // handing the backlog up after reading resumed
    | Feeding(left: Bytes, n: nat)  // the protocol is taking a packet of n bytes, and `left` is still to come
    | Callback                      // the protocol is running for any other reason

  datatype Sender = Sender(
    eofSent: bool,
    closing: bool,
    closed: bool,
    buffer: int,
    paused: bool,
    signals: seq<bool>)     // pause and resume callbacks so far; true is a pause

  datatype Status = Absent | Open | Gone

  datatype Receiver = Receiver(
    status: Status,
    next: nat,
    early: map<nat, Packet>,
    buffered: bool,         // the protocol is fed through a buffer of its own
    readPaused: bool,
    backlog: seq<Bytes>,
    eofPending: bool,
    handed: Bytes,          // everything handed to the protocol
    stranded: nat,          // bytes handed up and never paid for: the end went away in the middle of a packet
    eofSeen: bool)          // the protocol was told of the end

  /** `sent` is every packet ever sent, by sequence number. */
  datatype Stream = Stream(
    low: nat,
    high: nat,
    snd: Sender,
    rcv: Receiver,
    sent: seq<Packet>,
    wire: set<nat>,
    held: set<nat>,
    lost: set<nat>,
    cut: bool,
    stack: seq<Frame>)

  function Written(sent: seq<Packet>): Bytes {
    if sent == [] then []
    else
      var p := sent[|sent| - 1];
      Written(sent[..|sent| - 1]) + if p.Data? then p.payload else []
  }

  function Joined(chunks: seq<Bytes>): Bytes {
    if chunks == [] then [] else chunks[0] + Joined(chunks[1..])
  }

  /** Watermarks the way the standard library derives them. */
  function Limits(high: int, low: int, highGiven: bool, lowGiven: bool): (int, int) {
    var h := if highGiven then high else if lowGiven then 4 * low else 64 * 1024;
    (if lowGiven then low else h / 4, h)
  }

  predicate LegalLimits(low: int, high: int) {
    high >= low >= 0
  }

  // ------------------------------------------------------------------
  // The writing end
  // ------------------------------------------------------------------

  function Push(stack: seq<Frame>, f: Frame): seq<Frame> {
    stack + [f]
  }

  /** Hand a packet to the network: held if the link is cut, on the wire if not. */
  function Transmit(x: Stream, p: Packet): Stream {
    var seqNo := |x.sent|;
    if x.cut then x.(sent := x.sent + [p], held := x.held + {seqNo})
    else x.(sent := x.sent + [p], wire := x.wire + {seqNo})
  }

  function Charge(x: Stream, n: nat): Stream {
    var s := x.snd.(buffer := x.snd.buffer + n);
    if s.buffer <= x.high || s.paused then x.(snd := s)
    else x.(snd := s.(paused := true, signals := s.signals + [true]), stack := Push(x.stack, Callback))
  }

  function Credit(x: Stream, n: nat): Stream {
    if x.snd.closed then x
    else
      var s := x.snd.(buffer := if x.snd.buffer >= n then x.snd.buffer - n else 0);
      if !s.paused || s.buffer > x.low then x.(snd := s)
      else x.(snd := s.(paused := false, signals := s.signals + [false]), stack := Push(x.stack, Callback))
  }

  /** Writing past the end of stream raises, and changes nothing. */
  function Write(x: Stream, data: seq<bv8>): Stream {
    if x.snd.eofSent || x.snd.closing || x.snd.closed || data == [] then x
    else Charge(Transmit(x, Data(Numbered(data, |Written(x.sent)|))), |data|)
  }

  function WriteEof(x: Stream): Stream {
    if x.snd.eofSent || x.snd.closed then x
    else Transmit(x.(snd := x.snd.(eofSent := true)), Fin)
  }

  function Close(x: Stream): Stream {
    if x.snd.closing || x.snd.closed then x
    else
      var y := x.(snd := x.snd.(closing := true));
      if y.snd.eofSent then y else Transmit(y.(snd := y.snd.(eofSent := true)), Fin)
  }

  function Abort(x: Stream): Stream {
    if x.snd.closed then x
    else Transmit(x.(snd := x.snd.(closing := true)), Rst)
  }

  /** Nothing can be owed on a connection that no longer exists. */
  function FinishSender(x: Stream): Stream {
    x.(snd := x.snd.(closed := true, closing := true, buffer := 0, paused := false))
  }

  // ------------------------------------------------------------------
  // The reading end
  // ------------------------------------------------------------------

  /** Start handing a packet to the protocol: all at once, or piece by piece. */
  function HandUp(x: Stream, data: Bytes): Stream {
    if x.rcv.buffered then x.(stack := Push(x.stack, Feeding(data, |data|)))
    else x.(rcv := x.rcv.(handed := x.rcv.handed + data), stack := Push(x.stack, Feeding([], |data|)))
  }

  /** One turn of the feeding loop: `take` bytes more, or the packet is paid for.
      With the end gone there is no protocol left to feed, and the call raises. */
  function FeedOne(x: Stream, take: nat): Stream
    requires x.stack != [] && x.stack[|x.stack| - 1].Feeding? && CanTake(x.stack[|x.stack| - 1], take)
  {
    var f, rest := x.stack[|x.stack| - 1], x.stack[..|x.stack| - 1];
    if f.left == [] then Credit(x.(stack := rest), f.n)
    else if x.rcv.status != Open then
      x.(rcv := x.rcv.(stranded := x.rcv.stranded + if f.n >= |f.left| then f.n - |f.left| else 0), stack := rest)
    else
      x.(rcv := x.rcv.(handed := x.rcv.handed + f.left[..take]), stack := Push(rest, Feeding(f.left[take..], f.n)))
  }

  /** A buffer with room for something; an empty one is a protocol's bug. */
  predicate CanTake(f: Frame, take: nat) {
    f.Feeding? && f.left != [] ==> 0 < take <= |f.left|
  }

  function EofArrives(x: Stream): Stream {
    if x.rcv.status != Open then x
    else if x.rcv.readPaused then x.(rcv := x.rcv.(eofPending := true))
    else x.(rcv := x.rcv.(eofSeen := true), stack := Push(x.stack, Callback))
  }

  function DataArrives(x: Stream, data: Bytes): Stream {
    if x.rcv.status != Open then x
    else if x.rcv.readPaused then x.(rcv := x.rcv.(backlog := x.rcv.backlog + [data]))
    else HandUp(x, data)
  }

  /** A reset tears the end down on the spot, and its protocol is told at once. */
  function ResetArrives(x: Stream): Stream {
    if x.rcv.status == Gone then x
    else x.(rcv := x.rcv.(status := Gone), stack := Push(x.stack, Callback))
  }

  /** One turn of the reassembly loop: the next packet in order, or the loop is over. */
  function DispatchOne(x: Stream): Stream
    requires x.stack != []
  {
    if x.rcv.next !in x.rcv.early then x.(stack := x.stack[..|x.stack| - 1])
    else
      var p := x.rcv.early[x.rcv.next];
      var y := x.(rcv := x.rcv.(next := x.rcv.next + 1, early := x.rcv.early - {x.rcv.next}));
      match p
      case Hand =>
        if y.rcv.status == Absent then y.(rcv := y.rcv.(status := Open), stack := Push(y.stack, Callback)) else y
      case Data(data) => DataArrives(y, data)
      case Fin => EofArrives(y)
      case Rst => ResetArrives(y)
  }

  /** One turn of the drain after reading resumed; when it ends, a parked end of stream follows. */
  function DrainOne(x: Stream): Stream
    requires x.stack != []
  {
    var r := x.rcv;
    if r.backlog != [] && !r.readPaused && r.status == Open then
      HandUp(x.(rcv := r.(backlog := r.backlog[1..])), r.backlog[0])
    else
      var y := x.(stack := x.stack[..|x.stack| - 1]);
      if r.eofPending && !r.readPaused && r.status == Open then EofArrives(y.(rcv := r.(eofPending := false)))
      else y
  }

  function PauseReading(x: Stream): Stream {
    if x.rcv.status != Open || x.rcv.readPaused then x else x.(rcv := x.rcv.(readPaused := true))
  }

  function ResumeReading(x: Stream): Stream {
    if x.rcv.status != Open || !x.rcv.readPaused then x
    else x.(rcv := x.rcv.(readPaused := false), stack := Push(x.stack, Drain))
  }

  // ------------------------------------------------------------------
  // Steps
  // ------------------------------------------------------------------

  datatype Step =
    | DoWrite(data: seq<bv8>)
    | DoWriteEof
    | DoClose
    | DoAbort
    | DoFinishSender
    | DoPause
    | DoResume
    | DoFinishReceiver
    | DoSetProtocol(buffered: bool)
    | Cut
    | Heal
    | Arrive(seqNo: nat)     // a packet's latency is over
    | Lose(seqNo: nat)       // ... and one of the two machines is down
    | Proceed(take: nat)     // the innermost call takes its next turn or returns

  /** Protocol and task code runs when no loop of the transport's own is innermost. */
  predicate Quiet(stack: seq<Frame>) {
    stack == [] || stack[|stack| - 1].Feeding? || stack[|stack| - 1].Callback?
  }

  predicate Enabled(x: Stream, s: Step) {
    match s
    case Arrive(i) => x.stack == [] && i in x.wire
    case Lose(i) => Quiet(x.stack) && (i in x.wire || i in x.held)
    case Proceed(take) => x.stack != [] && CanTake(x.stack[|x.stack| - 1], take)
    case _ => Quiet(x.stack)
  }

  function Next(x: Stream, s: Step): Stream
    requires Enabled(x, s)
  {
    match s
    case DoWrite(data) => Write(x, data)
    case DoWriteEof => WriteEof(x)
    case DoClose => Close(x)
    case DoAbort => Abort(x)
    case DoFinishSender => FinishSender(x)
    case DoPause => PauseReading(x)
    case DoResume => ResumeReading(x)
    case DoFinishReceiver => x.(rcv := x.rcv.(status := Gone))
    case DoSetProtocol(buffered) => x.(rcv := x.rcv.(buffered := buffered))
    case Cut => x.(cut := true)
    case Heal => x.(cut := false, wire := x.wire + x.held, held := {})
    case Arrive(i) =>
      if x.cut then x.(wire := x.wire - {i}, held := x.held + {i})
      else if i >= |x.sent| then x
      else
        x.(wire := x.wire - {i}, rcv := x.rcv.(early := x.rcv.early[i := x.sent[i]]), stack := [Dispatch])
    case Lose(i) => x.(wire := x.wire - {i}, held := x.held - {i}, lost := x.lost + {i})
    case Proceed(take) => Return(x, take)
  }

  function Return(x: Stream, take: nat): Stream
    requires x.stack != [] && CanTake(x.stack[|x.stack| - 1], take)
  {
    var top := x.stack[|x.stack| - 1];
    match top
    case Dispatch => DispatchOne(x)
    case Drain => DrainOne(x)
    case Feeding(_, _) => FeedOne(x, take)
    case Callback => x.(stack := x.stack[..|x.stack| - 1])
  }

  /** The handshake is on its way, and flow control was armed before the first write. */
  ghost predicate Initial(x: Stream) {
    && LegalLimits(x.low, x.high)
    && x.snd == Sender(false, false, false, 0, false, [])
    && x.rcv == Receiver(Absent, 0, map[], x.rcv.buffered, false, [], false, [], 0, false)
    && x.sent == [Hand] && x.wire + x.held == {0} && x.wire !! x.held && x.lost == {} && x.stack == []
  }

  datatype Run = Run(states: seq<Stream>, steps: seq<Step>)

  ghost predicate IsRun(r: Run) {
    && |r.states| == |r.steps| + 1
    && Initial(r.states[0])
    && forall i :: 0 <= i < |r.steps| ==>
         Enabled(r.states[i], r.steps[i]) && r.states[i + 1] == Next(r.states[i], r.steps[i])
  }
}
