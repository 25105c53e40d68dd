/** The bytes themselves: what a reader is handed is what the writer's accepted writes said. */
module StreamData {
  import opened Stream
  import opened StreamProof
  import opened StreamOrder

  function Values(bytes: Bytes): seq<bv8> {
    seq(|bytes|, i requires 0 <= i < |bytes| => bytes[i].value)
  }

  /** What a step writes: the data of a write that is not refused. */
  function Accepted(x: Stream, s: Step): seq<bv8> {
    if s.DoWrite? && !x.snd.eofSent && !x.snd.closing && !x.snd.closed then s.data else []
  }

  /** All that was written in the first `k` steps of a run, in order. */
  function Wrote(r: Run, k: nat): seq<bv8>
    requires k <= |r.steps| && k <= |r.states|
  {
    if k == 0 then [] else Wrote(r, k - 1) + Accepted(r.states[k - 1], r.steps[k - 1])
  }

  lemma ValuesAppend(a: Bytes, b: Bytes)
    ensures Values(a + b) == Values(a) + Values(b)
  {
  }

  lemma NumberedValues(data: seq<bv8>, from: nat)
    ensures Values(Numbered(data, from)) == data
  {
  }

  lemma WriteSays(x: Stream, data: seq<bv8>)
    ensures Values(Written(Write(x, data).sent)) == Values(Written(x.sent)) + Accepted(x, DoWrite(data))
  {
    hide Written, Values, Numbered;
    var bytes := Numbered(data, |Written(x.sent)|);
    WrittenAppend(x.sent, Data(bytes));
    ValuesAppend(Written(x.sent), bytes);
    NumberedValues(data, |Written(x.sent)|);
    assert Values(Written(x.sent)) + [] == Values(Written(x.sent));
  }

  /** Nothing but a write adds data to the stream. */
  lemma OthersSay(x: Stream, s: Step)
    requires Enabled(x, s) && !s.DoWrite?
    ensures Written(Next(x, s).sent) == Written(x.sent)
  {
    hide Written, Numbered, Return, Joined;
    WrittenAppend(x.sent, Fin);
    WrittenAppend(x.sent, Rst);
    if s.Proceed? {
      ReturnSends(x, s.take);
    }
  }

  lemma ReturnSends(x: Stream, take: nat)
    requires x.stack != [] && CanTake(x.stack[|x.stack| - 1], take)
    ensures Return(x, take).sent == x.sent
  {
    hide DataArrives, EofArrives, HandUp, Credit;
    ArrivalSends(x.(rcv := x.rcv.(next := x.rcv.next + 1, early := x.rcv.early - {x.rcv.next})));
    DrainSends(x);
    CreditSends();
  }

  lemma ArrivalSends(y: Stream)
    ensures forall data :: DataArrives(y, data).sent == y.sent
    ensures EofArrives(y).sent == y.sent
  {
  }

  lemma DrainSends(x: Stream)
    requires x.stack != []
    ensures DrainOne(x).sent == x.sent
  {
  }

  lemma CreditSends()
    ensures forall x: Stream, n: nat :: Credit(x, n).sent == x.sent
  {
  }

  lemma {:induction false} SentSays(r: Run, k: nat)
    requires IsRun(r) && k < |r.states|
    ensures Values(Written(r.states[k].sent)) == Wrote(r, k)
  {
    hide Written, Values, Next, Enabled, Write, Accepted;
    if k == 0 {
      NothingYet(r);
    } else {
      var x, s := r.states[k - 1], r.steps[k - 1];
      SentSays(r, k - 1);
      StepSays(x, s);
    }
  }

  lemma NothingYet(r: Run)
    requires IsRun(r)
    ensures Values(Written(r.states[0].sent)) == []
  {
    hide Written;
    InitialSent(r.states[0]);
  }

  lemma StepSays(x: Stream, s: Step)
    requires Enabled(x, s)
    ensures Values(Written(Next(x, s).sent)) == Values(Written(x.sent)) + Accepted(x, s)
  {
    hide Written, Values, Write;
    if s.DoWrite? {
      WriteSays(x, s.data);
    } else {
      hide Next, Enabled;
      OthersSay(x, s);
      assert Accepted(x, s) == [];
      assert Values(Written(x.sent)) + [] == Values(Written(x.sent));
    }
  }

  lemma ValuesPrefix(a: Bytes, b: Bytes)
    requires a <= b
    ensures Values(a) <= Values(b)
  {
  }

  /** However it is cut, delayed, paused and taken in pieces, an orderly reader has been handed a prefix of
      what the accepted writes said, and is told of the end only after all of it. */
  lemma DataInOrder(r: Run, k: nat)
    requires IsOrderlyRun(r) && k < |r.states|
    ensures Values(r.states[k].rcv.handed) <= Wrote(r, k)
    ensures r.states[k].rcv.eofSeen ==> Values(r.states[k].rcv.handed) == Wrote(r, k)
  {
    hide Written, Values, Wrote, Orderly;
    assert IsRun(r);
    hide IsRun;
    SentSays(r, k);
    PrefixDelivery(r, k);
    ValuesPrefix(r.states[k].rcv.handed, Written(r.states[k].sent));
  }

  /** With nothing on the wire, held or lost and reading not paused, it has been handed all of it. */
  lemma DataArrived(r: Run, k: nat)
    requires IsOrderlyRun(r) && k < |r.states|
    requires var x := r.states[k];
      && x.stack == [] && x.wire == {} && x.held == {} && x.lost == {}
      && x.rcv.status == Open && !x.rcv.readPaused
    ensures Values(r.states[k].rcv.handed) == Wrote(r, k)
  {
    hide Written, Values, Wrote, Orderly;
    assert IsRun(r);
    hide IsRun;
    SentSays(r, k);
    NothingStuck(r, k);
  }

  /** In any run, orderly or not, a byte that is handed up is the byte that was written at its place. */
  lemma DataTrue(r: Run, k: nat, i: nat)
    requires IsRun(r) && k < |r.states| && i < |r.states[k].rcv.handed|
    ensures var o := r.states[k].rcv.handed[i]; o.place < |Wrote(r, k)| && o.value == Wrote(r, k)[o.place]
  {
    hide Written, Left, Joined, Placed, Balanced, Wrote, IsRun;
    SentSays(r, k);
    RunKeeps(r, k);
    EachOnce(r, k);
    var o, w := r.states[k].rcv.handed[i], Written(r.states[k].sent);
    assert o in multiset(r.states[k].rcv.handed);
    assert o in multiset(w);
    var j :| 0 <= j < |w| && w[j] == o;
    assert Values(w)[j] == o.value;
  }
}
