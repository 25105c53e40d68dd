/**
  The trace as text: one delimited line an event, which is what the trace hash is
  taken over.  Times appear as the text that stands for them.
*/
module Trace {
  import opened Decimals

  datatype Event = Event(kind: string, when: string, id: int, name: string, host: string)

  function Line(e: Event): string {
    e.kind + "|" + e.when + "|" + Signed(e.id) + "|" + e.host + "|" + e.name + "\n"
  }

  function Text(events: seq<Event>): string {
    if events == [] then "" else Line(events[0]) + Text(events[1..])
  }

  predicate Free(s: string, c: char) {
    forall i :: 0 <= i < |s| ==> s[i] != c
  }

  /** Separators stay out of every field but the last, and line ends out of all of them. */
  predicate Clean(e: Event) {
    && Free(e.kind, '|') && Free(e.when, '|') && Free(e.host, '|')
    && Free(e.kind, '\n') && Free(e.when, '\n') && Free(e.host, '\n') && Free(e.name, '\n')
  }

  /** The first separator decides where a field ends. */
  lemma FieldsMatch(a: string, x: string, b: string, y: string, c: char)
    requires Free(a, c) && Free(b, c)
    requires a + [c] + x == b + [c] + y
    ensures a == b && x == y
  {
    var s, t := a + [c] + x, b + [c] + y;
    assert s[|a|] == c && t[|b|] == c;
    assert forall i :: 0 <= i < |a| ==> s[i] == a[i];
    assert forall i :: 0 <= i < |b| ==> t[i] == b[i];
    assert |a| == |b|;
    assert a == s[..|a|] == t[..|b|] == b;
    assert x == s[|a| + 1..] == t[|b| + 1..] == y;
  }

  lemma SignedClean(i: int)
    ensures Free(Signed(i), '|')
  {
    DecimalIsDigits(if i < 0 then -i else i);
  }

  /** A line and what follows it, from its first field inwards. */
  lemma LineNests(e: Event, x: string)
    ensures Line(e) + x == e.kind + "|" + (e.when + "|" + (Signed(e.id) + "|" + (e.host + "|" + (e.name + "\n" + x))))
  {
    hide Signed;
    var id := Signed(e.id);
    var a := e.name + "\n" + x;
    assert e.kind + "|" + e.when + "|" + id + "|" + e.host + "|" + e.name + "\n" + x
        == e.kind + "|" + e.when + "|" + id + "|" + (e.host + "|" + a);
    assert e.kind + "|" + e.when + "|" + id + "|" + (e.host + "|" + a)
        == e.kind + "|" + (e.when + "|" + (id + "|" + (e.host + "|" + a)));
  }

  /** One line says one event: every field can be read back. */
  lemma LineInjective(e: Event, x: string, f: Event, y: string)
    requires Clean(e) && Clean(f) && Line(e) + x == Line(f) + y
    ensures e == f && x == y
  {
    hide Line, Signed;
    LineNests(e, x);
    LineNests(f, y);
    var e4, f4 := e.name + "\n" + x, f.name + "\n" + y;
    var e3, f3 := e.host + "|" + e4, f.host + "|" + f4;
    var e2, f2 := Signed(e.id) + "|" + e3, Signed(f.id) + "|" + f3;
    FieldsMatch(e.kind, e.when + "|" + e2, f.kind, f.when + "|" + f2, '|');
    FieldsMatch(e.when, e2, f.when, f2, '|');
    SignedClean(e.id);
    SignedClean(f.id);
    FieldsMatch(Signed(e.id), e3, Signed(f.id), f3, '|');
    SignedInjective(e.id, f.id);
    FieldsMatch(e.host, e4, f.host, f4, '|');
    FieldsMatch(e.name, x, f.name, y, '\n');
  }

  /** Two traces with the same text are the same trace. */
  lemma {:induction false} TextInjective(a: seq<Event>, b: seq<Event>)
    requires forall i :: 0 <= i < |a| ==> Clean(a[i])
    requires forall i :: 0 <= i < |b| ==> Clean(b[i])
    requires Text(a) == Text(b)
    ensures a == b
  {
    if a != [] && b != [] {
      LineInjective(a[0], Text(a[1..]), b[0], Text(b[1..]));
      TextInjective(a[1..], b[1..]);
      assert a == [a[0]] + a[1..] && b == [b[0]] + b[1..];
    }
  }

  /** The text of a trace is the lines of its events, one after another. */
  lemma {:induction false} TextJoin(a: seq<Event>, b: seq<Event>)
    ensures Text(a + b) == Text(a) + Text(b) && forall e :: Text([e]) == Line(e)
  {
    hide Line;
    forall e ensures Text([e]) == Line(e) {
      assert [e][1..] == [] && Text([]) == "";
      assert Line(e) + "" == Line(e);
    }
    if a == [] {
      assert a + b == b;
    } else {
      TextJoin(a[1..], b);
      assert (a + b)[1..] == a[1..] + b;
    }
  }

  class Recorder {
    var events: seq<Event>

    constructor ()
      ensures events == []
    {
      events := [];
    }

    method Record(kind: string, when: string, id: int, name: string, host: string)
      modifies this
      ensures events == old(events) + [Event(kind, when, id, name, host)]
    {
      events := events + [Event(kind, when, id, name, host)];
    }

    /** What the digest is fed, line by line. */
    method Serialize() returns (text: string)
      ensures text == Text(events)
    {
      hide Line;
      text := "";
      for i := 0 to |events|
        invariant text + Text(events[i..]) == Text(events)
      {
        assert events[i..][1..] == events[i + 1..];
        text := text + Line(events[i]);
      }
      assert events[|events|..] == [];
    }
  }
}
