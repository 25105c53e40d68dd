/** Log entries, and the prefix facts that every argument about logs rests on. */
module RaftLog {
  type Name = string

  /** One log slot.  The empty command is the no-op a leader opens its term with. */
  datatype Entry = Entry(term: nat, command: string)

  type Log = seq<Entry>

  function LastTerm(log: Log): nat {
    if log == [] then 0 else log[|log| - 1].term
  }

  /** The freshness order a voter gates on: compare last terms, then lengths. */
  predicate AtLeastAsFresh(lastTerm: nat, lastIndex: nat, log: Log) {
    lastTerm > LastTerm(log) || (lastTerm == LastTerm(log) && lastIndex >= |log|)
  }

  ghost predicate NonDecreasing(log: Log) {
    forall i, j :: 0 <= i <= j < |log| ==> log[i].term <= log[j].term
  }

  /** What a follower is left with after accepting a sender's whole log. */
  function Adopted(mine: Log, theirs: Log): Log {
    if theirs <= mine then mine else theirs
  }

  /** Two prefixes of one sequence are comparable, and the shorter comes first. */
  lemma PrefixesCompare(a: Log, b: Log, c: Log)
    requires a <= c && b <= c && |a| <= |b|
    ensures a <= b
  {
  }

  lemma CutOfPrefix(a: Log, b: Log, k: nat)
    requires a <= b && k <= |a|
    ensures a[..k] == b[..k]
  {
  }

  /** The majority rule for a cluster of a given size. */
  function Quorum(size: nat): (q: nat)
    ensures 2 * q > size && 2 * (q - 1) <= size
  {
    size / 2 + 1
  }

  /** Two majorities of one membership share a member. */
  lemma QuorumsMeet(all: set<Name>, a: set<Name>, b: set<Name>) returns (v: Name)
    requires a <= all && b <= all
    requires |a| >= Quorum(|all|) && |b| >= Quorum(|all|)
    ensures v in a && v in b
  {
    SubsetSize(a + b, all);
    assert |a + b| == |a| + |b| - |a * b|;
    assert a * b != {};
    v :| v in a * b;
  }

  lemma SubsetSize<T>(a: set<T>, b: set<T>)
    requires a <= b
    ensures |a| <= |b|
  {
    assert b == a + (b - a);
    assert |b| == |a| + |b - a|;
  }
}
