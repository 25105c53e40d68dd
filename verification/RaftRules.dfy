/**
  What the loops of the peer come to, without the functions that compute it: what a
  merge leaves in the log, what is applied and reported, and where a commit mark goes.
*/
module RaftRules {
  import opened Helpers
  import opened RaftLog
  import opened RaftPeer

  /** Of any two logs one is at least as fresh as the other, and both are only if their ends look alike. */
  lemma FreshTotal(a: Log, b: Log)
    ensures AtLeastAsFresh(LastTerm(a), |a|, b) || AtLeastAsFresh(LastTerm(b), |b|, a)
    ensures AtLeastAsFresh(LastTerm(a), |a|, b) && AtLeastAsFresh(LastTerm(b), |b|, a) <==>
      |a| == |b| && (a == [] || a[|a| - 1].term == b[|b| - 1].term)
  {
  }

  // ------------------------------------------------------------------
  // Merging
  // ------------------------------------------------------------------

  ghost predicate Known(log: Log, k: nat, e: Entry) {
    k < |log| && log[k].term == e.term
  }

  /** The first `c` entries are in the log already, as far as their terms go, and the next one is not. */
  ghost predicate FirstNews(log: Log, at: nat, entries: seq<Entry>, c: nat) {
    && c <= |entries|
    && (forall i :: 0 <= i < c ==> Known(log, at + i, entries[i]))
    && (c < |entries| ==> !Known(log, at + c, entries[c]))
  }

  /** What a log becomes: itself if nothing is news, and else itself up to the news, and the news. */
  ghost predicate Merged(log: Log, at: nat, entries: seq<Entry>, result: Log) {
    exists c: nat :: MergedFrom(log, at, entries, c, result)
  }

  ghost predicate MergedFrom(log: Log, at: nat, entries: seq<Entry>, c: nat, result: Log) {
    && FirstNews(log, at, entries, c) && at + c <= |log|
    && result == if c == |entries| then log else log[..at + c] + entries[c..]
  }

  lemma {:induction false} MergeIs(log: Log, at: nat, entries: seq<Entry>)
    requires at <= |log|
    ensures Merged(log, at, entries, Merge(log, at, entries))
    decreases |entries|
  {
    if entries == [] {
      assert MergedFrom(log, at, entries, 0, log);
    } else if at < |log| && log[at].term == entries[0].term {
      MergeIs(log, at + 1, entries[1..]);
      assert Merge(log, at, entries) == Merge(log, at + 1, entries[1..]);
      var c: nat :| MergedFrom(log, at + 1, entries[1..], c, Merge(log, at, entries));
      NewsLater(log, at, entries, c);
      assert MergedFrom(log, at, entries, c + 1, Merge(log, at, entries));
    } else {
      MergeAppends(log[..at] + [entries[0]], at + 1, entries[1..]);
      assert log[..at] + [entries[0]] + entries[1..] == log[..at] + entries == log[..at] + entries[0..];
      assert at == |log| ==> log[..at] == log;
      assert MergedFrom(log, at, entries, 0, log[..at] + entries);
    }
  }

  lemma NewsLater(log: Log, at: nat, entries: seq<Entry>, c: nat)
    requires entries != [] && at < |log| && log[at].term == entries[0].term && FirstNews(log, at + 1, entries[1..], c)
    ensures FirstNews(log, at, entries, c + 1) && entries[1..][c..] == entries[c + 1..]
  {
    forall i | 0 <= i < c + 1 ensures Known(log, at + i, entries[i]) {
      if i > 0 {
        assert Known(log, at + 1 + (i - 1), entries[1..][i - 1]);
      }
    }
    assert c + 1 < |entries| ==> entries[c + 1] == entries[1..][c];
  }

  lemma {:induction false} MergeAppends(log: Log, at: nat, entries: seq<Entry>)
    requires at == |log|
    ensures Merge(log, at, entries) == log + entries
    decreases |entries|
  {
    if entries != [] {
      MergeAppends(log + [entries[0]], at + 1, entries[1..]);
      assert log + [entries[0]] + entries[1..] == log + entries;
    }
  }

  /** The place holds the entry, or the one of its term that stood there. */
  ghost predicate InPlace(log: Log, k: nat, e: Entry, result: Log) {
    && k < |result| && result[k].term == e.term
    && (result[k] == e || (k < |log| && result[k] == log[k]))
  }

  /** After a merge every entry's place holds an entry of its term: the entry itself, or what stood there. */
  lemma MergedHolds(log: Log, at: nat, entries: seq<Entry>, result: Log)
    requires at <= |log| && Merged(log, at, entries, result)
    ensures |result| >= at + |entries| && result[..at] == log[..at]
    ensures forall i :: 0 <= i < |entries| ==> InPlace(log, at + i, entries[i], result)
  {
    var c: nat :| MergedFrom(log, at, entries, c, result);
    forall i | 0 <= i < |entries| ensures InPlace(log, at + i, entries[i], result) {
      if i < c {
        assert Known(log, at + i, entries[i]);
      } else {
        assert result[at + i] == entries[c..][i - c] == entries[i];
      }
    }
  }

  // ------------------------------------------------------------------
  // Applying
  // ------------------------------------------------------------------

  /** `more` and `news` are the entries past `lo` up to `hi` that say something, in log order, and the
      reports of their being applied. */
  ghost predicate Reports(name: Name, term: nat, log: Log, lo: nat, hi: nat, more: seq<Entry>, news: seq<Event>) {
    && AllReport(name, term, log, lo, hi, more, news)
    && Rising(news)
    && (forall k :: lo <= k < hi && k < |log| && log[k].command != "" ==> Reported(news, k + 1))
  }

  /** Between two states of a peer, what was applied and reported is every entry passed that says
      something, once, in log order. */
  ghost predicate AppliesOn(name: Name, term: nat, log: Log, lo: nat, hi: nat, applied: seq<Entry>, after: seq<Entry>,
                            events: seq<Event>, later: seq<Event>) {
    && applied <= after && events <= later
    && Reports(name, term, log, lo, hi, after[|applied|..], later[|events|..])
  }

  ghost predicate AllReport(name: Name, term: nat, log: Log, lo: nat, hi: nat, more: seq<Entry>, news: seq<Event>) {
    |more| == |news| && forall j :: 0 <= j < |news| ==> Report(name, term, log, lo, hi, more[j], news[j])
  }

  ghost predicate Rising(news: seq<Event>) {
    && (forall j :: 0 <= j < |news| ==> news[j].Applied?)
    && (forall i, j :: 0 <= i < j < |news| ==> news[i].index < news[j].index)
  }

  ghost predicate Report(name: Name, term: nat, log: Log, lo: nat, hi: nat, entry: Entry, e: Event) {
    && e.Applied? && lo < e.index <= hi && e.index <= |log| && entry == log[e.index - 1] && entry.command != ""
    && e == Applied(name, e.index, entry.term, entry.command, term)
  }

  ghost predicate Reported(news: seq<Event>, index: nat) {
    exists j :: 0 <= j < |news| && news[j].Applied? && news[j].index == index
  }

  /** What is visible between two places of the log. */
  function VisibleIn(log: Log, lo: nat, hi: nat): seq<Entry>
    requires hi <= |log|
  {
    if lo < hi then Visible(log[lo..hi]) else []
  }

  lemma VisibleNext(log: Log, lo: nat, hi: nat)
    requires lo < hi <= |log|
    ensures VisibleIn(log, lo, hi) == (if log[lo].command != "" then [log[lo]] else []) + VisibleIn(log, lo + 1, hi)
  {
    assert log[lo..hi][1..] == log[lo + 1..hi];
    assert lo + 1 == hi ==> log[lo + 1..hi] == [] && Visible([]) == [];
  }

  lemma EventsNext(p: Peer, lo: nat, hi: nat)
    requires lo < hi <= |p.log|
    ensures var e := p.log[lo];
      EventsBetween(p, lo, hi)
      == (if e.command != "" then [Applied(p.name, lo + 1, e.term, e.command, p.term)] else []) + EventsBetween(p, lo + 1, hi)
  {
  }

  lemma {:induction false} EventsReport(p: Peer, lo: nat, hi: nat)
    requires hi <= |p.log|
    ensures Reports(p.name, p.term, p.log, lo, hi, VisibleIn(p.log, lo, hi), EventsBetween(p, lo, hi))
    decreases hi - lo
  {
    if lo < hi {
      hide VisibleIn, EventsBetween, Reports;
      EventsReport(p, lo + 1, hi);
      VisibleNext(p.log, lo, hi);
      EventsNext(p, lo, hi);
      ReportsMore(p, lo, hi, VisibleIn(p.log, lo + 1, hi), EventsBetween(p, lo + 1, hi));
    }
  }

  lemma ReportsMore(p: Peer, lo: nat, hi: nat, rest: seq<Entry>, later: seq<Event>)
    requires lo < hi <= |p.log| && Reports(p.name, p.term, p.log, lo + 1, hi, rest, later)
    ensures var e := p.log[lo];
      Reports(p.name, p.term, p.log, lo, hi, (if e.command != "" then [e] else []) + rest,
              (if e.command != "" then [Applied(p.name, lo + 1, e.term, e.command, p.term)] else []) + later)
  {
    hide Reports;
    if p.log[lo].command != "" {
      OneReported(p.name, p.term, p.log, lo, hi, rest, later);
    } else {
      assert [] + rest == rest && [] + later == later;
      NoneReported(p.name, p.term, p.log, lo, hi, rest, later);
    }
  }

  lemma NoneReported(name: Name, term: nat, log: Log, lo: nat, hi: nat, rest: seq<Entry>, later: seq<Event>)
    requires lo < hi <= |log| && Reports(name, term, log, lo + 1, hi, rest, later) && log[lo].command == ""
    ensures Reports(name, term, log, lo, hi, rest, later)
  {
    hide Reported, Rising, AllReport;
    AllWider(name, term, log, lo, hi, rest, later);
  }

  lemma OneReported(name: Name, term: nat, log: Log, lo: nat, hi: nat, rest: seq<Entry>, later: seq<Event>)
    requires lo < hi <= |log| && Reports(name, term, log, lo + 1, hi, rest, later) && log[lo].command != ""
    ensures Reports(name, term, log, lo, hi, [log[lo]] + rest, [Applied(name, lo + 1, log[lo].term, log[lo].command, term)] + later)
  {
    hide Reported, Rising, AllReport;
    var e := Applied(name, lo + 1, log[lo].term, log[lo].command, term);
    AllWider(name, term, log, lo, hi, rest, later);
    AllMore(name, term, log, lo, hi, log[lo], e, rest, later);
    RisingFrom(e, later);
    forall k | lo <= k < hi && log[k].command != "" ensures Reported([e] + later, k + 1) {
      FoundAgain(e, later, k + 1, k > lo);
    }
  }

  lemma AllWider(name: Name, term: nat, log: Log, lo: nat, hi: nat, more: seq<Entry>, news: seq<Event>)
    requires AllReport(name, term, log, lo + 1, hi, more, news)
    ensures AllReport(name, term, log, lo, hi, more, news)
    ensures forall j :: 0 <= j < |news| ==> news[j].Applied? && lo + 1 < news[j].index
  {
    forall j | 0 <= j < |news| ensures Report(name, term, log, lo, hi, more[j], news[j]) && lo + 1 < news[j].index {
      assert Report(name, term, log, lo + 1, hi, more[j], news[j]);
    }
  }

  lemma AllMore(name: Name, term: nat, log: Log, lo: nat, hi: nat, entry: Entry, e: Event, more: seq<Entry>, news: seq<Event>)
    requires AllReport(name, term, log, lo, hi, more, news) && Report(name, term, log, lo, hi, entry, e)
    ensures AllReport(name, term, log, lo, hi, [entry] + more, [e] + news)
  {
    hide Report;
  }

  lemma RisingFrom(e: Event, later: seq<Event>)
    requires Rising(later) && e.Applied? && forall j :: 0 <= j < |later| ==> later[j].Applied? && e.index < later[j].index
    ensures Rising([e] + later)
  {
  }

  lemma ReportWider(name: Name, term: nat, log: Log, lo: nat, hi: nat, entry: Entry, e: Event)
    requires lo < hi <= |log|
    requires Report(name, term, log, lo + 1, hi, entry, e)
      || (entry == log[lo] && entry.command != "" && e == Applied(name, lo + 1, entry.term, entry.command, term))
    ensures Report(name, term, log, lo, hi, entry, e) && e.Applied? && lo < e.index
    ensures Report(name, term, log, lo + 1, hi, entry, e) ==> lo + 1 < e.index
  {
  }

  lemma FoundAgain(e: Event, later: seq<Event>, index: nat, below: bool)
    requires e.Applied? && if below then Reported(later, index) else e.index == index
    ensures Reported([e] + later, index)
  {
    if below {
      var j :| 0 <= j < |later| && later[j].Applied? && later[j].index == index;
      assert ([e] + later)[j + 1] == later[j];
    } else {
      assert ([e] + later)[0] == e;
    }
  }

  /** Applying moves the cursor to the mark or the end of the log, never back, and applies and reports
      every entry on the way that says something, once, in log order. */
  lemma ApplyRule(p: Peer, events: seq<Event>)
    ensures var q := ApplyCommitted(p);
      && q.appliedIndex == Max(p.appliedIndex, Min(p.commitIndex, |p.log|))
      && AppliesOn(p.name, p.term, p.log, p.appliedIndex, q.appliedIndex, p.applied, q.applied, events, events + ApplyEvents(p))
  {
    assert (events + ApplyEvents(p))[|events|..] == ApplyEvents(p);
    hide Visible, EventsBetween, Reports;
    var q, hi := ApplyCommitted(p), ApplyLimit(p);
    if p.appliedIndex < hi {
      EventsReport(p, p.appliedIndex, hi);
      assert q.applied[|p.applied|..] == VisibleIn(p.log, p.appliedIndex, hi);
    } else {
      NothingReported(p, hi);
      assert q.applied[|p.applied|..] == [];
    }
  }

  lemma NothingReported(p: Peer, hi: nat)
    requires p.appliedIndex >= hi
    ensures Reports(p.name, p.term, p.log, p.appliedIndex, p.appliedIndex, [], EventsBetween(p, p.appliedIndex, hi))
  {
  }

  lemma AppliesNone(name: Name, term: nat, log: Log, at: nat, applied: seq<Entry>, events: seq<Event>)
    ensures AppliesOn(name, term, log, at, at, applied, applied, events, events)
  {
  }

  // ------------------------------------------------------------------
  // Committing
  // ------------------------------------------------------------------

  /** `h` is the greatest index past the mark that a majority is known to hold. */
  ghost predicate Top(peers: seq<Name>, matchIndex: map<Name, nat>, log: Log, mark: nat, h: nat) {
    && mark < h <= |log|
    && 2 * Replicas(peers, matchIndex, h) > |peers| + 1
    && forall k :: h < k <= |log| ==> 2 * Replicas(peers, matchIndex, k) <= |peers| + 1
  }

  /** The mark goes to the greatest index a majority holds, if its entry is of the leader's own term,
      and otherwise nowhere. */
  ghost predicate Marks(peers: seq<Name>, matchIndex: map<Name, nat>, log: Log, mark: nat, term: nat, to: nat) {
    && (forall h: nat :: Top(peers, matchIndex, log, mark, h) ==> to == if log[h - 1].term == term then h else mark)
    && ((forall h: nat :: !Top(peers, matchIndex, log, mark, h)) ==> to == mark)
  }

  lemma {:induction false} ScanRule(p: Peer, term: nat, index: nat)
    requires index <= |p.log|
    requires forall k :: index < k <= |p.log| ==> 2 * Replicas(p.peers, p.matchIndex, k) <= |p.peers| + 1
    ensures Marks(p.peers, p.matchIndex, p.log, p.commitIndex, term, Scan(p, term, index))
  {
    if index > p.commitIndex {
      if Replicas(p.peers, p.matchIndex, index) < QuorumOf(p) {
        ScanRule(p, term, index - 1);
      } else {
        assert Top(p.peers, p.matchIndex, p.log, p.commitIndex, index);
      }
    }
  }
}
