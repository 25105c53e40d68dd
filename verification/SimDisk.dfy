/**
  A host's storage: a durable map, and in front of it an ordered journal of what
  has been written but not synced, with an overlay of the same writes for reading.
*/
module SimDisk {
  import opened Helpers

  /** One journalled operation on a key. */
  datatype Op<+V> = Put(value: V) | Deleted

  datatype Write<+V> = Write(key: string, op: Op<V>)

  // ------------------------------------------------------------------
  // What a journal means
  // ------------------------------------------------------------------

  function Performed<V>(data: map<string, V>, w: Write<V>): map<string, V> {
    match w.op
    case Put(v) => data[w.key := v]
    case Deleted => data - {w.key}
  }

  function Replay<V>(data: map<string, V>, journal: seq<Write<V>>): map<string, V> {
    if journal == [] then data
    else Performed(Replay(data, journal[..|journal| - 1]), journal[|journal| - 1])
  }

  /** The last operation on each key. */
  function Latest<V>(journal: seq<Write<V>>): map<string, Op<V>> {
    if journal == [] then map[]
    else
      var w := journal[|journal| - 1];
      Latest(journal[..|journal| - 1])[w.key := w.op]
  }

  /** Reading through an overlay: a queued delete hides the durable value. */
  function ReadThrough<K, V>(data: map<K, V>, overlay: map<K, Op<V>>, key: K): Option<V> {
    if key in overlay then
      match overlay[key]
      case Put(v) => Some(v)
      case Deleted => None
    else if key in data then Some(data[key])
    else None
  }

  /** What the host can read after each of its writes since the last sync, the durable map first. */
  ghost function Snapshots<V>(data: map<string, V>, journal: seq<Write<V>>): (s: seq<map<string, V>>)
    ensures |s| == |journal| + 1
  {
    seq(|journal| + 1, i requires 0 <= i <= |journal| => Replay(data, journal[..i]))
  }

  /** The overlay reads exactly what replaying the journal over the durable map would leave. */
  lemma {:induction false} OverlayReadsReplay<V>(data: map<string, V>, journal: seq<Write<V>>, key: string)
    ensures var after := Replay(data, journal);
      ReadThrough(data, Latest(journal), key) == if key in after then Some(after[key]) else None
  {
    if journal != [] {
      OverlayReadsReplay(data, journal[..|journal| - 1], key);
    }
  }

  // ------------------------------------------------------------------
  // The reference: a plain list of snapshots
  // ------------------------------------------------------------------

  /** A write: the newest snapshot changes; a buffered disk keeps the older ones a crash may return to. */
  ghost function AfterWrite<V>(s: seq<map<string, V>>, buffered: bool, w: Write<V>): seq<map<string, V>>
    requires |s| > 0
  {
    var newest := Performed(s[|s| - 1], w);
    if buffered then s + [newest] else [newest]
  }

  ghost function AfterSync<V>(s: seq<map<string, V>>): seq<map<string, V>>
    requires |s| > 0
  {
    [s[|s| - 1]]
  }

  /** A crash keeps some first `kept` writes if the disk tears, and none otherwise. */
  ghost function AfterCrash<V>(s: seq<map<string, V>>, torn: bool, kept: nat): seq<map<string, V>>
    requires kept < |s|
  {
    [s[if torn then kept else 0]]
  }

  lemma SnapshotsAppend<V>(data: map<string, V>, journal: seq<Write<V>>, w: Write<V>)
    ensures Snapshots(data, journal + [w]) == AfterWrite(Snapshots(data, journal), true, w)
  {
    var j := journal + [w];
    assert j[..|j| - 1] == journal;
    assert journal[..|journal|] == journal && j[..|j|] == j;
    forall i | 0 <= i <= |journal| ensures j[..i] == journal[..i] {
    }
  }

  class Disk<V> {
    var data: map<string, V>
    var buffered: bool
    var torn: bool
    var journal: seq<Write<V>>
    var overlay: map<string, Op<V>>

    ghost predicate Valid()
      reads this
    {
      && overlay == Latest(journal)
      && (!buffered ==> journal == [])
      && (torn ==> buffered)
    }

    ghost function History(): seq<map<string, V>>
      reads this
    {
      Snapshots(data, journal)
    }

    /** What a task on this host sees. */
    ghost function View(): map<string, V>
      reads this
    {
      Replay(data, journal)
    }

    constructor ()
      ensures Valid() && View() == map[] && !buffered && !torn
    {
      data, buffered, torn, journal, overlay := map[], false, false, [], map[];
    }

    method Sync()
      requires Valid()
      modifies this
      ensures Valid() && journal == [] && data == old(View()) && View() == old(View())
      ensures History() == AfterSync(old(History()))
      ensures buffered == old(buffered) && torn == old(torn)
    {
      var start := data;
      assert journal[..|journal|] == journal;
      for i := 0 to |journal|
        invariant journal == old(journal) && buffered == old(buffered) && torn == old(torn)
        invariant data == Replay(start, journal[..i])
      {
        var w := journal[i];
        assert journal[..i + 1][..i] == journal[..i];
        match w.op {
          case Put(v) => data := data[w.key := v];
          case Deleted => data := data - {w.key};
        }
      }
      journal := [];
      overlay := map[];
      assert History() == [data];
    }

    method Configure(newBuffered: bool, newTorn: bool) returns (ok: bool)
      requires Valid()
      modifies this
      ensures Valid() && ok == (newTorn ==> newBuffered)
      ensures ok ==> buffered == newBuffered && torn == newTorn && journal == []
      ensures ok ==> View() == old(View()) && History() == AfterSync(old(History()))
      ensures !ok ==> unchanged(this)
    {
      ok := newTorn ==> newBuffered;
      if ok {
        Sync();
        buffered, torn := newBuffered, newTorn;
      }
    }

    /** A power cut.  `draw` is the seeded draw, taken only when something is in flight. */
    method Crash(draw: nat)
      requires Valid() && draw <= |journal|
      modifies this
      ensures Valid() && journal == [] && buffered == old(buffered) && torn == old(torn)
      ensures History() == AfterCrash(old(History()), torn, draw)
      ensures View() == old(History())[if torn then draw else 0]
      ensures !buffered ==> View() == old(View())
    {
      var lost, start := journal, data;
      journal := [];
      overlay := map[];
      if lost == [] {
        assert History() == [data];
        return;
      }
      var kept := if torn then draw else 0;
      for i := 0 to kept
        invariant journal == [] && overlay == map[] && buffered == old(buffered) && torn == old(torn)
        invariant data == Replay(start, lost[..i])
      {
        var w := lost[i];
        assert lost[..i + 1][..i] == lost[..i];
        match w.op {
          case Put(v) => data := data[w.key := v];
          case Deleted => data := data - {w.key};
        }
      }
      assert History() == [data];
    }

    method Get(key: string) returns (r: Option<V>)
      requires Valid()
      ensures r == if key in View() then Some(View()[key]) else None
    {
      OverlayReadsReplay(data, journal, key);
      if key in overlay {
        match overlay[key] {
          case Put(v) => return Some(v);
          case Deleted => return None;
        }
      }
      return if key in data then Some(data[key]) else None;
    }

    method Set(key: string, value: V)
      requires Valid()
      modifies this
      ensures Valid() && buffered == old(buffered) && torn == old(torn)
      ensures View() == old(View())[key := value]
      ensures History() == AfterWrite(old(History()), buffered, Write(key, Put(value)))
    {
      if !buffered {
        data := data[key := value];
        assert History() == [data];
      } else {
        SnapshotsAppend(data, journal, Write(key, Put(value)));
        journal := journal + [Write(key, Put(value))];
        overlay := overlay[key := Put(value)];
        assert journal[..|journal| - 1] == old(journal);
      }
    }

    /** Deleting what is not there raises, buffered or not, and changes nothing. */
    method Delete(key: string) returns (ok: bool)
      requires Valid()
      modifies this
      ensures Valid() && buffered == old(buffered) && torn == old(torn)
      ensures ok == (key in old(View()))
      ensures !ok ==> unchanged(this)
      ensures ok ==> View() == old(View()) - {key}
      ensures ok ==> History() == AfterWrite(old(History()), buffered, Write(key, Deleted))
    {
      if !buffered {
        ok := key in data;
        if ok {
          data := data - {key};
          assert History() == [data];
        }
        return;
      }
      var present := Get(key);
      ok := present.Some?;
      if ok {
        SnapshotsAppend(data, journal, Write(key, Deleted));
        journal := journal + [Write(key, Deleted)];
        overlay := overlay[key := Deleted];
        assert journal[..|journal| - 1] == old(journal);
      }
    }

    /** The merged key count: durable keys not deleted, then keys the queue invented. */
    method Len() returns (n: nat)
      requires Valid()
      ensures n == |View()|
    {
      KeysRead(data, journal);
      if overlay == map[] {
        assert Readable(data, overlay) == data.Keys;
        return |data|;
      }
      var durable := CountWhere(data.Keys, Gone(overlay));
      var invented := CountWhere(overlay.Keys, data.Keys + Gone(overlay));
      n := durable + invented;
      MergedKeys(data, overlay);
    }
  }

  /** How many of `keys` an iteration that skips some of them yields. */
  method CountWhere<K(==)>(keys: set<K>, skipped: set<K>) returns (n: nat)
    ensures n == |keys - skipped|
  {
    n := 0;
    var rest := keys;
    while rest != {}
      invariant rest <= keys && n == |(keys - rest) - skipped|
      decreases rest
    {
      var k :| k in rest;
      if k !in skipped {
        assert (keys - (rest - {k})) - skipped == ((keys - rest) - skipped) + {k};
        n := n + 1;
      } else {
        assert (keys - (rest - {k})) - skipped == (keys - rest) - skipped;
      }
      rest := rest - {k};
    }
    assert keys - {} == keys;
  }

  /** The keys a read through the overlay finds. */
  ghost function Readable<K, V>(data: map<K, V>, overlay: map<K, Op<V>>): set<K> {
    set k | k in data.Keys + overlay.Keys && ReadThrough(data, overlay, k).Some?
  }

  lemma KeysRead<V>(data: map<string, V>, journal: seq<Write<V>>)
    ensures Replay(data, journal).Keys == Readable(data, Latest(journal))
  {
    forall k ensures k in Replay(data, journal) <==> k in Readable(data, Latest(journal)) {
      OverlayReadsReplay(data, journal, k);
    }
  }

  /** The keys a queued delete hides. */
  function Gone<K, V>(overlay: map<K, Op<V>>): set<K> {
    set k | k in overlay.Keys && overlay[k].Deleted?
  }

  /** Durable keys not deleted and keys the queue invented are together the readable ones. */
  lemma MergedKeys<K, V>(data: map<K, V>, overlay: map<K, Op<V>>)
    ensures |Readable(data, overlay)| == |data.Keys - Gone(overlay)| + |overlay.Keys - (data.Keys + Gone(overlay))|
  {
    hide Gone, Readable;
    forall k ensures k in Readable(data, overlay) <==> k in data.Keys + overlay.Keys && k !in Gone(overlay) {
      MergedKey(data, overlay, k);
    }
    DisjointSizes(data.Keys, overlay.Keys, Gone(overlay), Readable(data, overlay));
  }

  lemma MergedKey<K, V>(data: map<K, V>, overlay: map<K, Op<V>>, k: K)
    ensures k in Readable(data, overlay) <==> k in data.Keys + overlay.Keys && k !in Gone(overlay)
  {
  }

  lemma DisjointSizes<K>(a: set<K>, b: set<K>, gone: set<K>, all: set<K>)
    requires forall k :: k in all <==> k in a + b && k !in gone
    ensures |all| == |a - gone| + |b - (a + gone)|
  {
    assert all == (a - gone) + (b - (a + gone));
    assert (a - gone) !! (b - (a + gone));
  }
}
