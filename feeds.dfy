/** What the change feed of an `LmdbCollection` (conjure/storage.py:263-277,
    322-333) yields after a series of writes, and two small tables that
    show how its `startswith` filter and its cursor behave. */
module Feeds {

  import opened Octets
  import opened Outcomes
  import opened Utf8
  import opened ByteOrder
  import opened Tables
  import opened Storage

  // ---------------------------------------------------------------------
  // Writes in timestamp order are read back in write order

  /** One `put`: the key, the value and the timestamp `timestamp_id()`
      handed it. */
  datatype Write = Write(key: Bytes, value: Bytes, timestamp: Bytes)

  /** Every write of `ws` files its feed entry under base key `b`. */
  ghost predicate UnderBase(c: LmdbCollection, b: Bytes, ws: seq<Write>) {
    && Decode(b).Ok?
    && forall i :: 0 <= i < |ws| ==> c.BaseKey(ws[i].key) == Ok(b) && Decode(ws[i].timestamp).Ok?
  }

  /** The timestamps strictly increase, as those of `timestamp_id()` do. */
  ghost predicate Increasing(ws: seq<Write>) {
    forall i, j :: 0 <= i < j < |ws| ==> Less(ws[i].timestamp, ws[j].timestamp)
  }

  ghost predicate AllCanPut(c: LmdbCollection, ws: seq<Write>) {
    forall i :: 0 <= i < |ws| ==> c.CanPut(ws[i].key, ws[i].timestamp)
  }

  /** The sub-databases after the writes `ws`, one `put` after another
      (each one commits `Committed`, as `LmdbCollection.Put` states). */
  ghost function CommitAll(c: LmdbCollection, dbs: map<Bytes, Table>, ws: seq<Write>): (r: map<Bytes, Table>)
    requires AllSorted(dbs) && AllCanPut(c, ws)
    ensures AllSorted(r)
    decreases |ws|
  {
    if ws == [] then dbs
    else
      var w := ws[|ws| - 1];
      c.Committed(CommitAll(c, dbs, ws[..|ws| - 1]), w.key, w.value, w.timestamp)
  }

  /** The feed keys the writes file under base `b`, in write order. */
  function FeedKeysOf(b: Bytes, ws: seq<Write>): (r: seq<Bytes>)
    ensures |r| == |ws|
    ensures forall i :: 0 <= i < |ws| ==> r[i] == b + [Underscore] + ws[i].timestamp
    decreases |ws|
  {
    if ws == [] then [] else FeedKeysOf(b, ws[..|ws| - 1]) + [b + [Underscore] + ws[|ws| - 1].timestamp]
  }

  lemma UnderBaseCanPut(c: LmdbCollection, b: Bytes, ws: seq<Write>)
    requires UnderBase(c, b, ws)
    ensures AllCanPut(c, ws)
    ensures forall i :: 0 <= i < |ws| ==> c.FeedKeyFor(ws[i].key, ws[i].timestamp) == Ok(FeedKeysOf(b, ws)[i])
  {}

  /** A `put` on a partition with a feed inserts one entry into the feed
      database and changes it no further. */
  lemma FeedAfterCommit(c: LmdbCollection, dbs: map<Bytes, Table>, key: Bytes, value: Bytes, timestamp: Bytes)
    requires AllSorted(dbs) && c.buildFeed && c.Separate() && c.CanPut(key, timestamp)
    ensures Sorted(DbOf(dbs, FeedName))
    ensures DbOf(c.Committed(dbs, key, value, timestamp), FeedName)
            == Insert(DbOf(dbs, FeedName), c.FeedKeyFor(key, timestamp).value, key)
  {
    assert OffsetsName[0] != FeedName[0];
    DbOfSorted(dbs, FeedName);
  }

  /** Every feed key filed under base `b` starts with `b`. */
  lemma FeedKeysHaveBase(b: Bytes, ws: seq<Write>)
    ensures forall i :: 0 <= i < |ws| ==> StartsWith(FeedKeysOf(b, ws)[i], b)
  {
    forall i | 0 <= i < |ws| ensures StartsWith(FeedKeysOf(b, ws)[i], b) {
      assert FeedKeysOf(b, ws)[i][..|b|] == b;
    }
  }

  /** Feed keys under one base follow their timestamps. */
  lemma FeedKeysAscend(b: Bytes, ws: seq<Write>)
    requires Increasing(ws)
    ensures forall i, j :: 0 <= i < j < |ws| ==> Less(FeedKeysOf(b, ws)[i], FeedKeysOf(b, ws)[j])
  {
    var fks := FeedKeysOf(b, ws);
    forall i, j | 0 <= i < j < |ws| ensures Less(fks[i], fks[j]) {
      LessCommonPrefix(b + [Underscore], ws[i].timestamp, ws[j].timestamp);
    }
  }

  /** The data keys of the writes, in write order. */
  function DataKeysOf(ws: seq<Write>): (r: seq<Bytes>)
    ensures |r| == |ws|
    ensures forall i :: 0 <= i < |ws| ==> r[i] == ws[i].key
    decreases |ws|
  {
    if ws == [] then [] else DataKeysOf(ws[..|ws| - 1]) + [ws[|ws| - 1].key]
  }

  /** `t` is `t0` with the entries `fks[i] -> vals[i]` filed into it. */
  ghost predicate Filed(t0: Table, t: Table, fks: seq<Bytes>, vals: seq<Bytes>) {
    && Sorted(t) && |fks| == |vals|
    && (forall k :: k in Keys(t) <==> k in Keys(t0) || k in fks)
    && (forall i :: 0 <= i < |fks| ==> Tables.Get(t, fks[i]) == Some(vals[i]))
  }

  /** Filing one more entry under a key not filed before. */
  lemma FiledStep(t0: Table, t: Table, fks: seq<Bytes>, vals: seq<Bytes>, k: Bytes, v: Bytes)
    requires Filed(t0, t, fks, vals)
    requires forall i :: 0 <= i < |fks| ==> fks[i] != k
    ensures Filed(t0, Insert(t, k, v), fks + [k], vals + [v])
  {
    var t' := Insert(t, k, v);
    forall i | 0 <= i < |fks| + 1 ensures Tables.Get(t', (fks + [k])[i]) == Some((vals + [v])[i]) {
      if i < |fks| {
        assert (fks + [k])[i] == fks[i] && (vals + [v])[i] == vals[i];
      }
    }
  }

  /** The last write's feed key was not filed by any earlier write. */
  lemma LastFeedKeyIsNew(b: Bytes, ws: seq<Write>, n: nat)
    requires n + 1 == |ws| && Increasing(ws)
    ensures forall i :: 0 <= i < n ==> FeedKeysOf(b, ws[..n])[i] != FeedKeysOf(b, ws)[n]
  {
    var fks := FeedKeysOf(b, ws);
    forall i | 0 <= i < n ensures FeedKeysOf(b, ws[..n])[i] != fks[n] {
      LessCommonPrefix(b + [Underscore], ws[i].timestamp, ws[n].timestamp);
      LessIrreflexive(fks[n]);
    }
  }

  /** The feed database after the writes: the old one with each new feed
      key filed, holding its data key. */
  lemma {:induction false} FeedTableAfter(c: LmdbCollection, dbs: map<Bytes, Table>, b: Bytes, ws: seq<Write>)
    requires AllSorted(dbs) && c.buildFeed && c.Separate()
    requires UnderBase(c, b, ws) && Increasing(ws)
    ensures AllCanPut(c, ws)
    ensures Filed(DbOf(dbs, FeedName), DbOf(CommitAll(c, dbs, ws), FeedName), FeedKeysOf(b, ws), DataKeysOf(ws))
    decreases |ws|
  {
    UnderBaseCanPut(c, b, ws);
    if ws == [] {
      DbOfSorted(dbs, FeedName);
    } else {
      var n := |ws| - 1;
      var front := ws[..n];
      assert UnderBase(c, b, front) && Increasing(front);
      FeedTableAfter(c, dbs, b, front);
      var d0 := CommitAll(c, dbs, front);
      var w := ws[n];
      FeedAfterCommit(c, d0, w.key, w.value, w.timestamp);
      LastFeedKeyIsNew(b, ws, n);
      FiledStep(DbOf(dbs, FeedName), DbOf(d0, FeedName), FeedKeysOf(b, front), DataKeysOf(front),
                FeedKeysOf(b, ws)[n], w.key);
    }
  }

  /** Two strictly ascending sequences holding the same keys are equal. */
  lemma {:induction false} AscendingUnique(a: seq<Bytes>, b: seq<Bytes>)
    requires forall i, j :: 0 <= i < j < |a| ==> Less(a[i], a[j])
    requires forall i, j :: 0 <= i < j < |b| ==> Less(b[i], b[j])
    requires forall x :: x in a <==> x in b
    ensures a == b
    decreases |a|
  {
    if b != [] {
      assert b[0] in b;
    }
    if a != [] {
      assert a[0] in a;
      var k :| 0 <= k < |b| && b[k] == a[0];
      assert b[0] in b;
      var m :| 0 <= m < |a| && a[m] == b[0];
      if k > 0 {
        if m > 0 {
          LessAsymmetric(a[0], a[m]);
        } else {
          LessIrreflexive(a[0]);
        }
      }
      assert a[0] == b[0];
      forall x ensures x in a[1..] <==> x in b[1..] {
        if x in a[1..] {
          var i :| 0 <= i < |a[1..]| && a[1..][i] == x;
          assert a[i + 1] == x && x in b;
          var j :| 0 <= j < |b| && b[j] == x;
          if j == 0 { LessIrreflexive(x); }
          assert b[1..][j - 1] == x;
        }
        if x in b[1..] {
          var j :| 0 <= j < |b[1..]| && b[1..][j] == x;
          assert b[j + 1] == x && x in a;
          var i :| 0 <= i < |a| && a[i] == x;
          if i == 0 { LessIrreflexive(x); }
          assert a[1..][i - 1] == x;
        }
      }
      AscendingUnique(a[1..], b[1..]);
      assert a == [a[0]] + a[1..] && b == [b[0]] + b[1..];
    }
  }

  /** A key of `t` is at or after the first new feed key and has the prefix
      exactly when it is one of the new feed keys. */
  lemma NewKeysAreTheRange(t0: Table, t: Table, b: Bytes, fks: seq<Bytes>, k: Bytes)
    requires fks != []
    requires forall i, j :: 0 <= i < j < |fks| ==> Less(fks[i], fks[j])
    requires forall i :: 0 <= i < |fks| ==> StartsWith(fks[i], b)
    requires forall k :: k in Keys(t) <==> k in Keys(t0) || k in fks
    requires forall k :: k in Keys(t0) && StartsWith(k, b) ==> Less(k, fks[0])
    requires k in Keys(t)
    ensures LessEq(fks[0], k) && StartsWith(k, b) <==> k in fks
  {
    if k !in fks && LessEq(fks[0], k) && StartsWith(k, b) {
      assert k in Keys(t0);
      LessAsymmetric(k, fks[0]);
      LessIrreflexive(k);
    }
  }

  /** A scan from a stored key begins at that key. */
  lemma StartIsStored(t: Table, start: Bytes)
    requires Sorted(t) && start in Keys(t)
    ensures LowerBound(t, start) < |t|
  {
    var p :| 0 <= p < |t| && t[p].key == start;
    if LowerBound(t, start) == |t| { LessIrreflexive(start); }
  }

  /** A scan from the first new feed key under `b` passes exactly the
      new feed keys. */
  lemma RunPassesNewKeys(t0: Table, t: Table, b: Bytes, fks: seq<Bytes>, n: nat, p: nat)
    requires fks != [] && Sorted(t) && p < |t|
    requires forall i, j :: 0 <= i < j < |fks| ==> Less(fks[i], fks[j])
    requires forall i :: 0 <= i < |fks| ==> StartsWith(fks[i], b)
    requires forall k :: k in Keys(t) <==> k in Keys(t0) || k in fks
    requires forall k :: k in Keys(t0) && StartsWith(k, b) ==> Less(k, fks[0])
    requires LowerBound(t, fks[0]) < |t| && IsRun(t, Position(t, fks[0]), n, Some(b))
    ensures Position(t, fks[0]) <= p < Position(t, fks[0]) + n <==> t[p].key in fks
  {
    RunIsRange(t, fks[0], n, Some(b), p);
    assert t[p].key in Keys(t);
    NewKeysAreTheRange(t0, t, b, fks, t[p].key);
  }

  /** The keys of entries `lo .. lo + n` of `t`. */
  function RunKeys(t: Table, lo: nat, n: nat): (ks: seq<Bytes>)
    requires lo + n <= |t|
    ensures |ks| == n && forall j :: 0 <= j < n ==> ks[j] == t[lo + j].key
  {
    seq(n, j requires 0 <= j < n => t[lo + j].key)
  }

  lemma RunKeysAreKeys(t: Table, fks: seq<Bytes>, lo: nat, n: nat)
    requires lo + n <= |t|
    requires forall k :: k in fks ==> k in Keys(t)
    requires forall p :: 0 <= p < |t| ==> (lo <= p < lo + n <==> t[p].key in fks)
    ensures forall x :: x in RunKeys(t, lo, n) <==> x in fks
  {
    var ks := RunKeys(t, lo, n);
    forall x ensures x in ks <==> x in fks {
      if x in ks {
        var j :| 0 <= j < n && ks[j] == x;
      }
      if x in fks {
        assert x in Keys(t);
        var p :| 0 <= p < |t| && t[p].key == x;
        assert ks[p - lo] == x;
      }
    }
  }

  /** A run of a sorted table that holds exactly the keys of an ascending
      sequence spells that sequence out. */
  lemma RunSpellsKeys(t: Table, fks: seq<Bytes>, lo: nat, n: nat)
    requires Sorted(t) && lo + n <= |t|
    requires forall i, j :: 0 <= i < j < |fks| ==> Less(fks[i], fks[j])
    requires forall k :: k in fks ==> k in Keys(t)
    requires forall p :: 0 <= p < |t| ==> (lo <= p < lo + n <==> t[p].key in fks)
    ensures n == |fks|
    ensures forall j :: 0 <= j < n ==> t[lo + j].key == fks[j]
  {
    var ks := RunKeys(t, lo, n);
    RunKeysAreKeys(t, fks, lo, n);
    forall i, j | 0 <= i < j < n ensures Less(ks[i], ks[j]) {
      assert Less(t[lo + i].key, t[lo + j].key);
    }
    AscendingUnique(ks, fks);
  }

  /** The feed read from the first new feed key under prefix `b` yields
      exactly the new entries, in ascending key order, when every older key
      under `b` sorts before the first new one. */
  lemma ReadInWriteOrder(t0: Table, t: Table, b: Bytes, fks: seq<Bytes>, vals: seq<Bytes>, entries: seq<FeedEntry>)
    requires fks != [] && Filed(t0, t, fks, vals)
    requires forall i, j :: 0 <= i < j < |fks| ==> Less(fks[i], fks[j])
    requires forall i :: 0 <= i < |fks| ==> StartsWith(fks[i], b)
    requires forall k :: k in Keys(t0) && StartsWith(k, b) ==> Less(k, fks[0])
    requires YieldsFeed(t, fks[0], b, entries)
    ensures |entries| == |fks|
    ensures forall i :: 0 <= i < |fks| ==> entries[i] == FeedEntry(fks[i], vals[i])
  {
    assert fks[0] in Keys(t);
    StartIsStored(t, fks[0]);
    var lo := Position(t, fks[0]);
    var n := |entries|;
    forall p | 0 <= p < |t| ensures lo <= p < lo + n <==> t[p].key in fks {
      RunPassesNewKeys(t0, t, b, fks, n, p);
    }
    RunSpellsKeys(t, fks, lo, n);
    forall i | 0 <= i < |fks| ensures entries[i] == FeedEntry(fks[i], vals[i]) {
      GetAt(t, lo + i);
    }
  }

  /** Writes under one base with increasing timestamps, all later than the
      feed keys already under that base, are read back by `feed` from the
      first of them in the order they were written, each with its data key. */
  lemma FeedInWriteOrder(c: LmdbCollection, dbs: map<Bytes, Table>, b: Bytes, ws: seq<Write>, entries: seq<FeedEntry>)
    requires AllSorted(dbs) && c.buildFeed && c.Separate()
    requires ws != [] && UnderBase(c, b, ws) && Increasing(ws)
    requires forall k :: k in Keys(DbOf(dbs, FeedName)) && StartsWith(k, b) ==> Less(k, FeedKeysOf(b, ws)[0])
    requires YieldsFeed(DbOf(CommitAll(c, dbs, ws), FeedName), FeedKeysOf(b, ws)[0], b, entries)
    ensures |entries| == |ws|
    ensures forall i :: 0 <= i < |ws| ==> entries[i] == FeedEntry(FeedKeysOf(b, ws)[i], ws[i].key)
  {
    FeedTableAfter(c, dbs, b, ws);
    FeedKeysAscend(b, ws);
    FeedKeysHaveBase(b, ws);
    ReadInWriteOrder(DbOf(dbs, FeedName), DbOf(CommitAll(c, dbs, ws), FeedName), b,
                     FeedKeysOf(b, ws), DataKeysOf(ws), entries);
  }

  /** Under the default base-key extractor, `feed` from the first new feed
      key filters on `b` itself, so the lemma above describes what it
      returns. */
  lemma DefaultFeedPrefix(c: LmdbCollection, b: Bytes, ws: seq<Write>)
    requires c.extractor.None? && ws != [] && UnderBase(c, b, ws)
    ensures c.BaseKey(FeedKeysOf(b, ws)[0]) == Ok(b)
  {
    FeedKeyKeepsBase(ws[0].key, b, ws[0].timestamp);
  }

  // ---------------------------------------------------------------------
  // How the filter and the cursor behave on two small feeds

  /** The filter is `startswith` on the offset's base key, so a feed entry
      of another base that extends it is read as well: from offset `ab_1`
      under prefix `ab` the entry `abc_2`, whose base key is `abc`, follows. */
  lemma FeedPrefixSpansBases(t: Table, k1: Bytes, k2: Bytes, entries: seq<FeedEntry>)
    requires t == [Entry([97, 98, 95, 49], k1), Entry([97, 98, 99, 95, 50], k2)]
    ensures Sorted(t)
    ensures YieldsFeed(t, [97, 98, 95, 49], [97, 98], entries)
            <==> entries == [FeedEntry([97, 98, 95, 49], k1), FeedEntry([97, 98, 99, 95, 50], k2)]
  {
    assert Less(t[0].key, t[1].key);
    assert Position(t, [97, 98, 95, 49]) == 0 by {
      LessIrreflexive(t[0].key);
    }
  }

  /** An offset past every feed key leaves the cursor unpositioned, and the
      scan starts again at the first key: from `a_3` over `a_1, a_2` under
      prefix `a`, both entries are read. */
  lemma FeedPastEndRestarts(t: Table, k1: Bytes, k2: Bytes, entries: seq<FeedEntry>)
    requires t == [Entry([97, 95, 49], k1), Entry([97, 95, 50], k2)]
    ensures Sorted(t)
    ensures YieldsFeed(t, [97, 95, 51], [97], entries)
            <==> entries == [FeedEntry([97, 95, 49], k1), FeedEntry([97, 95, 50], k2)]
  {
    assert Less(t[0].key, t[1].key);
    assert Less(t[1].key, [97, 95, 51]);
    assert Position(t, [97, 95, 51]) == 0;
  }
}
