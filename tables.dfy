/** One named LMDB sub-database: its entries held in ascending key order,
    as the B+tree under a cursor presents them. */
module Tables {

  import opened Octets
  import opened Outcomes
  import opened ByteOrder

  datatype Entry = Entry(key: Bytes, value: Bytes)

  type Table = seq<Entry>

  /** Keys strictly ascending, hence unique. */
  ghost predicate Sorted(t: Table) {
    forall i, j {:trigger Less(t[i].key, t[j].key)} :: 0 <= i < j < |t| ==> Less(t[i].key, t[j].key)
  }

  function Keys(t: Table): set<Bytes> {
    set i | 0 <= i < |t| :: t[i].key
  }

  lemma KeysCons(e: Entry, t: Table)
    ensures Keys([e] + t) == {e.key} + Keys(t)
  {
    var r := [e] + t;
    forall k | k in Keys(r) ensures k in {e.key} + Keys(t) {
      var i :| 0 <= i < |r| && r[i].key == k;
      if i > 0 { assert r[i] == t[i - 1]; }
    }
    forall k | k in {e.key} + Keys(t) ensures k in Keys(r) {
      if k == e.key {
        assert r[0].key == k;
      } else {
        var i :| 0 <= i < |t| && t[i].key == k;
        assert r[i + 1] == t[i];
      }
    }
  }

  /** `txn.get(key)`: the value stored under `k`, if any. */
  function Get(t: Table, k: Bytes): (r: Option<Bytes>)
    ensures r.None? <==> k !in Keys(t)
    ensures r.Some? ==> exists i :: 0 <= i < |t| && t[i] == Entry(k, r.value)
  {
    if t == [] then None
    else if t[0].key == k then Some(t[0].value)
    else
      var r := Get(t[1..], k);
      assert Keys(t) == {t[0].key} + Keys(t[1..]);
      assert r.Some? ==> exists i :: 1 <= i < |t| && t[i] == Entry(k, r.value);
      r
  }

  /** In a sorted table the entry at an index is the one `Get` finds. */
  lemma GetAt(t: Table, i: nat)
    requires Sorted(t) && i < |t|
    ensures Get(t, t[i].key) == Some(t[i].value)
  {
    var r := Get(t, t[i].key);
    var j :| 0 <= j < |t| && t[j] == Entry(t[i].key, r.value);
    if j != i {
      if j < i { LessIrreflexive(t[i].key); } else { LessIrreflexive(t[i].key); }
    }
  }

  lemma GetCons(e: Entry, t: Table, j: Bytes)
    ensures Get([e] + t, j) == if j == e.key then Some(e.value) else Get(t, j)
  {
    assert ([e] + t)[1..] == t;
  }

  /** The tail of a sorted table is sorted, and its keys all follow the
      head's. */
  lemma SortedTail(t: Table)
    requires Sorted(t) && t != []
    ensures t == [t[0]] + t[1..]
    ensures Sorted(t[1..])
    ensures forall k :: k in Keys(t[1..]) ==> Less(t[0].key, k)
  {
    forall i, j | 0 <= i < j < |t[1..]| ensures Less(t[1..][i].key, t[1..][j].key) {
      assert t[1..][i] == t[i + 1] && t[1..][j] == t[j + 1];
    }
    forall k | k in Keys(t[1..]) ensures Less(t[0].key, k) {
      var m :| 0 <= m < |t[1..]| && t[1..][m].key == k;
      assert t[1..][m] == t[m + 1];
    }
  }

  /** An entry before a sorted table whose keys all follow its own. */
  lemma SortedCons(e: Entry, t: Table)
    requires Sorted(t)
    requires forall k :: k in Keys(t) ==> Less(e.key, k)
    ensures Sorted([e] + t)
  {
    var r := [e] + t;
    forall i, j | 0 <= i < j < |r| ensures Less(r[i].key, r[j].key) {
      assert r[j] == t[j - 1];
      assert t[j - 1].key in Keys(t);
      if i > 0 { assert r[i] == t[i - 1]; }
    }
  }

  /** `txn.put(key, value)`: inserts or replaces, keeping key order. */
  function Insert(t: Table, k: Bytes, v: Bytes): (r: Table)
    requires Sorted(t)
    ensures Sorted(r)
    ensures Keys(r) == Keys(t) + {k}
    ensures forall j :: Get(r, j) == if j == k then Some(v) else Get(t, j)
  {
    var e := Entry(k, v);
    if t == [] then
      KeysCons(e, []);
      assert [e] + [] == [e];
      assert forall j :: Get([e] + [], j) == if j == k then Some(v) else None by {
        forall j { GetCons(e, [], j); }
      }
      [e]
    else
      SortedTail(t);
      KeysCons(t[0], t[1..]);
      assert forall j :: Get(t, j) == if j == t[0].key then Some(t[0].value) else Get(t[1..], j) by {
        forall j { GetCons(t[0], t[1..], j); }
      }
      if t[0].key == k then
        SortedCons(e, t[1..]);
        KeysCons(e, t[1..]);
        assert forall j :: Get([e] + t[1..], j) == if j == k then Some(v) else Get(t[1..], j) by {
          forall j { GetCons(e, t[1..], j); }
        }
        [e] + t[1..]
      else if Less(k, t[0].key) then
        forall kk | kk in Keys(t) ensures Less(k, kk) {
          if kk != t[0].key { LessTransitive(k, t[0].key, kk); }
        }
        SortedCons(e, t);
        KeysCons(e, t);
        assert forall j :: Get([e] + t, j) == if j == k then Some(v) else Get(t, j) by {
          forall j { GetCons(e, t, j); }
        }
        [e] + t
      else
        var rest := Insert(t[1..], k, v);
        LessTotal(k, t[0].key);
        SortedCons(t[0], rest);
        KeysCons(t[0], rest);
        assert forall j :: Get([t[0]] + rest, j) == if j == t[0].key then Some(t[0].value) else Get(rest, j) by {
          forall j { GetCons(t[0], rest, j); }
        }
        [t[0]] + rest
  }

  /** `txn.delete(key)`: drops the entry for `k`; absent keys are no error. */
  function Remove(t: Table, k: Bytes): (r: Table)
    requires Sorted(t)
    ensures Sorted(r)
    ensures Keys(r) == Keys(t) - {k}
    ensures forall j :: Get(r, j) == if j == k then None else Get(t, j)
  {
    if t == [] then []
    else
      SortedTail(t);
      KeysCons(t[0], t[1..]);
      assert forall j :: Get(t, j) == if j == t[0].key then Some(t[0].value) else Get(t[1..], j) by {
        forall j { GetCons(t[0], t[1..], j); }
      }
      if t[0].key == k then
        assert k !in Keys(t[1..]) by {
          if k in Keys(t[1..]) { LessIrreflexive(k); }
        }
        t[1..]
      else
        var rest := Remove(t[1..], k);
        SortedCons(t[0], rest);
        KeysCons(t[0], rest);
        assert forall j :: Get([t[0]] + rest, j) == if j == t[0].key then Some(t[0].value) else Get(rest, j) by {
          forall j { GetCons(t[0], rest, j); }
        }
        [t[0]] + rest
  }

  /** `cursor.set_range(start)`: the index of the first entry whose key is
      at or after `start` (the table's length when there is none). */
  function LowerBound(t: Table, start: Bytes): (r: nat)
    requires Sorted(t)
    ensures r <= |t|
    ensures forall i :: 0 <= i < r ==> Less(t[i].key, start)
    ensures forall i :: r <= i < |t| ==> LessEq(start, t[i].key)
  {
    if t == [] then 0
    else if !Less(t[0].key, start) then
      LessTotal(t[0].key, start);
      assert forall i :: 0 < i < |t| ==> LessEq(start, t[i].key) by {
        forall i | 0 < i < |t| ensures LessEq(start, t[i].key) {
          if start != t[0].key { LessTransitive(start, t[0].key, t[i].key); }
        }
      }
      0
    else
      assert Sorted(t[1..]) by {
        forall i, j | 0 <= i < j < |t[1..]| ensures Less(t[1..][i].key, t[1..][j].key) {
          assert t[1..][i] == t[i + 1] && t[1..][j] == t[j + 1];
        }
      }
      var r := LowerBound(t[1..], start);
      assert forall i :: 1 <= i < r + 1 ==> Less(t[i].key, start) by {
        forall i | 1 <= i < r + 1 ensures Less(t[i].key, start) {
          assert t[1..][i - 1] == t[i];
        }
      }
      assert forall i :: r + 1 <= i < |t| ==> LessEq(start, t[i].key) by {
        forall i | r + 1 <= i < |t| ensures LessEq(start, t[i].key) {
          assert t[1..][i - 1] == t[i];
        }
      }
      r + 1
  }
}
