/** The embedded, feed-producing key-value store (`LmdbCollection`) and the
    two-tier store (`LocalCollectionWithBackup`) of conjure/storage.py. */
module Storage {

  import opened Octets
  import opened Outcomes
  import opened Utf8
  import opened ByteOrder
  import opened Tables

  // ---------------------------------------------------------------------
  // Names, base keys and feed keys

  /** The sub-database names `data` (the default data partition), `offsets`
      and `feed`, and the `_` delimiter, as bytes. */
  const DataName: Bytes := [100, 97, 116, 97]
  const OffsetsName: Bytes := [111, 102, 102, 115, 101, 116, 115]
  const FeedName: Bytes := [102, 101, 101, 100]
  const Underscore: byte := 95

  /** The byte constants are the encodings of the names the source spells
      out as text. */
  lemma DataNameIsEncoded()
    ensures DataName == Encode("data")
  {
    AsciiName(DataName, "data");
  }

  lemma OffsetsNameIsEncoded()
    ensures OffsetsName == Encode("offsets")
  {
    AsciiName(OffsetsName, "offsets");
  }

  lemma FeedNameIsEncoded()
    ensures FeedName == Encode("feed")
  {
    AsciiName(FeedName, "feed");
  }

  lemma UnderscoreIsEncoded()
    ensures [Underscore] == Encode("_")
  {
    AsciiName([Underscore], "_");
  }

  lemma AsciiName(b: Bytes, s: string)
    requires |b| == |s|
    requires forall i :: 0 <= i < |s| ==> s[i] as int < 0x80 && b[i] as int == s[i] as int
    ensures b == Encode(s)
  {
    EncodeAscii(s);
  }

  /** `s.split(c)[0]`: the part of `s` before the first `c`, or all of `s`. */
  function BeforeFirst(s: string, c: char): (r: string)
    ensures c !in r
    ensures r <= s
    ensures |r| < |s| ==> s[|r|] == c
  {
    if s == [] then []
    else if s[0] == c then []
    else [s[0]] + BeforeFirst(s[1..], c)
  }

  /** The byte of `_` occurs in an encoding only where the text has `_`. */
  lemma {:induction false} UnderscoreByteOnlyFromUnderscore(s: string)
    requires '_' !in s
    ensures Underscore !in Encode(s)
  {
    if s != [] {
      var n := s[0] as int;
      assert n != 95;
      UnderscoreByteOnlyFromUnderscore(s[1..]);
    }
  }

  /** A prefix of `key` without the `_` byte, followed in `key` by `_` or by
      nothing, is unique: it is the part of `key` before its first `_`. */
  predicate IsBaseOf(key: Bytes, base: Bytes) {
    StartsWith(key, base) && Underscore !in base &&
    (|base| < |key| ==> key[|base|] == Underscore)
  }

  lemma BaseUnique(key: Bytes, a: Bytes, b: Bytes)
    requires IsBaseOf(key, a) && IsBaseOf(key, b)
    ensures a == b
  {
    if |a| == |b| {
      assert a == key[..|a|] == b;
    }
  }

  lemma BaseOfEncoding(s: string)
    ensures IsBaseOf(Encode(s), Encode(BeforeFirst(s, '_')))
  {
    var r := BeforeFirst(s, '_');
    var tail := s[|r|..];
    assert s == r + tail;
    EncodeAppend(r, tail);
    UnderscoreByteOnlyFromUnderscore(r);
    if tail != [] {
      assert tail[0] == '_';
      assert Encode(tail) == [Underscore] + Encode(tail[1..]);
      assert Encode(s)[|Encode(r)|] == Encode(tail)[0];
    } else {
      assert Encode(s) == Encode(r);
    }
  }

  /** The default `extract_base_key` (conjure/storage.py:205-206): decode the
      key, keep the text before the first `_`, encode it again. */
  function DefaultBaseKey(key: Bytes): (r: Result<Bytes>)
    ensures r.Ok? <==> Decode(key).Ok?
    ensures r.Err? ==> r.error == UnicodeDecodeError
    ensures r.Ok? ==> IsBaseOf(key, r.value)
  {
    match Decode(key)
    case Err(e) => Err(e)
    case Ok(s) =>
      EncodeDecode(key, s);
      BaseOfEncoding(s);
      Ok(Encode(BeforeFirst(s, '_')))
  }

  /** A key `identifier + '_' + rest` (as `Conjure.key` builds it) has the
      identifier as its base key. */
  lemma BaseKeyOfJoinedKey(identifier: string, rest: string)
    requires '_' !in identifier
    ensures DefaultBaseKey(Encode(identifier + "_" + rest)) == Ok(Encode(identifier))
  {
    var s := identifier + "_" + rest;
    DecodeEncode(s);
    BeforeFirstOfJoined(identifier, '_', rest);
    assert DefaultBaseKey(Encode(s)) == Ok(Encode(BeforeFirst(s, '_')));
  }

  /** The text before the first `c` of `a + c + b`, when `a` has no `c`, is `a`. */
  lemma {:induction false} BeforeFirstOfJoined(a: string, c: char, b: string)
    requires c !in a
    ensures BeforeFirst(a + [c] + b, c) == a
  {
    if a == [] {
      assert a + [c] + b == [c] + b;
    } else {
      assert (a + [c] + b)[0] == a[0];
      assert (a + [c] + b)[1..] == a[1..] + [c] + b;
      BeforeFirstOfJoined(a[1..], c, b);
    }
  }

  /** The feed key `f'{base_key.decode()}_{timestamp.decode()}'`, encoded
      (conjure/storage.py:329-331); it fails when either part is not UTF-8. */
  function FeedKey(base: Bytes, timestamp: Bytes): (r: Result<Bytes>)
    ensures r.Ok? <==> Decode(base).Ok? && Decode(timestamp).Ok?
    ensures r.Ok? ==> r.value == base + [Underscore] + timestamp
  {
    match Decode(base)
    case Err(e) => Err(e)
    case Ok(b) =>
      match Decode(timestamp)
      case Err(e) => Err(e)
      case Ok(t) =>
        FeedKeyBytes(base, b, timestamp, t);
        Ok(Encode(b + "_" + t))
  }

  /** The feed key's text, encoded, is the base's bytes, `_` and the
      timestamp's bytes. */
  lemma FeedKeyBytes(base: Bytes, b: string, timestamp: Bytes, t: string)
    requires Decode(base) == Ok(b) && Decode(timestamp) == Ok(t)
    ensures Encode(b + "_" + t) == base + [Underscore] + timestamp
  {
    EncodeDecode(base, b);
    EncodeDecode(timestamp, t);
    EncodeAppend(b + "_", t);
    EncodeAppend(b, "_");
    UnderscoreIsEncoded();
  }

  /** Feed keys of one partition sort in the order of their timestamps. */
  lemma FeedKeyOrder(base: Bytes, t1: Bytes, t2: Bytes)
    requires FeedKey(base, t1).Ok? && FeedKey(base, t2).Ok?
    ensures Less(FeedKey(base, t1).value, FeedKey(base, t2).value) <==> Less(t1, t2)
  {
    assert FeedKey(base, t1).value == (base + [Underscore]) + t1;
    assert FeedKey(base, t2).value == (base + [Underscore]) + t2;
    LessCommonPrefix(base + [Underscore], t1, t2);
  }

  /** Reading the feed from a feed key written for base `b` restricts the
      scan to partition `b` again. */
  lemma FeedKeyKeepsBase(key: Bytes, base: Bytes, timestamp: Bytes)
    requires DefaultBaseKey(key) == Ok(base)
    requires FeedKey(base, timestamp).Ok?
    ensures DefaultBaseKey(FeedKey(base, timestamp).value) == Ok(base)
  {
    var fk := FeedKey(base, timestamp).value;
    var b := Decode(base).value;
    var t := Decode(timestamp).value;
    EncodeDecode(base, b);
    EncodeDecode(timestamp, t);
    EncodeAppend(b + "_", t);
    EncodeAppend(b, "_");
    DecodeEncode(b + "_" + t);
    assert fk == Encode(b + "_" + t);
    assert IsBaseOf(fk, base) by {
      assert fk[..|base|] == base;
    }
    BaseUnique(fk, DefaultBaseKey(fk).value, base);
  }

  // ---------------------------------------------------------------------
  // The prefix-bounded cursor scan

  /** The key satisfies the optional prefix bound of `iter_prefix`. */
  predicate Matches(k: Bytes, prefix: Option<Bytes>) {
    prefix.None? || StartsWith(k, prefix.value)
  }

  /** Entries `lo .. lo + n` of `t` are what a cursor placed at `lo` yields
      before it meets a key that fails the bound, or the end of the table. */
  ghost predicate IsRun(t: Table, lo: nat, n: nat, prefix: Option<Bytes>) {
    && lo + n <= |t|
    && (forall j :: lo <= j < lo + n ==> Matches(t[j].key, prefix))
    && (lo + n < |t| ==> !Matches(t[lo + n].key, prefix))
  }

  /** Where `cursor.iternext` begins after `cursor.set_range(start)`: at the
      first key at or after `start`; when there is none, `set_range` leaves
      the cursor unpositioned and py-lmdb's `iternext` then begins at the
      first key of the database. */
  function Position(t: Table, start: Bytes): (p: nat)
    requires Sorted(t)
    ensures p <= |t|
    ensures LowerBound(t, start) < |t| ==> p == LowerBound(t, start)
    ensures LowerBound(t, start) == |t| ==> p == 0
  {
    var lo := LowerBound(t, start);
    if lo < |t| then lo else 0
  }

  /** The cursor loop of `iter_prefix` (conjure/storage.py:307-316): yield
      keys in order from where the cursor begins, stop at the first key that
      lacks the prefix. */
  method Scan(t: Table, start: Bytes, prefix: Option<Bytes>) returns (keys: seq<Bytes>)
    requires Sorted(t)
    ensures IsRun(t, Position(t, start), |keys|, prefix)
    ensures forall j :: 0 <= j < |keys| ==> keys[j] == t[Position(t, start) + j].key
  {
    var lo := LowerBound(t, start);
    if lo == |t| {
      lo := 0;
    }
    var i := lo;
    keys := [];
    while i < |t|
      invariant lo <= i <= |t| && |keys| == i - lo
      invariant forall j :: lo <= j < i ==> Matches(t[j].key, prefix)
      invariant forall j :: 0 <= j < |keys| ==> keys[j] == t[lo + j].key
    {
      if prefix.Some? && !StartsWith(t[i].key, prefix.value) {
        break;
      }
      keys := keys + [t[i].key];
      i := i + 1;
    }
  }

  /** What a scan yields, read as a set, when some key is at or after
      `start`: stored keys at or after `start` (and, under a prefix that
      `start` itself has, exactly those with the prefix), in strictly
      ascending order. */
  lemma {:induction false} RunIsRange(t: Table, start: Bytes, n: nat, prefix: Option<Bytes>, i: nat)
    requires Sorted(t) && i < |t|
    requires IsRun(t, Position(t, start), n, prefix)
    requires prefix.Some? ==> StartsWith(start, prefix.value)
    ensures LowerBound(t, start) < |t| ==>
              (Position(t, start) <= i < Position(t, start) + n
               <==> LessEq(start, t[i].key) && Matches(t[i].key, prefix))
  {
    var lo := LowerBound(t, start);
    if lo < |t| {
      if i < lo {
        LessAsymmetric(t[i].key, start);
      } else if lo + n <= i && LessEq(start, t[i].key) && Matches(t[i].key, prefix) {
        var stop := lo + n;
        assert stop < |t|;
        assert prefix.Some?;
        assert LessEq(start, t[stop].key);
        assert LessEq(t[stop].key, t[i].key);
        PrefixBlock(start, t[stop].key, t[i].key, prefix.value);
        assert false;
      }
    }
  }

  /** When every key is before `start`, a scan yields the keys from the
      first one on, while they have the prefix: keys before `start`. */
  lemma ScanPastEnd(t: Table, start: Bytes, n: nat, prefix: Option<Bytes>)
    requires Sorted(t) && IsRun(t, Position(t, start), n, prefix)
    requires forall k :: k in Keys(t) ==> Less(k, start)
    ensures Position(t, start) == 0
    ensures forall j :: 0 <= j < n ==> Less(t[j].key, start)
  {
    if LowerBound(t, start) < |t| {
      var lo := LowerBound(t, start);
      assert t[lo].key in Keys(t);
      LessAsymmetric(t[lo].key, start);
      LessIrreflexive(start);
    }
    forall j | 0 <= j < n ensures Less(t[j].key, start) {
      assert t[j].key in Keys(t);
    }
  }

  lemma RunAscends(t: Table, lo: nat, n: nat, prefix: Option<Bytes>)
    requires Sorted(t) && IsRun(t, lo, n, prefix)
    ensures forall a, b :: lo <= a < b < lo + n ==> Less(t[a].key, t[b].key)
  {}

  /** The loop of `feed` (conjure/storage.py:270-277): looks each scanned
      feed key up in the feed database and pairs it with the data key stored
      under it. */
  method ReadEntries(t: Table, lo: nat, keys: seq<Bytes>) returns (entries: seq<FeedEntry>)
    requires Sorted(t) && lo + |keys| <= |t|
    requires forall j :: 0 <= j < |keys| ==> keys[j] == t[lo + j].key
    ensures |entries| == |keys|
    ensures forall j :: 0 <= j < |keys| ==> entries[j] == FeedEntry(t[lo + j].key, t[lo + j].value)
  {
    entries := [];
    var i := 0;
    while i < |keys|
      invariant 0 <= i <= |keys| && |entries| == i
      invariant forall j :: 0 <= j < i ==> entries[j] == FeedEntry(t[lo + j].key, t[lo + j].value)
    {
      GetAt(t, lo + i);
      var v := Tables.Get(t, keys[i]);
      assert v == Some(t[lo + i].value);
      entries := entries + [FeedEntry(keys[i], v.value)];
      i := i + 1;
    }
  }

  /** `entries` are the entries of `t` from where a scan from `start`
      begins, in key order, for as long as their keys start with `prefix`. */
  ghost predicate YieldsFeed(t: Table, start: Bytes, prefix: Bytes, entries: seq<FeedEntry>)
    requires Sorted(t)
  {
    var lo := Position(t, start);
    && IsRun(t, lo, |entries|, Some(prefix))
    && forall j :: 0 <= j < |entries| ==> entries[j] == FeedEntry(t[lo + j].key, t[lo + j].value)
  }

  /** The feed entries a scan from `start` under `prefix` yields. */
  method ScanEntries(t: Table, start: Bytes, prefix: Bytes) returns (entries: seq<FeedEntry>)
    requires Sorted(t)
    ensures YieldsFeed(t, start, prefix, entries)
  {
    var keys := Scan(t, start, Some(prefix));
    entries := ReadEntries(t, Position(t, start), keys);
  }

  // ---------------------------------------------------------------------
  // The LMDB environment

  ghost predicate AllSorted(dbs: map<Bytes, Table>) {
    forall n :: n in dbs ==> Sorted(dbs[n])
  }

  /** The sub-database `n`; LMDB's `open_db` creates it empty when absent. */
  function DbOf(dbs: map<Bytes, Table>, n: Bytes): Table {
    if n in dbs then dbs[n] else []
  }

  lemma DbOfSorted(dbs: map<Bytes, Table>, n: Bytes)
    requires AllSorted(dbs)
    ensures Sorted(DbOf(dbs, n))
  {}

  /** `txn.put(k, v, db=n)` on the named sub-databases. */
  function With(dbs: map<Bytes, Table>, n: Bytes, k: Bytes, v: Bytes): (r: map<Bytes, Table>)
    requires AllSorted(dbs)
    ensures AllSorted(r)
  {
    DbOfSorted(dbs, n);
    dbs[n := Insert(DbOf(dbs, n), k, v)]
  }

  /** `txn.delete(k)` on sub-database `n`. */
  function Without(dbs: map<Bytes, Table>, n: Bytes, k: Bytes): (r: map<Bytes, Table>)
    requires AllSorted(dbs)
    ensures AllSorted(r)
  {
    DbOfSorted(dbs, n);
    dbs[n := Remove(DbOf(dbs, n), k)]
  }

  /** The files under one path: its named sub-databases. */
  class Environment {
    var dbs: map<Bytes, Table>

    ghost predicate Valid()
      reads this
    {
      AllSorted(dbs)
    }

    function Db(n: Bytes): Table
      reads this
    {
      DbOf(dbs, n)
    }

    /** `lmdb.open` on a fresh path. */
    constructor ()
      ensures Valid() && dbs == map[]
    {
      dbs := map[];
    }
  }

  /** One entry of a change feed: the feed key (the partition's base key, `_`
      and a timestamp) and the data key that was written. */
  datatype FeedEntry = FeedEntry(timestamp: Bytes, key: Bytes)

  // ---------------------------------------------------------------------
  // LmdbCollection

  class LmdbCollection {
    const env: Environment
    const name: Bytes                       // `_default_database_name`
    const buildFeed: bool
    const extractor: Option<Bytes -> Bytes> // `None` selects the default
    const port: Option<string>

    /** `LmdbCollection(path, extract_base_key, default_database_name,
        build_feed, port)` (conjure/storage.py:194-224) on the environment
        of `path`. */
    constructor (env: Environment, extractBaseKey: Option<Bytes -> Bytes>,
                 defaultDatabaseName: Data, buildFeed: bool, port: Option<string>)
      ensures this.env == env && this.extractor == extractBaseKey
      ensures this.name == EnsureBytes(defaultDatabaseName)
      ensures this.buildFeed == buildFeed && this.port == port
    {
      this.env := env;
      this.extractor := extractBaseKey;
      this.name := EnsureBytes(defaultDatabaseName);
      this.buildFeed := buildFeed;
      this.port := port;
    }

    /** The data partition, the feed and the offsets sub-database. */
    function DataTable(): Table reads env { env.Db(name) }
    function FeedTable(): Table reads env { env.Db(FeedName) }
    function OffsetsTable(): Table reads env { env.Db(OffsetsName) }

    /** The data partition is neither the feed nor the offsets database. */
    predicate Separate() {
      name != FeedName && name != OffsetsName
    }

    /** `self.extract_base_key(key)`. */
    function BaseKey(key: Bytes): Result<Bytes> {
      match extractor
      case None => DefaultBaseKey(key)
      case Some(f) => Ok(f(key))
    }

    /** The feed key `put` derives for `key` and a fresh timestamp. */
    function FeedKeyFor(key: Bytes, timestamp: Bytes): Result<Bytes> {
      match BaseKey(key)
      case Err(e) => Err(e)
      case Ok(base) => FeedKey(base, timestamp)
    }

    /** `put` succeeds: without a feed always, with one when the feed key
        can be derived. */
    predicate CanPut(key: Bytes, timestamp: Bytes) {
      !buildFeed || FeedKeyFor(key, timestamp).Ok?
    }

    /** The sub-databases after `put(key, value)` commits: the value in the
        data partition and, with a feed, the feed entry and the new offset,
        written in that order in one transaction. */
    ghost function Committed(dbs: map<Bytes, Table>, key: Bytes, value: Bytes, timestamp: Bytes): map<Bytes, Table>
      requires AllSorted(dbs)
      requires CanPut(key, timestamp)
    {
      var d := With(dbs, name, key, value);
      if buildFeed then
        var fk := FeedKeyFor(key, timestamp).value;
        With(With(d, FeedName, fk, key), OffsetsName, name, fk)
      else d
    }

    /** `put` (conjure/storage.py:322-333); `content_type` is not stored. */
    method Put(key: Bytes, value: Bytes, contentType: Option<string>, timestamp: Bytes) returns (r: Result<()>)
      requires env.Valid()
      modifies env
      ensures env.Valid()
      ensures r.Ok? <==> CanPut(key, timestamp)
      ensures r.Err? ==> r.error == FeedKeyFor(key, timestamp).error && env.dbs == old(env.dbs)
      ensures r.Ok? ==> env.dbs == Committed(old(env.dbs), key, value, timestamp)
      ensures r.Ok? && Separate() ==> Tables.Get(DataTable(), key) == Some(value)
      ensures r.Ok? && Separate() ==> forall j :: j != key ==> Tables.Get(DataTable(), j) == Tables.Get(old(DataTable()), j)
      ensures r.Ok? && Separate() && buildFeed ==>
                && Tables.Get(FeedTable(), FeedKeyFor(key, timestamp).value) == Some(key)
                && Keys(FeedTable()) == Keys(old(FeedTable())) + {FeedKeyFor(key, timestamp).value}
                && Tables.Get(OffsetsTable(), name) == Some(FeedKeyFor(key, timestamp).value)
      ensures r.Ok? && Separate() && !buildFeed ==> FeedTable() == old(FeedTable()) && OffsetsTable() == old(OffsetsTable())
    {
      if buildFeed {
        var fk := FeedKeyFor(key, timestamp);
        if fk.Err? {
          return Err(fk.error);
        }
        env.dbs := With(env.dbs, name, key, value);
        env.dbs := With(env.dbs, FeedName, fk.value, key);
        env.dbs := With(env.dbs, OffsetsName, name, fk.value);
      } else {
        env.dbs := With(env.dbs, name, key, value);
      }
      r := Ok(());
    }

    /** `__getitem__` (conjure/storage.py:336-341). */
    method Get(key: Bytes) returns (r: Result<Bytes>)
      requires env.Valid()
      ensures Tables.Get(DataTable(), key).Some? ==> r == Ok(Tables.Get(DataTable(), key).value)
      ensures Tables.Get(DataTable(), key).None? ==> r == Err(KeyError(key))
    {
      var v := Tables.Get(env.Db(name), key);
      if v.None? {
        return Err(KeyError(key));
      }
      r := Ok(v.value);
    }

    /** `__contains__` (conjure/storage.py:287-292). */
    method Contains(key: Bytes) returns (b: bool)
      requires env.Valid()
      ensures b <==> key in Keys(DataTable())
    {
      var r := Get(key);
      b := r.Ok?;
    }

    /** `content_length` (conjure/storage.py:279-285). */
    method ContentLength(key: Bytes) returns (r: Result<nat>)
      requires env.Valid()
      ensures key in Keys(DataTable()) ==> r == Ok(|Tables.Get(DataTable(), key).value|)
      ensures key !in Keys(DataTable()) ==> r == Err(KeyError(key))
    {
      var v := Tables.Get(env.Db(name), key);
      if v.None? {
        return Err(KeyError(key));
      }
      r := Ok(|v.value|);
    }

    /** `__delitem__` (conjure/storage.py:318-320); deleting an absent key
        changes nothing and raises nothing. */
    method Delete(key: Bytes)
      requires env.Valid()
      modifies env
      ensures env.Valid()
      ensures env.dbs == Without(old(env.dbs), name, key)
      ensures key !in Keys(DataTable())
      ensures forall j :: j != key ==> Tables.Get(DataTable(), j) == Tables.Get(old(DataTable()), j)
    {
      env.dbs := Without(env.dbs, name, key);
    }

    /** `iter_prefix` on the data partition (conjure/storage.py:294-316). */
    method IterPrefix(start: Bytes, prefix: Option<Bytes>) returns (keys: seq<Bytes>)
      requires env.Valid()
      ensures IsRun(DataTable(), Position(DataTable(), start), |keys|, prefix)
      ensures forall j :: 0 <= j < |keys| ==>
                keys[j] == DataTable()[Position(DataTable(), start) + j].key
    {
      keys := Scan(env.Db(name), start, prefix);
    }

    /** The `offset` property (conjure/storage.py:237-241): the offset slot
        of this partition, `None` when never set. */
    method Offset() returns (o: Option<Bytes>)
      requires env.Valid()
      ensures o == Tables.Get(OffsetsTable(), name)
    {
      o := Tables.Get(env.Db(OffsetsName), name);
    }

    /** `set_offset` (conjure/storage.py:243-250). */
    method SetOffset(offset: Bytes)
      requires env.Valid()
      modifies env
      ensures env.Valid()
      ensures env.dbs == With(old(env.dbs), OffsetsName, name, offset)
      ensures Tables.Get(OffsetsTable(), name) == Some(offset)
      ensures forall n :: n != OffsetsName ==> env.Db(n) == old(env.Db(n))
    {
      env.dbs := With(env.dbs, OffsetsName, name, offset);
    }

    /** `index_storage` (conjure/storage.py:252-257): a partition of the same
        environment with its own data database and offset slot, no feed and
        no port. */
    method IndexStorage(indexName: Data) returns (c: LmdbCollection)
      ensures fresh(c)
      ensures c.env == env && c.name == EnsureBytes(indexName)
      ensures c.extractor == extractor && !c.buildFeed && c.port.None?
    {
      c := new LmdbCollection(env, extractor, indexName, false, None);
    }

    /** The feed scan starts at the offset, `b''` when there is none. */
    static function FeedStart(offset: Option<Bytes>): Bytes {
      match offset
      case None => []
      case Some(o) => o
    }

    /** `feed` (conjure/storage.py:263-277): the feed entries from `offset`
        on (inclusive), in feed-key order, while their keys start with the
        base key of `offset`; the test is `startswith`, so a longer base key
        that extends it passes too. */
    method Feed(offset: Option<Bytes>) returns (r: Result<seq<FeedEntry>>)
      requires env.Valid()
      ensures !buildFeed ==> r == Err(NotImplementedError("This storage instance has no feed"))
      ensures buildFeed && BaseKey(FeedStart(offset)).Err? ==> r == Err(BaseKey(FeedStart(offset)).error)
      ensures buildFeed && BaseKey(FeedStart(offset)).Ok? ==>
                r.Ok? && YieldsFeed(FeedTable(), FeedStart(offset), BaseKey(FeedStart(offset)).value, r.value)
    {
      if !buildFeed {
        return Err(NotImplementedError("This storage instance has no feed"));
      }
      var start := FeedStart(offset);
      var prefix := BaseKey(start);
      if prefix.Err? {
        return Err(prefix.error);
      }
      var entries := ScanEntries(env.Db(FeedName), start, prefix.value);
      r := Ok(entries);
    }

    /** `public_uri` (conjure/storage.py:226-235), as the URL text. */
    method PublicUri(key: Bytes) returns (r: Result<string>)
      ensures port.None? ==> r == Err(NotImplementedError(""))
      ensures port.Some? && BaseKey(key).Ok? && Decode(BaseKey(key).value).Ok? && Decode(key).Ok? ==>
                r == Ok("http://localhost:" + port.value + "/functions/"
                        + Decode(BaseKey(key).value).value + "/" + Decode(key).value)
      ensures port.Some? && BaseKey(key).Err? ==> r == Err(BaseKey(key).error)
      ensures port.Some? && BaseKey(key).Ok? && (Decode(BaseKey(key).value).Err? || Decode(key).Err?) ==>
                r == Err(UnicodeDecodeError)
      ensures r.Ok? ==> port.Some?
    {
      if port.None? {
        return Err(NotImplementedError(""));
      }
      var base := BaseKey(key);
      if base.Err? {
        return Err(base.error);
      }
      var b := Decode(base.value);
      if b.Err? {
        return Err(b.error);
      }
      var k := Decode(key);
      if k.Err? {
        return Err(k.error);
      }
      r := Ok("http://localhost:" + port.value + "/functions/" + b.value + "/" + k.value);
    }
  }

  /** Every `put` on a partition whose keys decode as UTF-8 and whose
      timestamps do too succeeds under the default base-key extractor. */
  lemma DefaultCanPut(c: LmdbCollection, key: Bytes, timestamp: Bytes)
    requires c.extractor.None? && Decode(key).Ok? && Decode(timestamp).Ok?
    ensures c.CanPut(key, timestamp)
  {
    var s := Decode(key).value;
    assert DefaultBaseKey(key) == Ok(Encode(BeforeFirst(s, '_')));
    DecodeEncode(BeforeFirst(s, '_'));
    assert c.BaseKey(key) == DefaultBaseKey(key);
  }

  /** A `put` on a partition without a feed (what `index_storage` returns)
      always commits, and changes no sub-database but its own data
      database: not the parent's data, not the feed, not any offset. */
  lemma IndexWriteIsolated(c: LmdbCollection, dbs: map<Bytes, Table>, key: Bytes, value: Bytes, timestamp: Bytes)
    requires AllSorted(dbs) && !c.buildFeed
    ensures c.CanPut(key, timestamp)
    ensures forall n :: n != c.name ==> DbOf(c.Committed(dbs, key, value, timestamp), n) == DbOf(dbs, n)
    ensures Tables.Get(DbOf(c.Committed(dbs, key, value, timestamp), c.name), key) == Some(value)
  {}

  /** With no offset the default feed scan starts at the empty key under
      the empty prefix. */
  lemma DefaultFeedStart(c: LmdbCollection)
    requires c.extractor.None?
    ensures c.BaseKey(LmdbCollection.FeedStart(None)) == Ok([])
  {
    assert Decode([]) == Ok([]);
    assert BeforeFirst([], '_') == [];
  }

  /** From the empty key under the empty prefix the feed yields every entry
      of the feed database, in order. */
  lemma WholeFeed(t: Table, entries: seq<FeedEntry>)
    requires Sorted(t) && YieldsFeed(t, [], [], entries)
    ensures |entries| == |t|
    ensures forall j :: 0 <= j < |t| ==> entries[j] == FeedEntry(t[j].key, t[j].value)
  {
    assert Position(t, []) == 0;
  }

  // ---------------------------------------------------------------------
  // LocalCollectionWithBackup

  /** A fast local tier in front of a backup tier (conjure/storage.py:344-429).
      The backup is another embedded store, on files of its own. */
  class LocalCollectionWithBackup {
    const local: LmdbCollection
    const remote: LmdbCollection

    ghost predicate Valid()
      reads local.env, remote.env
    {
      && local.env != remote.env
      && local.env.Valid() && remote.env.Valid()
      && local.Separate() && remote.Separate()
    }

    /** The collection with `local_backup` set to an existing collection
        (conjure/storage.py:356-359); the local tier is `LmdbCollection`
        with its defaults on the local path. */
    constructor (localEnv: Environment, backup: LmdbCollection)
      requires localEnv != backup.env && backup.Separate()
      ensures fresh(local) && remote == backup
      ensures local.env == localEnv && local.name == DataName
      ensures local.buildFeed && local.extractor.None? && local.port.None?
      ensures localEnv.Valid() && backup.env.Valid() ==> Valid()
    {
      DataNameIsEncoded();
      local := new LmdbCollection(localEnv, None, Text("data"), true, None);
      remote := backup;
    }

    /** The collection with `local_backup=True` (conjure/storage.py:360-361):
        the backup is a default `LmdbCollection` at `{local_path}_backup`. */
    constructor WithLocalBackup(localEnv: Environment, backupEnv: Environment)
      requires localEnv != backupEnv
      ensures fresh(local) && fresh(remote)
      ensures local.env == localEnv && local.name == DataName
      ensures local.buildFeed && local.extractor.None? && local.port.None?
      ensures remote.env == backupEnv && remote.name == DataName
      ensures remote.buildFeed && remote.extractor.None? && remote.port.None?
      ensures localEnv.Valid() && backupEnv.Valid() ==> Valid()
    {
      DataNameIsEncoded();
      local := new LmdbCollection(localEnv, None, Text("data"), true, None);
      remote := new LmdbCollection(backupEnv, None, Text("data"), true, None);
    }

    /** What a read returns: the local value, else the backup's. */
    function Lookup(key: Bytes): Option<Bytes>
      reads local.env, remote.env
    {
      Layered(local.DataTable(), remote.DataTable(), key)
    }

    /** A read cannot fail in the backfill: the key is local, absent from
        the backup, or the local tier can take it. */
    predicate CanGet(key: Bytes, timestamp: Bytes)
      reads local.env, remote.env
    {
      || Tables.Get(local.DataTable(), key).Some?
      || Tables.Get(remote.DataTable(), key).None?
      || local.CanPut(key, timestamp)
    }

    /** `__getitem__` (conjure/storage.py:409-425): local first; on a local
        miss read the backup and write the value back to the local tier
        (which appends a local feed entry). A failure of that write is
        raised, not swallowed. */
    method Get(key: Bytes, timestamp: Bytes) returns (r: Result<Bytes>)
      requires Valid()
      modifies local.env
      ensures Valid()
      ensures Tables.Get(old(local.DataTable()), key).Some? ==>
                r == Ok(Tables.Get(old(local.DataTable()), key).value) && local.env.dbs == old(local.env.dbs)
      ensures old(Lookup(key)).None? ==> r == Err(KeyError(key)) && local.env.dbs == old(local.env.dbs)
      ensures Tables.Get(old(local.DataTable()), key).None? && old(Lookup(key)).Some? ==>
                if local.CanPut(key, timestamp) then
                  && r == Ok(old(Lookup(key)).value)
                  && local.env.dbs == local.Committed(old(local.env.dbs), key, r.value, timestamp)
                else
                  r == Err(local.FeedKeyFor(key, timestamp).error) && local.env.dbs == old(local.env.dbs)
      ensures r.Ok? ==> r.value == old(Lookup(key)).value && key in Keys(local.DataTable())
      ensures old(CanGet(key, timestamp)) ==> (r.Ok? <==> old(Lookup(key)).Some?)
      ensures forall j :: Lookup(j) == old(Lookup(j))
    {
      r := local.Get(key);
      if r.Ok? {
        return;
      }
      ghost var localBefore, back := local.DataTable(), remote.DataTable();
      r := remote.Get(key);
      if r.Err? {
        return;
      }
      var w := local.Put(key, r.value, None, timestamp);
      if w.Err? {
        r := Err(w.error);
      } else {
        LayeredBackfill(localBefore, local.DataTable(), back, key);
      }
    }

    /** `__contains__` (conjure/storage.py:402-407): a read, so a hit in the
        backup backfills the local tier; only `KeyError` means absent. */
    method Contains(key: Bytes, timestamp: Bytes) returns (r: Result<bool>)
      requires Valid()
      modifies local.env
      ensures Valid()
      ensures old(Lookup(key)).None? ==> r == Ok(false)
      ensures old(Lookup(key)).Some? && old(CanGet(key, timestamp)) ==> r == Ok(true)
      ensures old(Lookup(key)).Some? && !old(CanGet(key, timestamp)) ==> r.Err? && !r.error.KeyError?
      ensures r.Ok? ==> (r.value <==> old(Lookup(key)).Some?)
      ensures Tables.Get(old(local.DataTable()), key).Some? || old(Lookup(key)).None? ==>
                local.env.dbs == old(local.env.dbs)
      ensures Tables.Get(old(local.DataTable()), key).None? && old(Lookup(key)).Some? ==>
                if local.CanPut(key, timestamp) then
                  local.env.dbs == local.Committed(old(local.env.dbs), key, old(Lookup(key)).value, timestamp)
                else
                  local.env.dbs == old(local.env.dbs)
      ensures forall j :: Lookup(j) == old(Lookup(j))
    {
      NotKeyErrorOnBackfill(this, key, timestamp);
      var g := Get(key, timestamp);
      if g.Ok? {
        r := Ok(true);
      } else if g.error.KeyError? {
        r := Ok(false);
      } else {
        r := Err(g.error);
      }
    }

    /** `put` (conjure/storage.py:427-429): the local tier first, then the
        backup; a failing backup write leaves the local write in place. */
    method Put(key: Bytes, value: Bytes, contentType: Option<string>,
               localTimestamp: Bytes, remoteTimestamp: Bytes) returns (r: Result<()>)
      requires Valid()
      modifies local.env, remote.env
      ensures Valid()
      ensures r.Ok? <==> local.CanPut(key, localTimestamp) && remote.CanPut(key, remoteTimestamp)
      ensures !local.CanPut(key, localTimestamp) ==>
                local.env.dbs == old(local.env.dbs) && remote.env.dbs == old(remote.env.dbs)
      ensures local.CanPut(key, localTimestamp) ==>
                local.env.dbs == local.Committed(old(local.env.dbs), key, value, localTimestamp)
      ensures local.CanPut(key, localTimestamp) && remote.CanPut(key, remoteTimestamp) ==>
                remote.env.dbs == remote.Committed(old(remote.env.dbs), key, value, remoteTimestamp)
      ensures local.CanPut(key, localTimestamp) && !remote.CanPut(key, remoteTimestamp) ==>
                remote.env.dbs == old(remote.env.dbs)
      ensures local.CanPut(key, localTimestamp) ==> Lookup(key) == Some(value)
      ensures forall j :: j != key ==> Lookup(j) == old(Lookup(j))
    {
      ghost var localBefore, remoteBefore := local.DataTable(), remote.DataTable();
      r := local.Put(key, value, contentType, localTimestamp);
      if r.Err? {
        return;
      }
      assert remote.DataTable() == remoteBefore;
      ghost var localAfter := local.DataTable();
      r := remote.Put(key, value, contentType, remoteTimestamp);
      assert local.DataTable() == localAfter;
      LayeredFrame(localBefore, localAfter, remoteBefore, remote.DataTable(), key);
    }

    /** `__delitem__` (conjure/storage.py:393-395): delete from both tiers. */
    method Delete(key: Bytes)
      requires Valid()
      modifies local.env, remote.env
      ensures Valid()
      ensures local.env.dbs == Without(old(local.env.dbs), local.name, key)
      ensures remote.env.dbs == Without(old(remote.env.dbs), remote.name, key)
      ensures Lookup(key).None?
      ensures forall j :: j != key ==> Lookup(j) == old(Lookup(j))
    {
      local.Delete(key);
      remote.Delete(key);
    }

    /** `content_length` (conjure/storage.py:379-383): the local length, else
        the backup's. */
    method ContentLength(key: Bytes) returns (r: Result<nat>)
      requires Valid()
      ensures Lookup(key).Some? ==> r == Ok(|Lookup(key).value|)
      ensures Lookup(key).None? ==> r == Err(KeyError(key))
    {
      r := local.ContentLength(key);
      if r.Err? {
        r := remote.ContentLength(key);
      }
    }

    /** `iter_prefix` (conjure/storage.py:397-400): the local tier only. */
    method IterPrefix(start: Bytes, prefix: Option<Bytes>) returns (keys: seq<Bytes>)
      requires Valid()
      ensures IsRun(local.DataTable(), Position(local.DataTable(), start), |keys|, prefix)
      ensures forall j :: 0 <= j < |keys| ==>
                keys[j] == local.DataTable()[Position(local.DataTable(), start) + j].key
    {
      keys := local.IterPrefix(start, prefix);
    }

    /** `feed` (conjure/storage.py:376-377): the local tier's feed. */
    method Feed(offset: Option<Bytes>) returns (r: Result<seq<FeedEntry>>)
      requires Valid()
      ensures !local.buildFeed ==> r == Err(NotImplementedError("This storage instance has no feed"))
      ensures local.buildFeed && local.BaseKey(LmdbCollection.FeedStart(offset)).Err? ==>
                r == Err(local.BaseKey(LmdbCollection.FeedStart(offset)).error)
      ensures local.buildFeed && local.BaseKey(LmdbCollection.FeedStart(offset)).Ok? ==>
                && r.Ok?
                && YieldsFeed(local.FeedTable(), LmdbCollection.FeedStart(offset),
                              local.BaseKey(LmdbCollection.FeedStart(offset)).value, r.value)
    {
      r := local.Feed(offset);
    }

    /** The `offset` property (conjure/storage.py:366-368). */
    method Offset() returns (o: Option<Bytes>)
      requires Valid()
      ensures o == Tables.Get(local.OffsetsTable(), local.name)
    {
      o := local.Offset();
    }

    /** `set_offset` (conjure/storage.py:373-374). */
    method SetOffset(offset: Bytes)
      requires Valid()
      modifies local.env
      ensures Valid()
      ensures local.env.dbs == With(old(local.env.dbs), OffsetsName, local.name, offset)
      ensures forall j :: Lookup(j) == old(Lookup(j))
    {
      local.SetOffset(offset);
    }

    /** `index_storage` (conjure/storage.py:370-371). */
    method IndexStorage(indexName: Data) returns (c: LmdbCollection)
      ensures fresh(c)
      ensures c.env == local.env && c.name == EnsureBytes(indexName)
      ensures c.extractor == local.extractor && !c.buildFeed && c.port.None?
    {
      c := local.IndexStorage(indexName);
    }

    /** `public_uri` (conjure/storage.py:385-386): answered by the backup. */
    method PublicUri(key: Bytes) returns (r: Result<string>)
      ensures remote.port.None? ==> r == Err(NotImplementedError(""))
      ensures remote.port.Some? && remote.BaseKey(key).Ok? && Decode(remote.BaseKey(key).value).Ok? && Decode(key).Ok? ==>
                r == Ok("http://localhost:" + remote.port.value + "/functions/"
                        + Decode(remote.BaseKey(key).value).value + "/" + Decode(key).value)
      ensures remote.port.Some? && remote.BaseKey(key).Err? ==> r == Err(remote.BaseKey(key).error)
      ensures remote.port.Some? && remote.BaseKey(key).Ok?
              && (Decode(remote.BaseKey(key).value).Err? || Decode(key).Err?) ==>
                r == Err(UnicodeDecodeError)
      ensures r.Ok? ==> remote.port.Some?
    {
      r := remote.PublicUri(key);
    }
  }

  // ---------------------------------------------------------------------
  // The stores a memoized computation writes through

  /** The fresh ids `timestamp_id()` hands to the local and to the backup
      write of one operation (an embedded store uses only the first). */
  datatype Stamps = Stamps(local: Bytes, remote: Bytes)

  /** The sub-databases of a store's local (or only) and backup environments. */
  datatype Snapshot = Snapshot(local: map<Bytes, Table>, remote: map<Bytes, Table>)

  /** A `Collection` that `Conjure` may be given: an embedded store or the
      two-tier store. */
  datatype Store = Embedded(db: LmdbCollection) | Tiered(tiers: LocalCollectionWithBackup) {

    function Envs(): set<Environment> {
      match this
      case Embedded(db) => {db.env}
      case Tiered(t) => {t.local.env, t.remote.env}
    }

    ghost predicate Valid()
      reads Envs()
    {
      match this
      case Embedded(db) => db.env.Valid() && db.Separate()
      case Tiered(t) => t.Valid()
    }

    /** The value a read of `key` returns. */
    function Lookup(key: Bytes): Option<Bytes>
      reads Envs()
    {
      match this
      case Embedded(db) => Tables.Get(db.DataTable(), key)
      case Tiered(t) => t.Lookup(key)
    }

    predicate CanGet(key: Bytes, stamps: Stamps)
      reads Envs()
    {
      match this
      case Embedded(_) => true
      case Tiered(t) => t.CanGet(key, stamps.local)
    }

    predicate CanPut(key: Bytes, stamps: Stamps) {
      match this
      case Embedded(db) => db.CanPut(key, stamps.local)
      case Tiered(t) => t.local.CanPut(key, stamps.local) && t.remote.CanPut(key, stamps.remote)
    }

    /** The sub-databases of the store's environments: the embedded store's
        one environment (with no second), or the local and the backup tier's. */
    function Dbs(): Snapshot
      reads Envs()
    {
      match this
      case Embedded(db) => Snapshot(db.env.dbs, map[])
      case Tiered(t) => Snapshot(t.local.env.dbs, t.remote.env.dbs)
    }

    /** In the databases `s`, a read of `key` writes the value back: the
        tiered store misses locally and finds the key in the backup. */
    predicate BackfillsIn(s: Snapshot, key: Bytes) {
      && Tiered?
      && Tables.Get(DbOf(s.local, tiers.local.name), key).None?
      && Tables.Get(DbOf(s.remote, tiers.remote.name), key).Some?
    }

    /** The databases after a read of `key` from `s`: only a backfill writes,
        and only to the local tier, when its feed key can be built. */
    ghost function AfterRead(s: Snapshot, key: Bytes, stamps: Stamps): Snapshot
      requires AllSorted(s.local)
    {
      if BackfillsIn(s, key) && tiers.local.CanPut(key, stamps.local) then
        var v := Tables.Get(DbOf(s.remote, tiers.remote.name), key).value;
        s.(local := tiers.local.Committed(s.local, key, v, stamps.local))
      else s
    }

    /** The databases after `put(key, value)` on `s`: the embedded store
        commits or fails as a whole; the tiered store writes the local tier,
        then the backup, and stops at the first write that fails. */
    ghost function AfterPut(s: Snapshot, key: Bytes, value: Bytes, stamps: Stamps): Snapshot
      requires AllSorted(s.local) && AllSorted(s.remote)
    {
      match this
      case Embedded(db) =>
        if db.CanPut(key, stamps.local) then s.(local := db.Committed(s.local, key, value, stamps.local)) else s
      case Tiered(t) =>
        if !t.local.CanPut(key, stamps.local) then s
        else if !t.remote.CanPut(key, stamps.remote) then
          s.(local := t.local.Committed(s.local, key, value, stamps.local))
        else
          Snapshot(t.local.Committed(s.local, key, value, stamps.local),
                   t.remote.Committed(s.remote, key, value, stamps.remote))
    }

    /** `storage[key]`: a read never changes what later reads return. */
    method Get(key: Bytes, stamps: Stamps) returns (r: Result<Bytes>)
      requires Valid()
      modifies Envs()
      ensures Valid()
      ensures old(Lookup(key)).None? ==> r == Err(KeyError(key))
      ensures old(Lookup(key)).Some? && old(CanGet(key, stamps)) ==> r == Ok(old(Lookup(key)).value)
      ensures r.Ok? ==> old(Lookup(key)) == Some(r.value)
      ensures r.Err? && r.error.KeyError? ==> old(Lookup(key)).None?
      ensures old(Lookup(key)).Some? && !old(CanGet(key, stamps)) ==> r.Err? && !r.error.KeyError?
      ensures Dbs() == AfterRead(old(Dbs()), key, stamps)
      ensures forall j :: Lookup(j) == old(Lookup(j))
    {
      match this
      case Embedded(db) =>
        r := db.Get(key);
      case Tiered(t) =>
        r := t.Get(key, stamps.local);
        assert r.Err? && r.error.KeyError? ==> old(Lookup(key)).None? by {
          NotKeyErrorOnBackfill(t, key, stamps.local);
        }
    }

    /** `key in storage`. */
    method Contains(key: Bytes, stamps: Stamps) returns (r: Result<bool>)
      requires Valid()
      modifies Envs()
      ensures Valid()
      ensures old(CanGet(key, stamps)) ==> r == Ok(old(Lookup(key)).Some?)
      ensures old(Lookup(key)).Some? && !old(CanGet(key, stamps)) ==> r.Err? && !r.error.KeyError?
      ensures r.Ok? ==> (r.value <==> old(Lookup(key)).Some?)
      ensures Dbs() == AfterRead(old(Dbs()), key, stamps)
      ensures forall j :: Lookup(j) == old(Lookup(j))
    {
      match this
      case Embedded(db) =>
        var b := db.Contains(key);
        r := Ok(b);
      case Tiered(t) =>
        r := t.Contains(key, stamps.local);
    }

    /** `storage.put(key, value, content_type)`. */
    method Put(key: Bytes, value: Bytes, contentType: Option<string>, stamps: Stamps) returns (r: Result<()>)
      requires Valid()
      modifies Envs()
      ensures Valid()
      ensures r.Ok? <==> CanPut(key, stamps)
      ensures Dbs() == AfterPut(old(Dbs()), key, value, stamps)
      ensures r.Ok? ==> Lookup(key) == Some(value)
      ensures forall j :: j != key ==> Lookup(j) == old(Lookup(j))
    {
      match this
      case Embedded(db) =>
        r := db.Put(key, value, contentType, stamps.local);
      case Tiered(t) =>
        r := t.Put(key, value, contentType, stamps.local, stamps.remote);
    }
  }

  /** A value of the local table, else one of the backup table. */
  function Layered(front: Table, back: Table, key: Bytes): Option<Bytes> {
    match Tables.Get(front, key)
    case Some(v) => Some(v)
    case None => Tables.Get(back, key)
  }

  /** Tables that agree on every key but one give layered values that agree
      on every key but that one. */
  lemma LayeredFrame(front: Table, front': Table, back: Table, back': Table, key: Bytes)
    requires forall j :: j != key ==> Tables.Get(front', j) == Tables.Get(front, j)
    requires forall j :: j != key ==> Tables.Get(back', j) == Tables.Get(back, j)
    ensures forall j :: j != key ==> Layered(front', back', j) == Layered(front, back, j)
  {}

  /** Copying the backup's value for a key the local table lacks into the
      local table changes no layered value. */
  lemma LayeredBackfill(front: Table, front': Table, back: Table, key: Bytes)
    requires Tables.Get(front, key).None? && Tables.Get(front', key) == Tables.Get(back, key)
    requires forall j :: j != key ==> Tables.Get(front', j) == Tables.Get(front, j)
    ensures forall j :: Layered(front', back, j) == Layered(front, back, j)
  {}

  /** The only `KeyError` a tiered read raises is the backup's. */
  lemma NotKeyErrorOnBackfill(t: LocalCollectionWithBackup, key: Bytes, timestamp: Bytes)
    ensures t.local.FeedKeyFor(key, timestamp).Err? ==> !t.local.FeedKeyFor(key, timestamp).error.KeyError?
  {
    if t.local.FeedKeyFor(key, timestamp).Err? && t.local.extractor.None? {
      var b := t.local.BaseKey(key);
    }
  }
}
