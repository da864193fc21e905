/** The key order of an LMDB database with the default comparator:
    byte strings compared lexicographically, byte by byte, a proper prefix
    sorting before every extension of it. */
module ByteOrder {

  import opened Octets

  /** `a` sorts strictly before `b`. */
  predicate Less(a: Bytes, b: Bytes)
    decreases |a|
  {
    if |a| == 0 then |b| > 0
    else if |b| == 0 then false
    else if a[0] != b[0] then a[0] < b[0]
    else Less(a[1..], b[1..])
  }

  predicate LessEq(a: Bytes, b: Bytes) {
    a == b || Less(a, b)
  }

  /** `bytes.startswith`: `p` is a prefix of `k`. */
  predicate StartsWith(k: Bytes, p: Bytes) {
    |p| <= |k| && k[..|p|] == p
  }

  lemma {:induction false} LessIrreflexive(a: Bytes)
    ensures !Less(a, a)
  {
    if |a| > 0 { LessIrreflexive(a[1..]); }
  }

  lemma {:induction false} LessAsymmetric(a: Bytes, b: Bytes)
    requires Less(a, b)
    ensures !Less(b, a)
  {
    if |a| > 0 && |b| > 0 && a[0] == b[0] { LessAsymmetric(a[1..], b[1..]); }
  }

  lemma {:induction false} LessTransitive(a: Bytes, b: Bytes, c: Bytes)
    requires Less(a, b) && Less(b, c)
    ensures Less(a, c)
  {
    if |a| > 0 && a[0] == b[0] && b[0] == c[0] {
      LessTransitive(a[1..], b[1..], c[1..]);
    }
  }

  /** Any two byte strings are equal or ordered one way round. */
  lemma {:induction false} LessTotal(a: Bytes, b: Bytes)
    ensures a == b || Less(a, b) || Less(b, a)
  {
    if |a| > 0 && |b| > 0 && a[0] == b[0] {
      LessTotal(a[1..], b[1..]);
      if a[1..] == b[1..] {
        assert a == [a[0]] + a[1..] && b == [b[0]] + b[1..];
      }
    }
  }

  lemma LessEqTransitive(a: Bytes, b: Bytes, c: Bytes)
    requires LessEq(a, b) && LessEq(b, c)
    ensures LessEq(a, c)
  {
    if a != b && b != c { LessTransitive(a, b, c); }
  }

  /** The keys that start with `p` form one contiguous block of the order:
      a key between two keys with the prefix has it too. */
  lemma {:induction false} PrefixBlock(a: Bytes, b: Bytes, c: Bytes, p: Bytes)
    requires StartsWith(a, p) && StartsWith(c, p)
    requires LessEq(a, b) && LessEq(b, c)
    ensures StartsWith(b, p)
  {
    if |p| > 0 && a != b && b != c {
      assert a[0] == p[0] && c[0] == p[0];
      assert |b| > 0;
      assert b[0] == p[0];
      assert a[1..][..|p| - 1] == p[1..] && c[1..][..|p| - 1] == p[1..];
      PrefixBlock(a[1..], b[1..], c[1..], p[1..]);
      assert b[..|p|] == [b[0]] + b[1..][..|p| - 1];
    }
  }

  /** Extending both sides by the same prefix keeps their order. */
  lemma {:induction false} LessCommonPrefix(p: Bytes, a: Bytes, b: Bytes)
    ensures Less(p + a, p + b) <==> Less(a, b)
  {
    if |p| > 0 {
      assert (p + a)[0] == (p + b)[0];
      assert (p + a)[1..] == p[1..] + a && (p + b)[1..] == p[1..] + b;
      LessCommonPrefix(p[1..], a, b);
    } else {
      assert p + a == a && p + b == b;
    }
  }

  /** A key with prefix `p` sorts at or after `p` itself. */
  lemma {:induction false} PrefixFirst(k: Bytes, p: Bytes)
    requires StartsWith(k, p)
    ensures LessEq(p, k)
  {
    if |p| > 0 {
      assert k[1..][..|p| - 1] == p[1..];
      PrefixFirst(k[1..], p[1..]);
      assert p == [p[0]] + p[1..] && k == [k[0]] + k[1..];
    } else if |k| > 0 {
      assert Less(p, k);
    }
  }
}
