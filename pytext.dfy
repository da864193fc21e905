/** The Python string operations conjure/article.py builds its output with:
    `str.join`, `str.strip`, list slicing, `str * int` and `str(int)`. */
module PyText {

  /** `sep.join(parts)`. */
  function Join(sep: string, parts: seq<string>): string {
    if parts == [] then ""
    else if |parts| == 1 then parts[0]
    else parts[0] + sep + Join(sep, parts[1..])
  }

  /** A join of no parts is empty, of one part is that part, and otherwise
      begins with the first part. */
  lemma JoinFirst(sep: string, parts: seq<string>)
    ensures parts == [] ==> Join(sep, parts) == ""
    ensures parts != [] ==> parts[0] <= Join(sep, parts)
    ensures |parts| == 1 ==> Join(sep, parts) == parts[0]
  {}

  /** Joining two non-empty lists puts one separator between the halves. */
  lemma {:induction false} JoinAppend(sep: string, a: seq<string>, b: seq<string>)
    requires a != [] && b != []
    ensures Join(sep, a + b) == Join(sep, a) + sep + Join(sep, b)
  {
    if |a| == 1 {
      assert (a + b)[1..] == b;
    } else {
      assert (a + b)[0] == a[0];
      assert (a + b)[1..] == a[1..] + b;
      JoinAppend(sep, a[1..], b);
    }
  }

  /** `''.join(f(x) for x in xs)`: the strings a loop appends with `+=`. */
  function Concat<T>(f: T -> string, xs: seq<T>): string {
    if xs == [] then "" else f(xs[0]) + Concat(f, xs[1..])
  }

  lemma {:induction false} ConcatAppend<T>(f: T -> string, a: seq<T>, b: seq<T>)
    ensures Concat(f, a + b) == Concat(f, a) + Concat(f, b)
  {
    if a == [] {
      assert a + b == b;
    } else {
      assert (a + b)[0] == a[0];
      assert (a + b)[1..] == a[1..] + b;
      ConcatAppend(f, a[1..], b);
    }
  }

  /** One more turn of such a loop appends one more string. */
  lemma ConcatSnoc<T>(f: T -> string, xs: seq<T>, i: nat)
    requires i < |xs|
    ensures Concat(f, xs[..i + 1]) == Concat(f, xs[..i]) + f(xs[i])
  {
    assert Concat(f, [xs[i]]) == f(xs[i]) by {
      assert [xs[i]][1..] == [];
    }
    ConcatAppend(f, xs[..i], [xs[i]]);
    assert xs[..i + 1] == xs[..i] + [xs[i]];
  }

  /** Each element's string sits in the whole between those of the
      elements before and after it. */
  lemma ConcatSplit<T>(f: T -> string, xs: seq<T>, i: nat)
    requires i < |xs|
    ensures Concat(f, xs) == Concat(f, xs[..i]) + f(xs[i]) + Concat(f, xs[i + 1..])
  {
    var rest := xs[i..];
    assert rest[0] == xs[i] && rest[1..] == xs[i + 1..];
    assert xs[..i] + rest == xs;
    ConcatAppend(f, xs[..i], rest);
  }

  lemma Regroup<T>(a: seq<T>, b: seq<T>, c: seq<T>, d: seq<T>)
    ensures a + b + c + d == a + (b + c + d)
  {}

  /** `str.isspace` for one character: the characters Python treats as
      whitespace (Unicode White_Space plus the separators U+001C to U+001F). */
  predicate IsSpace(c: char) {
    var n := c as int;
    || n == 0x20 || 0x09 <= n <= 0x0D || 0x1C <= n <= 0x1F
    || n == 0x85 || n == 0xA0 || n == 0x1680 || 0x2000 <= n <= 0x200A
    || n == 0x2028 || n == 0x2029 || n == 0x202F || n == 0x205F || n == 0x3000
  }

  predicate AllSpace(s: string) {
    forall i :: 0 <= i < |s| ==> IsSpace(s[i])
  }

  /** The number of whitespace characters `s` starts with. */
  function LeadingSpace(s: string): (n: nat)
    ensures n <= |s|
    ensures forall i :: 0 <= i < n ==> IsSpace(s[i])
    ensures n < |s| ==> !IsSpace(s[n])
  {
    if s == [] || !IsSpace(s[0]) then 0 else 1 + LeadingSpace(s[1..])
  }

  /** The number of whitespace characters `s` ends with. */
  function TrailingSpace(s: string): (n: nat)
    ensures n <= |s|
    ensures forall i :: |s| - n <= i < |s| ==> IsSpace(s[i])
    ensures n < |s| ==> !IsSpace(s[|s| - n - 1])
  {
    if s == [] || !IsSpace(s[|s| - 1]) then 0 else 1 + TrailingSpace(s[..|s| - 1])
  }

  /** `s.strip()`: `s` without its leading and trailing whitespace. */
  function Strip(s: string): (r: string)
    ensures r == [] <==> AllSpace(s)
  {
    var lo := LeadingSpace(s);
    var k := TrailingSpace(s[lo..]);
    assert lo < |s| ==> s[lo..][0] == s[lo];
    s[lo..|s| - k]
  }

  /** `r` sits at `lo` in `s` with only whitespace around it. */
  predicate StrippedAt(s: string, r: string, lo: nat) {
    && lo + |r| <= |s| && r == s[lo..lo + |r|]
    && (forall i :: 0 <= i < lo ==> IsSpace(s[i]))
    && (forall i :: lo + |r| <= i < |s| ==> IsSpace(s[i]))
  }

  /** What `strip` keeps is a slice of `s` with only whitespace around it. */
  lemma StripIsSlice(s: string)
    ensures StrippedAt(s, Strip(s), LeadingSpace(s))
  {
    var lo := LeadingSpace(s);
    var t := s[lo..];
    var k := TrailingSpace(t);
    var r := s[lo..|s| - k];
    assert Strip(s) == r;
    forall i | lo + |r| <= i < |s| ensures IsSpace(s[i]) {
      assert s[i] == t[i - lo];
    }
  }

  /** What `strip` keeps neither starts nor ends with whitespace. */
  lemma StripEnds(s: string)
    ensures Strip(s) == [] || (!IsSpace(Strip(s)[0]) && !IsSpace(Strip(s)[|Strip(s)| - 1]))
  {
    var lo := LeadingSpace(s);
    var t := s[lo..];
    var k := TrailingSpace(t);
    var r := s[lo..|s| - k];
    assert Strip(s) == r;
    if r != [] {
      assert r[0] == s[lo];
      assert r[|r| - 1] == t[|t| - k - 1];
    }
  }

  /** `s[a:b]` on a list, for non-negative bounds: both clamp to the length
      and an empty slice results when they cross. */
  function Slice<T>(s: seq<T>, a: nat, b: nat): (r: seq<T>)
    ensures |r| == if b <= a || |s| <= a then 0 else (if b < |s| then b else |s|) - a
    ensures forall i :: 0 <= i < |r| ==> r[i] == s[a + i]
  {
    var lo := if a < |s| then a else |s|;
    var hi := if b < |s| then b else |s|;
    if hi <= lo then [] else s[lo..hi]
  }

  /** `'\t' * n`: `n` tabs, none when `n` is not positive. */
  function Tabs(n: int): (r: string)
    ensures |r| == if n > 0 then n else 0
    ensures forall i :: 0 <= i < |r| ==> r[i] == '\t'
  {
    if n <= 0 then "" else "\t" + Tabs(n - 1)
  }

  function DigitChar(d: nat): char
    requires d < 10
  {
    ['0', '1', '2', '3', '4', '5', '6', '7', '8', '9'][d]
  }

  /** `str(n)` for a natural number: its decimal digits, no leading zero. */
  function NatToString(n: nat): (r: string)
    ensures 1 <= |r|
    ensures forall i :: 0 <= i < |r| ==> '0' <= r[i] <= '9'
    ensures |r| > 1 ==> r[0] != '0'
  {
    if n < 10 then [DigitChar(n)] else NatToString(n / 10) + [DigitChar(n % 10)]
  }

  /** `str(i)` for an integer: a minus sign before negative values. */
  function IntToString(i: int): (r: string)
    ensures |r| >= 1 && (i < 0 <==> r[0] == '-')
  {
    if i < 0 then "-" + NatToString(-i) else NatToString(i)
  }
}
