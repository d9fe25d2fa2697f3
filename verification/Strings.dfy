/** The string operations that event identifiers and cursors are built from. */
module Strings {

  /** Lexicographic order by code point. */
  predicate Less(a: string, b: string) {
    b != [] && (a == [] || a[0] < b[0] || (a[0] == b[0] && Less(a[1..], b[1..])))
  }

  lemma {:induction false} LessIrreflexive(a: string)
    ensures !Less(a, a)
  {
    if a != [] {
      LessIrreflexive(a[1..]);
    }
  }

  lemma {:induction false} LessTransitive(a: string, b: string, c: string)
    requires Less(a, b) && Less(b, c)
    ensures Less(a, c)
  {
    if a != [] && a[0] == b[0] && b[0] == c[0] {
      LessTransitive(a[1..], b[1..], c[1..]);
    }
  }

  lemma {:induction false} LessTotal(a: string, b: string)
    ensures a == b || Less(a, b) || Less(b, a)
  {
    if a != [] && b != [] && a[0] == b[0] {
      LessTotal(a[1..], b[1..]);
      assert a == [a[0]] + a[1..] && b == [b[0]] + b[1..];
    }
  }

  /** A common prefix does not matter to the order. */
  lemma {:induction false} LessAfterPrefix(p: string, a: string, b: string)
    ensures Less(p + a, p + b) <==> Less(a, b)
  {
    if p == [] {
      assert p + a == a && p + b == b;
    } else {
      LessAfterPrefix(p[1..], a, b);
      assert (p + a)[1..] == p[1..] + a && (p + b)[1..] == p[1..] + b;
    }
  }

  /** Different prefixes of one length decide the order, whatever follows. */
  lemma {:induction false} LessByPrefix(p: string, q: string, a: string, b: string)
    requires |p| == |q| && p != q
    ensures Less(p + a, q + b) <==> Less(p, q)
  {
    assert (p + a)[0] == p[0] && (q + b)[0] == q[0];
    if p[0] == q[0] {
      assert p == [p[0]] + p[1..] && q == [q[0]] + q[1..];
      assert (p + a)[1..] == p[1..] + a && (q + b)[1..] == q[1..] + b;
      LessByPrefix(p[1..], q[1..], a, b);
    }
  }

  /** The text before the first separator, whether there was one, and the text after it. */
  function Partition(s: string, sep: char): (r: (string, bool, string))
    ensures sep !in r.0
    ensures if r.1 then s == r.0 + [sep] + r.2 else r.0 == s && r.2 == ""
  {
    if s == [] then ("", false, "")
    else if s[0] == sep then ("", true, s[1..])
    else
      var rest := Partition(s[1..], sep);
      ([s[0]] + rest.0, rest.1, rest.2)
  }

  /** A partition is determined by the first separator. */
  lemma {:induction false} PartitionOf(before: string, sep: char, after: string)
    requires sep !in before
    ensures Partition(before + [sep] + after, sep) == (before, true, after)
  {
    var s := before + [sep] + after;
    if before == [] {
      assert s[1..] == after;
    } else {
      assert s[1..] == before[1..] + [sep] + after;
      PartitionOf(before[1..], sep, after);
      assert [before[0]] + before[1..] == before;
    }
  }

  lemma {:induction false} PartitionWithout(s: string, sep: char)
    requires sep !in s
    ensures Partition(s, sep) == (s, false, "")
  {
    if s != [] {
      PartitionWithout(s[1..], sep);
      assert [s[0]] + s[1..] == s;
    }
  }

  /** `sep.join(parts)`. */
  function Join(parts: seq<string>, sep: char): string
    requires parts != []
  {
    if |parts| == 1 then parts[0] else parts[0] + [sep] + Join(parts[1..], sep)
  }

  predicate FreeOf(parts: seq<string>, sep: char) {
    forall part <- parts :: sep !in part
  }

  /** Splitting joined parts at the first separator gives back the first part. */
  lemma JoinHead(parts: seq<string>, sep: char)
    requires parts != [] && FreeOf(parts, sep)
    ensures Partition(Join(parts, sep), sep)
            == (parts[0], |parts| > 1, if |parts| > 1 then Join(parts[1..], sep) else "")
  {
    if |parts| > 1 {
      PartitionOf(parts[0], sep, Join(parts[1..], sep));
    } else {
      PartitionWithout(parts[0], sep);
    }
  }

  /** Joining parts that do not hold the separator loses nothing. */
  lemma {:induction false} JoinInjective(a: seq<string>, b: seq<string>, sep: char)
    requires a != [] && b != [] && FreeOf(a, sep) && FreeOf(b, sep)
    requires Join(a, sep) == Join(b, sep)
    ensures a == b
  {
    JoinHead(a, sep);
    JoinHead(b, sep);
    if |a| > 1 {
      JoinInjective(a[1..], b[1..], sep);
    }
    assert a == [a[0]] + a[1..] && b == [b[0]] + b[1..];
  }

  lemma {:induction false} JoinExtend(parts: seq<string>, last: string, sep: char)
    requires parts != []
    ensures Join(parts + [last], sep) == Join(parts, sep) + [sep] + last
  {
    if |parts| == 1 {
      assert (parts + [last])[1..] == [last];
    } else {
      assert (parts + [last])[1..] == parts[1..] + [last];
      JoinExtend(parts[1..], last, sep);
    }
  }

  /** Joining keeps out every character that neither the parts nor the separator hold. */
  lemma {:induction false} JoinAvoids(parts: seq<string>, sep: char, c: char)
    requires parts != [] && FreeOf(parts, c) && c != sep
    ensures c !in Join(parts, sep)
  {
    if |parts| > 1 {
      JoinAvoids(parts[1..], sep, c);
    }
  }

  const DIGITS: string := "0123456789"

  predicate IsDigits(s: string) {
    forall i | 0 <= i < |s| :: '0' <= s[i] <= '9'
  }

  function DigitValue(c: char): (v: nat)
    requires '0' <= c <= '9'
    ensures v < 10 && DIGITS[v] == c
  {
    (c - '0') as int
  }

  /** `int(s)` of a decimal string. */
  function ToNat(s: string): nat
    requires IsDigits(s)
  {
    if s == [] then 0 else 10 * ToNat(s[..|s| - 1]) + DigitValue(s[|s| - 1])
  }

  /** `str(n)`. */
  function Decimal(n: nat): (s: string)
    ensures s != [] && IsDigits(s) && ToNat(s) == n
  {
    if n < 10 then [DIGITS[n]]
    else
      var high := Decimal(n / 10);
      assert (high + [DIGITS[n % 10]])[..|high|] == high;
      high + [DIGITS[n % 10]]
  }

  function Pow10(n: nat): (p: nat)
    ensures p > 0
  {
    if n == 0 then 1 else 10 * Pow10(n - 1)
  }

  /** `f"{n:0{width}d}"` for a number that fits the width. */
  function Padded(n: nat, width: nat): (s: string)
    requires n < Pow10(width)
    ensures |s| == width && IsDigits(s) && ToNat(s) == n
  {
    if width == 0 then []
    else
      var high := Padded(n / 10, width - 1);
      assert (high + [DIGITS[n % 10]])[..|high|] == high;
      high + [DIGITS[n % 10]]
  }

  /** Fixed-width decimal text sorts as the numbers do. */
  lemma {:induction false} PaddedOrder(m: nat, n: nat, width: nat)
    requires m < Pow10(width) && n < Pow10(width)
    ensures Less(Padded(m, width), Padded(n, width)) <==> m < n
  {
    if width > 0 {
      var p, q := Padded(m / 10, width - 1), Padded(n / 10, width - 1);
      PaddedOrder(m / 10, n / 10, width - 1);
      LastDigitOrder(p, q, m % 10, n % 10);
      assert p == q <==> m / 10 == n / 10 by {
        assert ToNat(p) == m / 10 && ToNat(q) == n / 10;
      }
      assert Less(p + [DIGITS[m % 10]], q + [DIGITS[n % 10]]) <==> m < n;
    }
  }

  lemma LastDigitOrder(p: string, q: string, c: nat, d: nat)
    requires |p| == |q| && c < 10 && d < 10
    ensures Less(p + [DIGITS[c]], q + [DIGITS[d]]) <==> if p == q then c < d else Less(p, q)
  {
    if p == q {
      LessAfterPrefix(p, [DIGITS[c]], [DIGITS[d]]);
      assert DIGITS[c] < DIGITS[d] <==> c < d;
    } else {
      LessByPrefix(p, q, [DIGITS[c]], [DIGITS[d]]);
    }
  }

  predicate IsAscii(s: string) {
    forall i | 0 <= i < |s| :: s[i] < '\U{80}'
  }

  lemma AsciiTail(s: string)
    requires s != ""
    ensures IsAscii(s) <==> s[0] < '\U{80}' && IsAscii(s[1..])
  {
    if s[0] < '\U{80}' && IsAscii(s[1..]) {
      forall i | 0 <= i < |s| ensures s[i] < '\U{80}' {
        assert i > 0 ==> s[i] == s[1..][i - 1];
      }
    }
  }

  /** `len(s.encode())`: how many bytes the text takes in UTF-8. */
  function Utf8Length(s: string): (n: nat)
    ensures |s| <= n <= 4 * |s|
    ensures n == |s| <==> IsAscii(s)
  {
    if s == "" then 0
    else
      AsciiTail(s);
      var c := s[0];
      (if c < '\U{80}' then 1 else if c < '\U{800}' then 2 else if c < '\U{10000}' then 3 else 4) + Utf8Length(s[1..])
  }
}
