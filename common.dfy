/**
 * Small value types and string helpers shared by the engine's modules:
 * an Option type (Python's None / pandas NA / JavaScript null), decimal
 * rendering of naturals as Python's f-strings do it, ASCII lower-casing,
 * Python's substring test, and the JavaScript `split`/`trim` used by the
 * front end's CSV reader.
 */
module Common {

  datatype Option<+T> = None | Some(value: T) {
    function GetOr(default: T): T {
      match this
      case Some(v) => v
      case None => default
    }
  }

  // ---------------------------------------------------------------------
  // Decimal rendering (f"{n}") and its inverse
  // ---------------------------------------------------------------------

  predicate IsDigit(c: char) {
    '0' <= c <= '9'
  }

  predicate AllDigits(s: string) {
    forall i :: 0 <= i < |s| ==> IsDigit(s[i])
  }

  function DigitChar(d: nat): (c: char)
    requires d < 10
    ensures IsDigit(c) && c as int - '0' as int == d
  {
    ('0' as int + d) as char
  }

  function DigitValue(c: char): (d: nat)
    requires IsDigit(c)
    ensures d < 10
  {
    c as int - '0' as int
  }

  /** f"{n}" for a non-negative integer: base-10 digits, no leading zeros. */
  function Decimal(n: nat): (s: string)
    ensures |s| >= 1 && AllDigits(s)
    ensures n < 10 <==> |s| == 1
  {
    if n < 10 then [DigitChar(n)] else Decimal(n / 10) + [DigitChar(n % 10)]
  }

  /** The number a string of decimal digits denotes (leading zeros allowed). */
  function DecimalValue(s: string): nat
    requires AllDigits(s)
  {
    if s == [] then 0 else DecimalValue(s[..|s| - 1]) * 10 + DigitValue(s[|s| - 1])
  }

  lemma {:induction false} DecimalRoundTrip(n: nat)
    ensures DecimalValue(Decimal(n)) == n
  {
    var s := Decimal(n);
    if n >= 10 {
      DecimalRoundTrip(n / 10);
      assert s[..|s| - 1] == Decimal(n / 10);
    }
  }

  lemma {:induction false} DecimalInjective(m: nat, n: nat)
    requires Decimal(m) == Decimal(n)
    ensures m == n
  {
    DecimalRoundTrip(m);
    DecimalRoundTrip(n);
  }

  lemma {:induction false} DecimalLength(n: nat, k: nat)
    requires n < Pow10(k)
    ensures |Decimal(n)| <= k || (k == 0 && |Decimal(n)| == 1)
  {
    if n >= 10 {
      assert Pow10(0) == 1 && Pow10(1) == 10;
      assert k >= 2;
      DecimalLength(n / 10, k - 1);
    }
  }

  function Pow10(k: nat): (p: nat)
    ensures p >= 1
  {
    if k == 0 then 1 else 10 * Pow10(k - 1)
  }

  /** A number of at least 10^k has more than k digits. */
  lemma {:induction false} DecimalLengthAtLeast(n: nat, k: nat)
    requires n >= Pow10(k)
    ensures |Decimal(n)| >= k + 1
    decreases k
  {
    if k > 0 {
      assert n / 10 >= Pow10(k - 1);
      DecimalLengthAtLeast(n / 10, k - 1);
    }
  }

  /** k digits denote a number below 10^k. */
  lemma {:induction false} DecimalValueBound(s: string)
    requires AllDigits(s)
    ensures DecimalValue(s) < Pow10(|s|)
    decreases |s|
  {
    if s != [] {
      DecimalValueBound(s[..|s| - 1]);
    }
  }

  /** Digit strings of equal length and equal value are equal. */
  lemma {:induction false} DigitsInjective(s: string, t: string)
    requires AllDigits(s) && AllDigits(t) && |s| == |t|
    requires DecimalValue(s) == DecimalValue(t)
    ensures s == t
    decreases |s|
  {
    if s != [] {
      var n := |s|;
      var a, b := DigitValue(s[n - 1]), DigitValue(t[n - 1]);
      var p, q := DecimalValue(s[..n - 1]), DecimalValue(t[..n - 1]);
      assert p * 10 + a == q * 10 + b;
      assert a == b by {
        assert (p - q) * 10 == b - a;
      }
      DigitsInjective(s[..n - 1], t[..n - 1]);
      assert s[n - 1] == t[n - 1];
      assert s == s[..n - 1] + [s[n - 1]];
      assert t == t[..n - 1] + [t[n - 1]];
    }
  }

  lemma {:induction false} LeadingZerosValue(z: nat, s: string)
    requires AllDigits(s)
    ensures AllDigits(Zeros(z) + s)
    ensures DecimalValue(Zeros(z) + s) == DecimalValue(s)
  {
    if s == [] {
      assert Zeros(z) + s == Zeros(z);
      ZerosValue(z);
    } else {
      var t := Zeros(z) + s;
      assert t[..|t| - 1] == Zeros(z) + s[..|s| - 1];
      LeadingZerosValue(z, s[..|s| - 1]);
    }
  }

  lemma {:induction false} ZerosValue(z: nat)
    ensures AllDigits(Zeros(z)) && DecimalValue(Zeros(z)) == 0
  {
    if z > 0 {
      assert Zeros(z)[..z - 1] == Zeros(z - 1);
      ZerosValue(z - 1);
    }
  }

  function Zeros(z: nat): (s: string)
    ensures |s| == z && forall i :: 0 <= i < z ==> s[i] == '0'
  {
    seq(z, _ => '0')
  }

  /** f"{n:03d}": the decimal digits of n, left-padded with zeros to width 3. */
  function Pad3(n: nat): string {
    var d := Decimal(n);
    if |d| < 3 then Zeros(3 - |d|) + d else d
  }

  /** The padded form still spells n, and is as wide as 3 or the plain form. */
  lemma {:induction false} Pad3Value(n: nat)
    ensures AllDigits(Pad3(n)) && DecimalValue(Pad3(n)) == n
    ensures |Pad3(n)| == if |Decimal(n)| < 3 then 3 else |Decimal(n)|
  {
    DecimalRoundTrip(n);
    var d := Decimal(n);
    if |d| < 3 {
      LeadingZerosValue(3 - |d|, d);
    }
  }

  lemma {:induction false} Pad3Width(n: nat)
    requires n < 1000
    ensures |Pad3(n)| == 3
  {
    DecimalLength(n, 3);
    Pad3Value(n);
  }

  // ---------------------------------------------------------------------
  // Python str.lower() on ASCII, and `sub in s`
  // ---------------------------------------------------------------------

  function LowerChar(c: char): char {
    if 'A' <= c <= 'Z' then (c as int + 32) as char else c
  }

  function Lower(s: string): (r: string)
    ensures |r| == |s| && forall i :: 0 <= i < |s| ==> r[i] == LowerChar(s[i])
  {
    seq(|s|, i requires 0 <= i < |s| => LowerChar(s[i]))
  }

  /** Python's `sub in s`: sub occurs as a contiguous slice of s. */
  predicate OccursAt(s: string, sub: string, i: int) {
    0 <= i && i + |sub| <= |s| && s[i..i + |sub|] == sub
  }

  /** The executable scan behind `sub in s`: try each start position left to right. */
  function Contains(s: string, sub: string): bool
    decreases |s|
  {
    if |sub| <= |s| && s[..|sub|] == sub then true
    else if s == [] then false
    else Contains(s[1..], sub)
  }

  lemma {:induction false} ContainsIff(s: string, sub: string)
    ensures Contains(s, sub) <==> exists i :: OccursAt(s, sub, i)
    decreases |s|
  {
    if |sub| <= |s| && s[..|sub|] == sub {
      assert OccursAt(s, sub, 0);
    } else if s == [] {
      assert |sub| > 0;
    } else {
      ContainsIff(s[1..], sub);
      if exists i :: OccursAt(s[1..], sub, i) {
        var i :| OccursAt(s[1..], sub, i);
        assert s[i + 1..i + 1 + |sub|] == s[1..][i..i + |sub|];
        assert OccursAt(s, sub, i + 1);
      }
      if exists i :: OccursAt(s, sub, i) {
        var i :| OccursAt(s, sub, i);
        assert i != 0;
        assert s[1..][i - 1..i - 1 + |sub|] == s[i..i + |sub|];
        assert OccursAt(s[1..], sub, i - 1);
      }
    }
  }

  lemma {:induction false} ContainsAppend(s: string, t: string, sub: string)
    requires Contains(s, sub)
    ensures Contains(s + t, sub)
  {
    ContainsIff(s, sub);
    var i :| OccursAt(s, sub, i);
    assert (s + t)[i..i + |sub|] == s[i..i + |sub|];
    assert OccursAt(s + t, sub, i);
    ContainsIff(s + t, sub);
  }

  /** No start position that fits holds the first character of `sub`, so `sub` does not occur. */
  lemma {:induction false} NotContains(s: string, sub: string)
    requires |sub| > 0
    requires forall i :: 0 <= i && i + |sub| <= |s| ==> s[i] != sub[0]
    ensures !Contains(s, sub)
  {
    ContainsIff(s, sub);
    forall i | 0 <= i && i + |sub| <= |s|
      ensures !OccursAt(s, sub, i)
    {
      assert s[i..i + |sub|][0] == s[i];
    }
  }

  // ---------------------------------------------------------------------
  // JavaScript String.prototype.split(sep) for a one-character separator
  // ---------------------------------------------------------------------

  /** "a,,b".split(",") == ["a", "", "b"]; "".split(",") == [""]. */
  function Split(s: string, sep: char): (parts: seq<string>)
    ensures |parts| >= 1
  {
    if s == [] then [[]]
    else
      var rest := Split(s[1..], sep);
      if s[0] == sep then [[]] + rest
      else [[s[0]] + rest[0]] + rest[1..]
  }

  /** No piece holds the separator. */
  lemma {:induction false} SplitPiecesFree(s: string, sep: char)
    ensures forall k :: 0 <= k < |Split(s, sep)| ==> sep !in Split(s, sep)[k]
  {
    if s != [] {
      SplitPiecesFree(s[1..], sep);
      var rest := Split(s[1..], sep);
      if s[0] != sep {
        assert sep !in rest[0];
        assert forall k :: 1 <= k < |rest| ==> rest[1..][k - 1] == rest[k];
      }
    }
  }

  /** parts.join(sep), the inverse partner of Split. */
  function Join(parts: seq<string>, sep: char): string
    requires |parts| >= 1
  {
    if |parts| == 1 then parts[0] else parts[0] + [sep] + Join(parts[1..], sep)
  }

  lemma {:induction false} SplitJoin(s: string, sep: char)
    ensures Join(Split(s, sep), sep) == s
  {
    if s != [] {
      var rest := Split(s[1..], sep);
      SplitJoin(s[1..], sep);
      if s[0] == sep {
        assert ([[]] + rest)[1..] == rest;
      } else {
        var parts := [[s[0]] + rest[0]] + rest[1..];
        if |rest| == 1 {
          assert Join(parts, sep) == [s[0]] + rest[0];
        } else {
          assert parts[1..] == rest[1..];
          assert Join(rest, sep) == rest[0] + [sep] + Join(rest[1..], sep);
        }
      }
    }
  }

  /** The number of pieces is one more than the number of separators. */
  lemma {:induction false} SplitCount(s: string, sep: char)
    ensures |Split(s, sep)| == multiset(s)[sep] + 1
  {
    if s != [] {
      SplitCount(s[1..], sep);
      assert s == [s[0]] + s[1..];
      assert multiset(s) == multiset([s[0]]) + multiset(s[1..]);
    }
  }

  /** A string without the separator is a single piece. */
  lemma {:induction false} SplitNoSeparator(s: string, sep: char)
    requires sep !in s
    ensures Split(s, sep) == [s]
  {
    if s != [] {
      SplitNoSeparator(s[1..], sep);
      assert [s[0]] + s[1..] == s;
    }
  }

  /** Splitting `x + [sep] + y` where x has no separator peels x off as the first piece. */
  lemma {:induction false} SplitAfterFirst(x: string, sep: char, y: string)
    requires sep !in x
    ensures Split(x + [sep] + y, sep) == [x] + Split(y, sep)
  {
    if x == [] {
      assert x + [sep] + y == [sep] + y;
      assert ([sep] + y)[1..] == y;
    } else {
      SplitAfterFirst(x[1..], sep, y);
      assert (x + [sep] + y)[1..] == x[1..] + [sep] + y;
      assert [x[0]] + x[1..] == x;
    }
  }

  /** Splitting at one separator occurrence splits the two sides independently. */
  lemma {:induction false} SplitConcat(x: string, sep: char, y: string)
    ensures Split(x + [sep] + y, sep) == Split(x, sep) + Split(y, sep)
    decreases |x|
  {
    if x == [] {
      assert x + [sep] + y == [sep] + y;
      assert ([sep] + y)[1..] == y;
    } else {
      SplitConcat(x[1..], sep, y);
      SplitConcatStep(x, sep, y);
    }
  }

  /** One character in front of both sides of SplitConcat. */
  lemma {:induction false} SplitConcatStep(x: string, sep: char, y: string)
    requires x != []
    requires Split(x[1..] + [sep] + y, sep) == Split(x[1..], sep) + Split(y, sep)
    ensures Split(x + [sep] + y, sep) == Split(x, sep) + Split(y, sep)
  {
    var s := x + [sep] + y;
    assert s[1..] == x[1..] + [sep] + y;
    assert s[0] == x[0];
    if x[0] == sep {
      SplitStepOnSep(s, x, Split(x[1..], sep), Split(y, sep), sep);
    } else {
      SplitStepOnChar(s, x, Split(x[1..], sep), Split(y, sep), sep);
    }
  }

  /**
   * When s and x start with the same character and s's tail splits into
   * x's tail's pieces followed by `back`, s splits into x's pieces followed
   * by `back`: first when that character is the separator, then when not.
   */
  lemma {:induction false} SplitStepOnSep(s: string, x: string, front: seq<string>, back: seq<string>, sep: char)
    requires s != [] && x != [] && s[0] == x[0] && x[0] == sep
    requires front == Split(x[1..], sep) && Split(s[1..], sep) == front + back
    ensures Split(s, sep) == Split(x, sep) + back
  {
    calc {
      Split(s, sep);
      [[]] + Split(s[1..], sep);
      [[]] + (front + back);
      { assert [[]] + (front + back) == [[]] + front + back; }
      [[]] + front + back;
      { assert Split(x, sep) == [[]] + front; }
      Split(x, sep) + back;
    }
  }

  lemma {:induction false} SplitStepOnChar(s: string, x: string, front: seq<string>, back: seq<string>, sep: char)
    requires s != [] && x != [] && s[0] == x[0] && x[0] != sep
    requires front == Split(x[1..], sep) && Split(s[1..], sep) == front + back
    ensures Split(s, sep) == Split(x, sep) + back
  {
    var head := [x[0]] + front[0];
    assert Split(s, sep) == [head] + (front + back)[1..] by {
      assert (front + back)[0] == front[0];
    }
    assert Split(x, sep) == [head] + front[1..];
    ConsTail(head, front, back);
  }

  lemma {:induction false} ConsTail(head: string, front: seq<string>, back: seq<string>)
    requires front != []
    ensures [head] + (front + back)[1..] == [head] + front[1..] + back
  {
    assert (front + back)[1..] == front[1..] + back;
  }

  // ---------------------------------------------------------------------
  // JavaScript String.prototype.trim()
  // ---------------------------------------------------------------------

  /** ECMAScript WhiteSpace and LineTerminator code points. */
  predicate IsJsSpace(c: char) {
    c == '\t' || c == '\n' || c == '\U{000B}' || c == '\U{000C}' || c == '\r' || c == ' '
    || c == '\U{00A0}' || c == '\U{1680}' || ('\U{2000}' <= c <= '\U{200A}')
    || c == '\U{2028}' || c == '\U{2029}' || c == '\U{202F}' || c == '\U{205F}'
    || c == '\U{3000}' || c == '\U{FEFF}'
  }

  function TrimStart(s: string): string {
    if s != [] && IsJsSpace(s[0]) then TrimStart(s[1..]) else s
  }

  function TrimEnd(s: string): string {
    if s != [] && IsJsSpace(s[|s| - 1]) then TrimEnd(s[..|s| - 1]) else s
  }

  function Trim(s: string): string {
    TrimEnd(TrimStart(s))
  }

  /**
   * A trimmed string is the piece `s[i..j]` of the input: everything before
   * `i` and from `j` on is white space, and the piece has none at either end.
   */
  lemma {:induction false} TrimIsInfix(s: string) returns (i: nat, j: nat)
    ensures i <= j <= |s| && Trim(s) == s[i..j]
    ensures forall k :: 0 <= k < i ==> IsJsSpace(s[k])
    ensures forall k :: j <= k < |s| ==> IsJsSpace(s[k])
    ensures Trim(s) != [] ==> !IsJsSpace(Trim(s)[0]) && !IsJsSpace(Trim(s)[|Trim(s)| - 1])
  {
    i := TrimStartInfix(s);
    var e := TrimEndInfix(s[i..]);
    j := i + e;
    assert s[i..][..e] == s[i..j];
    forall k | j <= k < |s|
      ensures IsJsSpace(s[k])
    {
      assert s[k] == s[i..][k - i];
    }
  }

  lemma {:induction false} TrimStartInfix(s: string) returns (i: nat)
    ensures i <= |s| && TrimStart(s) == s[i..]
    ensures forall k :: 0 <= k < i ==> IsJsSpace(s[k])
    ensures TrimStart(s) != [] ==> !IsJsSpace(TrimStart(s)[0])
  {
    if s != [] && IsJsSpace(s[0]) {
      var k := TrimStartInfix(s[1..]);
      i := k + 1;
      assert forall q :: 1 <= q < i ==> s[q] == s[1..][q - 1];
    } else {
      i := 0;
    }
  }

  lemma {:induction false} TrimEndInfix(s: string) returns (j: nat)
    ensures j <= |s| && TrimEnd(s) == s[..j]
    ensures forall k :: j <= k < |s| ==> IsJsSpace(s[k])
    ensures TrimEnd(s) != [] ==> !IsJsSpace(TrimEnd(s)[|TrimEnd(s)| - 1])
    ensures TrimEnd(s) != [] && !IsJsSpace(s[0]) ==> !IsJsSpace(TrimEnd(s)[0])
  {
    if s != [] && IsJsSpace(s[|s| - 1]) {
      var k := TrimEndInfix(s[..|s| - 1]);
      j := k;
      assert s[..|s| - 1][..k] == s[..k];
      assert forall q :: k <= q < |s| - 1 ==> s[q] == s[..|s| - 1][q];
    } else {
      j := |s|;
    }
  }

  /** A list without repeats that holds exactly the elements of `s` is as long as `s` is large. */
  lemma {:induction false} DistinctSize<T>(xs: seq<T>, s: set<T>)
    requires forall x :: x in xs <==> x in s
    requires forall k, l :: 0 <= k < l < |xs| ==> xs[k] != xs[l]
    ensures |s| == |xs|
    decreases |xs|
  {
    if xs == [] {
      assert s == {};
    } else {
      var x := xs[|xs| - 1];
      var front := xs[..|xs| - 1];
      forall y
        ensures y in front <==> y in s - {x}
      {
        if y in front {
          var k :| 0 <= k < |front| && front[k] == y;
          assert xs[k] == y;
        }
        if y in s - {x} {
          var k :| 0 <= k < |xs| && xs[k] == y;
          assert front[k] == y;
        }
      }
      assert x in s;
      DistinctSize(front, s - {x});
    }
  }

  // ---------------------------------------------------------------------
  // Ring identifiers: f"RING_{n:03d}"
  // ---------------------------------------------------------------------

  function RingId(n: nat): string {
    "RING_" + Pad3(n)
  }

  /** A ring id is never the empty string that marks an account without a ring. */
  lemma {:induction false} RingIdNonEmpty(n: nat)
    ensures RingId(n) != ""
  {
    assert RingId(n)[0] == 'R';
  }

  /** Distinct numbers give distinct ring ids. */
  lemma {:induction false} RingIdInjective(m: nat, n: nat)
    requires RingId(m) == RingId(n)
    ensures m == n
  {
    assert Pad3(m) == RingId(m)[5..];
    assert Pad3(n) == RingId(n)[5..];
    Pad3Value(m);
    Pad3Value(n);
  }

  /** For 0 to 999 the id is "RING_" followed by exactly three digits that spell the number. */
  lemma {:induction false} RingIdShape(n: nat)
    requires n < 1000
    ensures |RingId(n)| == 8 && RingId(n)[..5] == "RING_"
    ensures AllDigits(RingId(n)[5..]) && DecimalValue(RingId(n)[5..]) == n
  {
    Pad3Width(n);
    Pad3Value(n);
    assert RingId(n)[5..] == Pad3(n);
  }

  // ---------------------------------------------------------------------
  // sum(xs) and the mean `sum(xs) / len(xs) if xs else 0`
  // ---------------------------------------------------------------------

  /** Python's built-in `sum` over a list of numbers. */
  function Sum(xs: seq<real>): real
    decreases |xs|
  {
    if xs == [] then 0.0 else Sum(xs[..|xs| - 1]) + xs[|xs| - 1]
  }

  /** `sum(xs) / len(xs) if xs else 0` */
  function Mean(xs: seq<real>): real {
    if |xs| > 0 then Sum(xs) / |xs| as real else 0.0
  }

  lemma {:induction false} SumBounds(xs: seq<real>, lo: real, hi: real)
    requires forall i :: 0 <= i < |xs| ==> lo <= xs[i] <= hi
    ensures |xs| as real * lo <= Sum(xs) <= |xs| as real * hi
    decreases |xs|
  {
    if xs != [] {
      var front := xs[..|xs| - 1];
      assert forall i :: 0 <= i < |front| ==> front[i] == xs[i];
      SumBounds(front, lo, hi);
      var n := |front| as real;
      assert |xs| as real * lo == n * lo + lo;
      assert |xs| as real * hi == n * hi + hi;
    }
  }

  /** Dividing a value between n*lo and n*hi by a positive n lands in [lo, hi]. */
  lemma {:induction false} QuotientBounds(total: real, n: real, lo: real, hi: real)
    requires n > 0.0
    requires n * lo <= total <= n * hi
    ensures lo <= total / n <= hi
    ensures total / n * n == total
  {
    var q := total / n;
    assert q * n == total;
    assert (q - lo) * n == total - n * lo;
    assert (hi - q) * n == n * hi - total;
  }

  /** The mean of values in [lo, hi] is in [lo, hi]; the mean times the count is the sum. */
  lemma {:induction false} MeanBounds(xs: seq<real>, lo: real, hi: real)
    requires forall i :: 0 <= i < |xs| ==> lo <= xs[i] <= hi
    requires lo <= 0.0 <= hi
    ensures lo <= Mean(xs) <= hi
    ensures |xs| > 0 ==> Mean(xs) * |xs| as real == Sum(xs)
  {
    SumBounds(xs, lo, hi);
    if |xs| > 0 {
      QuotientBounds(Sum(xs), |xs| as real, lo, hi);
    }
  }
}
