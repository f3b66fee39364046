/**
 * The pieces of Python's `str` behaviour that the workflow relies on:
 * `lower`, `strip`, `startswith`/`endswith`, `in`, `split` on one
 * character, `str(int)`, `int(str)`, `zfill` and string comparison.
 * Strings are sequences of code points, as in Python 3.
 */
module PyText {
  import opened Wrappers

  // ---------------------------------------------------------------- characters

  /** `c.isspace()`: the characters `str.strip()` removes by default. */
  predicate IsSpace(c: char) {
    c == ' ' || '\t' <= c <= '\r' || '\U{1C}' <= c <= '\U{1F}' || c == '\U{85}' || c == '\U{A0}'
    || c == '\U{1680}' || '\U{2000}' <= c <= '\U{200A}' || c == '\U{2028}' || c == '\U{2029}'
    || c == '\U{202F}' || c == '\U{205F}' || c == '\U{3000}'
  }

  predicate IsDigit(c: char) {
    '0' <= c <= '9'
  }

  predicate AllDigits(s: string) {
    forall i :: 0 <= i < |s| ==> IsDigit(s[i])
  }

  /** `c.lower()` on ASCII letters; every other character is left alone. */
  function LowerChar(c: char): char {
    if 'A' <= c <= 'Z' then (c as int + 32) as char else c
  }

  /** `s.lower()`. */
  function Lower(s: string): (r: string)
    ensures |r| == |s|
    ensures forall i :: 0 <= i < |s| ==> !('A' <= r[i] <= 'Z')
  {
    seq(|s|, i requires 0 <= i < |s| => LowerChar(s[i]))
  }

  // ------------------------------------------------------- prefixes and search

  predicate StartsWith(s: string, prefix: string) {
    |prefix| <= |s| && s[..|prefix|] == prefix
  }

  predicate EndsWith(s: string, suffix: string) {
    |suffix| <= |s| && s[|s| - |suffix|..] == suffix
  }

  /** `sub` occurs in `s` starting at index `i`. */
  predicate OccursAt(s: string, sub: string, i: int) {
    0 <= i <= |s| - |sub| && s[i..i + |sub|] == sub
  }

  /** `sub in s` for two strings. */
  predicate Contains(s: string, sub: string) {
    exists i | 0 <= i <= |s| :: OccursAt(s, sub, i)
  }

  // ----------------------------------------------------------------- stripping

  predicate IsStripped(s: string) {
    s == [] || (!IsSpace(s[0]) && !IsSpace(s[|s| - 1]))
  }

  function TrimStart(s: string): string {
    if s != [] && IsSpace(s[0]) then TrimStart(s[1..]) else s
  }

  function TrimEnd(s: string): string {
    if s != [] && IsSpace(s[|s| - 1]) then TrimEnd(s[..|s| - 1]) else s
  }

  /** `s.strip()`: leading and trailing whitespace removed. */
  function Strip(s: string): string {
    TrimStart(TrimEnd(s))
  }

  lemma {:induction false} TrimEndIsPrefix(s: string)
    ensures var t := TrimEnd(s); |t| <= |s| && t == s[..|t|]
    ensures TrimEnd(s) == [] || !IsSpace(TrimEnd(s)[|TrimEnd(s)| - 1])
    ensures forall i :: |TrimEnd(s)| <= i < |s| ==> IsSpace(s[i])
    decreases |s|
  {
    if s != [] && IsSpace(s[|s| - 1]) {
      TrimEndIsPrefix(s[..|s| - 1]);
    }
  }

  lemma {:induction false} TrimStartIsSuffix(s: string)
    ensures var t := TrimStart(s); |t| <= |s| && t == s[|s| - |t|..]
    ensures TrimStart(s) == [] || !IsSpace(TrimStart(s)[0])
    ensures forall i :: 0 <= i < |s| - |TrimStart(s)| ==> IsSpace(s[i])
    decreases |s|
  {
    if s != [] && IsSpace(s[0]) {
      TrimStartIsSuffix(s[1..]);
    }
  }

  /**
   * What `strip` returns is a slice of its argument with no whitespace at
   * either end, and everything it cut off is whitespace.
   */
  lemma {:induction false} StripSlice(s: string)
    ensures IsStripped(Strip(s))
    ensures Contains(s, Strip(s))
  {
    var e := TrimEnd(s);
    TrimEndIsPrefix(s);
    TrimStartIsSuffix(e);
    var t := TrimStart(e);
    var i := |e| - |t|;
    assert s[i..i + |t|] == e[i..] == t;
    assert OccursAt(s, t, i);
    if t != [] {
      assert e != [];
      assert t[|t| - 1] == e[|e| - 1];
    }
  }

  /** A string with no whitespace at either end is its own strip. */
  lemma StripStripped(s: string)
    requires IsStripped(s)
    ensures Strip(s) == s
  {
  }

  /** Whitespace in front of a stripped string is all that `strip` removes. */
  lemma {:induction false} StripAfterSpaces(pad: string, s: string)
    requires forall i :: 0 <= i < |pad| ==> IsSpace(pad[i])
    requires IsStripped(s) && s != []
    ensures Strip(pad + s) == s
    decreases |pad|
  {
    assert TrimEnd(pad + s) == pad + s;
    if pad != [] {
      assert (pad + s)[1..] == pad[1..] + s;
      StripAfterSpaces(pad[1..], s);
      assert TrimEnd(pad[1..] + s) == pad[1..] + s;
    }
  }

  /** Two strings framed by the same prefix and suffix are equal when the framed strings are. */
  lemma SameFrame(p: string, a: string, b: string, q: string)
    requires p + a + q == p + b + q
    ensures a == b
  {
    assert |a| == |b|;
    assert a == (p + a + q)[|p|..|p| + |a|];
    assert b == (p + b + q)[|p|..|p| + |b|];
  }

  // ------------------------------------------------------------------ split

  /** `s.split(sep)` for a one-character separator. */
  function Split(s: string, sep: char): (parts: seq<string>)
    ensures |parts| >= 1
    decreases |s|
  {
    if s == [] then [""]
    else
      var rest := Split(s[1..], sep);
      if s[0] == sep then [""] + rest else [[s[0]] + rest[0]] + rest[1..]
  }

  /** `sep.join(parts)`. */
  function JoinWith(parts: seq<string>, sep: char): string
    decreases |parts|
  {
    if |parts| == 0 then ""
    else if |parts| == 1 then parts[0]
    else parts[0] + [sep] + JoinWith(parts[1..], sep)
  }

  /** No piece returned by `split` contains the separator. */
  lemma {:induction false} SplitPiecesFree(s: string, sep: char)
    ensures forall k :: 0 <= k < |Split(s, sep)| ==> sep !in Split(s, sep)[k]
    decreases |s|
  {
    if s != [] {
      SplitPiecesFree(s[1..], sep);
    }
  }

  /** A string without the separator splits into itself alone. */
  lemma {:induction false} SplitFree(a: string, sep: char)
    requires sep !in a
    ensures Split(a, sep) == [a]
    decreases |a|
  {
    if a != [] {
      SplitFree(a[1..], sep);
      assert a == [a[0]] + a[1..];
    }
  }

  /** Splitting `a + sep + b`, with `sep` not in `a`, yields `a` followed by the pieces of `b`. */
  lemma {:induction false} SplitAfterFirst(a: string, sep: char, b: string)
    requires sep !in a
    ensures Split(a + [sep] + b, sep) == [a] + Split(b, sep)
    decreases |a|
  {
    if a == [] {
      assert a + [sep] + b == [sep] + b;
      assert ([sep] + b)[1..] == b;
    } else {
      assert (a + [sep] + b)[1..] == a[1..] + [sep] + b;
      SplitAfterFirst(a[1..], sep, b);
      assert a == [a[0]] + a[1..];
    }
  }

  /** Splitting a join of separator-free pieces gives the pieces back. */
  lemma {:induction false} SplitJoin(parts: seq<string>, sep: char)
    requires |parts| >= 1
    requires forall k :: 0 <= k < |parts| ==> sep !in parts[k]
    ensures Split(JoinWith(parts, sep), sep) == parts
    decreases |parts|
  {
    if |parts| == 1 {
      SplitFree(parts[0], sep);
    } else {
      SplitJoin(parts[1..], sep);
      SplitAfterFirst(parts[0], sep, JoinWith(parts[1..], sep));
      assert parts == [parts[0]] + parts[1..];
    }
  }

  /** Splitting at a separator between two strings concatenates their pieces. */
  lemma {:induction false} SplitConcat(a: string, sep: char, b: string)
    ensures Split(a + [sep] + b, sep) == Split(a, sep) + Split(b, sep)
    decreases |a|
  {
    if a == [] {
      assert a + [sep] + b == [sep] + b;
      assert ([sep] + b)[1..] == b;
    } else {
      assert (a + [sep] + b)[1..] == a[1..] + [sep] + b;
      SplitConcat(a[1..], sep, b);
    }
  }

  /** A string holding the separator splits into at least two pieces. */
  lemma {:induction false} SplitAtLeastTwo(s: string, sep: char)
    requires sep in s
    ensures |Split(s, sep)| >= 2
    decreases |s|
  {
    if s[0] != sep {
      SplitAtLeastTwo(s[1..], sep);
    }
  }

  // --------------------------------------------------------- decimal numerals

  function DigitChar(d: nat): (c: char)
    requires d < 10
    ensures IsDigit(c)
  {
    ('0' as int + d) as char
  }

  function DigitValue(c: char): (d: nat)
    requires IsDigit(c)
    ensures d < 10
  {
    c as int - '0' as int
  }

  /** `str(n)` for a natural number. */
  function Decimal(n: nat): string
    decreases n
  {
    if n < 10 then [DigitChar(n)] else Decimal(n / 10) + [DigitChar(n % 10)]
  }

  /** `str(i)` for any integer. */
  function IntString(i: int): string {
    if i < 0 then "-" + Decimal(-i) else Decimal(i)
  }

  /** The number a string of decimal digits denotes (leading zeros allowed). */
  function Value(s: string): nat
    requires AllDigits(s)
    decreases |s|
  {
    if s == [] then 0 else 10 * Value(s[..|s| - 1]) + DigitValue(s[|s| - 1])
  }

  function Pow10(k: nat): (p: nat)
    ensures p >= 1
  {
    if k == 0 then 1 else 10 * Pow10(k - 1)
  }

  /** `str(n)` is a non-empty digit string without leading zero that denotes `n`. */
  lemma {:induction false} DecimalDenotes(n: nat)
    ensures AllDigits(Decimal(n)) && Decimal(n) != []
    ensures Value(Decimal(n)) == n
    ensures |Decimal(n)| > 1 ==> Decimal(n)[0] != '0'
    decreases n
  {
    if n >= 10 {
      DecimalDenotes(n / 10);
      var s := Decimal(n);
      assert s[..|s| - 1] == Decimal(n / 10);
    }
  }

  /** Different numbers have different numerals. */
  lemma DecimalInjective(a: nat, b: nat)
    requires Decimal(a) == Decimal(b)
    ensures a == b
  {
    DecimalDenotes(a);
    DecimalDenotes(b);
  }

  /** `str(n)` has `w` digits exactly when `10^(w-1) <= n < 10^w` (for `n >= 1`). */
  lemma {:induction false} DecimalWidth(n: nat)
    requires n >= 1
    ensures Pow10(|Decimal(n)| - 1) <= n < Pow10(|Decimal(n)|)
    decreases n
  {
    if n >= 10 {
      DecimalWidth(n / 10);
    }
  }

  /** Larger numbers never have fewer digits. */
  lemma {:induction false} DecimalLengthMonotone(a: nat, b: nat)
    requires a <= b
    ensures |Decimal(a)| <= |Decimal(b)|
    decreases b
  {
    if a >= 10 {
      DecimalLengthMonotone(a / 10, b / 10);
    }
  }

  lemma {:induction false} ValueBound(s: string)
    requires AllDigits(s)
    ensures Value(s) < Pow10(|s|)
    decreases |s|
  {
    if s != [] {
      ValueBound(s[..|s| - 1]);
    }
  }

  /** The value of a digit string, read from its first digit. */
  lemma {:induction false} ValueFront(s: string)
    requires AllDigits(s) && s != []
    ensures Value(s) == DigitValue(s[0]) * Pow10(|s| - 1) + Value(s[1..])
    decreases |s|
  {
    var n := |s|;
    if n > 1 {
      var init := s[..n - 1];
      ValueFront(init);
      assert init[1..] == s[1..][..n - 2];
      var d0, p := DigitValue(s[0]), Pow10(n - 2);
      calc {
        Value(s);
        10 * Value(init) + DigitValue(s[n - 1]);
        10 * (d0 * p + Value(init[1..])) + DigitValue(s[n - 1]);
        { assert 10 * (d0 * p) == d0 * (10 * p); }
        d0 * Pow10(n - 1) + (10 * Value(s[1..][..n - 2]) + DigitValue(s[1..][n - 2]));
      }
    }
  }

  function Zeros(k: nat): (z: string)
    ensures |z| == k && AllDigits(z)
  {
    seq(k, _ => '0')
  }

  /** Leading zeros do not change the value of a digit string. */
  lemma {:induction false} ValueLeadingZeros(k: nat, s: string)
    requires AllDigits(s)
    ensures Value(Zeros(k) + s) == Value(s)
    decreases |s| + k
  {
    var t := Zeros(k) + s;
    if s == [] {
      assert t == Zeros(k);
      if k > 0 {
        assert t[..k - 1] == Zeros(k - 1) + [];
        ValueLeadingZeros(k - 1, []);
      }
    } else {
      assert t[..|t| - 1] == Zeros(k) + s[..|s| - 1];
      ValueLeadingZeros(k, s[..|s| - 1]);
    }
  }

  /**
   * `int(s)` in base 10: surrounding whitespace, then an optional sign,
   * then one or more ASCII digits; anything else raises, modelled as `None`.
   */
  function ParseInt(s: string): Option<int> {
    var t := Strip(s);
    if t != [] && (t[0] == '+' || t[0] == '-') then
      var body := t[1..];
      if body != [] && AllDigits(body) then
        var magnitude: int := Value(body);
        Some(if t[0] == '-' then -magnitude else magnitude)
      else None
    else if t != [] && AllDigits(t) then Some(Value(t))
    else None
  }

  /** `int(str(i)) == i`. */
  lemma ParseIntString(i: int)
    ensures ParseInt(IntString(i)) == Some(i)
  {
    var n: nat := if i < 0 then -i else i;
    DecimalDenotes(n);
    var s := IntString(i);
    assert IsStripped(s);
    StripStripped(s);
    if i < 0 {
      assert s[1..] == Decimal(n);
    }
  }

  /**
   * `s.zfill(width)`: pads with '0' on the left, after a leading sign,
   * to `width` characters; a string already that long is returned as is.
   */
  function ZFill(s: string, width: nat): (r: string)
    ensures |r| == if |s| >= width then |s| else width
  {
    if |s| >= width then s
    else if s != [] && (s[0] == '+' || s[0] == '-') then [s[0]] + Zeros(width - |s|) + s[1..]
    else Zeros(width - |s|) + s
  }

  // ---------------------------------------------------------- string ordering

  /** `s < t` on Python strings: code point by code point, a proper prefix first. */
  predicate LexLess(s: string, t: string)
    decreases |s|
  {
    if s == [] then t != []
    else if t == [] then false
    else if s[0] != t[0] then s[0] < t[0]
    else LexLess(s[1..], t[1..])
  }

  lemma {:induction false} LexLessIrreflexive(s: string)
    ensures !LexLess(s, s)
    decreases |s|
  {
    if s != [] {
      LexLessIrreflexive(s[1..]);
    }
  }

  /** A common prefix does not affect the comparison. */
  lemma {:induction false} LexLessCommonPrefix(p: string, s: string, t: string)
    ensures LexLess(p + s, p + t) == LexLess(s, t)
    decreases |p|
  {
    if p == [] {
      assert p + s == s && p + t == t;
    } else {
      assert (p + s)[0] == (p + t)[0];
      assert (p + s)[1..] == p[1..] + s;
      assert (p + t)[1..] == p[1..] + t;
      LexLessCommonPrefix(p[1..], s, t);
    }
  }

  /** Once two equally long, different heads are compared, what follows them does not matter. */
  lemma {:induction false} LexLessDecidedByHead(s: string, t: string, x: string, y: string)
    requires |s| == |t| && s != t
    ensures LexLess(s + x, t + y) == LexLess(s, t)
    decreases |s|
  {
    if s[0] == t[0] {
      assert (s + x)[1..] == s[1..] + x;
      assert (t + y)[1..] == t[1..] + y;
      LexLessDecidedByHead(s[1..], t[1..], x, y);
    }
  }

  lemma HeadDigitDecides(a: nat, b: nat, p: nat, x: nat, y: nat)
    requires a < b && x < p
    ensures a * p + x < b * p + y
  {
    assert a * p + x < a * p + p == (a + 1) * p;
    assert (a + 1) * p <= b * p;
  }

  /** On digit strings of equal length, string order is numeric order. */
  lemma {:induction false} LexLessDigits(s: string, t: string)
    requires AllDigits(s) && AllDigits(t) && |s| == |t|
    ensures LexLess(s, t) <==> Value(s) < Value(t)
    decreases |s|
  {
    if s != [] {
      ValueFront(s);
      ValueFront(t);
      ValueBound(s[1..]);
      ValueBound(t[1..]);
      var p := Pow10(|s| - 1);
      var ds, dt := DigitValue(s[0]), DigitValue(t[0]);
      if ds < dt {
        HeadDigitDecides(ds, dt, p, Value(s[1..]), Value(t[1..]));
      } else if dt < ds {
        HeadDigitDecides(dt, ds, p, Value(t[1..]), Value(s[1..]));
      } else {
        LexLessDigits(s[1..], t[1..]);
      }
    }
  }
}
