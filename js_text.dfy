/**
 * The small part of JavaScript's string and number semantics the notation code relies on:
 * `parseInt(s, 10)`, `String.prototype.trim`, `split` and `join` on one character,
 * number-to-string conversion of integers and halves, and the truncating `%` operator.
 */
module JsText {
  import opened Wrappers

  /** The characters `trim` removes and `parseInt` skips: WhiteSpace and LineTerminator. */
  predicate IsJsWhitespace(c: char)
  {
    c == '\t' || c == '\n' || c == '\U{B}' || c == '\U{C}' || c == '\r' || c == ' ' ||
    c == '\U{A0}' || c == '\U{1680}' || ('\U{2000}' <= c <= '\U{200A}') ||
    c == '\U{2028}' || c == '\U{2029}' || c == '\U{202F}' || c == '\U{205F}' ||
    c == '\U{3000}' || c == '\U{FEFF}'
  }

  predicate IsDigit(c: char) { '0' <= c <= '9' }

  function DigitValue(c: char): (d: nat)
    requires IsDigit(c)
    ensures d < 10
  {
    (c as int) - ('0' as int)
  }

  function DigitChar(d: nat): (c: char)
    requires d < 10
    ensures IsDigit(c) && DigitValue(c) == d
  {
    (('0' as int) + d) as char
  }

  /** Drop leading whitespace (`trimStart`). */
  function TrimStart(s: string): (r: string)
    ensures |r| <= |s| && r == s[|s| - |r|..]
    ensures r == [] || !IsJsWhitespace(r[0])
    ensures forall i :: 0 <= i < |s| - |r| ==> IsJsWhitespace(s[i])
  {
    if |s| > 0 && IsJsWhitespace(s[0]) then TrimStart(s[1..]) else s
  }

  /** Drop trailing whitespace (`trimEnd`). */
  function TrimEnd(s: string): (r: string)
    ensures |r| <= |s| && r == s[..|r|]
    ensures r == [] || !IsJsWhitespace(r[|r| - 1])
    ensures forall i :: |r| <= i < |s| ==> IsJsWhitespace(s[i])
  {
    if |s| > 0 && IsJsWhitespace(s[|s| - 1]) then TrimEnd(s[..|s| - 1]) else s
  }

  /** `s.trim()`: whitespace removed from both ends of `s`. */
  function Trim(s: string): (r: string)
    ensures |r| <= |s|
    ensures r == [] || (!IsJsWhitespace(r[0]) && !IsJsWhitespace(r[|r| - 1]))
  {
    TrimEnd(TrimStart(s))
  }

  lemma TrimOfTrimmed(s: string)
    requires s == [] || (!IsJsWhitespace(s[0]) && !IsJsWhitespace(s[|s| - 1]))
    ensures Trim(s) == s
  {
  }

  /** Length of the longest prefix of decimal digits. */
  function DigitPrefixLength(s: string): (n: nat)
    ensures n <= |s|
    ensures forall i :: 0 <= i < n ==> IsDigit(s[i])
    ensures n < |s| ==> !IsDigit(s[n])
  {
    if |s| > 0 && IsDigit(s[0]) then 1 + DigitPrefixLength(s[1..]) else 0
  }

  /** The value of a string of decimal digits, most significant first. */
  function DigitsValue(s: string): nat
    requires forall i :: 0 <= i < |s| ==> IsDigit(s[i])
  {
    if s == [] then 0 else DigitsValue(s[..|s| - 1]) * 10 + DigitValue(s[|s| - 1])
  }

  /** The digits after an optional sign, as `parseInt` reads them; `None` when there are none. */
  function ParseUnsigned(body: string): (r: Option<nat>)
    ensures r.Some? <==> |body| > 0 && IsDigit(body[0])
  {
    var n := DigitPrefixLength(body);
    if n == 0 then None else Some(DigitsValue(body[..n]))
  }

  /**
   * `parseInt(s, 10)`: skip leading whitespace, read an optional sign, then the longest run of
   * decimal digits; `None` stands for `NaN` (no digits). A missing argument (`undefined`) is `None` too.
   */
  function ParseInt(s: string): (r: Option<int>)
    ensures r.Some? ==> exists k :: 0 <= k < |s| && IsDigit(s[k])
  {
    var t := TrimStart(s);
    if |t| > 0 && (t[0] == '-' || t[0] == '+') then
      match ParseUnsigned(t[1..])
      case None => None
      case Some(v) =>
        assert IsDigit(s[|s| - |t| + 1]);
        var x: int := if t[0] == '-' then 0 - (v as int) else v as int;
        Some(x)
    else
      match ParseUnsigned(t)
      case None => None
      case Some(v) =>
        assert IsDigit(s[|s| - |t|]);
        Some(v)
  }

  /** Decimal representation of a natural number, as `String(n)` prints it. */
  function NatToString(n: nat): (s: string)
    ensures |s| > 0
    ensures forall i :: 0 <= i < |s| ==> IsDigit(s[i])
    decreases n
  {
    if n < 10 then [DigitChar(n)] else NatToString(n / 10) + [DigitChar(n % 10)]
  }

  /** Decimal representation of an integer, with a leading `-` when negative. */
  function IntToString(i: int): (s: string)
    ensures i >= 0 ==> s == NatToString(i)
    ensures i < 0 ==> s == "-" + NatToString(-i)
  {
    if i < 0 then "-" + NatToString(-i) else NatToString(i)
  }

  lemma {:induction false} DigitsValueOfNatToString(n: nat)
    ensures DigitsValue(NatToString(n)) == n
    decreases n
  {
    if n >= 10 {
      var s := NatToString(n);
      assert s[..|s| - 1] == NatToString(n / 10);
      DigitsValueOfNatToString(n / 10);
    }
  }

  lemma {:induction false} AllDigitsPrefix(s: string)
    requires forall i :: 0 <= i < |s| ==> IsDigit(s[i])
    ensures DigitPrefixLength(s) == |s|
  {
    if |s| > 0 {
      AllDigitsPrefix(s[1..]);
    }
  }

  lemma ParseUnsignedOfNatToString(n: nat)
    ensures ParseUnsigned(NatToString(n)) == Some(n)
  {
    var s := NatToString(n);
    AllDigitsPrefix(s);
    assert s[..|s|] == s;
    DigitsValueOfNatToString(n);
  }

  /** `parseInt(String(n), 10) === n` for every natural `n`. */
  lemma ParseIntOfNatToString(n: nat)
    ensures ParseInt(NatToString(n)) == Some(n)
  {
    var s := NatToString(n);
    assert !IsJsWhitespace(s[0]) && s[0] != '-' && s[0] != '+';
    assert TrimStart(s) == s;
    ParseUnsignedOfNatToString(n);
  }

  /** `parseInt(String(i), 10) === i` for every integer `i`. */
  lemma ParseIntOfIntToString(i: int)
    ensures ParseInt(IntToString(i)) == Some(i)
  {
    if i < 0 {
      var s := IntToString(i);
      assert TrimStart(s) == s;
      assert s[1..] == NatToString(-i);
      ParseUnsignedOfNatToString(-i);
    } else {
      ParseIntOfNatToString(i);
    }
  }

  /** `s.split(sep)` for a one-character separator; always at least one piece. */
  function Split(s: string, sep: char): (r: seq<string>)
    ensures |r| >= 1
    ensures forall k :: 0 <= k < |r| ==> sep !in r[k]
  {
    if |s| == 0 then [""]
    else
      var rest := Split(s[1..], sep);
      if s[0] == sep then [""] + rest else [[s[0]] + rest[0]] + rest[1..]
  }

  /** `parts.join(sep)`, which is also what `Array.prototype.toString` does with `sep == ','`. */
  function Join(parts: seq<string>, sep: char): string
  {
    if |parts| == 0 then ""
    else if |parts| == 1 then parts[0]
    else parts[0] + [sep] + Join(parts[1..], sep)
  }

  lemma {:induction false} SplitNoSeparator(a: string, sep: char)
    requires sep !in a
    ensures Split(a, sep) == [a]
  {
    if |a| > 0 {
      SplitNoSeparator(a[1..], sep);
      assert [a[0]] + a[1..] == a;
    }
  }

  lemma {:induction false} SplitAtSeparator(a: string, sep: char, rest: string)
    requires sep !in a
    ensures Split(a + [sep] + rest, sep) == [a] + Split(rest, sep)
  {
    var s := a + [sep] + rest;
    if |a| == 0 {
      assert s[1..] == rest;
    } else {
      assert s[1..] == a[1..] + [sep] + rest;
      SplitAtSeparator(a[1..], sep, rest);
      assert [a[0]] + a[1..] == a;
    }
  }

  /** Splitting a join gives the pieces back when no piece contains the separator. */
  lemma {:induction false} SplitJoin(parts: seq<string>, sep: char)
    requires |parts| >= 1
    requires forall k :: 0 <= k < |parts| ==> sep !in parts[k]
    ensures Split(Join(parts, sep), sep) == parts
  {
    if |parts| == 1 {
      SplitNoSeparator(parts[0], sep);
    } else {
      SplitAtSeparator(parts[0], sep, Join(parts[1..], sep));
      SplitJoin(parts[1..], sep);
    }
  }

  /** JavaScript's `a % b`: the remainder truncated toward zero, taking the sign of `a`. */
  function JsRem(a: int, b: int): (r: int)
    requires b != 0
    ensures a >= 0 ==> 0 <= r < (if b > 0 then b else -b) && r == a % b
    ensures a < 0 ==> -(if b > 0 then b else -b) < r <= 0 && r == -((-a) % b)
  {
    if a >= 0 then a % b else -((-a) % b)
  }

  /** A non-negative value below the divisor is its own remainder. */
  lemma JsRemSmall(a: int, b: int)
    requires 0 <= a < b
    ensures JsRem(a, b) == a
  {
    assert a % b == a;
  }

  /** A positive divisor leaves no remainder from itself. */
  lemma JsRemSelf(b: int)
    requires b > 0
    ensures JsRem(b, b) == 0
  {
    assert b % b == 0;
  }

  lemma MulAtLeast(m: int, d: int)
    requires m > 0 && d >= 1
    ensures m * d >= m
  {
  }

  /** The remainder is determined by any quotient-remainder decomposition. */
  lemma ModUnique(n: int, m: int, k: int, s: int)
    requires m > 0 && 0 <= s < m && n == m * k + s
    ensures n % m == s
  {
    var q, r := n / m, n % m;
    assert m * (q - k) == s - r;
    if q - k >= 1 {
      MulAtLeast(m, q - k);
    }
    if k - q >= 1 {
      MulAtLeast(m, k - q);
    }
  }

  /** `((n % m) + m) % m` with JavaScript's remainder is the Euclidean remainder. */
  lemma JsRemNormalised(n: int, m: int)
    requires m > 0
    ensures JsRem(JsRem(n, m) + m, m) == n % m
  {
    var r := JsRem(n, m);
    if n >= 0 {
      ModUnique(r + m, m, 1, r);
    } else {
      var q, p := (-n) / m, (-n) % m;
      assert -n == m * q + p;
      if p == 0 {
        ModUnique(n, m, -q, 0);
        ModUnique(r + m, m, 1, 0);
      } else {
        ModUnique(n, m, -q - 1, m - p);
        ModUnique(r + m, m, 0, m - p);
      }
    }
  }

  /** Sum of a sequence of integers (`reduce((a, b) => a + b, 0)`). */
  function Sum(s: seq<int>): int
  {
    if s == [] then 0 else s[0] + Sum(s[1..])
  }

  /** Adding one more element adds it to the sum. */
  lemma {:induction false} SumSnoc(s: seq<int>, x: int)
    ensures Sum(s + [x]) == Sum(s) + x
  {
    if s != [] {
      assert (s + [x])[1..] == s[1..] + [x];
      SumSnoc(s[1..], x);
    }
  }

  /** `c.repeat(n)`. */
  function Repeat(c: char, n: nat): (r: string)
    ensures |r| == n && forall i :: 0 <= i < n ==> r[i] == c
  {
    if n == 0 then "" else [c] + Repeat(c, n - 1)
  }

  /** `String(t / 2)` for an integer `t`: a whole number, or one ending in `.5`. */
  function HalfToString(t: int): (s: string)
    ensures t % 2 == 0 ==> s == IntToString(t / 2)
    ensures t % 2 != 0 ==> |s| >= 3 && s[|s| - 2..] == ".5"
  {
    if t % 2 == 0 then IntToString(t / 2)
    else
      var m := if t < 0 then -t else t;
      (if t < 0 then "-" else "") + NatToString(m / 2) + ".5"
  }
}
