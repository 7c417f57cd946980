/** The JavaScript built-ins the calculators lean on, stated over exact numbers:
    `parseFloat`, `parseInt`, the `\s` character class, `String.prototype.replace`
    with a one-character pattern, the `x || d` default for numbers, and the
    decimal rendering of an integer inside a template literal. */
module JsText {
  import opened Wrappers

  /** The characters `\s` matches in a regular expression; they are also the ones
      `parseFloat` and `parseInt` skip at the start of their argument. */
  predicate IsJsSpace(c: char) {
    c == '\t' || c == '\n' || c == '\U{B}' || c == '\U{C}' || c == '\r' || c == ' '
    || c == '\U{A0}' || c == '\U{1680}' || ('\U{2000}' <= c <= '\U{200A}')
    || c == '\U{2028}' || c == '\U{2029}' || c == '\U{202F}' || c == '\U{205F}'
    || c == '\U{3000}' || c == '\U{FEFF}'
  }

  predicate IsDigit(c: char) {
    '0' <= c <= '9'
  }

  predicate AllDigits(s: string) {
    forall i :: 0 <= i < |s| ==> IsDigit(s[i])
  }

  function DigitValue(c: char): (d: nat)
    requires IsDigit(c)
    ensures d < 10
  {
    c as int - '0' as int
  }

  function DigitChar(d: nat): (c: char)
    requires d < 10
    ensures IsDigit(c) && DigitValue(c) == d
  {
    ('0' as int + d) as char
  }

  function Pow10(n: nat): (r: nat)
    ensures r >= 1
  {
    if n == 0 then 1 else 10 * Pow10(n - 1)
  }

  /** The number a string of decimal digits denotes, read most significant first. */
  function DigitsValue(s: string): (v: nat)
    requires AllDigits(s)
    ensures v < Pow10(|s|)
  {
    if s == [] then 0 else DigitsValue(s[..|s| - 1]) * 10 + DigitValue(s[|s| - 1])
  }

  /** The length of the run of digits at the start of `s`. */
  function DigitRun(s: string): (k: nat)
    ensures k <= |s|
    ensures forall i :: 0 <= i < k ==> IsDigit(s[i])
    ensures k < |s| ==> !IsDigit(s[k])
  {
    if s != [] && IsDigit(s[0]) then 1 + DigitRun(s[1..]) else 0
  }

  /** `s` without its leading white space (the first step of `parseFloat` and `parseInt`). */
  function TrimStart(s: string): (r: string)
    ensures |r| <= |s| && r == s[|s| - |r|..]
    ensures r == [] || !IsJsSpace(r[0])
    ensures forall i :: 0 <= i < |s| - |r| ==> IsJsSpace(s[i])
  {
    if s != [] && IsJsSpace(s[0]) then TrimStart(s[1..]) else s
  }

  predicate StartsWithMinus(t: string) {
    |t| > 0 && t[0] == '-'
  }

  /** `t` without one leading `+` or `-`. */
  function DropSign(t: string): string {
    if |t| > 0 && (t[0] == '-' || t[0] == '+') then t[1..] else t
  }

  /** True when `u` begins a decimal literal: a digit, or a point followed by a digit. */
  predicate StartsDecimal(u: string) {
    (|u| > 0 && IsDigit(u[0])) || (|u| > 1 && u[0] == '.' && IsDigit(u[1]))
  }

  /** The factor an exponent part `e12`, `E-3`, `e+4` at the start of `rest` stands for;
      1 when `rest` does not start with a complete exponent part. */
  function ExponentScale(rest: string): (f: real)
    ensures f > 0.0
  {
    if |rest| > 0 && (rest[0] == 'e' || rest[0] == 'E') then
      var x := DropSign(rest[1..]);
      var e := DigitRun(x);
      if e == 0 then 1.0
      else if StartsWithMinus(rest[1..]) then 1.0 / Pow10(DigitsValue(x[..e])) as real
      else Pow10(DigitsValue(x[..e])) as real
    else 1.0
  }

  /** The value of the decimal literal `a.b`, for digit strings `a` and `b`. */
  function DecimalValue(a: string, b: string): real
    requires AllDigits(a) && AllDigits(b)
  {
    DigitsValue(a) as real + DigitsValue(b) as real / Pow10(|b|) as real
  }

  /** The value of the longest unsigned decimal literal at the start of `u`
      (`12`, `12.5`, `12.`, `.5`, each with an optional exponent part). */
  function UnsignedDecimalPrefix(u: string): (r: Option<real>)
    ensures r.Some? <==> StartsDecimal(u)
  {
    var k := DigitRun(u);
    var hasPoint := k < |u| && u[k] == '.';
    var f := if hasPoint then DigitRun(u[k + 1..]) else 0;
    if k == 0 && f == 0 then None
    else
      var a := u[..k];
      var b := if hasPoint then u[k + 1..][..f] else "";
      assert AllDigits(a) && AllDigits(b);
      Some(DecimalValue(a, b) * ExponentScale(if hasPoint then u[k + 1 + f..] else u[k..]))
  }

  /** `parseFloat(s)`, with `None` for NaN: leading white space is skipped, then the
      longest prefix that is a signed decimal literal is read. */
  function ParseFloat(s: string): (r: Option<real>)
    ensures r.Some? <==> StartsDecimal(DropSign(TrimStart(s)))
  {
    var t := TrimStart(s);
    match UnsignedDecimalPrefix(DropSign(t))
    case None => None
    case Some(m) => Some(if StartsWithMinus(t) then -m else m)
  }

  /** `parseInt(s)` in base 10, with `None` for NaN. */
  function ParseInt(s: string): (r: Option<int>)
    ensures r.Some? <==> var u := DropSign(TrimStart(s)); |u| > 0 && IsDigit(u[0])
  {
    var t := TrimStart(s);
    var u := DropSign(t);
    var k := DigitRun(u);
    if k == 0 then None
    else
      var v: int := DigitsValue(u[..k]);
      Some(if StartsWithMinus(t) then -v else v)
  }

  /** `x || d` for a number `x`: NaN and zero are falsy and give `d`. */
  function OrElse(x: Option<real>, d: real): (r: real)
    ensures x.Some? && x.value != 0.0 ==> r == x.value
    ensures x.None? || x.value == 0.0 ==> r == d
  {
    if x.Some? && x.value != 0.0 then x.value else d
  }

  /** `x || d` for an integer read by `parseInt`. */
  function OrElseInt(x: Option<int>, d: int): (r: int)
    ensures x.Some? && x.value != 0 ==> r == x.value
    ensures x.None? || x.value == 0 ==> r == d
  {
    if x.Some? && x.value != 0 then x.value else d
  }

  /** The position of the first `c` in `s`. */
  function IndexOf(s: string, c: char): (k: nat)
    requires c in s
    ensures k < |s| && s[k] == c && c !in s[..k]
  {
    if s[0] == c then 0 else 1 + IndexOf(s[1..], c)
  }

  /** `s.replace(from, to)` with one-character strings: only the first occurrence
      of `from` is replaced. */
  function ReplaceFirst(s: string, from: char, to: char): (r: string)
    ensures |r| == |s|
    ensures from !in s ==> r == s
  {
    if s == [] then []
    else if s[0] == from then [to] + s[1..]
    else [s[0]] + ReplaceFirst(s[1..], from, to)
  }

  /** Replacing the first `from` keeps what comes before and after it. */
  lemma {:induction false} ReplaceFirstSplits(s: string, from: char, to: char)
    requires from in s
    ensures ReplaceFirst(s, from, to) == s[..IndexOf(s, from)] + [to] + s[IndexOf(s, from) + 1..]
  {
    if s[0] != from {
      ReplaceFirstSplits(s[1..], from, to);
      var k := IndexOf(s[1..], from);
      assert s[..k + 1] == [s[0]] + s[1..][..k];
      assert s[k + 2..] == s[1..][k + 1..];
    }
  }

  /** The decimal digits of `n`, without leading zeros. */
  function NatToDigits(n: nat): (s: string)
    ensures |s| >= 1 && AllDigits(s) && DigitsValue(s) == n
    ensures |s| > 1 ==> s[0] != '0'
  {
    if n < 10 then [DigitChar(n)]
    else
      var a := NatToDigits(n / 10);
      var s := a + [DigitChar(n % 10)];
      assert s[..|s| - 1] == a;
      s
  }

  /** How a template literal renders an integer: `${n}`. */
  function IntToString(i: int): string {
    if i < 0 then "-" + NatToDigits(-i) else NatToDigits(i)
  }

  lemma {:induction false} DigitRunOfDigits(a: string, b: string)
    requires AllDigits(a)
    requires b == [] || !IsDigit(b[0])
    ensures DigitRun(a + b) == |a|
  {
    if a != [] {
      assert (a + b)[1..] == a[1..] + b;
      DigitRunOfDigits(a[1..], b);
    } else {
      assert a + b == b;
    }
  }

  /** `parseInt` reads back the integer a template literal renders. */
  lemma ParseIntOfIntToString(i: int)
    ensures ParseInt(IntToString(i)) == Some(i)
  {
    if i < 0 {
      ParseIntOfNegative(NatToDigits(-i));
    } else {
      ParseIntOfDigits(NatToDigits(i));
    }
  }

  /** `parseInt` of digits is their value. */
  lemma ParseIntOfDigits(d: string)
    requires |d| > 0 && AllDigits(d)
    ensures ParseInt(d) == Some(DigitsValue(d) as int)
  {
    TrimStartKeeps(d);
    assert !StartsWithMinus(d) && DropSign(d) == d;
    DigitRunOfAll(d);
  }

  /** `parseInt` of a minus and digits is minus their value. */
  lemma ParseIntOfNegative(d: string)
    requires |d| > 0 && AllDigits(d)
    ensures ParseInt("-" + d) == Some(-(DigitsValue(d) as int))
  {
    var s := "-" + d;
    TrimStartKeeps(s);
    assert s[1..] == d;
    ParseIntOfSignedText(s, d);
  }

  lemma ParseIntOfSignedText(s: string, d: string)
    requires |d| > 0 && AllDigits(d)
    requires TrimStart(s) == s && StartsWithMinus(s) && DropSign(s) == d
    ensures ParseInt(s) == Some(-(DigitsValue(d) as int))
  {
    DigitRunOfAll(d);
  }

  /** A string of digits is one run of digits. */
  lemma DigitRunOfAll(d: string)
    requires AllDigits(d)
    ensures DigitRun(d) == |d| && d[..DigitRun(d)] == d
  {
    DigitRunOfDigits(d, []);
    assert d + [] == d;
  }

  /** Text that starts with a minus or a digit has no leading white space. */
  lemma TrimStartKeeps(s: string)
    requires |s| > 0 && (s[0] == '-' || IsDigit(s[0]))
    ensures TrimStart(s) == s
  {
    assert !IsJsSpace(s[0]);
  }

  /** The unsigned literal `a.b` followed by text that cannot continue it. */
  lemma UnsignedDecimalOfParts(a: string, b: string, tail: string)
    requires |a| > 0 && AllDigits(a) && AllDigits(b)
    requires tail == [] || !(IsDigit(tail[0]) || tail[0] == 'e' || tail[0] == 'E')
    ensures UnsignedDecimalPrefix(a + ['.'] + b + tail) == Some(DecimalValue(a, b))
  {
    var u := a + ['.'] + b + tail;
    var after := ['.'] + b + tail;
    assert u == a + after;
    DigitRunOfDigits(a, after);
    assert u[..|a|] == a;
    assert u[|a| + 1..] == b + tail;
    DigitRunOfDigits(b, tail);
    assert (b + tail)[..|b|] == b;
    assert u[|a| + 1 + |b|..] == tail;
    UnsignedDecimalOfRuns(u, a, b, tail);
  }

  /** The literal read from `u` when its runs are `a`, a point, `b`, then `tail`. */
  lemma UnsignedDecimalOfRuns(u: string, a: string, b: string, tail: string)
    requires |a| > 0 && AllDigits(a) && AllDigits(b)
    requires tail == [] || !(IsDigit(tail[0]) || tail[0] == 'e' || tail[0] == 'E')
    requires DigitRun(u) == |a| && |a| < |u| && u[..|a|] == a && u[|a|] == '.'
    requires DigitRun(u[|a| + 1..]) == |b| && u[|a| + 1..][..|b|] == b
    requires u[|a| + 1 + |b|..] == tail
    ensures UnsignedDecimalPrefix(u) == Some(DecimalValue(a, b))
  {
    assert ExponentScale(tail) == 1.0;
  }

  lemma UnsignedDecimalOfDigits(a: string)
    requires |a| > 0 && AllDigits(a)
    ensures UnsignedDecimalPrefix(a) == Some(DigitsValue(a) as real)
  {
    DigitRunOfDigits(a, []);
    assert a + [] == a;
    assert a[..|a|] == a;
    assert a[|a|..] == [];
    assert ExponentScale([]) == 1.0;
    assert DigitsValue("") == 0 && Pow10(0) == 1;
    assert DecimalValue(a, "") == DigitsValue(a) as real;
  }

  /** `parseFloat` of a plain string of digits is its value. */
  lemma ParseFloatOfDigits(a: string)
    requires |a| > 0 && AllDigits(a)
    ensures ParseFloat(a) == Some(DigitsValue(a) as real)
  {
    ParseFloatOfUnsigned(a);
    UnsignedDecimalOfDigits(a);
  }

  /** Text that starts with a digit is read by `parseFloat` as an unsigned literal. */
  lemma ParseFloatOfUnsigned(u: string)
    requires |u| > 0 && IsDigit(u[0])
    ensures ParseFloat(u) == UnsignedDecimalPrefix(u)
  {
    TrimStartKeeps(u);
    assert DropSign(u) == u && !StartsWithMinus(u);
    match UnsignedDecimalPrefix(u)
    case None =>
    case Some(m) =>
  }

  /** `parseFloat` of `a.b` for digit strings `a` (not empty) and `b`. */
  lemma ReadsDecimal(s: string, a: string, b: string)
    requires |a| > 0 && AllDigits(a) && AllDigits(b) && s == a + ['.'] + b
    ensures ParseFloat(s) == Some(DecimalValue(a, b))
  {
    UnsignedDecimalOfParts(a, b, []);
    assert a + ['.'] + b + [] == s;
    ParseFloatOfUnsigned(s);
  }
}
