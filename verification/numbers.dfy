/**
 * The number conversions the modelled code relies on, over exact values:
 * JavaScript's `parseInt` (base 10, or 16 after "0x") and `parseFloat`
 * (decimal literals with an optional exponent), each reading the longest
 * valid prefix after leading white space; None stands for NaN. Also
 * `Math.round`, which rounds halves towards +infinity.
 */
module Numbers {
  import opened Wrappers
  import opened Text

  predicate IsDigit(c: char) { '0' <= c <= '9' }

  lemma DigitNotSpace(c: char)
    requires IsDigit(c)
    ensures !IsSpace(c)
  {
  }

  predicate AllDigits(s: string) {
    forall i :: 0 <= i < |s| ==> IsDigit(s[i])
  }

  predicate IsHexDigit(c: char) { IsDigit(c) || 'a' <= c <= 'f' || 'A' <= c <= 'F' }

  function HexDigitValue(c: char): (v: nat)
    requires IsHexDigit(c)
    ensures v < 16
  {
    if IsDigit(c) then c as int - '0' as int
    else if 'a' <= c <= 'f' then c as int - 'a' as int + 10
    else c as int - 'A' as int + 10
  }

  /** The value of a run of decimal digits. */
  function DigitsValue(s: string): nat
    requires AllDigits(s)
  {
    if s == [] then 0 else 10 * DigitsValue(s[..|s| - 1]) + (s[|s| - 1] as int - '0' as int)
  }

  /** The value of a run of hexadecimal digits. */
  function HexValue(s: string): nat
    requires forall i :: 0 <= i < |s| ==> IsHexDigit(s[i])
  {
    if s == [] then 0 else 16 * HexValue(s[..|s| - 1]) + HexDigitValue(s[|s| - 1])
  }

  function Pow10(n: nat): (r: nat)
    ensures r >= 1
  {
    if n == 0 then 1 else 10 * Pow10(n - 1)
  }

  /** Length of the run of decimal digits at the start of `s`. */
  function LeadingDigits(s: string): (n: nat)
    ensures n <= |s| && AllDigits(s[..n])
    ensures n == |s| || !IsDigit(s[n])
  {
    if s == [] || !IsDigit(s[0]) then 0
    else
      var m := LeadingDigits(s[1..]);
      assert s[..m + 1] == [s[0]] + s[1..][..m];
      m + 1
  }

  /** Length of the run of hexadecimal digits at the start of `s`. */
  function LeadingHexDigits(s: string): (n: nat)
    ensures n <= |s| && forall i :: 0 <= i < n ==> IsHexDigit(s[i])
  {
    if s == [] || !IsHexDigit(s[0]) then 0 else LeadingHexDigits(s[1..]) + 1
  }

  /** `s` without a leading '+' or '-', and the sign it had. */
  function Unsigned(t: string): (string, int) {
    if |t| > 0 && t[0] == '-' then (t[1..], -1)
    else if |t| > 0 && t[0] == '+' then (t[1..], 1)
    else (t, 1)
  }

  /** `parseInt(s)`; None is NaN. */
  function ParseInt(s: string): Option<int> {
    var (u, sign) := Unsigned(TrimStart(s));
    if |u| >= 2 && u[0] == '0' && (u[1] == 'x' || u[1] == 'X') then
      var h := LeadingHexDigits(u[2..]);
      if h == 0 then None else Some(sign * HexValue(u[2..][..h]))
    else
      var n := LeadingDigits(u);
      if n == 0 then None else Some(sign * DigitsValue(u[..n]))
  }

  /** `x * 10^e` for a whole exponent `e`. */
  function Scale(x: real, e: int): real {
    if e == 0 then x else if e > 0 then x * Pow10(e) as real else x / Pow10(-e) as real
  }

  /** The exponent part `e[+-]digits` at the start of `s`, when there is a complete one. */
  function Exponent(s: string): int {
    if |s| >= 1 && (s[0] == 'e' || s[0] == 'E') then
      var (u, sign) := Unsigned(s[1..]);
      var n := LeadingDigits(u);
      if n == 0 then 0 else sign * DigitsValue(u[..n])
    else 0
  }

  /** `parseFloat(s)`; None is NaN. */
  function ParseFloat(s: string): Option<real> {
    var (u, sign) := Unsigned(TrimStart(s));
    var m := UnsignedDecimal(u);
    if m.None? then None else Some(sign as real * m.value)
  }

  /** The value of the longest prefix of `u` of the form digits [. digits] [exponent], with a digit before the exponent. */
  function UnsignedDecimal(u: string): Option<real> {
    var a := LeadingDigits(u);
    DecimalAfter(u[..a], u[a..])
  }

  /** The exact value of "intPart.frac". */
  function DecimalValue(intPart: string, frac: string): real
    requires AllDigits(intPart) && AllDigits(frac)
  {
    DigitsValue(intPart) as real + DigitsValue(frac) as real / Pow10(|frac|) as real
  }

  function DecimalAfter(intPart: string, rest: string): Option<real>
    requires AllDigits(intPart)
  {
    if |rest| > 0 && rest[0] == '.' then
      var b := LeadingDigits(rest[1..]);
      if |intPart| + b == 0 then None
      else
        Some(Scale(DecimalValue(intPart, rest[1..][..b]), Exponent(rest[1..][b..])))
    else if intPart == [] then None
    else Some(Scale(DigitsValue(intPart) as real, Exponent(rest)))
  }

  /** `parseFloat(s) || 0` */
  function ParseFloatOr0(s: string): real {
    ParseFloat(s).GetOr(0.0)
  }

  /** `parseInt(s) || 0` */
  function ParseIntOr0(s: string): int {
    ParseInt(s).GetOr(0)
  }

  /** `Math.round(x)`: the nearest integer, halves rounded up. */
  function Round(x: real): int {
    (x + 0.5).Floor
  }

  /** `Math.round(100 * part / total)` for a positive total, in whole numbers. */
  lemma RoundPercent(part: int, total: int)
    requires total > 0
    ensures Round(100.0 * part as real / total as real) == (200 * part + total) / (2 * total)
  {
    var x := 100.0 * part as real / total as real + 0.5;
    assert x == (200 * part + total) as real / (2 * total) as real;
    FloorOfQuotient(200 * part + total, 2 * total);
  }

  lemma FloorOfQuotient(a: int, b: int)
    requires b > 0
    ensures (a as real / b as real).Floor == a / b
  {
    var q, r := a / b, a % b;
    var y := r as real / b as real;
    assert y * b as real == r as real;
    assert 0.0 <= y < 1.0;
    assert a as real / b as real == q as real + y;
  }

  lemma MulMono(x: int, y: int, z: int)
    requires x >= y && z >= 0
    ensures x * z >= y * z
  {
  }

  /** A percentage of a part between 0 and the whole, rounded, stays between 0 and 100. */
  lemma RoundPercentBounds(part: int, total: int)
    requires 0 <= part <= total && total > 0
    ensures 0 <= Round(100.0 * part as real / total as real) <= 100
  {
    RoundPercent(part, total);
    var a := 200 * part + total;
    var q, r := a / (2 * total), a % (2 * total);
    assert a == q * (2 * total) + r && 0 <= r;
    assert 0 <= q;
    assert q <= 100 by {
      if q > 100 {
        MulMono(q, 101, 2 * total);
      }
    }
  }

  lemma {:induction false} DigitsValueAppend(a: string, b: string)
    requires AllDigits(a) && AllDigits(b)
    ensures AllDigits(a + b)
    ensures DigitsValue(a + b) == DigitsValue(a) * Pow10(|b|) + DigitsValue(b)
  {
    AllDigitsAppend(a, b);
    if b == [] {
      AppendNil(a);
    } else {
      var b' := b[..|b| - 1];
      assert AllDigits(b');
      DigitsValueAppend(a, b');
      DropLast(a, b);
      ShiftDigit(DigitsValue(a), Pow10(|b'|), DigitsValue(b'), b[|b| - 1] as int - '0' as int);
    }
  }

  lemma AllDigitsAppend(a: string, b: string)
    requires AllDigits(a) && AllDigits(b)
    ensures AllDigits(a + b)
  {
    forall i | 0 <= i < |a + b| ensures IsDigit((a + b)[i]) {
      if i >= |a| { assert (a + b)[i] == b[i - |a|]; }
    }
  }

  /** One more digit after `x` shifted by `p` places and `y`: the arithmetic behind `DigitsValueAppend`. */
  lemma ShiftDigit(x: int, p: int, y: int, d: int)
    ensures 10 * (x * p + y) + d == x * (10 * p) + (10 * y + d)
  {
  }

  /** A run of digits parses to its value with `parseInt`. */
  lemma ParseIntDigits(d: string)
    requires d != [] && AllDigits(d)
    ensures ParseInt(d) == Some(DigitsValue(d) as int)
  {
    DigitNotSpace(d[0]);
    TrimStartKeeps(d);
    assert Unsigned(d) == (d, 1);
    assert LeadingDigits(d) == |d| by { LeadingDigitsAll(d); }
    assert d[..|d|] == d;
  }

  lemma {:induction false} LeadingDigitsAll(d: string)
    requires AllDigits(d)
    ensures LeadingDigits(d) == |d|
  {
    if d != [] {
      assert AllDigits(d[1..]);
      LeadingDigitsAll(d[1..]);
    }
  }

  lemma {:induction false} LeadingDigitsThen(d: string, rest: string)
    requires AllDigits(d) && (rest == [] || !IsDigit(rest[0]))
    ensures LeadingDigits(d + rest) == |d|
  {
    if d != [] {
      assert (d + rest)[1..] == d[1..] + rest;
      assert AllDigits(d[1..]);
      LeadingDigitsThen(d[1..], rest);
    } else {
      assert d + rest == rest;
    }
  }

  lemma ParseFloatUnsigned(s: string)
    requires s != [] && !IsSpace(s[0]) && s[0] != '-' && s[0] != '+'
    ensures ParseFloat(s) == UnsignedDecimal(s)
  {
    TrimStartKeeps(s);
    assert Unsigned(s) == (s, 1);
  }

  lemma UnsignedDecimalSplit(d: string, rest: string)
    requires AllDigits(d) && (rest == [] || !IsDigit(rest[0]))
    ensures UnsignedDecimal(d + rest) == DecimalAfter(d, rest)
  {
    LeadingDigitsThen(d, rest);
    assert (d + rest)[..|d|] == d;
    assert (d + rest)[|d|..] == rest;
  }

  lemma DecimalAfterDot(d1: string, d2: string)
    requires AllDigits(d1) && AllDigits(d2) && |d1| + |d2| > 0
    ensures DecimalAfter(d1, "." + d2) == Some(DecimalValue(d1, d2))
  {
    var rest := "." + d2;
    assert |rest| > 0 && rest[0] == '.';
    assert rest[1..] == d2;
    LeadingDigitsAll(d2);
    assert rest[1..][..|d2|] == d2;
    assert rest[1..][|d2|..] == "";
    assert Exponent("") == 0;
  }

  /** A decimal "digits.digits" parses to its exact value with `parseFloat`. */
  lemma ParseFloatDecimal(d1: string, d2: string)
    requires AllDigits(d1) && AllDigits(d2) && |d1| + |d2| > 0
    ensures ParseFloat(d1 + "." + d2) == Some(DecimalValue(d1, d2))
  {
    var s := d1 + "." + d2;
    if d1 == [] {
      assert s[0] == '.' && !IsSpace('.');
    } else {
      assert s[0] == d1[0];
      DigitNotSpace(s[0]);
    }
    ParseFloatUnsigned(s);
    assert s == d1 + ("." + d2);
    UnsignedDecimalSplit(d1, "." + d2);
    DecimalAfterDot(d1, d2);
  }

  /** A run of digits parses to its value with `parseFloat`. */
  lemma ParseFloatDigits(d: string)
    requires d != [] && AllDigits(d)
    ensures ParseFloat(d) == Some(DigitsValue(d) as real)
  {
    DigitNotSpace(d[0]);
    ParseFloatUnsigned(d);
    UnsignedDecimalSplit(d, "");
    assert d + "" == d;
    assert Exponent("") == 0;
  }

  // ---------------------------------------------------------------------
  // Digit groups with separators

  /** Digits, commas and dots, nothing else. */
  predicate Numeric(s: string) {
    forall i :: 0 <= i < |s| ==> IsDigit(s[i]) || s[i] == ',' || s[i] == '.'
  }

  predicate DigitGroups(gs: seq<string>) {
    forall i :: 0 <= i < |gs| ==> AllDigits(gs[i])
  }

  lemma NumericAppend(a: string, b: string)
    requires Numeric(a) && Numeric(b)
    ensures Numeric(a + b)
  {
    forall i | 0 <= i < |a + b| ensures IsDigit((a + b)[i]) || (a + b)[i] == ',' || (a + b)[i] == '.' {
      if i >= |a| { assert (a + b)[i] == b[i - |a|]; }
    }
  }

  lemma NotIn(s: string, c: char)
    requires AllDigits(s) && !IsDigit(c)
    ensures c !in s
  {
  }

  lemma {:induction false} JoinDigits(gs: seq<string>, sep: char)
    requires DigitGroups(gs) && (sep == ',' || sep == '.')
    ensures Numeric(Join(gs, sep))
    ensures forall c :: c != sep && !IsDigit(c) ==> c !in Join(gs, sep)
    ensures |gs| >= 2 ==> sep in Join(gs, sep)
  {
    if |gs| > 1 {
      var init := gs[..|gs| - 1];
      var w := gs[|gs| - 1];
      JoinDigits(init, sep);
      var j := Join(init, sep) + [sep];
      assert Numeric(j) by { NumericAppend(Join(init, sep), [sep]); }
      assert Numeric(w);
      NumericAppend(j, w);
      assert Join(gs, sep) == j + w;
      assert Join(gs, sep)[|j| - 1] == sep;
    } else if |gs| == 1 {
      assert Join(gs, sep) == gs[0];
    }
  }

  lemma {:induction false} ConcatDigits(gs: seq<string>)
    requires DigitGroups(gs)
    ensures AllDigits(Concat(gs))
  {
    if gs != [] {
      ConcatDigits(gs[..|gs| - 1]);
    }
  }

  lemma UnsignedMinus(d: string)
    ensures Unsigned(TrimStart(['-'] + d)) == (d, -1)
  {
    var s := ['-'] + d;
    TrimStartKeeps(s);
    assert s[1..] == d;
  }

  /** A minus sign followed by a run of digits parses to the negated value with `parseInt`. */
  lemma ParseIntNegative(d: string, s: string)
    requires d != [] && AllDigits(d) && s == ['-'] + d
    ensures ParseInt(s) == Some(-1 * DigitsValue(d))
  {
    UnsignedMinus(d);
    var t := Unsigned(TrimStart(s));
    assert t.0 == d && t.1 == -1;
    assert !(|d| >= 2 && d[0] == '0' && (d[1] == 'x' || d[1] == 'X')) by {
      if |d| >= 2 { assert IsDigit(d[1]); }
    }
    LeadingDigitsAll(d);
    assert d[..|d|] == d;
  }

  /** Digits, commas and dots carry no white space at either end. */
  lemma NumericTrimmed(s: string)
    requires Numeric(s)
    ensures Trimmed(s)
  {
    if s != [] {
      if IsDigit(s[0]) { DigitNotSpace(s[0]); }
      if IsDigit(s[|s| - 1]) { DigitNotSpace(s[|s| - 1]); }
    }
  }
}
