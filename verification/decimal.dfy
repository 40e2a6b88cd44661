/** Exact decimal numbers as the bill code reads and writes them.
    `ParseDouble` stands for `Double.parseDouble` restricted to an optionally
    signed decimal literal; `Format2` stands for `String.format("%.2f", x)`. */
module Decimal {
  import opened Wrappers
  import opened Strings

  predicate IsDigit(c: char) {
    '0' <= c <= '9'
  }

  function DigitValue(c: char): nat
    requires IsDigit(c)
  {
    c as int - '0' as int
  }

  function DigitChar(d: nat): (c: char)
    requires d < 10
    ensures IsDigit(c) && DigitValue(c) == d
  {
    ('0' as int + d) as char
  }

  predicate AllDigits(s: string) {
    forall i :: 0 <= i < |s| ==> IsDigit(s[i])
  }

  /** The characters a decimal literal is made of. */
  predicate IsNumeral(c: char) {
    IsDigit(c) || c == '.' || c == '+' || c == '-'
  }

  /** The value of a run of decimal digits, most significant first. */
  function DigitsValue(s: string): nat
    requires AllDigits(s)
  {
    if s == [] then 0 else DigitsValue(s[..|s| - 1]) * 10 + DigitValue(s[|s| - 1])
  }

  function Pow10(n: nat): (p: nat)
    ensures p >= 1
  {
    if n == 0 then 1 else 10 * Pow10(n - 1)
  }

  /** The value of the digits after a decimal point: 0.d1d2d3... */
  function FractionValue(f: string): (v: real)
    requires AllDigits(f)
    ensures 0.0 <= v <= 1.0
  {
    if f == [] then 0.0 else (DigitValue(f[0]) as real + FractionValue(f[1..])) / 10.0
  }

  /** digits, digits '.', '.' digits or digits '.' digits. */
  function ParseUnsigned(u: string): (r: Option<real>)
    ensures r.Some? ==> u != [] && r.value >= 0.0
  {
    var i := IndexOf(u, '.');
    var whole := u[..i];
    var frac := if i < |u| then u[i + 1..] else [];
    if AllDigits(whole) && AllDigits(frac) && |whole| + |frac| > 0 then
      Some(DigitsValue(whole) as real + FractionValue(frac))
    else
      None
  }

  /** A run of digits reads as its value. */
  lemma WholeNumberParses(w: string)
    requires w != [] && AllDigits(w)
    ensures ParseUnsigned(w) == Some(DigitsValue(w) as real)
  {
    assert w[..|w|] == w;
  }

  /** An unsigned decimal is made of digits and '.' only. */
  lemma UnsignedShape(u: string)
    requires ParseUnsigned(u).Some?
    ensures forall k :: 0 <= k < |u| ==> IsDigit(u[k]) || u[k] == '.'
  {
    var i := IndexOf(u, '.');
    forall k | 0 <= k < |u|
      ensures IsDigit(u[k]) || u[k] == '.'
    {
      if k < i {
        assert u[k] == u[..i][k];
      } else if k > i {
        assert u[k] == u[i + 1..][k - i - 1];
      }
    }
  }

  /** An optional '+' or '-' followed by an unsigned decimal. */
  function ParseLiteral(t: string): (r: Option<real>)
    ensures r.Some? ==> t != []
  {
    if t != [] && (t[0] == '+' || t[0] == '-') then
      match ParseUnsigned(t[1..])
      case Some(v) => Some(if t[0] == '-' then -v else v)
      case None => None
    else
      ParseUnsigned(t)
  }

  /** The first '.' of digits '.' f is the one after the digits. */
  lemma SplitAtDot(w: string, f: string)
    requires AllDigits(w)
    ensures IndexOf(w + "." + f, '.') == |w|
    ensures (w + "." + f)[..|w|] == w && (w + "." + f)[|w| + 1..] == f
  {
    var u := w + "." + f;
    assert forall j :: 0 <= j < |w| ==> u[j] == w[j];
    assert u[|w|] == '.';
  }

  /** Without a sign, a literal is read as an unsigned decimal. */
  lemma UnsignedIsLiteral(u: string)
    requires u != [] && IsDigit(u[0])
    ensures ParseLiteral(u) == ParseUnsigned(u)
  {
  }

  /** Digits, '.', two digits: the form the dialogs' costs take. */
  lemma TwoPlaceDecimalParses(w: string, f: string)
    requires w != [] && AllDigits(w) && |f| == 2 && AllDigits(f)
    ensures ParseUnsigned(w + "." + f) == Some(DigitsValue(w) as real + DigitsValue(f) as real / 100.0)
  {
    SplitAtDot(w, f);
    TwoPlacesAtDot(w + "." + f, w, f);
  }

  lemma TwoPlacesAtDot(u: string, w: string, f: string)
    requires IndexOf(u, '.') == |w| < |u| && u[..|w|] == w && u[|w| + 1..] == f
    requires w != [] && AllDigits(w) && |f| == 2 && AllDigits(f)
    ensures ParseUnsigned(u) == Some(DigitsValue(w) as real + DigitsValue(f) as real / 100.0)
  {
    ParseUnsignedAtDot(u, w, f);
    TwoPlaceFraction(f);
  }

  /** An unsigned decimal split at its first '.' reads as whole part plus fraction. */
  lemma ParseUnsignedAtDot(u: string, w: string, f: string)
    requires IndexOf(u, '.') == |w| < |u| && u[..|w|] == w && u[|w| + 1..] == f
    requires w != [] && AllDigits(w) && AllDigits(f)
    ensures ParseUnsigned(u) == Some(DigitsValue(w) as real + FractionValue(f))
  {
  }

  lemma TwoPlaceFraction(f: string)
    requires |f| == 2 && AllDigits(f)
    ensures FractionValue(f) == DigitsValue(f) as real / 100.0
  {
    var d0 := DigitValue(f[0]) as real;
    var d1 := DigitValue(f[1]) as real;
    assert f[1..][1..] == [];
    assert FractionValue(f[1..]) == d1 / 10.0;
    assert FractionValue(f) == (d0 * 10.0 + d1) / 100.0;
    assert f[..1][..0] == [];
    assert DigitsValue(f[..1]) == DigitValue(f[0]);
  }

  /** `Double.parseDouble` trims its argument before reading it: what it
      accepts is, once trimmed, made of digits, '.', '+' and '-' only. */
  function ParseDouble(s: string): (r: Option<real>)
    ensures r.Some? ==> Trim(s) != [] && forall i :: 0 <= i < |Trim(s)| ==> IsNumeral(Trim(s)[i])
  {
    var r := ParseLiteral(Trim(s));
    if r.Some? then
      LiteralShape(Trim(s));
      r
    else
      r
  }

  /** A literal contains no blank, no letter and no space, so it survives
      trimming, lower-casing and the removal of "rmb" or " RMB". */
  lemma LiteralShape(t: string)
    requires ParseLiteral(t).Some?
    ensures t != [] && !IsBlank(t[0]) && !IsBlank(t[|t| - 1])
    ensures forall i :: 0 <= i < |t| ==> IsNumeral(t[i])
    ensures forall i :: 0 <= i < |t| ==> !('A' <= t[i] <= 'Z') && t[i] != 'r' && t[i] != ' '
  {
    if t[0] == '+' || t[0] == '-' {
      UnsignedShape(t[1..]);
      assert forall i :: 1 <= i < |t| ==> t[i] == t[1..][i - 1];
    } else {
      UnsignedShape(t);
    }
  }

  /** A text with a character outside digits, '.', '+' and '-' is no literal. */
  lemma NonNumeralRejected(t: string, k: nat)
    requires k < |t| && !IsNumeral(t[k])
    ensures ParseLiteral(t).None?
  {
    if ParseLiteral(t).Some? {
      LiteralShape(t);
    }
  }

  lemma ParseDoubleOfLiteral(t: string)
    requires ParseLiteral(t).Some?
    ensures ParseDouble(t) == ParseLiteral(t)
  {
    LiteralShape(t);
    TrimKeepsUnpadded(t);
  }

  /** Decimal digits of a natural number, without leading zeros. */
  function NatToDigits(n: nat): (s: string)
    ensures s != [] && AllDigits(s) && DigitsValue(s) == n
    ensures |s| == 1 || s[0] != '0'
    ensures !IsBlank(s[0]) && !IsBlank(s[|s| - 1])
  {
    if n < 10 then
      [DigitChar(n)]
    else
      var p := NatToDigits(n / 10);
      var s := p + [DigitChar(n % 10)];
      assert s[..|s| - 1] == p;
      s
  }

  function Abs(x: real): real {
    if x < 0.0 then -x else x
  }

  /** |x| in hundredths, rounded half up. */
  function Cents(x: real): nat {
    var c := (Abs(x) * 100.0 + 0.5).Floor;
    assert c >= 0;
    c
  }

  /** The value `String.format("%.2f", x)` shows. */
  function Rounded2(x: real): real {
    if x < 0.0 then -(Cents(x) as real / 100.0) else Cents(x) as real / 100.0
  }

  /** `String.format("%.2f", x)`: sign, integer digits, '.', two decimals. */
  function Format2(x: real): string {
    (if x < 0.0 then "-" else "") + FixedPoint2(Cents(x))
  }

  /** The text `%.2f` prints: a '-' exactly for a negative value, then the
      integer digits without leading zeros, '.', and two decimals. */
  lemma Format2Shape(x: real)
    ensures var r := Format2(x); var d := if x < 0.0 then 1 else 0;
      |r| >= d + 4 && (x < 0.0 <==> r[0] == '-')
      && AllDigits(r[d..|r| - 3]) && (|r| - 3 == d + 1 || r[d] != '0')
      && r[|r| - 3] == '.' && AllDigits(r[|r| - 2..])
  {
    var c := Cents(x);
    var w := NatToDigits(c / 100);
    var r := Format2(x);
    var d := if x < 0.0 then 1 else 0;
    assert r[d..|r| - 3] == w;
    assert r[|r| - 2..] == [DigitChar(c / 10 % 10), DigitChar(c % 10)];
  }

  /** Rounding to hundredths moves a value by at most half a hundredth. */
  lemma Rounded2Close(x: real)
    ensures -0.005 <= Rounded2(x) - x <= 0.005
  {
    var a := Abs(x) * 100.0 + 0.5;
    assert a.Floor as real <= a < a.Floor as real + 1.0;
  }

  lemma {:induction false} TwoDigitsValue(c: nat)
    ensures DigitsValue([DigitChar(c / 10 % 10), DigitChar(c % 10)]) == c % 100
  {
    var s := [DigitChar(c / 10 % 10), DigitChar(c % 10)];
    assert s[..1][..0] == [];
    assert s[..1] == [DigitChar(c / 10 % 10)];
    assert DigitsValue(s[..1]) == c / 10 % 10;
  }

  lemma HundredthsSplit(c: nat)
    ensures (c / 100) as real + (c % 100) as real / 100.0 == c as real / 100.0
  {
    assert c == (c / 100) * 100 + c % 100;
  }

  /** The unsigned part of `Format2`: integer digits, '.', two decimals. */
  function FixedPoint2(c: nat): string {
    NatToDigits(c / 100) + "." + [DigitChar(c / 10 % 10), DigitChar(c % 10)]
  }

  lemma {:induction false} FixedPoint2Value(c: nat)
    ensures ParseUnsigned(FixedPoint2(c)) == Some(c as real / 100.0)
  {
    var w := NatToDigits(c / 100);
    var f := [DigitChar(c / 10 % 10), DigitChar(c % 10)];
    assert FixedPoint2(c) == w + "." + f;
    TwoPlaceDecimalParses(w, f);
    TwoDigitsValue(c);
    HundredthsSplit(c);
  }

  lemma {:induction false} SignedFixedPoint2Value(c: nat, negative: bool)
    ensures ParseDouble((if negative then "-" else "") + FixedPoint2(c))
         == Some(if negative then -(c as real / 100.0) else c as real / 100.0)
  {
    var u := FixedPoint2(c);
    FixedPoint2Value(c);
    if negative {
      var s := "-" + u;
      assert s[1..] == u;
      assert ParseLiteral(s) == Some(-(c as real / 100.0));
      ParseDoubleOfLiteral(s);
    } else {
      assert u[0] == NatToDigits(c / 100)[0];
      assert ParseLiteral(u) == Some(c as real / 100.0);
      ParseDoubleOfLiteral(u);
      assert "" + u == u;
    }
  }

  /** Reading back the formatted text gives exactly the rounded value. */
  lemma {:induction false} Format2RoundTrip(x: real)
    ensures ParseDouble(Format2(x)) == Some(Rounded2(x))
  {
    var c := Cents(x);
    SignedFixedPoint2Value(c, x < 0.0);
    assert Format2(x) == (if x < 0.0 then "-" else "") + FixedPoint2(c);
    assert Rounded2(x) == (if x < 0.0 then -(c as real / 100.0) else c as real / 100.0);
  }
}
