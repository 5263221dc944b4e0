/** The string operations the pages rely on: ASCII `toLowerCase`, `includes`, `repeat`,
    printing whole numbers and cents the way `toString` does, and `Number()` over plain
    decimal notation. */
module Text {
  import opened Common

  function Lower(c: char): char {
    if 'A' <= c <= 'Z' then (c as int + 32) as char else c
  }

  /** `s.toLowerCase()`, ASCII letters only. */
  function ToLower(s: string): (r: string)
    ensures |r| == |s|
    ensures forall i :: 0 <= i < |s| ==> r[i] == Lower(s[i])
  {
    seq(|s|, i requires 0 <= i < |s| => Lower(s[i]))
  }

  /** `s.includes(sub)`. */
  predicate Contains(s: string, sub: string)
    decreases |s|
  {
    if |sub| > |s| then false
    else s[..|sub|] == sub || (s != [] && Contains(s[1..], sub))
  }

  /** `sub` occurs in `s` starting at index `i`. */
  predicate OccursAt(s: string, sub: string, i: int) {
    0 <= i && i + |sub| <= |s| && s[i..i + |sub|] == sub
  }

  /** `includes` holds exactly when `sub` occurs at some position of `s`. */
  lemma {:induction false} ContainsIff(s: string, sub: string)
    ensures Contains(s, sub) <==> exists i :: OccursAt(s, sub, i)
    decreases |s|
  {
    if |sub| > |s| {
    } else if s[..|sub|] == sub {
      assert OccursAt(s, sub, 0);
    } else {
      ContainsIff(s[1..], sub);
      if exists i :: OccursAt(s, sub, i) {
        var i :| OccursAt(s, sub, i);
        assert i != 0;
        assert s[1..][i - 1..i - 1 + |sub|] == s[i..i + |sub|];
        assert OccursAt(s[1..], sub, i - 1);
      }
      if Contains(s[1..], sub) {
        var j :| OccursAt(s[1..], sub, j);
        assert s[1..][j..j + |sub|] == s[j + 1..j + 1 + |sub|];
        assert OccursAt(s, sub, j + 1);
      }
    }
  }

  lemma ContainsEmpty(s: string)
    ensures Contains(s, "")
  {
  }

  /** `String(c).repeat(n)`. */
  function Repeat(c: char, n: nat): (r: string)
    ensures |r| == n
    ensures forall i :: 0 <= i < n ==> r[i] == c
  {
    seq(n, _ => c)
  }

  predicate IsDigit(c: char) {
    '0' <= c <= '9'
  }

  predicate AllDigits(s: string) {
    forall i :: 0 <= i < |s| ==> IsDigit(s[i])
  }

  function Digit(d: nat): char
    requires d < 10
  {
    (48 + d) as char
  }

  function DigitValue(c: char): nat
    requires IsDigit(c)
  {
    c as int - 48
  }

  /** The value of a string of decimal digits. */
  function NatValue(s: string): nat
    requires AllDigits(s)
    decreases |s|
  {
    if s == [] then 0 else NatValue(s[..|s| - 1]) * 10 + DigitValue(s[|s| - 1])
  }

  function Pow10(k: nat): (p: nat)
    ensures p >= 1
  {
    if k == 0 then 1 else 10 * Pow10(k - 1)
  }

  /** `n.toString()` for a whole number. */
  function DecimalString(n: nat): (r: string)
    ensures r != [] && AllDigits(r)
    decreases n
  {
    if n < 10 then [Digit(n)] else DecimalString(n / 10) + [Digit(n % 10)]
  }

  /** `n.toString()` for a possibly negative whole number. */
  function IntString(n: int): string {
    if n < 0 then "-" + DecimalString(-n) else DecimalString(n)
  }

  /** `toString` of an amount held in cents: no fraction when whole, no trailing zero. */
  function CentsText(c: int): string {
    if c < 0 then "-" + UnsignedCentsText(Magnitude(c)) else UnsignedCentsText(Magnitude(c))
  }

  /** The amount without its sign. */
  function Magnitude(c: int): nat {
    if c < 0 then -c else c
  }

  function UnsignedCentsText(c: nat): string {
    var units, rest := c / 100, c % 100;
    if rest == 0 then DecimalString(units)
    else if rest % 10 == 0 then DecimalString(units) + "." + [Digit(rest / 10)]
    else DecimalString(units) + "." + [Digit(rest / 10), Digit(rest % 10)]
  }

  /** `toFixed(2)` of an amount held in cents: always two digits after the point. */
  function FixedCents(c: int): string {
    if c < 0 then "-" + UnsignedFixedCents(Magnitude(c)) else UnsignedFixedCents(Magnitude(c))
  }

  function UnsignedFixedCents(c: nat): string {
    var rest := c % 100;
    DecimalString(c / 100) + "." + [Digit(rest / 10), Digit(rest % 10)]
  }

  /** `toFixed(2)` writes a point followed by exactly two digits, with a minus sign in front
      exactly when the amount is negative. */
  lemma FixedCentsShape(c: int)
    ensures var r := FixedCents(c);
      && |r| >= 4 && r[|r| - 3] == '.'
      && IsDigit(r[|r| - 2]) && IsDigit(r[|r| - 1])
      && (c < 0 <==> r[0] == '-')
  {
    UnsignedFixedShape(Magnitude(c));
  }

  lemma UnsignedFixedShape(c: nat)
    ensures var r := UnsignedFixedCents(c);
      && |r| >= 4 && r[|r| - 3] == '.' && IsDigit(r[0])
      && IsDigit(r[|r| - 2]) && IsDigit(r[|r| - 1])
  {
    var u := DecimalString(c / 100);
    assert UnsignedFixedCents(c)[0] == u[0];
  }

  /** Index of the first '.', or |s| when there is none. */
  function DotIndex(s: string): (k: nat)
    ensures k <= |s|
    ensures k < |s| ==> s[k] == '.'
  {
    if s == [] then 0 else if s[0] == '.' then 0 else 1 + DotIndex(s[1..])
  }

  /** `Number(s)` for digits with an optional fraction: "5", "5.", "5.25" and ".25" are numbers,
      "" and "." are not; `None` stands for NaN. */
  function UnsignedNumber(s: string): Option<real> {
    var k := DotIndex(s);
    if k == |s| then
      if s != [] && AllDigits(s) then Some(NatValue(s) as real) else None
    else if (0 < k || k + 1 < |s|) && AllDigits(s[..k]) && AllDigits(s[k + 1..]) then
      Some(NatValue(s[..k]) as real + NatValue(s[k + 1..]) as real / Pow10(|s| - k - 1) as real)
    else None
  }

  /** `Number(s)` over plain decimal notation with an optional sign; the empty string is 0, a
      sign alone is NaN, and `None` stands for NaN. */
  function ParseNumber(s: string): Option<real> {
    if s == [] then Some(0.0)
    else if s[0] == '-' then
      match UnsignedNumber(s[1..])
      case Some(x) => Some(-x)
      case None => None
    else if s[0] == '+' then UnsignedNumber(s[1..])
    else UnsignedNumber(s)
  }

  /** A leading "-" negates the number that follows and a leading "+" keeps it; a sign with
      nothing after it is NaN, unlike the empty string, which reads as 0. */
  lemma SignedNumber(u: string)
    ensures ParseNumber("+" + u) == UnsignedNumber(u)
    ensures ParseNumber("-" + u) == (if UnsignedNumber(u).Some? then Some(-UnsignedNumber(u).value) else None)
    ensures ParseNumber("-").None? && ParseNumber("+").None? && ParseNumber("") == Some(0.0)
  {
    assert ("+" + u)[1..] == u && ("-" + u)[1..] == u;
    assert "-"[1..] == [] && "+"[1..] == [];
  }

  /** A fraction without a whole part: "." followed by digits reads as that fraction, while a
      dot alone is NaN. */
  lemma FractionOnly(frac: string)
    requires AllDigits(frac)
    ensures frac != [] ==> ParseNumber("." + frac) == Some(NatValue(frac) as real / Pow10(|frac|) as real)
    ensures ParseNumber(".").None?
  {
    if frac != [] {
      var s := "." + frac;
      assert DotIndex(s) == 0;
      assert s[..0] == [] && s[1..] == frac;
      assert ParseNumber(s) == UnsignedNumber(s);
    }
    DotAlone();
  }

  lemma DotAlone()
    ensures ParseNumber(".").None?
  {
    assert DotIndex(".") == 0 && "."[1..] == [];
  }

  lemma {:induction false} NatValueAppend(s: string, d: nat)
    requires AllDigits(s) && d < 10
    ensures AllDigits(s + [Digit(d)]) && NatValue(s + [Digit(d)]) == NatValue(s) * 10 + d
  {
    var t := s + [Digit(d)];
    assert t[..|t| - 1] == s;
  }

  lemma {:induction false} DecimalStringValue(n: nat)
    ensures NatValue(DecimalString(n)) == n
    decreases n
  {
    if n < 10 {
      assert DecimalString(n)[..0] == [];
    } else {
      DecimalStringValue(n / 10);
      NatValueAppend(DecimalString(n / 10), n % 10);
    }
  }

  lemma NoDotInDigits(s: string)
    requires AllDigits(s)
    ensures DotIndex(s) == |s|
  {
    if s != [] {
      assert AllDigits(s[1..]);
      NoDotInDigits(s[1..]);
    }
  }

  /** Printing a whole number and reading it back with `Number()` gives the number. */
  lemma DecimalStringRoundTrip(n: nat)
    ensures ParseNumber(DecimalString(n)) == Some(n as real)
  {
    NoDotInDigits(DecimalString(n));
    DecimalStringValue(n);
  }

  lemma IntStringRoundTrip(n: int)
    ensures ParseNumber(IntString(n)) == Some(n as real)
  {
    if n < 0 {
      WholeValue(-n);
      var u := DecimalString(-n);
      assert IsDigit(u[0]);
      SignedRoundTrip(u, (-n) as real);
    } else {
      DecimalStringRoundTrip(n);
    }
  }

  lemma {:induction false} DottedValue(units: nat, frac: string, v: nat, p: nat)
    requires AllDigits(frac) && NatValue(frac) == v && Pow10(|frac|) == p
    ensures UnsignedNumber(DecimalString(units) + "." + frac) == Some(units as real + v as real / p as real)
  {
    var u := DecimalString(units);
    var s := u + "." + frac;
    NoDotInDigits(u);
    DotIndexAfter(u, frac);
    assert s[..|u|] == u;
    assert s[|u| + 1..] == frac;
    DecimalStringValue(units);
  }

  lemma {:induction false} DotIndexAfter(u: string, frac: string)
    requires AllDigits(u)
    ensures DotIndex(u + "." + frac) == |u|
    decreases |u|
  {
    if u != [] {
      assert (u + "." + frac)[1..] == u[1..] + "." + frac;
      DotIndexAfter(u[1..], frac);
    }
  }

  lemma UnsignedCentsRoundTrip(c: nat)
    ensures UnsignedNumber(UnsignedCentsText(c)) == Some(c as real / 100.0)
  {
    var units, rest := c / 100, c % 100;
    var d, e := rest / 10, rest % 10;
    CentsDigits(c);
    if rest == 0 {
      WholeValue(units);
      OverHundred(units, 0);
    } else if e == 0 {
      TenthsValue(units, d, c);
    } else {
      HundredthsValue(units, d, e, c);
    }
  }

  /** An amount in cents as whole units, tenths and hundredths. */
  lemma CentsDigits(c: nat)
    ensures c == 100 * (c / 100) + 10 * (c % 100 / 10) + c % 100 % 10
    ensures c % 100 / 10 < 10 && c % 100 % 10 < 10
    ensures c % 100 == 0 <==> c % 100 / 10 == 0 && c % 100 % 10 == 0
  {
  }

  lemma WholeValue(units: nat)
    ensures UnsignedNumber(DecimalString(units)) == Some(units as real)
  {
    NoDotInDigits(DecimalString(units));
    DecimalStringValue(units);
  }

  lemma TenthsValue(units: nat, d: nat, c: nat)
    requires d < 10 && c == 100 * units + 10 * d
    ensures UnsignedNumber(DecimalString(units) + "." + [Digit(d)]) == Some(c as real / 100.0)
  {
    OneDigitValue(d);
    DottedValue(units, [Digit(d)], d, 10);
    OverTen(units, d);
  }

  lemma HundredthsValue(units: nat, d: nat, e: nat, c: nat)
    requires d < 10 && e < 10 && c == 100 * units + 10 * d + e
    ensures UnsignedNumber(DecimalString(units) + "." + [Digit(d), Digit(e)]) == Some(c as real / 100.0)
  {
    TwoDigitValue(d, e);
    DottedValue(units, [Digit(d), Digit(e)], 10 * d + e, 100);
    OverHundred(units, 10 * d + e);
  }

  lemma OneDigitValue(d: nat)
    requires d < 10
    ensures AllDigits([Digit(d)]) && NatValue([Digit(d)]) == d && Pow10(|[Digit(d)]|) == 10
  {
    assert [Digit(d)][..0] == [];
  }

  lemma TwoDigitValue(d: nat, e: nat)
    requires d < 10 && e < 10
    ensures AllDigits([Digit(d), Digit(e)]) && NatValue([Digit(d), Digit(e)]) == 10 * d + e
    ensures Pow10(|[Digit(d), Digit(e)]|) == 100
  {
    assert Pow10(1) == 10;
    var f := [Digit(d), Digit(e)];
    assert f[..1] == [Digit(d)];
    assert f[..1][..0] == [];
    assert NatValue([Digit(d)]) == d;
  }

  /** Whole units plus a fraction in hundredths, as one amount in cents. */
  lemma OverHundred(units: nat, f: nat)
    ensures units as real + f as real / 100.0 == (100 * units + f) as real / 100.0
  {
  }

  /** Whole units plus a fraction in tenths, as one amount in cents. */
  lemma OverTen(units: nat, d: nat)
    ensures units as real + d as real / 10.0 == (100 * units + 10 * d) as real / 100.0
  {
  }

  lemma UnsignedCentsLeadingDigit(c: nat)
    ensures UnsignedCentsText(c) != [] && IsDigit(UnsignedCentsText(c)[0])
  {
    var u := DecimalString(c / 100);
    assert UnsignedCentsText(c)[0] == u[0];
  }

  /** Printing an amount in cents and reading it back with `Number()` gives the amount. */
  lemma CentsRoundTrip(c: int)
    ensures ParseNumber(CentsText(c)) == Some(c as real / 100.0)
  {
    var m := Magnitude(c);
    UnsignedCentsReads(m);
    if c < 0 {
      assert CentsText(c) == "-" + UnsignedCentsText(m);
      NegatedHundredths(m, c);
    } else {
      assert CentsText(c) == UnsignedCentsText(m);
    }
  }

  lemma NegatedHundredths(m: nat, c: int)
    requires c < 0 && m == -c
    ensures -(m as real / 100.0) == c as real / 100.0
  {
  }

  /** The text of `m` cents reads as the amount, and with a minus sign in front as its negation. */
  lemma UnsignedCentsReads(m: nat)
    ensures ParseNumber(UnsignedCentsText(m)) == Some(m as real / 100.0)
    ensures ParseNumber("-" + UnsignedCentsText(m)) == Some(-(m as real / 100.0))
  {
    UnsignedCentsRoundTrip(m);
    UnsignedCentsLeadingDigit(m);
    SignedRoundTrip(UnsignedCentsText(m), m as real / 100.0);
  }

  /** Text that starts with a digit reads as its unsigned value, and with a minus sign in front
      as the negated value. */
  lemma SignedRoundTrip(u: string, x: real)
    requires u != [] && IsDigit(u[0]) && UnsignedNumber(u) == Some(x)
    ensures ParseNumber(u) == Some(x) && ParseNumber("-" + u) == Some(-x)
  {
    assert ("-" + u)[1..] == u;
  }

  /** Printing an amount with `toFixed(2)` and reading it back with `Number()` gives the amount. */
  lemma FixedCentsRoundTrip(c: int)
    ensures ParseNumber(FixedCents(c)) == Some(c as real / 100.0)
  {
    var m := Magnitude(c);
    UnsignedFixedReads(m);
    if c < 0 {
      NegatedHundredths(m, c);
    }
  }

  /** The `toFixed(2)` text of `m` cents reads as the amount, and with a minus sign in front as
      its negation. */
  lemma UnsignedFixedReads(m: nat)
    ensures ParseNumber(UnsignedFixedCents(m)) == Some(m as real / 100.0)
    ensures ParseNumber("-" + UnsignedFixedCents(m)) == Some(-(m as real / 100.0))
  {
    UnsignedFixedRoundTrip(m);
    UnsignedFixedShape(m);
    SignedRoundTrip(UnsignedFixedCents(m), m as real / 100.0);
  }

  lemma UnsignedFixedRoundTrip(c: nat)
    ensures UnsignedNumber(UnsignedFixedCents(c)) == Some(c as real / 100.0)
  {
    CentsDigits(c);
    HundredthsValue(c / 100, c % 100 / 10, c % 100 % 10, c);
  }
}
