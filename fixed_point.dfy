/** Exact fixed-point rendering of the `{:.2f}` format used in the notice
    bodies. A quantity is held as a whole number of hundredths (250 stands for
    2.50), so rendering it to two decimals needs no rounding. */
module FixedPoint {
  import opened Text

  predicate IsDigit(ch: char) { '0' <= ch <= '9' }

  function DigitChar(d: nat): (ch: char)
    requires d < 10
    ensures IsDigit(ch)
  {
    ('0' as int + d) as char
  }

  function DigitValue(ch: char): (d: nat)
    requires IsDigit(ch)
    ensures d < 10 && DigitChar(d) == ch
  {
    ch as int - '0' as int
  }

  predicate AllDigits(s: string) {
    forall i :: 0 <= i < |s| ==> IsDigit(s[i])
  }

  /** Decimal digits of `n`, most significant first, without leading zeros. */
  function NatDigits(n: nat): (r: string)
    ensures |r| >= 1 && AllDigits(r)
    ensures r[0] == '0' ==> n == 0
    decreases n
  {
    if n < 10 then [DigitChar(n)] else NatDigits(n / 10) + [DigitChar(n % 10)]
  }

  /** The number a string of decimal digits denotes. */
  function DigitsValue(s: string): nat
    requires AllDigits(s)
  {
    if s == [] then 0 else 10 * DigitsValue(s[..|s| - 1]) + DigitValue(s[|s| - 1])
  }

  /** A digit string as NatDigits produces it: non-empty, no leading zero. */
  predicate Canonical(s: string) {
    |s| >= 1 && AllDigits(s) && (s[0] == '0' ==> |s| == 1)
  }

  /** `{:.2f}` of a non-negative amount given in hundredths. */
  function Format2(v: nat): (r: string)
    ensures |r| >= 4 && r[|r| - 3] == '.'
    ensures forall i :: 0 <= i < |r| ==> IsDigit(r[i]) || r[i] == '.'
  {
    NatDigits(v / 100) + "." + [DigitChar(v % 100 / 10), DigitChar(v % 10)]
  }

  /** Reads back a two-decimal figure in the form Format2 writes it. */
  function Parse2(s: string): (r: Option<nat>)
  {
    if |s| >= 4 && s[|s| - 3] == '.' && Canonical(s[..|s| - 3])
       && IsDigit(s[|s| - 2]) && IsDigit(s[|s| - 1])
    then Some(DigitsValue(s[..|s| - 3]) * 100 + DigitValue(s[|s| - 2]) * 10 + DigitValue(s[|s| - 1]))
    else None
  }

  lemma {:induction false} DigitsValueOfNatDigits(n: nat)
    ensures DigitsValue(NatDigits(n)) == n
    decreases n
  {
    if n >= 10 {
      var s := NatDigits(n);
      assert s[..|s| - 1] == NatDigits(n / 10);
      DigitsValueOfNatDigits(n / 10);
    }
  }

  lemma {:induction false} DigitsValuePositive(s: string)
    requires |s| >= 1 && AllDigits(s) && s[0] != '0'
    ensures DigitsValue(s) >= 1
    decreases |s|
  {
    if |s| > 1 {
      DigitsValuePositive(s[..|s| - 1]);
    }
  }

  lemma {:induction false} NatDigitsOfCanonical(s: string)
    requires Canonical(s)
    ensures NatDigits(DigitsValue(s)) == s
    decreases |s|
  {
    if |s| > 1 {
      var p := s[..|s| - 1];
      var d := DigitValue(s[|s| - 1]);
      DigitsValuePositive(p);
      NatDigitsOfCanonical(p);
      var v := DigitsValue(s);
      assert v == 10 * DigitsValue(p) + d;
      assert v / 10 == DigitsValue(p) && v % 10 == d;
      assert s == p + [s[|s| - 1]];
    }
  }

  lemma DivModTen(v: int, q: int, r: int)
    requires 0 <= r < 10 && v == q * 10 + r
    ensures v / 10 == q && v % 10 == r
  {
  }

  lemma DivModHundred(v: int, q: int, r: int)
    requires 0 <= r < 100 && v == q * 100 + r
    ensures v / 100 == q && v % 100 == r
  {
  }

  /** The whole part and the two decimal digits of an amount in hundredths. */
  lemma HundredthsDigits(whole: nat, d1: nat, d2: nat)
    requires d1 < 10 && d2 < 10
    ensures var v := whole * 100 + d1 * 10 + d2;
      v / 100 == whole && v % 100 / 10 == d1 && v % 10 == d2
  {
    var r := d1 * 10 + d2;
    DivModTen(r, d1, d2);
    DivModHundred(whole * 100 + r, whole, r);
    DivModTen(whole * 100 + r, whole * 10 + d1, d2);
  }

  /** Reading back a rendered figure gives the amount that was rendered. */
  lemma Parse2OfFormat2(v: nat)
    ensures Parse2(Format2(v)) == Some(v)
  {
    var s := Format2(v);
    var w := NatDigits(v / 100);
    assert s[..|s| - 3] == w;
    DigitsValueOfNatDigits(v / 100);
    assert s[|s| - 2] == DigitChar(v % 100 / 10) && s[|s| - 1] == DigitChar(v % 10);
    assert v == v / 100 * 100 + v % 100 / 10 * 10 + v % 10;
  }

  /** Every text Parse2 accepts is exactly the rendering of what it reads. */
  lemma Format2OfParse2(s: string)
    requires Parse2(s).Some?
    ensures Format2(Parse2(s).value) == s
  {
    var w := s[..|s| - 3];
    var d1, d2 := DigitValue(s[|s| - 2]), DigitValue(s[|s| - 1]);
    var v := Parse2(s).value;
    assert v == DigitsValue(w) * 100 + d1 * 10 + d2;
    HundredthsDigits(DigitsValue(w), d1, d2);
    NatDigitsOfCanonical(w);
    assert s == w + "." + [s[|s| - 2], s[|s| - 1]];
  }

  /** Two different amounts are never rendered the same way. */
  lemma Format2Injective(v: nat, u: nat)
    requires Format2(v) == Format2(u)
    ensures v == u
  {
    Parse2OfFormat2(v);
    Parse2OfFormat2(u);
  }

  /** Two figures as they appear in a client notice. */
  lemma Format2Example()
    ensures Format2(250) == "2.50" && Format2(2500) == "25.00"
  {
    assert NatDigits(25) == "25";
  }
}
