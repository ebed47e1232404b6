/** JSON numbers by the grammar of RFC 8259, section 6, and the values of digit strings. */
module JsonNumber {
  import opened Options

  predicate IsDigit(c: char) {
    '0' <= c <= '9'
  }

  predicate IsDigits(s: string) {
    forall i :: 0 <= i < |s| ==> IsDigit(s[i])
  }

  /** The exponent part: e or E, an optional sign, and digits. */
  datatype Exponent = Exponent(letter: char, sign: Option<char>, digits: string)

  datatype Number = Number(negative: bool, whole: string, fraction: Option<string>, exponent: Option<Exponent>)

  predicate Grammatical(n: Number) {
    && IsDigits(n.whole) && n.whole != "" && (n.whole[0] == '0' ==> |n.whole| == 1)
    && (n.fraction.Some? ==> n.fraction.value != "" && IsDigits(n.fraction.value))
    && (n.exponent.Some? ==>
          && n.exponent.value.letter in {'e', 'E'} && n.exponent.value.digits != "" && IsDigits(n.exponent.value.digits)
          && (n.exponent.value.sign.Some? ==> n.exponent.value.sign.value in {'+', '-'}))
  }

  function FractionText(f: Option<string>): string {
    if f.Some? then "." + f.value else ""
  }

  function ExponentText(e: Option<Exponent>): string {
    if e.None? then ""
    else [e.value.letter] + (if e.value.sign.Some? then [e.value.sign.value] else "") + e.value.digits
  }

  function Text(n: Number): string {
    var unsigned := n.whole + FractionText(n.fraction) + ExponentText(n.exponent);
    if n.negative then "-" + unsigned else unsigned
  }

  function Digit(c: char): (d: nat)
    requires IsDigit(c)
    ensures d <= 9
  {
    c as int - '0' as int
  }

  function Pow10(k: nat): (p: nat)
    ensures p >= 1
  {
    if k == 0 then 1 else 10 * Pow10(k - 1)
  }

  /** The number a digit string spells. */
  function Digits(s: string): (n: nat)
    requires IsDigits(s)
    ensures n < Pow10(|s|)
  {
    if s == "" then 0 else 10 * Digits(s[..|s| - 1]) + Digit(s[|s| - 1])
  }

  lemma {:induction false} Pow10Adds(a: nat, b: nat)
    ensures Pow10(a + b) == Pow10(a) * Pow10(b)
  {
    if a > 0 {
      Pow10Adds(a - 1, b);
    }
  }

  lemma {:induction false} DigitsConcat(a: string, b: string)
    requires IsDigits(a) && IsDigits(b)
    ensures IsDigits(a + b) && Digits(a + b) == Digits(a) * Pow10(|b|) + Digits(b)
  {
    if b == "" {
      assert a + b == a;
    } else {
      var front := b[..|b| - 1];
      var d := Digit(b[|b| - 1]);
      assert (a + b)[..|a + b| - 1] == a + front;
      DigitsConcat(a, front);
      assert Digits(a + b) == 10 * Digits(a + front) + d;
      Shift(Digits(a), Pow10(|front|), Digits(front), d);
    }
  }

  lemma Shift(a: nat, p: nat, b: nat, d: nat)
    ensures 10 * (a * p + b) + d == a * (10 * p) + (10 * b + d)
  {
  }

  /** With a nonzero first digit a number has as many digits as its power of ten says. */
  lemma FirstDigitCounts(s: string)
    requires IsDigits(s) && s != "" && s[0] != '0'
    ensures Pow10(|s| - 1) <= Digits(s)
  {
    SplitFirst(s);
    Multiple(Digit(s[0]), Pow10(|s| - 1));
  }

  lemma Multiple(d: nat, p: nat)
    requires d >= 1
    ensures p <= d * p
  {
  }

  lemma {:induction false} Pow10Monotone(a: nat, b: nat)
    requires a <= b
    ensures Pow10(a) <= Pow10(b)
  {
    if a < b {
      Pow10Monotone(a, b - 1);
    }
  }

  /** Digit strings of one length are ordered as their numbers are. */
  predicate LexLess(a: string, b: string)
    requires |a| == |b|
  {
    a != "" && (a[0] < b[0] || (a[0] == b[0] && LexLess(a[1..], b[1..])))
  }

  lemma {:induction false} LexIsNumeric(a: string, b: string)
    requires |a| == |b| && IsDigits(a) && IsDigits(b)
    ensures LexLess(a, b) <==> Digits(a) < Digits(b)
    ensures a == b <==> Digits(a) == Digits(b)
  {
    if a != "" {
      LexIsNumeric(a[1..], b[1..]);
      SplitFirst(a);
      SplitFirst(b);
      var p := Pow10(|a| - 1);
      assert a == [a[0]] + a[1..] && b == [b[0]] + b[1..];
      HigherDigit(Digit(a[0]), Digit(b[0]), Digits(a[1..]), Digits(b[1..]), p);
    }
  }

  lemma SplitFirst(s: string)
    requires IsDigits(s) && s != ""
    ensures Digits(s) == Digit(s[0]) * Pow10(|s| - 1) + Digits(s[1..])
  {
    assert s == s[..1] + s[1..];
    DigitsConcat(s[..1], s[1..]);
    assert Digits(s[..1]) == Digit(s[0]) by {
      assert s[..1][..0] == "";
    }
  }

  lemma HigherDigit(x: nat, y: nat, r: nat, t: nat, p: nat)
    requires r < p && t < p
    ensures x < y ==> x * p + r < y * p + t
    ensures y < x ==> y * p + t < x * p + r
    ensures x == y ==> (x * p + r < y * p + t <==> r < t)
  {
    if x < y {
      assert (x + 1) * p <= y * p;
    }
    if y < x {
      assert (y + 1) * p <= x * p;
    }
  }
}
