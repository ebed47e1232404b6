/** Recognising positive integers in JSON number text, with an exponent that saturates. */
module IntegralNumber {
  import opened Options
  import opened JsonNumber

  // ---- the value of a number ----

  function FractionDigits(n: Number): (s: string)
    requires Grammatical(n)
    ensures IsDigits(s)
  {
    if n.fraction.Some? then n.fraction.value else ""
  }

  function Significand(n: Number): (s: string)
    requires Grammatical(n)
    ensures IsDigits(s) && s != ""
  {
    n.whole + FractionDigits(n)
  }

  function ExponentDigits(n: Number): (s: string)
    requires Grammatical(n)
    ensures IsDigits(s) && s != ""
  {
    if n.exponent.Some? then n.exponent.value.digits else "0"
  }

  predicate NegativeExponent(n: Number) {
    n.exponent.Some? && n.exponent.value.sign == Some('-')
  }

  /** The decimal value is significand * 10^(up) / 10^(down). */
  ghost function Up(n: Number): nat
    requires Grammatical(n)
  {
    if NegativeExponent(n) then 0 else Digits(ExponentDigits(n))
  }

  ghost function Down(n: Number): nat
    requires Grammatical(n)
  {
    |FractionDigits(n)| + if NegativeExponent(n) then Digits(ExponentDigits(n)) else 0
  }

  /** The decimal value is some integer k > 0. */
  ghost predicate PositiveInteger(n: Number)
    requires Grammatical(n)
  {
    !n.negative && exists k: int :: k > 0 && IsValue(n, k)
  }

  ghost predicate IsValue(n: Number, k: int)
    requires Grammatical(n)
  {
    Digits(Significand(n)) * Pow10(Up(n)) == k * Pow10(Down(n))
  }

  // ---- trailing zeros ----

  predicate AllZero(s: string) {
    forall i :: 0 <= i < |s| ==> s[i] == '0'
  }

  lemma {:induction false} ZeroDigits(s: string)
    requires IsDigits(s)
    ensures AllZero(s) <==> Digits(s) == 0
  {
    if s != "" {
      ZeroDigits(s[..|s| - 1]);
      assert forall i :: 0 <= i < |s| - 1 ==> s[i] == s[..|s| - 1][i];
    }
  }

  /** Divisible by a power of ten exactly when that many zeros end the digits. */
  lemma TrailingZeros(s: string, p: nat)
    requires IsDigits(s) && p <= |s|
    ensures (exists k: int :: Digits(s) == k * Pow10(p)) <==> AllZero(s[|s| - p..])
  {
    var a, b := s[..|s| - p], s[|s| - p..];
    assert s == a + b && |b| == p;
    if AllZero(b) {
      ZerosEndMultiple(a, b);
    }
    if k: int :| Digits(s) == k * Pow10(p) {
      MultipleEndsInZeros(a, b, k);
    }
  }

  lemma ZerosEndMultiple(a: string, b: string)
    requires IsDigits(a) && IsDigits(b) && AllZero(b)
    ensures IsDigits(a + b) && Digits(a + b) == Digits(a) * Pow10(|b|)
  {
    DigitsConcat(a, b);
    ZeroDigits(b);
  }

  lemma MultipleEndsInZeros(a: string, b: string, k: int)
    requires IsDigits(a) && IsDigits(b) && IsDigits(a + b) && Digits(a + b) == k * Pow10(|b|)
    ensures AllZero(b)
  {
    DigitsConcat(a, b);
    ZeroDigits(b);
    SameQuotient(Digits(a), Digits(b), k, Pow10(|b|));
  }

  lemma Times(a: int, b: int, p: int)
    ensures a * p - b * p == (a - b) * p
  {
  }

  lemma Associate(a: int, b: int, c: int)
    ensures a * (b * c) == (a * b) * c
  {
  }

  lemma NotPositive(k: int, p: nat)
    requires k <= 0
    ensures k * p <= 0
  {
  }

  lemma SameQuotient(a: int, b: int, k: int, p: int)
    requires 0 <= b < p && a * p + b == k * p
    ensures b == 0
  {
    Times(k, a, p);
    Times(a, k, p);
    if k > a {
      Multiple(k - a, p);
    } else if a > k {
      Multiple(a - k, p);
    }
  }

  /** Too few digits to be divisible, unless zero. */
  lemma TooFewDigits(s: string, p: nat, k: int)
    requires IsDigits(s) && |s| <= p && Digits(s) == k * Pow10(p)
    ensures Digits(s) == 0
  {
    Pow10Monotone(|s|, p);
    if k >= 1 {
      Multiple(k, Pow10(p));
    } else {
      NotPositive(k, Pow10(p));
    }
  }

  // ---- exactly when a value is a positive integer ----

  /** How many of the significand's digits stand after the decimal point of the value. */
  ghost function Places(n: Number): int
    requires Grammatical(n)
  {
    Down(n) - Up(n)
  }

  lemma ValueByPlaces(n: Number, k: int)
    requires Grammatical(n)
    ensures IsValue(n, k) <==> if Places(n) <= 0 then k == Digits(Significand(n)) * Pow10(-Places(n))
                               else Digits(Significand(n)) == k * Pow10(Places(n))
  {
    var d := Digits(Significand(n));
    if Places(n) <= 0 {
      Pow10Adds(-Places(n), Down(n));
      ScaleUp(d, k, Pow10(-Places(n)), Pow10(Down(n)));
    } else {
      Pow10Adds(Places(n), Up(n));
      ScaleUp(k, d, Pow10(Places(n)), Pow10(Up(n)));
    }
  }

  lemma ScaleUp(d: int, k: int, q: int, w: int)
    requires w >= 1
    ensures d * (q * w) == k * w <==> k == d * q
  {
    Associate(d, q, w);
    Cancel(d * q, k, w);
  }

  lemma Cancel(a: int, b: int, p: int)
    requires p >= 1
    ensures a * p == b * p <==> a == b
  {
    Times(a, b, p);
    Times(b, a, p);
    if a < b {
      Multiple(b - a, p);
    } else if b < a {
      Multiple(a - b, p);
    }
  }

  /** At least this many zeros end the digits. */
  predicate EndsInZeros(s: string, places: int) {
    places <= 0 || (places <= |s| && AllZero(s[|s| - places..]))
  }

  /** The test made on the digits. */
  ghost predicate ByDigits(n: Number)
    requires Grammatical(n)
  {
    !n.negative && !AllZero(Significand(n)) && EndsInZeros(Significand(n), Places(n))
  }

  lemma DigitsDecide(n: Number)
    requires Grammatical(n)
    ensures ByDigits(n) <==> PositiveInteger(n)
  {
    var s := Significand(n);
    var d := Digits(s);
    ZeroDigits(s);
    if ByDigits(n) {
      HasValue(n);
    }
    if k: int :| k > 0 && IsValue(n, k) {
      ValueByPlaces(n, k);
      if Places(n) > 0 {
        Multiple(k, Pow10(Places(n)));
        if Places(n) > |s| {
          TooFewDigits(s, Places(n), k);
        } else {
          TrailingZeros(s, Places(n));
        }
      }
    }
  }

  lemma HasValue(n: Number)
    requires Grammatical(n) && ByDigits(n)
    ensures exists k: int :: k > 0 && IsValue(n, k)
  {
    var s := Significand(n);
    var d := Digits(s);
    ZeroDigits(s);
    if Places(n) <= 0 {
      var k := d * Pow10(-Places(n));
      ValueByPlaces(n, k);
      Multiple(d, Pow10(-Places(n)));
      assert k > 0 && IsValue(n, k);
    } else {
      TrailingZeros(s, Places(n));
      var k: int :| d == k * Pow10(Places(n));
      ValueByPlaces(n, k);
      if k <= 0 {
        NotPositive(k, Pow10(Places(n)));
      }
      assert k > 0 && IsValue(n, k);
    }
  }

  // ---- recognition from the text ----

  /** The position of the first of these characters, or the length. */
  function FirstOf(s: string, cs: set<char>): (i: nat)
    ensures i <= |s|
  {
    if s == "" || s[0] in cs then 0 else 1 + FirstOf(s[1..], cs)
  }

  function Min(a: int, b: int): int {
    if a <= b then a else b
  }

  /** The mantissa's digits, and how many of them stand after the point. */
  function Spread(mantissa: string): (r: (string, nat)) {
    var dot := FirstOf(mantissa, {'.'});
    if dot < |mantissa| then (mantissa[..dot] + mantissa[dot + 1..], |mantissa| - dot - 1) else (mantissa, 0)
  }

  function Unsigned(e: string): string {
    if e != "" && (e[0] == '-' || e[0] == '+') then e[1..] else e
  }

  predicate Decide(digits: string, fraction: nat, negative: bool, x: int) {
    EndsInZeros(digits, if negative then fraction + x else fraction - x)
  }

  predicate Recognise(value: string) {
    && value != "" && value[0] != '-'
    && var i := FirstOf(value, {'e', 'E'});
       var (digits, fraction) := Spread(value[..i]);
       && !AllZero(digits)
       && if i == |value| then Decide(digits, fraction, false, 0)
          else
            var e := value[i + 1..];
            && Unsigned(e) != "" && IsDigits(Unsigned(e))
            && Decide(digits, fraction, e[0] == '-', Min(Digits(Unsigned(e)), |digits| + fraction))
  }

  /** Cutting the exponent off at this bound never changes the decision. */
  lemma SaturationHarmless(digits: string, fraction: nat, negative: bool, x: nat)
    requires !AllZero(digits)
    ensures Decide(digits, fraction, negative, Min(x, |digits| + fraction)) <==> Decide(digits, fraction, negative, x)
  {
    if x > |digits| + fraction && negative && fraction == 0 {
      assert digits[|digits| - |digits|..] == digits;
    }
  }

  lemma {:induction false} FirstAfter(a: string, b: string, cs: set<char>)
    requires forall j :: 0 <= j < |a| ==> a[j] !in cs
    requires b == "" || b[0] in cs
    ensures FirstOf(a + b, cs) == |a|
  {
    if a == "" {
      assert a + b == b;
    } else {
      assert (a + b)[1..] == a[1..] + b;
      FirstAfter(a[1..], b, cs);
    }
  }

  lemma TextSplits(n: Number)
    requires Grammatical(n) && !n.negative
    ensures var mantissa := n.whole + FractionText(n.fraction);
            && FirstOf(Text(n), {'e', 'E'}) == |mantissa| && Text(n)[..|mantissa|] == mantissa
            && (n.exponent.None? ==> |Text(n)| == |mantissa|)
            && (n.exponent.Some? ==> |Text(n)| > |mantissa| && Text(n)[|mantissa| + 1..] == ExponentText(n.exponent)[1..])
  {
    var mantissa := n.whole + FractionText(n.fraction);
    var e := ExponentText(n.exponent);
    assert Text(n) == mantissa + e;
    NoLetter(n);
    FirstAfter(mantissa, e, {'e', 'E'});
    Halves(mantissa, e);
  }

  lemma NoLetter(n: Number)
    requires Grammatical(n)
    ensures var mantissa := n.whole + FractionText(n.fraction);
            forall j :: 0 <= j < |mantissa| ==> mantissa[j] !in {'e', 'E'}
  {
  }

  lemma Halves(a: string, b: string)
    ensures (a + b)[..|a|] == a && (b != "" ==> (a + b)[|a| + 1..] == b[1..])
  {
  }

  lemma MantissaSpreads(n: Number)
    requires Grammatical(n)
    ensures Spread(n.whole + FractionText(n.fraction)) == (Significand(n), |FractionDigits(n)|)
  {
    var mantissa := n.whole + FractionText(n.fraction);
    FirstAfter(n.whole, FractionText(n.fraction), {'.'});
    if n.fraction.Some? {
      assert mantissa[..|n.whole|] == n.whole && mantissa[|n.whole| + 1..] == n.fraction.value;
    } else {
      assert mantissa == n.whole == Significand(n);
    }
  }

  lemma ExponentReads(n: Number)
    requires Grammatical(n) && n.exponent.Some?
    ensures var e := ExponentText(n.exponent)[1..];
            e != "" && Unsigned(e) == ExponentDigits(n) && (e[0] == '-' <==> NegativeExponent(n))
  {
    var x := n.exponent.value;
    var e := ExponentText(n.exponent)[1..];
    if x.sign.Some? {
      assert e == [x.sign.value] + x.digits;
      assert e[1..] == x.digits;
    } else {
      assert e == x.digits;
      assert IsDigit(e[0]);
    }
  }

  lemma RecogniseByDigits(n: Number)
    requires Grammatical(n)
    ensures Recognise(Text(n)) <==> ByDigits(n)
  {
    if n.negative {
      assert Text(n)[0] == '-';
    } else if n.exponent.None? {
      RecognisePlain(n);
    } else {
      CutText(n, Text(n));
      RecogniseCut(Text(n), Significand(n), |FractionDigits(n)|, NegativeExponent(n), ExponentDigits(n));
      DecideByPlaces(n);
    }
  }

  lemma DecideByPlaces(n: Number)
    requires Grammatical(n)
    ensures Decide(Significand(n), |FractionDigits(n)|, NegativeExponent(n), Digits(ExponentDigits(n)))
       <==> EndsInZeros(Significand(n), Places(n))
  {
  }

  lemma StartsWithDigit(n: Number)
    requires Grammatical(n) && !n.negative
    ensures Text(n) != "" && Text(n)[0] != '-'
  {
    assert Text(n)[0] == n.whole[0] && IsDigit(n.whole[0]);
  }

  lemma RecognisePlain(n: Number)
    requires Grammatical(n) && !n.negative && n.exponent.None?
    ensures Recognise(Text(n)) <==> ByDigits(n)
  {
    StartsWithDigit(n);
    TextSplits(n);
    MantissaSpreads(n);
    assert Digits("0") == 0;
  }

  /** The text of a number with an exponent, cut at the letter, falls into these parts. */
  ghost predicate CutInto(value: string, digits: string, fraction: nat, negative: bool, e: string) {
    && value != "" && value[0] != '-'
    && var i := FirstOf(value, {'e', 'E'});
       && i < |value| && Spread(value[..i]) == (digits, fraction)
       && Unsigned(value[i + 1..]) == e && e != "" && IsDigits(e)
       && (value[i + 1..][0] == '-' <==> negative)
  }

  lemma CutText(n: Number, value: string)
    requires Grammatical(n) && !n.negative && n.exponent.Some? && value == Text(n)
    ensures CutInto(value, Significand(n), |FractionDigits(n)|, NegativeExponent(n), ExponentDigits(n))
  {
    StartsWithDigit(n);
    TextSplits(n);
    MantissaSpreads(n);
    ExponentReads(n);
    Substitute(n, value, n.whole + FractionText(n.fraction), ExponentText(n.exponent)[1..]);
  }

  lemma Substitute(n: Number, value: string, mantissa: string, e: string)
    requires Grammatical(n) && FirstOf(value, {'e', 'E'}) == |mantissa| < |value| && value[0] != '-'
    requires value[..|mantissa|] == mantissa && value[|mantissa| + 1..] == e && e != ""
    requires Spread(mantissa) == (Significand(n), |FractionDigits(n)|)
    requires Unsigned(e) == ExponentDigits(n) && (e[0] == '-' <==> NegativeExponent(n))
    ensures CutInto(value, Significand(n), |FractionDigits(n)|, NegativeExponent(n), ExponentDigits(n))
  {
  }

  lemma RecogniseCut(value: string, digits: string, fraction: nat, negative: bool, e: string)
    requires CutInto(value, digits, fraction, negative, e)
    ensures Recognise(value) <==> !AllZero(digits) && Decide(digits, fraction, negative, Digits(e))
  {
    if !AllZero(digits) {
      SaturationHarmless(digits, fraction, negative, Digits(e));
    }
  }

  /** On every number of the grammar: recognised exactly when its decimal value is a positive integer. */
  lemma RecogniseExact(n: Number)
    requires Grammatical(n)
    ensures Recognise(Text(n)) <==> PositiveInteger(n)
  {
    RecogniseByDigits(n);
    DigitsDecide(n);
  }

  // ---- the recogniser as it runs ----

  /** The exponent, digit by digit, never above the bound; no value if a character is not a digit. */
  method ReadExponent(exponent: string, bound: nat) returns (r: Option<int>)
    requires bound >= 1
    ensures r.Some? <==> IsDigits(exponent)
    ensures r.Some? ==> r.value == Min(Digits(exponent), bound)
  {
    var value := 0;
    var j := 0;
    while j < |exponent|
      invariant j <= |exponent| && IsDigits(exponent[..j])
      invariant value == Min(Digits(exponent[..j]), bound)
    {
      if !IsDigit(exponent[j]) {
        return None;
      }
      assert exponent[..j + 1][..j] == exponent[..j];
      if value > bound {
        value := bound;
      } else {
        value := value * 10 + Digit(exponent[j]);
        if value > bound {
          value := bound;
        }
      }
      j := j + 1;
    }
    assert exponent[..j] == exponent;
    r := Some(value);
  }

  lemma RecogniseDecides(value: string)
    ensures forall n :: Grammatical(n) && Text(n) == value ==> (Recognise(value) <==> PositiveInteger(n))
  {
    forall n | Grammatical(n) && Text(n) == value ensures Recognise(value) <==> PositiveInteger(n) {
      RecogniseExact(n);
    }
  }

  method PositiveIntegral(value: string) returns (r: bool)
    ensures r == Recognise(value)
    ensures forall n :: Grammatical(n) && Text(n) == value ==> (r <==> PositiveInteger(n))
  {
    RecogniseDecides(value);
    if value == "" || value[0] == '-' {
      return false;
    }
    var i := FirstOf(value, {'e', 'E'});
    var (digits, fraction) := Spread(value[..i]);
    if AllZero(digits) {
      return false;
    }
    var x, negative := 0, false;
    if i < |value| {
      var e := value[i + 1..];
      if Unsigned(e) == "" {
        return false;
      }
      negative := e[0] == '-';
      var read := ReadExponent(Unsigned(e), |digits| + fraction);
      if read.None? {
        return false;
      }
      x := read.value;
    }
    var places := fraction;
    if negative {
      places := places + x;
    } else {
      places := places - x;
    }
    if places <= 0 {
      return true;
    }
    if places > |digits| {
      return false;
    }
    r := AllZero(digits[|digits| - places..]);
  }
}
