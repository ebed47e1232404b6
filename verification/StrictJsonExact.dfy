/** The strict walker accepts exactly the sound trees, and hands out their values. */
module StrictJsonExact {
  import opened Options
  import opened JsonNumber
  import opened StrictJson
  import IntegralNumber

  datatype Json =
    | JNull | JBool(b: bool) | JNumber(n: Number) | JString(s: string)
    | JArray(items: seq<Json>) | JObject(members: seq<(string, Json)>)

  // ---- trees and their tokens ----

  ghost predicate WellFormed(v: Json) {
    match v
    case JNumber(n) => Grammatical(n)
    case JArray(items) => forall i :: 0 <= i < |items| ==> WellFormed(items[i])
    case JObject(members) => forall i :: 0 <= i < |members| ==> WellFormed(members[i].1)
    case _ => true
  }

  function Tokens(v: Json): (ts: seq<Token>)
    ensures ts != []
    decreases v, 0
  {
    match v
    case JNull => [NullToken]
    case JBool(b) => [BoolToken(b)]
    case JNumber(n) => [NumberToken(Text(n))]
    case JString(s) => [StringToken(s)]
    case JArray(items) => [OpenArray] + ItemTokens(v, items) + [CloseArray]
    case JObject(members) => [OpenObject] + MemberTokens(v, members) + [CloseObject]
  }

  function ItemTokens(parent: Json, items: seq<Json>): seq<Token>
    requires forall i :: 0 <= i < |items| ==> items[i] < parent
    decreases parent, 0, |items|
  {
    if items == [] then [] else Tokens(items[0]) + ItemTokens(parent, items[1..])
  }

  function MemberTokens(parent: Json, members: seq<(string, Json)>): seq<Token>
    requires forall i :: 0 <= i < |members| ==> members[i].1 < parent
    decreases parent, 0, |members|
  {
    if members == [] then []
    else [StringToken(members[0].0)] + Tokens(members[0].1) + MemberTokens(parent, members[1..])
  }

  // ---- which trees are sound, and what they mean ----

  /** Written without fraction or exponent, and of magnitude at most 2^63 - 1. */
  ghost predicate BoundedInteger(n: Number)
    requires Grammatical(n)
  {
    n.fraction.None? && n.exponent.None? && Digits(n.whole) <= MAX_INT64
  }

  ghost predicate DistinctKeys(members: seq<(string, Json)>) {
    forall i, j :: 0 <= i < j < |members| ==> members[i].0 != members[j].0
  }

  /** With `depth` enclosing containers: none deeper than allowed, bounded integers, no repeated key. */
  ghost predicate Sound(v: Json, depth: nat)
    requires WellFormed(v)
  {
    && depth <= MAX_DEPTH
    && match v
       case JNumber(n) => BoundedInteger(n)
       case JArray(items) => forall i :: 0 <= i < |items| ==> Sound(items[i], depth + 1)
       case JObject(members) => DistinctKeys(members) && forall i :: 0 <= i < |members| ==> Sound(members[i].1, depth + 1)
       case _ => true
  }

  /** A null fits every kind; a string array holds strings and nulls. */
  ghost predicate Fits(kind: Kind, v: Json)
    decreases v
  {
    match v
    case JNull => true
    case JBool(_) => kind == KindAny || kind == KindBool
    case JNumber(_) => kind == KindAny || kind == KindInt
    case JString(s) => ScalarKind(kind, s)
    case JArray(items) =>
      kind == KindAny
      || (kind == KindStringArray && forall i :: 0 <= i < |items| ==> Fits(KindString, items[i]))
    case JObject(_) => kind == KindAny || kind == KindObject
  }

  function Meaning(v: Json): Value
    decreases v, 0
  {
    match v
    case JNull => NullValue
    case JBool(b) => BoolValue(b)
    case JNumber(n) => IntValue(if IsDigits(n.whole) then Signed(n.negative, Digits(n.whole)) else 0)
    case JString(s) => StringValue(s)
    case JArray(items) => ArrayValue(seq(|items|, i requires 0 <= i < |items| => Meaning(items[i])))
    case JObject(members) => ObjectValue(FieldsOf(v, members, map[]))
  }

  function FieldsOf(parent: Json, members: seq<(string, Json)>, out: map<string, Value>): map<string, Value>
    requires forall i :: 0 <= i < |members| ==> members[i].1 < parent
    decreases parent, 0, |members|
  {
    if members == [] then out else FieldsOf(parent, members[1..], out[members[0].0 := Meaning(members[0].1)])
  }

  // ---- numbers are compared exactly ----

  lemma FourDigits(s: string)
    requires |s| == 4 && IsDigits(s)
    ensures Digits(s) == 1000 * Digit(s[0]) + 100 * Digit(s[1]) + 10 * Digit(s[2]) + Digit(s[3])
  {
    ThreeDigits(s[..3]);
    LastDigit(s);
  }

  lemma ThreeDigits(s: string)
    requires |s| == 3 && IsDigits(s)
    ensures Digits(s) == 100 * Digit(s[0]) + 10 * Digit(s[1]) + Digit(s[2])
  {
    LastDigit(s);
    LastDigit(s[..2]);
    LastDigit(s[..1]);
    assert s[..2][..1] == s[..1] && s[..1][..0] == "" && Digits("") == 0;
  }

  lemma LastDigit(s: string)
    requires s != "" && IsDigits(s)
    ensures Digits(s) == 10 * Digits(s[..|s| - 1]) + Digit(s[|s| - 1])
  {
  }

  lemma Chunks(a: string, b: string, c: string, d: string, e: string)
    requires IsDigits(a) && IsDigits(b) && IsDigits(c) && IsDigits(d) && IsDigits(e)
    requires |a| == |b| == |c| == |d| == 4 && |e| == 3
    ensures var s := a + (b + (c + (d + e)));
            && IsDigits(s) && |s| == 19
            && Digits(s) == Digits(a) * 1_0000_0000_0000_000 + Digits(b) * 1_0000_0000_000 + Digits(c) * 1_0000_000
                            + Digits(d) * 1000 + Digits(e)
  {
    MaxPower();
    DigitsConcat(d, e);
    DigitsConcat(c, d + e);
    DigitsConcat(b, c + (d + e));
    DigitsConcat(a, b + (c + (d + e)));
  }

  lemma MaxValue()
    ensures IsDigits(MAX_DIGITS) && |MAX_DIGITS| == 19 && Digits(MAX_DIGITS) == MAX_INT64
  {
    FourDigits("9223");
    FourDigits("3720");
    FourDigits("3685");
    FourDigits("4775");
    ThreeDigits("807");
    Chunks("9223", "3720", "3685", "4775", "807");
  }

  lemma PointOrExponent(n: Number)
    requires Grammatical(n)
    ensures HasPointOrExponent(Text(n)) <==> n.fraction.Some? || n.exponent.Some?
    ensures n.fraction.None? && n.exponent.None? ==> Magnitude(Text(n)) == n.whole
  {
    var s := Text(n);
    var sign := if n.negative then "-" else "";
    if n.fraction.Some? {
      assert s[|sign| + |n.whole|] == '.';
    } else if n.exponent.Some? {
      assert s[|sign| + |n.whole|] == n.exponent.value.letter;
    } else {
      assert s == sign + n.whole;
      assert n.negative ==> s[1..] == n.whole;
    }
  }

  lemma MagnitudeExact(s: string)
    requires IsDigits(s) && s != "" && (s[0] == '0' ==> |s| == 1)
    ensures (|s| < 19 || (|s| == |MAX_DIGITS| && (LexLess(s, MAX_DIGITS) || s == MAX_DIGITS))) <==> Digits(s) <= MAX_INT64
    ensures |MAX_DIGITS| == 19
  {
    MaxValue();
    if |s| == 19 {
      LexIsNumeric(s, MAX_DIGITS);
    } else if |s| < 19 {
      MagnitudeSmall(s);
    } else {
      MagnitudeLarge(s);
    }
  }

  /** The digit-string comparison is exact, and what it lets through always parses, to the number written. */
  lemma NumberExact(n: Number)
    requires Grammatical(n)
    ensures BoundedNumber(Text(n)) <==> BoundedInteger(n)
    ensures BoundedNumber(Text(n)) ==> ParseInt64(Text(n)) == Some(Meaning(JNumber(n)).n)
  {
    PointOrExponent(n);
    MagnitudeExact(n.whole);
  }

  lemma MaxPower()
    ensures Pow10(3) == 1000 && Pow10(7) == 1_0000_000 && Pow10(11) == 1_0000_0000_000
    ensures Pow10(15) == 1_0000_0000_0000_000 && Pow10(18) <= MAX_INT64 < Pow10(19)
  {
    assert Pow10(3) == 1000 && Pow10(4) == 10000;
    Pow10Adds(4, 3);
    Pow10Adds(4, 7);
    Pow10Adds(4, 11);
    Pow10Adds(3, 15);
    Pow10Adds(4, 15);
  }

  lemma MagnitudeSmall(s: string)
    requires IsDigits(s) && |s| < 19
    ensures Digits(s) <= MAX_INT64
  {
    MaxPower();
    Pow10Monotone(|s|, 18);
  }

  lemma MagnitudeLarge(s: string)
    requires IsDigits(s) && |s| > 19 && s[0] != '0'
    ensures Digits(s) > MAX_INT64
  {
    MaxPower();
    FirstDigitCounts(s);
    Pow10Monotone(19, |s| - 1);
  }

  // ---- two integers that are refused ----

  function HundredByExponent(): Number {
    Number(false, "1", None, Some(Exponent('e', None, "2")))
  }

  /** 1e2 is a JSON number of value 100, and is refused. */
  lemma ExponentRefused()
    ensures Grammatical(HundredByExponent()) && IntegralNumber.IsValue(HundredByExponent(), 100)
    ensures !BoundedNumber(Text(HundredByExponent()))
  {
    var n := HundredByExponent();
    LastDigit("1");
    LastDigit("2");
    assert "1"[..0] == "" && "2"[..0] == "" && Digits("") == 0;
    assert IntegralNumber.Significand(n) == "1";
    assert Pow10(2) == 100;
    NumberExact(n);
  }

  /** The digits of 2^63. */
  const LEAST_DIGITS := "9223" + ("3720" + ("3685" + ("4775" + "808")))

  function LeastInt64(): Number {
    Number(true, LEAST_DIGITS, None, None)
  }

  lemma LeastValue()
    ensures IsDigits(LEAST_DIGITS) && |LEAST_DIGITS| == 19 && Digits(LEAST_DIGITS) == MAX_INT64 + 1
    ensures LEAST_DIGITS[0] == '9'
  {
    FourDigits("9223");
    FourDigits("3720");
    FourDigits("3685");
    FourDigits("4775");
    ThreeDigits("808");
    Chunks("9223", "3720", "3685", "4775", "808");
  }

  lemma OneTooLarge(s: string)
    requires IsDigits(s) && s != "" && s[0] != '0' && Digits(s) == MAX_INT64 + 1
    ensures var n := Number(true, s, None, None);
            Grammatical(n) && ParseInt64(Text(n)) == Some(-MAX_INT64 - 1) && !BoundedNumber(Text(n))
  {
    var n := Number(true, s, None, None);
    PointOrExponent(n);
    NumberExact(n);
  }

  /** -2^63 parses as a 64-bit integer, and is refused all the same. */
  lemma LeastRefused()
    ensures Grammatical(LeastInt64()) && ParseInt64(Text(LeastInt64())) == Some(-MAX_INT64 - 1)
    ensures !BoundedNumber(Text(LeastInt64()))
  {
    LeastValue();
    OneTooLarge(LEAST_DIGITS);
  }

  // ---- the walk of a tree ----

  lemma {:induction false} WalkExact(v: Json, kind: Kind, depth: nat, rest: seq<Token>)
    requires WellFormed(v)
    ensures WalkToken(Tokens(v)[0], Tokens(v)[1..] + rest, kind, depth)
         == if Sound(v, depth) && Fits(kind, v) then Ok(Meaning(v), rest) else Rejected
    decreases v, 1
  {
    if v.JArray? {
      WalkArray(v, kind, depth, rest);
    } else if v.JObject? {
      WalkNested(v, kind, depth, rest);
    } else {
      assert Tokens(v)[1..] + rest == rest;
      if v.JNumber? {
        NumberExact(v.n);
      }
    }
  }

  lemma {:induction false} WalkArray(v: Json, kind: Kind, depth: nat, rest: seq<Token>)
    requires WellFormed(v) && v.JArray?
    ensures WalkToken(OpenArray, Tokens(v)[1..] + rest, kind, depth)
         == if Sound(v, depth) && Fits(kind, v) then Ok(Meaning(v), rest) else Rejected
    decreases v, 0
  {
    if depth <= MAX_DEPTH && (kind == KindAny || kind == KindStringArray) {
      var k := if kind == KindStringArray then KindString else KindAny;
      assert Tokens(v)[1..] + rest == ItemTokens(v, v.items) + ([CloseArray] + rest);
      ItemsExact(v, v.items, k, depth, [], rest);
      assert Meaning(v).items == Meanings(v.items);
      assert [] + Meanings(v.items) == Meanings(v.items);
    }
  }

  function Meanings(items: seq<Json>): (ms: seq<Value>)
    ensures |ms| == |items| && forall i :: 0 <= i < |ms| ==> ms[i] == Meaning(items[i])
  {
    seq(|items|, i requires 0 <= i < |items| => Meaning(items[i]))
  }

  ghost predicate ItemsOk(items: seq<Json>, kind: Kind, depth: nat)
    requires forall i :: 0 <= i < |items| ==> WellFormed(items[i])
  {
    forall i :: 0 <= i < |items| ==> Sound(items[i], depth + 1) && Fits(kind, items[i])
  }

  lemma ItemTokensSplit(parent: Json, items: seq<Json>, tail: seq<Token>)
    requires items != [] && forall i :: 0 <= i < |items| ==> items[i] < parent
    ensures var ts := ItemTokens(parent, items) + tail;
            && ts != [] && ts[0] == Tokens(items[0])[0] && ts[0] != CloseArray
            && ts[1..] == Tokens(items[0])[1..] + (ItemTokens(parent, items[1..]) + tail)
  {
    NeverCloses(items[0]);
    var more := ItemTokens(parent, items[1..]) + tail;
    assert ItemTokens(parent, items) + tail == Tokens(items[0]) + more;
    SplitsFirst(Tokens(items[0]), more);
  }

  lemma SplitsFirst(a: seq<Token>, b: seq<Token>)
    requires a != []
    ensures (a + b)[0] == a[0] && (a + b)[1..] == a[1..] + b
  {
  }

  lemma ItemsOkStep(items: seq<Json>, kind: Kind, depth: nat)
    requires items != [] && forall i :: 0 <= i < |items| ==> WellFormed(items[i])
    ensures ItemsOk(items, kind, depth)
       <==> Sound(items[0], depth + 1) && Fits(kind, items[0]) && ItemsOk(items[1..], kind, depth)
  {
    if ItemsOk(items[1..], kind, depth) {
      forall i | 0 < i < |items| ensures Sound(items[i], depth + 1) && Fits(kind, items[i]) {
        assert items[i] == items[1..][i - 1];
      }
    }
  }

  lemma {:induction false} ItemsExact(parent: Json, items: seq<Json>, kind: Kind, depth: nat, done: seq<Value>, rest: seq<Token>)
    requires forall i :: 0 <= i < |items| ==> WellFormed(items[i]) && items[i] < parent
    ensures WalkItems(ItemTokens(parent, items) + ([CloseArray] + rest), kind, depth, done)
         == if ItemsOk(items, kind, depth) then Ok(done + Meanings(items), rest) else Rejected
    decreases parent, 0, |items|
  {
    var tail := [CloseArray] + rest;
    if items == [] {
      NoItems(kind, depth, done, rest);
      assert Meanings(items) == [];
    } else {
      ItemTokensSplit(parent, items, tail);
      ItemsOkStep(items, kind, depth);
      WalkExact(items[0], kind, depth + 1, ItemTokens(parent, items[1..]) + tail);
      ItemsExact(parent, items[1..], kind, depth, done + [Meaning(items[0])], rest);
      MeaningsMove(done, items);
    }
  }

  lemma NoItems(kind: Kind, depth: nat, done: seq<Value>, rest: seq<Token>)
    ensures WalkItems([] + ([CloseArray] + rest), kind, depth, done) == Ok(done + [], rest)
  {
    var tail := [CloseArray] + rest;
    assert [] + tail == tail && tail[1..] == rest && done + [] == done;
  }

  lemma MeaningsMove(done: seq<Value>, items: seq<Json>)
    requires items != []
    ensures done + [Meaning(items[0])] + Meanings(items[1..]) == done + Meanings(items)
  {
  }

  lemma NeverCloses(v: Json)
    ensures Tokens(v)[0] != CloseArray && Tokens(v)[0] != CloseObject
  {
  }

  lemma {:induction false} WalkNested(v: Json, kind: Kind, depth: nat, rest: seq<Token>)
    requires WellFormed(v) && v.JObject?
    ensures WalkToken(OpenObject, Tokens(v)[1..] + rest, kind, depth)
         == if Sound(v, depth) && Fits(kind, v) then Ok(Meaning(v), rest) else Rejected
    decreases v, 0
  {
    if depth <= MAX_DEPTH {
      WalkObjectExact(v, None, depth, rest);
    }
  }

  /** Every key is allowed by the schema and its value fits. */
  ghost predicate SchemaFits(members: seq<(string, Json)>, schema: Schema) {
    forall i :: 0 <= i < |members| ==>
      KindOf(schema, members[i].0).Some? && Fits(KindOf(schema, members[i].0).value, members[i].1)
  }

  lemma {:induction false} WalkObjectExact(v: Json, schema: Schema, depth: nat, rest: seq<Token>)
    requires WellFormed(v) && v.JObject? && depth <= MAX_DEPTH
    ensures WalkObject(Tokens(v)[1..] + rest, schema, depth)
         == if Sound(v, depth) && SchemaFits(v.members, schema) then Ok(FieldsOf(v, v.members, map[]), rest) else Rejected
    decreases v, 0, |v.members| + 1
  {
    assert Tokens(v)[1..] + rest == MemberTokens(v, v.members) + ([CloseObject] + rest);
    MembersExact(v, v.members, schema, depth, {}, map[], rest);
  }

  ghost predicate MembersOk(members: seq<(string, Json)>, schema: Schema, depth: nat, seen: set<string>)
    requires forall i :: 0 <= i < |members| ==> WellFormed(members[i].1)
  {
    && DistinctKeys(members) && SchemaFits(members, schema)
    && (forall i :: 0 <= i < |members| ==> members[i].0 !in seen && Sound(members[i].1, depth + 1))
  }

  lemma MemberTokensSplit(parent: Json, members: seq<(string, Json)>, tail: seq<Token>)
    requires members != [] && forall i :: 0 <= i < |members| ==> members[i].1 < parent
    ensures var ts := MemberTokens(parent, members) + tail;
            var more := MemberTokens(parent, members[1..]) + tail;
            var v := Tokens(members[0].1);
            && ts != [] && ts[0] == StringToken(members[0].0)
            && ts[1..] == v + more && (v + more)[0] == v[0] && (v + more)[1..] == v[1..] + more
  {
    var key := StringToken(members[0].0);
    var v := Tokens(members[0].1);
    var rest := MemberTokens(parent, members[1..]);
    Regroup(key, v, rest, tail);
    SplitsFirst(v, rest + tail);
  }

  lemma Regroup(key: Token, v: seq<Token>, rest: seq<Token>, tail: seq<Token>)
    ensures ([key] + v + rest + tail)[0] == key && ([key] + v + rest + tail)[1..] == v + (rest + tail)
  {
  }

  lemma {:induction false} MembersExact(parent: Json, members: seq<(string, Json)>, schema: Schema, depth: nat,
                                        seen: set<string>, out: map<string, Value>, rest: seq<Token>)
    requires forall i :: 0 <= i < |members| ==> WellFormed(members[i].1) && members[i].1 < parent
    ensures WalkMembers(MemberTokens(parent, members) + ([CloseObject] + rest), schema, depth, seen, out)
         == if MembersOk(members, schema, depth, seen) then Ok(FieldsOf(parent, members, out), rest) else Rejected
    decreases parent, 0, |members|
  {
    var tail := [CloseObject] + rest;
    if members == [] {
      assert MemberTokens(parent, members) + tail == tail && tail[1..] == rest;
    } else {
      var key, v := members[0].0, members[0].1;
      MemberTokensSplit(parent, members, tail);
      FirstMember(members, schema, depth, seen);
      if key !in seen && KindOf(schema, key).Some? {
        WalkExact(v, KindOf(schema, key).value, depth + 1, MemberTokens(parent, members[1..]) + tail);
        MembersExact(parent, members[1..], schema, depth, seen + {key}, out[key := Meaning(v)], rest);
      }
    }
  }

  lemma FirstMember(members: seq<(string, Json)>, schema: Schema, depth: nat, seen: set<string>)
    requires members != [] && forall i :: 0 <= i < |members| ==> WellFormed(members[i].1)
    ensures MembersOk(members, schema, depth, seen)
       <==> && members[0].0 !in seen && KindOf(schema, members[0].0).Some?
            && Sound(members[0].1, depth + 1) && Fits(KindOf(schema, members[0].0).value, members[0].1)
            && MembersOk(members[1..], schema, depth, seen + {members[0].0})
  {
    var tail := members[1..];
    forall i | 0 < i < |members| ensures members[i] == tail[i - 1] {
    }
    if MembersOk(tail, schema, depth, seen + {members[0].0}) {
      forall i, j | 0 <= i < j < |members| && MembersOk(tail, schema, depth, seen + {members[0].0})
        ensures members[i].0 != members[j].0
      {
        assert members[j] == tail[j - 1];
        if i > 0 {
          assert members[i] == tail[i - 1];
        }
      }
    }
  }

  /**
    Over the tokens of any tree and whatever follows them: accepted exactly
    when the payload size is in range, the root is an object, the tree is
    sound, its fields fit the schema, and nothing follows; and then the fields
    handed out are those of the tree.
   */
  lemma DecodeExact(v: Json, trailing: seq<Token>, size: nat, schema: Schema)
    requires WellFormed(v)
    ensures Decode(size, Tokens(v) + trailing, schema)
         == if 0 < size <= MAX_PAYLOAD && v.JObject? && Sound(v, 0) && SchemaFits(v.members, schema) && trailing == []
            then Some(FieldsOf(v, v.members, map[])) else None
  {
    var ts := Tokens(v) + trailing;
    assert ts[0] == Tokens(v)[0] && ts[1..] == Tokens(v)[1..] + trailing;
    if v.JObject? {
      WalkObjectExact(v, schema, 0, trailing);
    }
  }

  /** Without a schema every field fits. */
  lemma NoSchemaFits(v: Json)
    requires v.JObject?
    ensures SchemaFits(v.members, None)
  {
  }
}
