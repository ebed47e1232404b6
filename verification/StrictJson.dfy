/** The strict JSON walker over a decoder's token stream. */
module StrictJson {
  import opened Options
  import opened JsonNumber

  const MAX_DEPTH := 16
  const MAX_PAYLOAD := 65536
  const MAX_INT64 := 0x7fff_ffff_ffff_ffff

  datatype Token =
    | OpenObject | CloseObject | OpenArray | CloseArray
    | StringToken(s: string) | NumberToken(text: string) | BoolToken(b: bool) | NullToken

  datatype Kind = KindString | KindInt | KindBool | KindHex | KindStringArray | KindObject | KindAny

  /** What the walker hands out. */
  datatype Value =
    | NullValue | BoolValue(b: bool) | IntValue(n: int) | StringValue(s: string)
    | ArrayValue(items: seq<Value>) | ObjectValue(fields: map<string, Value>)

  // ---- numbers ----

  /** The digits of the largest accepted magnitude. */
  const MAX_DIGITS := "9223" + ("3720" + ("3685" + ("4775" + "807")))

  predicate HasPointOrExponent(s: string) {
    '.' in s || 'e' in s || 'E' in s
  }

  function Magnitude(s: string): string {
    if s != "" && s[0] == '-' then s[1..] else s
  }

  /** The comparison made on the text of a number. */
  predicate BoundedNumber(s: string) {
    && !HasPointOrExponent(s) && Magnitude(s) != ""
    && (|Magnitude(s)| < |MAX_DIGITS|
        || (|Magnitude(s)| == |MAX_DIGITS| && (LexLess(Magnitude(s), MAX_DIGITS) || Magnitude(s) == MAX_DIGITS)))
  }

  function Signed(negative: bool, n: int): int {
    if negative then -n else n
  }

  /** Parsing as a 64-bit integer: fails on other text and out of range. */
  function ParseInt64(s: string): Option<int> {
    if Magnitude(s) == "" || !IsDigits(Magnitude(s)) then None
    else
      var v := Signed(s[0] == '-', Digits(Magnitude(s)));
      if -MAX_INT64 - 1 <= v <= MAX_INT64 then Some(v) else None
  }

  predicate IsHexDigit(c: char) {
    '0' <= c <= '9' || 'a' <= c <= 'f' || 'A' <= c <= 'F'
  }

  predicate IsHex(s: string) {
    |s| % 2 == 0 && forall i :: 0 <= i < |s| ==> IsHexDigit(s[i])
  }

  predicate ScalarKind(kind: Kind, s: string) {
    kind == KindAny || kind == KindString || (kind == KindHex && IsHex(s))
  }

  // ---- the walkers ----

  type Schema = Option<map<string, Kind>>

  function KindOf(schema: Schema, key: string): Option<Kind> {
    if schema.None? then Some(KindAny) else if key in schema.value then Some(schema.value[key]) else None
  }

  datatype Walked<T> = Ok(value: T, rest: seq<Token>) | Rejected

  function WalkObject(ts: seq<Token>, schema: Schema, depth: nat): (r: Walked<map<string, Value>>)
    ensures r.Ok? ==> |r.rest| < |ts|
    decreases |ts|, 2
  {
    if depth > MAX_DEPTH then Rejected else WalkMembers(ts, schema, depth, {}, map[])
  }

  function WalkMembers(ts: seq<Token>, schema: Schema, depth: nat, seen: set<string>, out: map<string, Value>)
    : (r: Walked<map<string, Value>>)
    ensures r.Ok? ==> |r.rest| < |ts|
    decreases |ts|, 1
  {
    if ts == [] then Rejected
    else if ts[0] == CloseObject then Ok(out, ts[1..])
    else if !ts[0].StringToken? || ts[0].s in seen || KindOf(schema, ts[0].s).None? then Rejected
    else
      var v := WalkValue(ts[1..], KindOf(schema, ts[0].s).value, depth + 1);
      if v.Rejected? then Rejected
      else WalkMembers(v.rest, schema, depth, seen + {ts[0].s}, out[ts[0].s := v.value])
  }

  function WalkValue(ts: seq<Token>, kind: Kind, depth: nat): (r: Walked<Value>)
    ensures r.Ok? ==> |r.rest| < |ts|
    decreases |ts|, 0
  {
    if depth > MAX_DEPTH || ts == [] then Rejected else WalkToken(ts[0], ts[1..], kind, depth)
  }

  /** A value whose first token has been taken. */
  function WalkToken(t: Token, ts: seq<Token>, kind: Kind, depth: nat): (r: Walked<Value>)
    ensures r.Ok? ==> |r.rest| <= |ts|
    decreases |ts|, 3
  {
    if depth > MAX_DEPTH then Rejected
    else
      match t
      case OpenObject =>
        if kind != KindAny && kind != KindObject then Rejected
        else
          var o := WalkObject(ts, None, depth);
          if o.Rejected? then Rejected else Ok(ObjectValue(o.value), o.rest)
      case OpenArray =>
        if kind != KindAny && kind != KindStringArray then Rejected
        else
          var a := WalkItems(ts, if kind == KindStringArray then KindString else KindAny, depth, []);
          if a.Rejected? then Rejected else Ok(ArrayValue(a.value), a.rest)
      case StringToken(s) => if ScalarKind(kind, s) then Ok(StringValue(s), ts) else Rejected
      case NumberToken(text) =>
        if (kind != KindAny && kind != KindInt) || !BoundedNumber(text) || ParseInt64(text).None? then Rejected
        else Ok(IntValue(ParseInt64(text).value), ts)
      case BoolToken(b) => if kind == KindAny || kind == KindBool then Ok(BoolValue(b), ts) else Rejected
      case NullToken => Ok(NullValue, ts)
      case _ => Rejected
  }

  function WalkItems(ts: seq<Token>, kind: Kind, depth: nat, done: seq<Value>): (r: Walked<seq<Value>>)
    ensures r.Ok? ==> |r.rest| < |ts|
    decreases |ts|, 1
  {
    if ts == [] then Rejected
    else if ts[0] == CloseArray then Ok(done, ts[1..])
    else
      var v := WalkToken(ts[0], ts[1..], kind, depth + 1);
      if v.Rejected? then Rejected else WalkItems(v.rest, kind, depth, done + [v.value])
  }

  function Decode(size: nat, ts: seq<Token>, schema: Schema): Option<map<string, Value>> {
    if size == 0 || size > MAX_PAYLOAD || ts == [] || ts[0] != OpenObject then None
    else
      var o := WalkObject(ts[1..], schema, 0);
      if o.Rejected? || o.rest != [] then None else Some(o.value)
  }
}
