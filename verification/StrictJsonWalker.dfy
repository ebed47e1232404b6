/** The strict walkers as they draw tokens from a decoder and fill their maps in loops. */
module StrictJsonWalker {
  import opened Options
  import opened JsonNumber
  import opened StrictJson

  class Decoder {
    const toks: seq<Token>
    var pos: nat

    ghost predicate Valid()
      reads this
    {
      pos <= |toks|
    }

    ghost function Rest(): seq<Token>
      requires Valid()
      reads this
    {
      toks[pos..]
    }

    ghost function Outcome<T>(r: Option<T>): Walked<T>
      requires Valid()
      reads this
    {
      if r.Some? then Ok(r.value, Rest()) else Rejected
    }

    constructor (ts: seq<Token>)
      ensures Valid() && Rest() == ts && toks == ts
    {
      toks, pos := ts, 0;
    }

    /** The next token, or none at the end of the stream. */
    method NextToken() returns (t: Option<Token>)
      requires Valid()
      modifies this
      ensures Valid() && (t.None? <==> old(Rest()) == [])
      ensures t.Some? ==> t.value == old(Rest())[0] && Rest() == old(Rest())[1..] && pos == old(pos) + 1
      ensures t.None? ==> pos == old(pos)
    {
      if pos == |toks| {
        return None;
      }
      t := Some(toks[pos]);
      pos := pos + 1;
    }

    method ReadObject(schema: Schema, depth: nat) returns (r: Option<map<string, Value>>)
      requires Valid()
      modifies this
      ensures Valid() && WalkObject(old(Rest()), schema, depth) == Outcome(r)
      decreases |toks| - pos, 2
    {
      if depth > MAX_DEPTH {
        return None;
      }
      var seen: set<string> := {};
      var out: map<string, Value> := map[];
      while true
        invariant Valid() && old(pos) <= pos
        invariant WalkObject(old(Rest()), schema, depth) == WalkMembers(Rest(), schema, depth, seen, out)
        decreases |toks| - pos
      {
        var t := NextToken();
        if t.None? {
          return None;
        }
        if t.value == CloseObject {
          return Some(out);
        }
        if !t.value.StringToken? || t.value.s in seen {
          return None;
        }
        var key := t.value.s;
        seen := seen + {key};
        var kind := KindOf(schema, key);
        if kind.None? {
          return None;
        }
        var v := ReadValue(kind.value, depth + 1);
        if v.None? {
          return None;
        }
        out := out[key := v.value];
      }
    }

    method ReadValue(kind: Kind, depth: nat) returns (r: Option<Value>)
      requires Valid()
      modifies this
      ensures Valid() && WalkValue(old(Rest()), kind, depth) == Outcome(r)
      decreases |toks| - pos, 0
    {
      if depth > MAX_DEPTH {
        return None;
      }
      var t := NextToken();
      if t.None? {
        return None;
      }
      r := ReadFrom(t.value, kind, depth);
    }

    method ReadFrom(t: Token, kind: Kind, depth: nat) returns (r: Option<Value>)
      requires Valid()
      modifies this
      ensures Valid() && WalkToken(t, old(Rest()), kind, depth) == Outcome(r)
      decreases |toks| - pos, 3
    {
      if depth > MAX_DEPTH {
        return None;
      }
      match t
      case OpenObject =>
        if kind != KindAny && kind != KindObject {
          return None;
        }
        var o := ReadObject(None, depth);
        r := if o.Some? then Some(ObjectValue(o.value)) else None;
      case OpenArray =>
        if kind != KindAny && kind != KindStringArray {
          return None;
        }
        var a := ReadItems(if kind == KindStringArray then KindString else KindAny, depth);
        r := if a.Some? then Some(ArrayValue(a.value)) else None;
      case StringToken(s) => r := if ScalarKind(kind, s) then Some(StringValue(s)) else None;
      case NumberToken(text) =>
        if (kind != KindAny && kind != KindInt) || !BoundedNumber(text) {
          return None;
        }
        var n := ParseInt64(text);
        r := if n.Some? then Some(IntValue(n.value)) else None;
      case BoolToken(b) => r := if kind == KindAny || kind == KindBool then Some(BoolValue(b)) else None;
      case NullToken => r := Some(NullValue);
      case _ => r := None;
    }

    method ReadItems(kind: Kind, depth: nat) returns (r: Option<seq<Value>>)
      requires Valid()
      modifies this
      ensures Valid() && WalkItems(old(Rest()), kind, depth, []) == Outcome(r)
      decreases |toks| - pos, 1
    {
      var done: seq<Value> := [];
      while true
        invariant Valid() && old(pos) <= pos
        invariant WalkItems(old(Rest()), kind, depth, []) == WalkItems(Rest(), kind, depth, done)
        decreases |toks| - pos
      {
        var t := NextToken();
        if t.None? {
          return None;
        }
        if t.value == CloseArray {
          return Some(done);
        }
        var v := ReadFrom(t.value, kind, depth + 1);
        if v.None? {
          return None;
        }
        done := done + [v.value];
      }
    }

    method ReadPayload(size: nat, schema: Schema) returns (r: Option<map<string, Value>>)
      requires Valid() && pos == 0
      modifies this
      ensures r == Decode(size, toks, schema)
    {
      if size == 0 || size > MAX_PAYLOAD {
        return None;
      }
      assert Rest() == toks;
      var t := NextToken();
      if t.None? || t.value != OpenObject {
        return None;
      }
      r := ReadObject(schema, 0);
      if r.None? {
        return;
      }
      var more := NextToken();
      if more.Some? {
        return None;
      }
    }
  }
}
