/** Whatever the strict walker accepts is the token stream of a tree, complete and balanced. */
module StrictJsonStreams {
  import opened Options
  import opened JsonNumber
  import opened StrictJson
  import opened StrictJsonExact

  /** The text of a number by the grammar, which is all that the tokenizer lets through. */
  ghost predicate Spelled(text: string) {
    exists n :: Grammatical(n) && Text(n) == text
  }

  ghost predicate NumbersSpelled(ts: seq<Token>) {
    forall i :: 0 <= i < |ts| && ts[i].NumberToken? ==> Spelled(ts[i].text)
  }

  lemma LaterSpelled(ts: seq<Token>, front: seq<Token>, rest: seq<Token>)
    requires NumbersSpelled(ts) && ts == front + rest
    ensures NumbersSpelled(rest)
  {
    forall i | 0 <= i < |rest| && rest[i].NumberToken? ensures Spelled(rest[i].text) {
      assert ts[|front| + i] == rest[i];
    }
  }

  // ---- tokens of lists, without their parent ----

  function ListTokens(items: seq<Json>): seq<Token> {
    if items == [] then [] else Tokens(items[0]) + ListTokens(items[1..])
  }

  function PairTokens(members: seq<(string, Json)>): seq<Token> {
    if members == [] then [] else [StringToken(members[0].0)] + Tokens(members[0].1) + PairTokens(members[1..])
  }

  lemma {:induction false} ListTokensOf(parent: Json, items: seq<Json>)
    requires forall i :: 0 <= i < |items| ==> items[i] < parent
    ensures ItemTokens(parent, items) == ListTokens(items)
    decreases |items|
  {
    if items != [] {
      ListTokensOf(parent, items[1..]);
    }
  }

  lemma {:induction false} PairTokensOf(parent: Json, members: seq<(string, Json)>)
    requires forall i :: 0 <= i < |members| ==> members[i].1 < parent
    ensures MemberTokens(parent, members) == PairTokens(members)
    decreases |members|
  {
    if members != [] {
      PairTokensOf(parent, members[1..]);
    }
  }

  // ---- the tree behind an accepted stream ----

  /** The value that was read: its tokens and then the rest are the stream. */
  ghost predicate ReadAs(v: Json, ts: seq<Token>, rest: seq<Token>) {
    WellFormed(v) && Tokens(v) + rest == ts
  }

  ghost predicate ItemsReadAs(items: seq<Json>, ts: seq<Token>, rest: seq<Token>) {
    (forall i :: 0 <= i < |items| ==> WellFormed(items[i])) && ListTokens(items) + ([CloseArray] + rest) == ts
  }

  ghost predicate MembersReadAs(members: seq<(string, Json)>, ts: seq<Token>, rest: seq<Token>) {
    (forall i :: 0 <= i < |members| ==> WellFormed(members[i].1)) && PairTokens(members) + ([CloseObject] + rest) == ts
  }

  lemma ArrayRead(items: seq<Json>, ts: seq<Token>, rest: seq<Token>)
    requires ItemsReadAs(items, ts, rest)
    ensures ReadAs(JArray(items), [OpenArray] + ts, rest)
  {
    var v := JArray(items);
    ListTokensOf(v, v.items);
    assert Tokens(v) + rest == [OpenArray] + (ListTokens(items) + ([CloseArray] + rest));
  }

  lemma ObjectRead(members: seq<(string, Json)>, ts: seq<Token>, rest: seq<Token>)
    requires MembersReadAs(members, ts, rest)
    ensures ReadAs(JObject(members), [OpenObject] + ts, rest)
  {
    var v := JObject(members);
    PairTokensOf(v, v.members);
    assert Tokens(v) + rest == [OpenObject] + (PairTokens(members) + ([CloseObject] + rest));
  }

  lemma ItemsGrow(v: Json, items: seq<Json>, ts: seq<Token>, mid: seq<Token>, rest: seq<Token>)
    requires ReadAs(v, ts, mid) && ItemsReadAs(items, mid, rest)
    ensures ItemsReadAs([v] + items, ts, rest)
  {
    assert ([v] + items)[1..] == items;
    assert Tokens(v) + ListTokens(items) + ([CloseArray] + rest) == Tokens(v) + (ListTokens(items) + ([CloseArray] + rest));
  }

  lemma MembersGrow(key: string, v: Json, members: seq<(string, Json)>, ts: seq<Token>, mid: seq<Token>, rest: seq<Token>)
    requires ReadAs(v, ts, mid) && MembersReadAs(members, mid, rest)
    ensures MembersReadAs([(key, v)] + members, [StringToken(key)] + ts, rest)
  {
    assert ([(key, v)] + members)[1..] == members;
    assert [StringToken(key)] + Tokens(v) + PairTokens(members) + ([CloseObject] + rest)
        == [StringToken(key)] + (Tokens(v) + (PairTokens(members) + ([CloseObject] + rest)));
  }

  lemma {:induction false} ValueFound(t: Token, ts: seq<Token>, kind: Kind, depth: nat) returns (v: Json)
    requires NumbersSpelled([t] + ts) && WalkToken(t, ts, kind, depth).Ok?
    ensures ReadAs(v, [t] + ts, WalkToken(t, ts, kind, depth).rest)
    decreases |ts|, 3
  {
    LaterSpelled([t] + ts, [t], ts);
    if t.OpenObject? {
      var members := MembersFound(ts, None, depth, {}, map[]);
      v := JObject(members);
      ObjectRead(members, ts, WalkObject(ts, None, depth).rest);
    } else if t.OpenArray? {
      var k := if kind == KindStringArray then KindString else KindAny;
      var items := ItemsFound(ts, k, depth, []);
      v := JArray(items);
      ArrayRead(items, ts, WalkItems(ts, k, depth, []).rest);
    } else if t.NumberToken? {
      assert ([t] + ts)[0] == t;
      var n :| Grammatical(n) && Text(n) == t.text;
      v := JNumber(n);
    } else {
      v := if t.StringToken? then JString(t.s) else if t.BoolToken? then JBool(t.b) else JNull;
    }
  }

  lemma {:induction false} ItemsFound(ts: seq<Token>, kind: Kind, depth: nat, done: seq<Value>) returns (items: seq<Json>)
    requires NumbersSpelled(ts) && WalkItems(ts, kind, depth, done).Ok?
    ensures ItemsReadAs(items, ts, WalkItems(ts, kind, depth, done).rest)
    decreases |ts|, 1
  {
    if ts[0] == CloseArray {
      items := [];
      assert [] + ([CloseArray] + ts[1..]) == ts;
    } else {
      assert [ts[0]] + ts[1..] == ts;
      var v := ValueFound(ts[0], ts[1..], kind, depth + 1);
      var w := WalkToken(ts[0], ts[1..], kind, depth + 1);
      LaterSpelled(ts, Tokens(v), w.rest);
      var more := ItemsFound(w.rest, kind, depth, done + [w.value]);
      items := [v] + more;
      ItemsGrow(v, more, ts, w.rest, WalkItems(ts, kind, depth, done).rest);
    }
  }

  lemma {:induction false} MembersFound(ts: seq<Token>, schema: Schema, depth: nat, seen: set<string>, out: map<string, Value>)
    returns (members: seq<(string, Json)>)
    requires NumbersSpelled(ts) && WalkMembers(ts, schema, depth, seen, out).Ok?
    ensures MembersReadAs(members, ts, WalkMembers(ts, schema, depth, seen, out).rest)
    decreases |ts|, 1
  {
    if ts[0] == CloseObject {
      members := [];
      assert [] + ([CloseObject] + ts[1..]) == ts;
    } else {
      var key, kind := ts[0].s, KindOf(schema, ts[0].s).value;
      LaterSpelled(ts, [ts[0]], ts[1..]);
      var after := ts[1..];
      var w := WalkValue(after, kind, depth + 1);
      assert [after[0]] + after[1..] == after;
      var v := ValueFound(after[0], after[1..], kind, depth + 1);
      LaterSpelled(after, Tokens(v), w.rest);
      var more := MembersFound(w.rest, schema, depth, seen + {key}, out[key := w.value]);
      members := [(key, v)] + more;
      MembersGrow(key, v, more, after, w.rest, WalkMembers(ts, schema, depth, seen, out).rest);
      assert [StringToken(key)] + after == ts;
    }
  }

  // ---- exactly ----

  /** The tree of an accepted payload. */
  ghost predicate Accepted(v: Json, ts: seq<Token>, size: nat, schema: Schema) {
    && WellFormed(v) && Tokens(v) == ts && 0 < size <= MAX_PAYLOAD
    && v.JObject? && Sound(v, 0) && SchemaFits(v.members, schema)
  }

  /**
    Over every token stream, truncated and unbalanced ones included: it is accepted
    exactly when it is the stream of a sound object whose fields fit the schema.
   */
  lemma StreamExact(ts: seq<Token>, size: nat, schema: Schema)
    requires NumbersSpelled(ts)
    ensures Decode(size, ts, schema).Some? <==> exists v :: Accepted(v, ts, size, schema)
  {
    if Decode(size, ts, schema).Some? {
      LaterSpelled(ts, [ts[0]], ts[1..]);
      assert [ts[0]] + ts[1..] == ts;
      var members := MembersFound(ts[1..], schema, 0, {}, map[]);
      ObjectRead(members, ts[1..], []);
      var v := JObject(members);
      assert Tokens(v) + [] == Tokens(v);
      DecodeExact(v, [], size, schema);
      assert Accepted(v, ts, size, schema);
    }
    if v :| Accepted(v, ts, size, schema) {
      assert Tokens(v) + [] == Tokens(v);
      DecodeExact(v, [], size, schema);
    }
  }
}
