/** Request canonicalisation for signing: percent-encoding, the canonical query and the string to sign. */
module Canonical {
  import opened Bytes

  const AMP: Byte := 0x26
  const EQUALS: Byte := 0x3d
  const PERCENT: Byte := 0x25

  // ---- percent-encoding ----

  predicate Unreserved(c: Byte) {
    || 0x41 <= c <= 0x5a || 0x61 <= c <= 0x7a || 0x30 <= c <= 0x39
    || c == 0x2d || c == 0x5f || c == 0x2e || c == 0x7e
  }

  /** An upper-case hexadecimal digit. */
  function Hex(n: nat): (c: Byte)
    requires n < 16
  {
    if n < 10 then 0x30 + n else 0x41 + n - 10
  }

  function UnHex(c: Byte): (n: nat)
    ensures n < 16
  {
    if 0x30 <= c <= 0x39 then c - 0x30 else if 0x41 <= c <= 0x46 then c - 0x41 + 10 else 0
  }

  function EncodeByte(c: Byte): Bytes {
    if Unreserved(c) then [c] else [PERCENT, Hex(c / 16), Hex(c % 16)]
  }

  function PercentEncode(s: Bytes): Bytes {
    if s == [] then [] else EncodeByte(s[0]) + PercentEncode(s[1..])
  }

  function PercentDecode(t: Bytes): Bytes {
    if t == [] then []
    else if t[0] == PERCENT && |t| >= 3 then [16 * UnHex(t[1]) + UnHex(t[2])] + PercentDecode(t[3..])
    else [t[0]] + PercentDecode(t[1..])
  }

  lemma DecodesByte(c: Byte, rest: Bytes)
    ensures PercentDecode(EncodeByte(c) + rest) == [c] + PercentDecode(rest)
  {
    var t := EncodeByte(c) + rest;
    if Unreserved(c) {
      assert t[1..] == rest;
    } else {
      assert t[3..] == rest;
      assert 16 * (c / 16) + c % 16 == c;
    }
  }

  lemma {:induction false} DecodesEncoded(s: Bytes)
    ensures PercentDecode(PercentEncode(s)) == s
  {
    if s != [] {
      DecodesByte(s[0], PercentEncode(s[1..]));
      DecodesEncoded(s[1..]);
    }
  }

  /** Only unreserved characters and the percent sign come out, so never & or =. */
  lemma {:induction false} EncodedAlphabet(s: Bytes)
    ensures forall i :: 0 <= i < |PercentEncode(s)| ==> Unreserved(PercentEncode(s)[i]) || PercentEncode(s)[i] == PERCENT
    ensures AMP !in PercentEncode(s) && EQUALS !in PercentEncode(s)
  {
    if s != [] {
      EncodedAlphabet(s[1..]);
    }
  }

  lemma EncodeInjective(a: Bytes, b: Bytes)
    requires PercentEncode(a) == PercentEncode(b)
    ensures a == b
  {
    DecodesEncoded(a);
    DecodesEncoded(b);
  }

  lemma {:induction false} EncodeAppends(a: Bytes, c: Byte)
    ensures PercentEncode(a + [c]) == PercentEncode(a) + EncodeByte(c)
  {
    if a == [] {
      assert a + [c] == [c] && [c][1..] == [];
    } else {
      assert (a + [c])[1..] == a[1..] + [c];
      EncodeAppends(a[1..], c);
    }
  }

  method PercentEncodeLoop(s: Bytes) returns (b: Bytes)
    ensures b == PercentEncode(s)
  {
    b := [];
    for i := 0 to |s|
      invariant b == PercentEncode(s[..i])
    {
      var c := s[i];
      assert s[..i + 1] == s[..i] + [c];
      EncodeAppends(s[..i], c);
      if Unreserved(c) {
        b := b + [c];
      } else {
        b := b + [PERCENT] + [Hex(c / 16)] + [Hex(c % 16)];
      }
    }
    assert s[..|s|] == s;
  }

  // ---- names in byte order ----

  predicate Less(a: Bytes, b: Bytes) {
    b != [] && (a == [] || a[0] < b[0] || (a[0] == b[0] && Less(a[1..], b[1..])))
  }

  lemma {:induction false} LessTotal(a: Bytes, b: Bytes)
    ensures Less(a, b) || a == b || Less(b, a)
    ensures !(Less(a, b) && Less(b, a)) && !Less(a, a)
  {
    if a != [] && b != [] {
      LessTotal(a[1..], b[1..]);
      assert a == [a[0]] + a[1..] && b == [b[0]] + b[1..];
    }
    if a != [] {
      LessTotal(a[1..], a[1..]);
    }
  }

  lemma {:induction false} LessTransitive(a: Bytes, b: Bytes, c: Bytes)
    requires Less(a, b) && Less(b, c)
    ensures Less(a, c)
  {
    if a != [] && a[0] == b[0] && b[0] == c[0] {
      LessTransitive(a[1..], b[1..], c[1..]);
    }
  }

  predicate Ascending(ks: seq<Bytes>) {
    forall i, j :: 0 <= i < j < |ks| ==> Less(ks[i], ks[j])
  }

  function Elements(ks: seq<Bytes>): set<Bytes> {
    set k | k in ks
  }

  /** The names of the parameters, each once, in byte order. */
  predicate SortedNames(ks: seq<Bytes>, m: map<Bytes, Bytes>) {
    Ascending(ks) && Elements(ks) == m.Keys
  }

  /** Byte order leaves no choice: two sorted lists of the same names are the same. */
  lemma {:induction false} SortedUnique(a: seq<Bytes>, b: seq<Bytes>)
    requires Ascending(a) && Ascending(b) && Elements(a) == Elements(b)
    ensures a == b
  {
    if a == [] || b == [] {
      EmptyElements(a);
      EmptyElements(b);
    } else {
      SameFirst(a, b);
      TailElements(a);
      TailElements(b);
      SortedUnique(a[1..], b[1..]);
      assert a == [a[0]] + a[1..] && b == [b[0]] + b[1..];
    }
  }

  lemma EmptyElements(a: seq<Bytes>)
    ensures Elements(a) == {} <==> a == []
  {
    if a != [] {
      assert a[0] in Elements(a);
    }
  }

  lemma SameFirst(a: seq<Bytes>, b: seq<Bytes>)
    requires a != [] && b != [] && Ascending(a) && Ascending(b) && Elements(a) == Elements(b)
    ensures a[0] == b[0]
  {
    assert a[0] in Elements(b) && b[0] in Elements(a);
    var i :| 0 <= i < |b| && b[i] == a[0];
    var j :| 0 <= j < |a| && a[j] == b[0];
    LessTotal(a[0], b[0]);
  }

  lemma TailElements(a: seq<Bytes>)
    requires a != [] && Ascending(a)
    ensures Ascending(a[1..]) && Elements(a[1..]) == Elements(a) - {a[0]}
  {
    forall i | 0 < i < |a| ensures a[i] != a[0] {
      LessTotal(a[0], a[i]);
    }
    assert a == [a[0]] + a[1..];
  }

  // ---- the canonical query ----

  function Pair(k: Bytes, v: Bytes): Bytes {
    PercentEncode(k) + [EQUALS] + PercentEncode(v)
  }

  /** name=value pairs of the listed names, joined by &. */
  function Query(ks: seq<Bytes>, m: map<Bytes, Bytes>): Bytes
    requires forall k :: k in ks ==> k in m
  {
    if ks == [] then []
    else if |ks| == 1 then Pair(ks[0], m[ks[0]])
    else Pair(ks[0], m[ks[0]]) + [AMP] + Query(ks[1..], m)
  }

  /** Text before a separator it does not contain can be read off. */
  lemma SplitAt(a: Bytes, r: Bytes, b: Bytes, s: Bytes, x: Byte)
    requires x !in a && x !in b && a + [x] + r == b + [x] + s
    ensures a == b && r == s
  {
    var t, u := a + [x] + r, b + [x] + s;
    assert t[|a|] == x && forall i :: 0 <= i < |a| ==> t[i] == a[i];
    assert u[|b|] == x && forall i :: 0 <= i < |b| ==> u[i] == b[i];
    assert a == t[..|a|] && b == u[..|b|];
    assert r == t[|a| + 1..] && s == u[|b| + 1..];
  }

  lemma PairNoAmp(k: Bytes, v: Bytes)
    ensures AMP !in Pair(k, v) && EQUALS in Pair(k, v) && Pair(k, v) != []
  {
    EncodedAlphabet(k);
    EncodedAlphabet(v);
    assert Pair(k, v)[|PercentEncode(k)|] == EQUALS;
  }

  lemma PairInjective(k: Bytes, v: Bytes, l: Bytes, w: Bytes)
    requires Pair(k, v) == Pair(l, w)
    ensures k == l && v == w
  {
    EncodedAlphabet(k);
    EncodedAlphabet(l);
    SplitAt(PercentEncode(k), PercentEncode(v), PercentEncode(l), PercentEncode(w), EQUALS);
    EncodeInjective(k, l);
    EncodeInjective(v, w);
  }

  /** Equal queries list the same names with the same values. */
  lemma {:induction false} QueryInjective(ks: seq<Bytes>, m: map<Bytes, Bytes>, ls: seq<Bytes>, n: map<Bytes, Bytes>)
    requires (forall k :: k in ks ==> k in m) && (forall l :: l in ls ==> l in n)
    requires Query(ks, m) == Query(ls, n)
    ensures ks == ls && forall k :: k in ks ==> m[k] == n[k]
  {
    if ks == [] || ls == [] {
      QueryEmpty(ks, m);
      QueryEmpty(ls, n);
    } else {
      FirstPair(ks, m, ls, n);
      PairInjective(ks[0], m[ks[0]], ls[0], n[ls[0]]);
      QueryInjective(ks[1..], m, ls[1..], n);
      assert ks == [ks[0]] + ks[1..] && ls == [ls[0]] + ls[1..];
    }
  }

  lemma QueryEmpty(ks: seq<Bytes>, m: map<Bytes, Bytes>)
    requires forall k :: k in ks ==> k in m
    ensures Query(ks, m) == [] <==> ks == []
  {
    if ks != [] {
      PairNoAmp(ks[0], m[ks[0]]);
    }
  }

  lemma FirstPair(ks: seq<Bytes>, m: map<Bytes, Bytes>, ls: seq<Bytes>, n: map<Bytes, Bytes>)
    requires (forall k :: k in ks ==> k in m) && (forall l :: l in ls ==> l in n)
    requires ks != [] && ls != [] && Query(ks, m) == Query(ls, n)
    ensures Pair(ks[0], m[ks[0]]) == Pair(ls[0], n[ls[0]]) && Query(ks[1..], m) == Query(ls[1..], n)
  {
    var p, q := Pair(ks[0], m[ks[0]]), Pair(ls[0], n[ls[0]]);
    PairNoAmp(ks[0], m[ks[0]]);
    PairNoAmp(ls[0], n[ls[0]]);
    assert |ks| > 1 ==> Query(ks, m)[|p|] == AMP;
    assert |ls| > 1 ==> Query(ls, n)[|q|] == AMP;
    if |ks| > 1 && |ls| > 1 {
      SplitAt(p, Query(ks[1..], m), q, Query(ls[1..], n), AMP);
    }
  }

  /** Canonical queries are equal only for equal parameter maps. */
  lemma CanonicalQueryInjective(ks: seq<Bytes>, m: map<Bytes, Bytes>, ls: seq<Bytes>, n: map<Bytes, Bytes>)
    requires SortedNames(ks, m) && SortedNames(ls, n)
    requires forall k :: k in ks ==> k in m
    requires forall l :: l in ls ==> l in n
    requires Query(ks, m) == Query(ls, n)
    ensures m == n
  {
    QueryInjective(ks, m, ls, n);
    assert m.Keys == n.Keys;
    forall k | k in m ensures m[k] == n[k] {
      assert k in Elements(ks);
    }
  }

  // ---- the query as it is built ----

  /** The place of a new name in a sorted list. */
  method InsertName(ks: seq<Bytes>, k: Bytes) returns (r: seq<Bytes>)
    requires Ascending(ks) && k !in ks
    ensures Ascending(r) && Elements(r) == Elements(ks) + {k}
  {
    var i := 0;
    while i < |ks| && Less(ks[i], k)
      invariant i <= |ks| && forall j :: 0 <= j < i ==> Less(ks[j], k)
    {
      i := i + 1;
    }
    r := ks[..i] + [k] + ks[i..];
    forall j | i <= j < |ks| ensures Less(k, ks[j]) {
      LessTotal(ks[i], k);
      assert ks[i] in ks;
      if j > i {
        LessTransitive(k, ks[i], ks[j]);
      }
    }
    assert Elements(r) == Elements(ks) + {k};
  }

  method SortNames(m: map<Bytes, Bytes>) returns (ks: seq<Bytes>)
    ensures SortedNames(ks, m)
  {
    ks := [];
    var left := m.Keys;
    while left != {}
      invariant left <= m.Keys && Ascending(ks) && Elements(ks) == m.Keys - left
      decreases |left|
    {
      var k :| k in left;
      assert k !in Elements(ks);
      ks := InsertName(ks, k);
      left := left - {k};
    }
  }

  /** The whole query; the names found are the only sorted ones, so the result depends on the map alone. */
  method CanonicalQuery(m: map<Bytes, Bytes>) returns (b: Bytes)
    ensures exists ks :: SortedNames(ks, m) && (forall k :: k in ks ==> k in m) && b == Query(ks, m)
  {
    var names := SortNames(m);
    assert forall k :: k in names ==> k in Elements(names);
    b := JoinPairs(names, m);
  }

  method JoinPairs(names: seq<Bytes>, m: map<Bytes, Bytes>) returns (b: Bytes)
    requires forall k :: k in names ==> k in m
    ensures b == Query(names, m)
  {
    b := [];
    var i := 0;
    while i < |names|
      invariant i <= |names| && b == Query(names[..i], m)
    {
      assert names[..i + 1] == names[..i] + [names[i]];
      QueryAppends(names[..i], names[i], m);
      if i > 0 {
        b := b + [AMP];
      }
      var pair := EncodePair(names[i], m[names[i]]);
      b := b + pair;
      i := i + 1;
    }
    assert names[..i] == names;
  }

  method EncodePair(k: Bytes, v: Bytes) returns (b: Bytes)
    ensures b == Pair(k, v)
  {
    var left := PercentEncodeLoop(k);
    var right := PercentEncodeLoop(v);
    b := left + [EQUALS] + right;
  }

  lemma {:induction false} QueryAppends(ks: seq<Bytes>, k: Bytes, m: map<Bytes, Bytes>)
    requires (forall j :: j in ks ==> j in m) && k in m
    ensures Query(ks + [k], m) == (if ks == [] then [] else Query(ks, m) + [AMP]) + Pair(k, m[k])
  {
    if ks == [] {
      assert ks + [k] == [k];
    } else {
      var p, last := Pair(ks[0], m[ks[0]]), Pair(k, m[k]);
      QueryAppends(ks[1..], k, m);
      QueryUnfolds(ks, k, m);
      if |ks| > 1 {
        var rest := Query(ks[1..], m);
        assert p + [AMP] + (rest + [AMP] + last) == p + [AMP] + rest + [AMP] + last;
      } else {
        assert [] + last == last;
      }
    }
  }

  lemma QueryUnfolds(ks: seq<Bytes>, k: Bytes, m: map<Bytes, Bytes>)
    requires ks != [] && (forall j :: j in ks ==> j in m) && k in m
    ensures Query(ks + [k], m) == Pair(ks[0], m[ks[0]]) + [AMP] + Query(ks[1..] + [k], m)
  {
    assert (ks + [k])[1..] == ks[1..] + [k];
  }

  // ---- the string to sign ----

  function StringToSign(upper: Bytes, path: Bytes, query: Bytes): Bytes {
    upper + [AMP] + PercentEncode(path) + [AMP] + PercentEncode(query)
  }

  /** Two ampersands, none before the second but the first, split a string in one way. */
  lemma ThreeParts(u: Bytes, p: Bytes, r: Bytes, v: Bytes, q: Bytes, s: Bytes)
    requires AMP !in u && AMP !in v && AMP !in p && AMP !in q
    requires u + [AMP] + p + [AMP] + r == v + [AMP] + q + [AMP] + s
    ensures u == v && p == q && r == s
  {
    assert u + [AMP] + p + [AMP] + r == u + [AMP] + (p + [AMP] + r);
    assert v + [AMP] + q + [AMP] + s == v + [AMP] + (q + [AMP] + s);
    SplitAt(u, p + [AMP] + r, v, q + [AMP] + s, AMP);
    SplitAt(p, r, q, s, AMP);
  }

  lemma StringToSignInjective(u: Bytes, path: Bytes, query: Bytes, v: Bytes, other: Bytes, asked: Bytes)
    requires AMP !in u && AMP !in v
    requires StringToSign(u, path, query) == StringToSign(v, other, asked)
    ensures u == v && path == other && query == asked
  {
    EncodedAlphabet(path);
    EncodedAlphabet(other);
    ThreeParts(u, PercentEncode(path), PercentEncode(query), v, PercentEncode(other), PercentEncode(asked));
    EncodeInjective(path, other);
    EncodeInjective(query, asked);
  }

  datatype Intent = Intent(method_: Bytes, path: Bytes, query: map<Bytes, Bytes>)

  /** What a runner contributes for signing. */
  datatype Contribution = Contribution(canonicalQuery: Bytes, stringToSign: Bytes)

  /** Methods the broker accepts, once upper-cased; none contains &. */
  predicate AcceptedMethod(u: Bytes) {
    u in {[0x47, 0x45, 0x54], [0x50, 0x4f, 0x53, 0x54], [0x50, 0x55, 0x54], [0x50, 0x41, 0x54, 0x43, 0x48],
          [0x44, 0x45, 0x4c, 0x45, 0x54, 0x45], [0x48, 0x45, 0x41, 0x44]}
  }

  /** The contribution is the broker's own normalisation of the request, `ks` being its sorted names. */
  predicate Contributes(upper: Bytes -> Bytes, i: Intent, ks: seq<Bytes>, c: Contribution) {
    && SortedNames(ks, i.query) && (forall k :: k in ks ==> k in i.query)
    && c.canonicalQuery == Query(ks, i.query)
    && c.stringToSign == StringToSign(upper(i.method_), i.path, Query(ks, i.query))
  }

  /**
    A contribution is accepted for one request only: the string to sign fixes
    the upper-cased method, the path and the parameters.
   */
  lemma ContributionFixesRequest(upper: Bytes -> Bytes, i: Intent, ks: seq<Bytes>, c: Contribution,
                                 j: Intent, ls: seq<Bytes>, d: Contribution)
    requires AcceptedMethod(upper(i.method_)) && AcceptedMethod(upper(j.method_))
    requires Contributes(upper, i, ks, c) && Contributes(upper, j, ls, d) && c.stringToSign == d.stringToSign
    ensures upper(i.method_) == upper(j.method_) && i.path == j.path && i.query == j.query
  {
    StringToSignInjective(upper(i.method_), i.path, Query(ks, i.query), upper(j.method_), j.path, Query(ls, j.query));
    CanonicalQueryInjective(ks, i.query, ls, j.query);
  }
}
