/** Lists of fields, each behind its length in four big-endian bytes. */
module FieldList {
  import opened Options
  import opened Bytes

  /** One field behind its length, which is cut off at 32 bits. */
  function Put(f: Bytes): (bs: Bytes)
    ensures |bs| == 4 + |f|
  {
    BigEndian(|f|, 4) + f
  }

  function Encode(fs: seq<Bytes>): Bytes {
    if fs == [] then [] else Put(fs[0]) + Encode(fs[1..])
  }

  /** Every field is short enough for its length to be written. */
  ghost predicate Short(fs: seq<Bytes>) {
    forall i :: 0 <= i < |fs| ==> |fs[i]| < U32_LIMIT
  }

  /** The first field of a list and what follows it. */
  function Take(b: Bytes): (r: Option<(Bytes, Bytes)>)
    ensures r.Some? ==> |r.value.1| < |b| && |r.value.0| < U32_LIMIT
  {
    if |b| < 4 || GetU32(b[..4]) > |b| - 4 then None
    else Some((b[4..4 + GetU32(b[..4])], b[4 + GetU32(b[..4])..]))
  }

  /** Exactly `count` fields and nothing after them. */
  function Read(b: Bytes, count: nat): (r: Option<seq<Bytes>>)
    ensures r.Some? ==> |r.value| == count
  {
    if count == 0 then (if b == [] then Some([]) else None)
    else
      var t := Take(b);
      if t.None? then None
      else
        var more := Read(t.value.1, count - 1);
        if more.None? then None else Some([t.value.0] + more.value)
  }

  lemma TakesPut(f: Bytes, rest: Bytes)
    requires |f| < U32_LIMIT
    ensures Take(Put(f) + rest) == Some((f, rest))
  {
    var b := Put(f) + rest;
    assert b[..4] == PutU32(|f|);
    assert b[4..4 + |f|] == f && b[4 + |f|..] == rest;
  }

  lemma PutsTaken(b: Bytes)
    requires Take(b).Some?
    ensures Put(Take(b).value.0) + Take(b).value.1 == b
  {
    var n := GetU32(b[..4]);
    PutGetU32(b[..4]);
    assert b == b[..4] + b[4..4 + n] + b[4 + n..];
  }

  lemma {:induction false} ReadsEncoded(fs: seq<Bytes>)
    requires Short(fs)
    ensures Read(Encode(fs), |fs|) == Some(fs)
  {
    if fs != [] {
      TakesPut(fs[0], Encode(fs[1..]));
      ReadsEncoded(fs[1..]);
      assert [fs[0]] + fs[1..] == fs;
    }
  }

  lemma {:induction false} EncodesRead(b: Bytes, count: nat)
    requires Read(b, count).Some?
    ensures Encode(Read(b, count).value) == b && Short(Read(b, count).value)
    decreases count
  {
    if count > 0 {
      var t := Take(b).value;
      PutsTaken(b);
      EncodesRead(t.1, count - 1);
      assert Read(b, count).value[1..] == Read(t.1, count - 1).value;
    }
  }

  /** Field lists are uniquely decodable, whatever their lengths. */
  lemma {:induction false} EncodeInjective(fs: seq<Bytes>, gs: seq<Bytes>)
    requires Short(fs) && Short(gs) && Encode(fs) == Encode(gs)
    ensures fs == gs
  {
    if fs != [] && gs != [] {
      TakesPut(fs[0], Encode(fs[1..]));
      TakesPut(gs[0], Encode(gs[1..]));
      EncodeInjective(fs[1..], gs[1..]);
      assert fs == [fs[0]] + fs[1..] && gs == [gs[0]] + gs[1..];
    }
  }

  lemma {:induction false} EncodeConcat(fs: seq<Bytes>, gs: seq<Bytes>)
    ensures Encode(fs + gs) == Encode(fs) + Encode(gs)
  {
    if fs == [] {
      assert fs + gs == gs;
    } else {
      assert (fs + gs)[1..] == fs[1..] + gs;
      EncodeConcat(fs[1..], gs);
    }
  }

  /** Appends the fields to a buffer one by one. */
  method EncodeFields(fs: seq<Bytes>) returns (buf: Bytes)
    ensures buf == Encode(fs)
  {
    buf := [];
    for i := 0 to |fs|
      invariant buf == Encode(fs[..i])
    {
      buf := buf + BigEndian(|fs[i]|, 4) + fs[i];
      assert fs[..i + 1] == fs[..i] + [fs[i]];
      EncodeConcat(fs[..i], [fs[i]]);
      assert Encode([fs[i]]) == Put(fs[i]);
    }
    assert fs[..|fs|] == fs;
  }

  function ReadFrom(b: Bytes, idx: nat, count: nat): Option<seq<Bytes>>
    requires idx <= |b|
  {
    Read(b[idx..], count)
  }

  /** Reads the fields with an index into the message. */
  method ReadFields(b: Bytes, count: nat) returns (r: Option<seq<Bytes>>)
    ensures r == Read(b, count)
  {
    var parts: seq<Bytes> := [];
    var idx := 0;
    var i := 0;
    ReadStarts(b, count);
    while i < count
      invariant 0 <= idx <= |b| && i <= count
      invariant Read(b, count) == Prepend(parts, ReadFrom(b, idx, count - i))
    {
      if |b| - idx < 4 {
        NoField(b, idx, parts, count - i);
        return None;
      }
      var l := GetU32(b[idx..idx + 4]);
      if l > |b| - idx - 4 {
        NoField(b, idx, parts, count - i);
        return None;
      }
      OneField(b, idx, l, parts, count - i);
      parts := parts + [b[idx + 4..idx + 4 + l]];
      idx := idx + 4 + l;
      i := i + 1;
    }
    ReadEnds(b, idx, parts);
    r := if idx != |b| then None else Some(parts);
  }

  lemma ReadStarts(b: Bytes, count: nat)
    ensures Read(b, count) == Prepend([], ReadFrom(b, 0, count))
  {
    assert b[0..] == b;
    PrependNothing(Read(b, count));
  }

  lemma ReadEnds(b: Bytes, idx: nat, parts: seq<Bytes>)
    requires idx <= |b|
    ensures Prepend(parts, ReadFrom(b, idx, 0)) == if idx != |b| then None else Some(parts)
  {
    assert parts + [] == parts;
  }

  /** Nothing more to read at the index. */
  lemma NoField(b: Bytes, idx: nat, parts: seq<Bytes>, n: nat)
    requires idx <= |b| && n > 0 && (|b| - idx < 4 || GetU32(b[idx..idx + 4]) > |b| - idx - 4)
    ensures Prepend(parts, ReadFrom(b, idx, n)) == None
  {
    TakeAt(b, idx);
    PrependStep(parts, b[idx..], n);
  }

  /** One more field at the index. */
  lemma OneField(b: Bytes, idx: nat, l: nat, parts: seq<Bytes>, n: nat)
    requires idx + 4 + l <= |b| && l == GetU32(b[idx..idx + 4]) && n > 0
    ensures Prepend(parts, ReadFrom(b, idx, n)) == Prepend(parts + [b[idx + 4..idx + 4 + l]], ReadFrom(b, idx + 4 + l, n - 1))
  {
    TakeAt(b, idx);
    PrependStep(parts, b[idx..], n);
  }

  lemma TakeAt(b: Bytes, idx: nat)
    requires idx <= |b|
    ensures |b| - idx < 4 ==> Take(b[idx..]).None?
    ensures |b| - idx >= 4 && GetU32(b[idx..idx + 4]) > |b| - idx - 4 ==> Take(b[idx..]).None?
    ensures |b| - idx >= 4 && GetU32(b[idx..idx + 4]) <= |b| - idx - 4 ==>
              var l := GetU32(b[idx..idx + 4]);
              Take(b[idx..]) == Some((b[idx + 4..idx + 4 + l], b[idx + 4 + l..]))
  {
    var rest := b[idx..];
    if |rest| >= 4 {
      assert rest[..4] == b[idx..idx + 4];
      var l := GetU32(rest[..4]);
      if l <= |rest| - 4 {
        assert rest[4..4 + l] == b[idx + 4..idx + 4 + l] && rest[4 + l..] == b[idx + 4 + l..];
      }
    }
  }

  lemma PrependNothing(r: Option<seq<Bytes>>)
    ensures Prepend([], r) == r
  {
    if r.Some? {
      assert [] + r.value == r.value;
    }
  }

  lemma PrependStep(parts: seq<Bytes>, rest: Bytes, n: nat)
    requires n > 0
    ensures Prepend(parts, Read(rest, n)) ==
            if Take(rest).None? then None
            else Prepend(parts + [Take(rest).value.0], Read(Take(rest).value.1, n - 1))
  {
    if Take(rest).Some? {
      var more := Read(Take(rest).value.1, n - 1);
      if more.Some? {
        assert parts + ([Take(rest).value.0] + more.value) == parts + [Take(rest).value.0] + more.value;
      }
    }
  }

  function Prepend(parts: seq<Bytes>, r: Option<seq<Bytes>>): Option<seq<Bytes>> {
    if r.None? then None else Some(parts + r.value)
  }
}
