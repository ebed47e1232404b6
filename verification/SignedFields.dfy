/** A field list followed by a 64-byte signature, within a size bound. */
module SignedFields {
  import opened Options
  import opened Bytes
  import opened FieldList

  const SIG_LEN := 64

  datatype Error = Malformed | WrongChallenge | BadSignature

  datatype Parsed<T> = Ok(value: T) | Err(error: Error)

  type Verifier = (Bytes, Bytes, Bytes) -> bool

  function Ascii(s: string): Bytes {
    seq(|s|, i requires 0 <= i < |s| => s[i] as int % 256)
  }

  /** Size check, split, then exactly `count` fields. */
  function ReadSigned(raw: Bytes, max: nat, count: nat): (r: Option<(seq<Bytes>, Bytes)>)
    ensures r.Some? ==> |r.value.0| == count && |r.value.1| == SIG_LEN
  {
    if |raw| > max || |raw| <= SIG_LEN then None
    else
      var fields := Read(raw[..|raw| - SIG_LEN], count);
      if fields.None? then None else Some((fields.value, raw[|raw| - SIG_LEN..]))
  }

  lemma {:induction false} SmallFields(fs: seq<Bytes>)
    ensures forall i :: 0 <= i < |fs| ==> |fs[i]| <= |Encode(fs)|
    ensures fs != [] ==> |Encode(fs)| > 0
  {
    if fs != [] {
      SmallFields(fs[1..]);
      forall i | 0 <= i < |fs| ensures |fs[i]| <= |Encode(fs)| {
        if i > 0 {
          assert fs[i] == fs[1..][i - 1];
        }
      }
    }
  }

  lemma ReadsOnlyWritten(raw: Bytes, max: nat, count: nat)
    requires ReadSigned(raw, max, count).Some?
    ensures var r := ReadSigned(raw, max, count).value; raw == Encode(r.0) + r.1 && |raw| <= max
  {
    var fields := raw[..|raw| - SIG_LEN];
    EncodesRead(fields, count);
    assert raw == fields + raw[|raw| - SIG_LEN..];
  }

  lemma ReadsWritten(fs: seq<Bytes>, sig: Bytes, max: nat)
    requires fs != [] && max < U32_LIMIT && |sig| == SIG_LEN && |Encode(fs) + sig| <= max
    ensures ReadSigned(Encode(fs) + sig, max, |fs|) == Some((fs, sig))
  {
    var raw := Encode(fs) + sig;
    SmallFields(fs);
    ReadsEncoded(fs);
    assert raw[..|raw| - SIG_LEN] == Encode(fs) && raw[|raw| - SIG_LEN..] == sig;
  }

  /** What is read is exactly what was written, and nothing else is accepted. */
  lemma ReadSignedExactly(raw: Bytes, max: nat, fs: seq<Bytes>, sig: Bytes)
    requires fs != [] && max < U32_LIMIT
    ensures ReadSigned(raw, max, |fs|) == Some((fs, sig))
       <==> raw == Encode(fs) + sig && |sig| == SIG_LEN && |raw| <= max
  {
    if ReadSigned(raw, max, |fs|) == Some((fs, sig)) {
      ReadsOnlyWritten(raw, max, |fs|);
    } else if raw == Encode(fs) + sig && |sig| == SIG_LEN && |raw| <= max {
      ReadsWritten(fs, sig, max);
    }
  }

  /** The signature part of a message. */
  function SigOf(raw: Bytes): Bytes {
    if |raw| < SIG_LEN then [] else raw[|raw| - SIG_LEN..]
  }

  lemma SigOfJoined(b: Bytes, sig: Bytes)
    requires |sig| == SIG_LEN
    ensures SigOf(b + sig) == sig
  {
  }
}
