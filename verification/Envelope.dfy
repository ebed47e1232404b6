/** The signed control envelope: fixed prelude, protected header, payload, signature. */
module Envelope {
  import opened Options
  import opened Bytes
  import opened FieldList
  import opened SignedFields

  const MAX_HEADER := 4096
  const MAX_PAYLOAD := 65536
  const MAX_STRING := 255
  const PRELUDE := 13
  const WIRE_VERSION: Byte := 1
  const C2A: Byte := 1
  const A2C: Byte := 2
  const KEY_SIZE := 32

  function Magic(): (m: Bytes)
    ensures |m| == 4
  {
    Ascii("ANAT")
  }

  function Domain(): Bytes {
    Ascii("AntiNAT-Control-v1")
  }

  datatype Header = Header(
    domain: Bytes, controller: Bytes16, node: Bytes16, keyId: Bytes, version: U32, epoch: U64, session: Bytes,
    direction: Byte, sequence: U64, messageId: Bytes16, messageType: Bytes, schema: U32, payloadLength: U64,
    payloadHash: Bytes32)

  datatype Stage = Framing | HeaderStage | Consistency | Signature

  datatype Outcome = Accepted(header: Header, payload: Bytes, sig: Bytes) | Refused(stage: Stage)

  // ---- protected header ----

  predicate StringsOk(h: Header) {
    1 <= |h.keyId| <= MAX_STRING && 1 <= |h.session| <= MAX_STRING && 1 <= |h.messageType| <= MAX_STRING
  }

  function HeaderFields(h: Header): seq<Bytes> {
    [h.domain, h.controller, h.node, h.keyId, PutU32(h.version), PutU64(h.epoch), h.session, [h.direction],
     PutU64(h.sequence), h.messageId, h.messageType, PutU32(h.schema), PutU64(h.payloadLength), h.payloadHash]
  }

  /** Refused when a string field is out of range or a field is too long for its length prefix. */
  function EncodeHeader(h: Header): Option<Bytes> {
    if StringsOk(h) && |h.domain| < U32_LIMIT then Some(Encode(HeaderFields(h))) else None
  }

  predicate Widths(p: seq<Bytes>)
    requires |p| == 14
  {
    && |p[1]| == 16 && |p[2]| == 16 && |p[4]| == 4 && |p[5]| == 8 && |p[7]| == 1 && |p[8]| == 8
    && |p[9]| == 16 && |p[11]| == 4 && |p[12]| == 8 && |p[13]| == 32
  }

  function HeaderOf(p: seq<Bytes>): Header
    requires |p| == 14 && Widths(p)
  {
    Header(p[0], p[1], p[2], p[3], GetU32(p[4]), GetU64(p[5]), p[6], p[7][0], GetU64(p[8]), p[9], p[10],
           GetU32(p[11]), GetU64(p[12]), p[13])
  }

  function DecodeHeader(b: Bytes): Option<Header> {
    var r := Read(b, 14);
    if r.None? || !Widths(r.value) || !StringsOk(HeaderOf(r.value)) then None else Some(HeaderOf(r.value))
  }

  lemma HeaderFieldsBack(p: seq<Bytes>)
    requires |p| == 14 && Widths(p)
    ensures HeaderFields(HeaderOf(p)) == p
  {
    PutGetU32(p[4]);
    PutGetU64(p[5]);
    PutGetU64(p[8]);
    PutGetU32(p[11]);
    PutGetU64(p[12]);
    assert [p[7][0]] == p[7];
  }

  lemma HeaderOfFields(h: Header)
    ensures Widths(HeaderFields(h)) && HeaderOf(HeaderFields(h)) == h
  {
  }

  /** Decoding accepts exactly the encodings, and gives back the header. */
  lemma HeaderCodec(b: Bytes, h: Header)
    ensures DecodeHeader(b) == Some(h) <==> EncodeHeader(h) == Some(b)
  {
    if DecodeHeader(b) == Some(h) {
      EncodesRead(b, 14);
      HeaderFieldsBack(Read(b, 14).value);
      assert |HeaderFields(h)[0]| < U32_LIMIT;
    }
    if EncodeHeader(h) == Some(b) {
      ReadsEncoded(HeaderFields(h));
      HeaderOfFields(h);
    }
  }

  // ---- the whole frame ----

  datatype Crypto = Crypto(sha: Bytes -> Bytes32, sign: (Bytes, Bytes) -> Bytes64, verify: Verifier)

  function SignatureInput(h: Header, headerBytes: Bytes): Bytes {
    h.domain + headerBytes + h.payloadHash
  }

  function Frame(headerBytes: Bytes, payload: Bytes, sig: Bytes): Bytes
    requires |headerBytes| < U32_LIMIT && |payload| < U32_LIMIT
  {
    Magic() + [WIRE_VERSION] + PutU32(|headerBytes|) + PutU32(|payload|) + headerBytes + payload + sig
  }

  /** Fills in the payload length and hash, enforces the caps and signs. */
  function Build(c: Crypto, priv: Bytes, h: Header, payload: Bytes): Option<Bytes> {
    if |payload| > MAX_PAYLOAD then None
    else
      var full := Filled(c, h, payload);
      var b := EncodeHeader(full);
      if b.None? || |b.value| > MAX_HEADER || |priv| != 64 then None
      else Some(Frame(b.value, payload, c.sign(priv, SignatureInput(full, b.value))))
  }

  function Filled(c: Crypto, h: Header, payload: Bytes): Header
    requires |payload| <= MAX_PAYLOAD
  {
    h.(payloadLength := |payload|, payloadHash := c.sha(payload))
  }

  predicate Framed(frame: Bytes) {
    && |frame| >= PRELUDE + SIG_LEN && frame[..4] == Magic() && frame[4] == WIRE_VERSION
    && 0 < GetU32(frame[5..9]) <= MAX_HEADER && GetU32(frame[9..13]) <= MAX_PAYLOAD
    && |frame| == PRELUDE + GetU32(frame[5..9]) + GetU32(frame[9..13]) + SIG_LEN
  }

  function HeaderPart(frame: Bytes): Bytes
    requires Framed(frame)
  {
    frame[PRELUDE..PRELUDE + GetU32(frame[5..9])]
  }

  function PayloadPart(frame: Bytes): Bytes
    requires Framed(frame)
  {
    frame[PRELUDE + GetU32(frame[5..9])..|frame| - SIG_LEN]
  }

  predicate Consistent(c: Crypto, h: Header, payload: Bytes, peer: Bytes) {
    && h.domain == Domain() && h.payloadLength == |payload| && c.sha(payload) == h.payloadHash
    && (h.direction == C2A || h.direction == A2C) && h.version != 0 && |peer| == KEY_SIZE
  }

  /** Framing, header, consistency and signature, in this order, and the stage that refused. */
  function Parse(c: Crypto, frame: Bytes, peer: Bytes): Outcome {
    if !Framed(frame) then Refused(Framing)
    else
      var h := DecodeHeader(HeaderPart(frame));
      if h.None? then Refused(HeaderStage)
      else if !Consistent(c, h.value, PayloadPart(frame), peer) then Refused(Consistency)
      else if !c.verify(peer, SignatureInput(h.value, HeaderPart(frame)), SigOf(frame)) then Refused(Signature)
      else Accepted(h.value, PayloadPart(frame), SigOf(frame))
  }

  lemma FramePrelude(headerBytes: Bytes, payload: Bytes, sig: Bytes)
    requires 0 < |headerBytes| <= MAX_HEADER && |payload| <= MAX_PAYLOAD && |sig| == SIG_LEN
    ensures Framed(Frame(headerBytes, payload, sig))
    ensures var f := Frame(headerBytes, payload, sig);
            HeaderPart(f) == headerBytes && PayloadPart(f) == payload && SigOf(f) == sig
  {
    var f := Frame(headerBytes, payload, sig);
    assert f[..4] == Magic() && f[5..9] == PutU32(|headerBytes|) && f[9..13] == PutU32(|payload|);
    assert f[13..13 + |headerBytes|] == headerBytes;
    assert f[13 + |headerBytes|..|f| - 64] == payload && f[|f| - 64..] == sig;
  }

  lemma FrameParts(f: Bytes)
    requires Framed(f)
    ensures |HeaderPart(f)| <= MAX_HEADER && |PayloadPart(f)| <= MAX_PAYLOAD
    ensures f == Frame(HeaderPart(f), PayloadPart(f), SigOf(f))
  {
    PutGetU32(f[5..9]);
    PutGetU32(f[9..13]);
    var n := GetU32(f[5..9]);
    assert f == f[..4] + [f[4]] + f[5..9] + f[9..13] + f[13..13 + n] + f[13 + n..|f| - 64] + f[|f| - 64..];
  }

  /** An accepted frame is exactly the encoding of what was accepted. */
  lemma AcceptedReencodes(c: Crypto, frame: Bytes, peer: Bytes)
    requires Parse(c, frame, peer).Accepted?
    ensures var a := Parse(c, frame, peer);
            && Consistent(c, a.header, a.payload, peer) && |a.payload| <= MAX_PAYLOAD
            && EncodeHeader(a.header).Some? && |EncodeHeader(a.header).value| <= MAX_HEADER
            && frame == Frame(EncodeHeader(a.header).value, a.payload, a.sig)
            && c.verify(peer, SignatureInput(a.header, EncodeHeader(a.header).value), a.sig)
  {
    HeaderCodec(HeaderPart(frame), DecodeHeader(HeaderPart(frame)).value);
    FrameParts(frame);
  }

  /** What is built parses back, given that the verifier accepts the signer, exactly when its header is consistent. */
  lemma BuildParses(c: Crypto, priv: Bytes, pub: Bytes, h: Header, payload: Bytes)
    requires Build(c, priv, h, payload).Some?
    requires forall m :: c.verify(pub, m, c.sign(priv, m))
    ensures var full := Filled(c, h, payload);
            var parsed := Parse(c, Build(c, priv, h, payload).value, pub);
            if Consistent(c, full, payload, pub)
            then parsed.Accepted? && parsed.header == full && parsed.payload == payload
            else parsed == Refused(Consistency)
  {
    var full := Filled(c, h, payload);
    var b := EncodeHeader(full).value;
    SmallFields(HeaderFields(full));
    FramePrelude(b, payload, c.sign(priv, SignatureInput(full, b)));
    HeaderCodec(b, full);
  }
}
