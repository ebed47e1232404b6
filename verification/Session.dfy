/** The three signed messages of the session handshake. */
module Session {
  import opened Options
  import opened Bytes
  import opened FieldList
  import opened SignedFields

  const ID_MAX := 255
  const HELLO_MAX := 7 * 4 + 16 + 16 + 4 + 32 + 32 + 8 + 1 + SIG_LEN
  const WELCOME_MAX := 8 * 4 + 16 + ID_MAX + 16 + 32 + 32 + 8 + ID_MAX + 8 + SIG_LEN
  const FINAL_MAX := 5 * 4 + 16 + 16 + 32 + 8 + ID_MAX + SIG_LEN

  datatype Hello = Hello(
    controller: Bytes16, node: Bytes16, version: U32, publicKey: Bytes32, nonce: Bytes32, maxEpoch: U64, versions: Bytes)

  datatype Welcome = Welcome(
    controller: Bytes16, keyId: Bytes, node: Bytes16, agentNonce: Bytes32, serverNonce: Bytes32, epoch: U64,
    session: Bytes, expiry: U64)

  datatype Final = Final(controller: Bytes16, node: Bytes16, serverNonce: Bytes32, epoch: U64, session: Bytes)

  function SigningBytes(canonical: Bytes): Bytes {
    Ascii("AntiNAT-Session-v1") + canonical
  }

  // ---- hello ----

  function HelloFields(h: Hello): seq<Bytes> {
    [h.controller, h.node, PutU32(h.version), h.publicKey, h.nonce, PutU64(h.maxEpoch), h.versions]
  }

  function CanonicalHello(h: Hello): Bytes {
    Encode(HelloFields(h))
  }

  function ParseHello(verify: Verifier, raw: Bytes): Parsed<Hello> {
    var s := ReadSigned(raw, HELLO_MAX, 7);
    if s.None? then Err(Malformed)
    else
      var p := s.value.0;
      if |p[0]| != 16 || |p[1]| != 16 || |p[2]| != 4 || |p[3]| != 32 || |p[4]| != 32 || |p[5]| != 8
      then Err(Malformed)
      else
        var h := Hello(p[0], p[1], GetU32(p[2]), p[3], p[4], GetU64(p[5]), p[6]);
        if h.version == 0 then Err(Malformed)
        else if !verify(h.publicKey, SigningBytes(CanonicalHello(h)), s.value.1) then Err(BadSignature)
        else Ok(h)
  }

  lemma HelloFieldsBack(p: seq<Bytes>)
    requires |p| == 7 && |p[0]| == 16 && |p[1]| == 16 && |p[2]| == 4 && |p[3]| == 32 && |p[4]| == 32 && |p[5]| == 8
    ensures HelloFields(Hello(p[0], p[1], GetU32(p[2]), p[3], p[4], GetU64(p[5]), p[6])) == p
  {
    PutGetU32(p[2]);
    PutGetU64(p[5]);
  }

  lemma HelloCodec(verify: Verifier, raw: Bytes, h: Hello)
    ensures ParseHello(verify, raw) == Ok(h)
       <==> (h.version != 0 && |raw| <= HELLO_MAX && |SigOf(raw)| == SIG_LEN
             && raw == CanonicalHello(h) + SigOf(raw)
             && verify(h.publicKey, SigningBytes(CanonicalHello(h)), SigOf(raw)))
  {
    var s := ReadSigned(raw, HELLO_MAX, 7);
    if ParseHello(verify, raw) == Ok(h) {
      HelloFieldsBack(s.value.0);
      ReadSignedExactly(raw, HELLO_MAX, HelloFields(h), s.value.1);
      SigOfJoined(CanonicalHello(h), s.value.1);
    }
    if raw == CanonicalHello(h) + SigOf(raw) && |raw| <= HELLO_MAX && |SigOf(raw)| == SIG_LEN {
      ReadSignedExactly(raw, HELLO_MAX, HelloFields(h), SigOf(raw));
    }
  }

  // ---- welcome ----

  function WelcomeFields(w: Welcome): seq<Bytes> {
    [w.controller, w.keyId, w.node, w.agentNonce, w.serverNonce, PutU64(w.epoch), w.session, PutU64(w.expiry)]
  }

  function CanonicalWelcome(w: Welcome): Bytes {
    Encode(WelcomeFields(w))
  }

  predicate WelcomeOk(w: Welcome) {
    w.keyId != [] && w.session != []
  }

  function ParseWelcome(verify: Verifier, raw: Bytes, controllerKey: Bytes): Parsed<Welcome> {
    var s := ReadSigned(raw, WELCOME_MAX, 8);
    if s.None? then Err(Malformed)
    else
      var p := s.value.0;
      if |p[0]| != 16 || |p[2]| != 16 || |p[3]| != 32 || |p[4]| != 32 || |p[5]| != 8 || |p[7]| != 8
      then Err(Malformed)
      else
        var w := Welcome(p[0], p[1], p[2], p[3], p[4], GetU64(p[5]), p[6], GetU64(p[7]));
        if !WelcomeOk(w) then Err(Malformed)
        else if !verify(controllerKey, SigningBytes(CanonicalWelcome(w)), s.value.1) then Err(BadSignature)
        else Ok(w)
  }

  lemma WelcomeFieldsBack(p: seq<Bytes>)
    requires |p| == 8 && |p[0]| == 16 && |p[2]| == 16 && |p[3]| == 32 && |p[4]| == 32 && |p[5]| == 8 && |p[7]| == 8
    ensures WelcomeFields(Welcome(p[0], p[1], p[2], p[3], p[4], GetU64(p[5]), p[6], GetU64(p[7]))) == p
  {
    PutGetU64(p[5]);
    PutGetU64(p[7]);
  }

  lemma WelcomeCodec(verify: Verifier, raw: Bytes, key: Bytes, w: Welcome)
    ensures ParseWelcome(verify, raw, key) == Ok(w)
       <==> (WelcomeOk(w) && |raw| <= WELCOME_MAX && |SigOf(raw)| == SIG_LEN
             && raw == CanonicalWelcome(w) + SigOf(raw)
             && verify(key, SigningBytes(CanonicalWelcome(w)), SigOf(raw)))
  {
    var s := ReadSigned(raw, WELCOME_MAX, 8);
    if ParseWelcome(verify, raw, key) == Ok(w) {
      WelcomeFieldsBack(s.value.0);
      ReadSignedExactly(raw, WELCOME_MAX, WelcomeFields(w), s.value.1);
      SigOfJoined(CanonicalWelcome(w), s.value.1);
    }
    if raw == CanonicalWelcome(w) + SigOf(raw) && |raw| <= WELCOME_MAX && |SigOf(raw)| == SIG_LEN {
      ReadSignedExactly(raw, WELCOME_MAX, WelcomeFields(w), SigOf(raw));
    }
  }

  // ---- final ----

  function FinalFields(f: Final): seq<Bytes> {
    [f.controller, f.node, f.serverNonce, PutU64(f.epoch), f.session]
  }

  function CanonicalFinal(f: Final): Bytes {
    Encode(FinalFields(f))
  }

  function ParseFinal(verify: Verifier, raw: Bytes, agentKey: Bytes): Parsed<Final> {
    var s := ReadSigned(raw, FINAL_MAX, 5);
    if s.None? then Err(Malformed)
    else
      var p := s.value.0;
      if |p[0]| != 16 || |p[1]| != 16 || |p[2]| != 32 || |p[3]| != 8 then Err(Malformed)
      else
        var f := Final(p[0], p[1], p[2], GetU64(p[3]), p[4]);
        if f.session == [] then Err(Malformed)
        else if !verify(agentKey, SigningBytes(CanonicalFinal(f)), s.value.1) then Err(BadSignature)
        else Ok(f)
  }

  lemma FinalFieldsBack(p: seq<Bytes>)
    requires |p| == 5 && |p[0]| == 16 && |p[1]| == 16 && |p[2]| == 32 && |p[3]| == 8
    ensures FinalFields(Final(p[0], p[1], p[2], GetU64(p[3]), p[4])) == p
  {
    PutGetU64(p[3]);
  }

  lemma FinalCodec(verify: Verifier, raw: Bytes, key: Bytes, f: Final)
    ensures ParseFinal(verify, raw, key) == Ok(f)
       <==> (f.session != [] && |raw| <= FINAL_MAX && |SigOf(raw)| == SIG_LEN
             && raw == CanonicalFinal(f) + SigOf(raw)
             && verify(key, SigningBytes(CanonicalFinal(f)), SigOf(raw)))
  {
    var s := ReadSigned(raw, FINAL_MAX, 5);
    if ParseFinal(verify, raw, key) == Ok(f) {
      FinalFieldsBack(s.value.0);
      ReadSignedExactly(raw, FINAL_MAX, FinalFields(f), s.value.1);
      SigOfJoined(CanonicalFinal(f), s.value.1);
    }
    if raw == CanonicalFinal(f) + SigOf(raw) && |raw| <= FINAL_MAX && |SigOf(raw)| == SIG_LEN {
      ReadSignedExactly(raw, FINAL_MAX, FinalFields(f), SigOf(raw));
    }
  }
}
