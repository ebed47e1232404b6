/** The three signed messages of the enrollment transcript. */
module Enrollment {
  import opened Options
  import opened Bytes
  import opened FieldList
  import opened SignedFields

  const MAX_TOKEN := 256
  const CHALLENGE_MAX := 6 * 4 + 16 + 255 + 16 + 32 + 1 + 8 + SIG_LEN
  const REQUEST_MAX := 6 * 4 + 32 + 32 + 32 + 4 + MAX_TOKEN + 32 + SIG_LEN
  const RESULT_MAX := 7 * 4 + 16 + 255 + 16 + 32 + 4 + 16 + 8 + SIG_LEN

  datatype Challenge = Challenge(
    controller: Bytes16, keyId: Bytes, node: Bytes16, nonce: Bytes32, versions: Bytes, expiry: U64)

  datatype Request = Request(
    challengeHash: Bytes32, nonce: Bytes32, publicKey: Bytes32, version: U32, token: Bytes, capabilityHash: Bytes32)

  datatype Binding = Binding(
    controller: Bytes16, keyId: Bytes, node: Bytes16, keyHash: Bytes32, version: U32, resultId: Bytes16, expiry: U64)

  function SigningBytes(canonical: Bytes): Bytes {
    Ascii("AntiNAT-Enroll-v1") + canonical
  }

  // ---- challenge ----

  function ChallengeFields(c: Challenge): seq<Bytes> {
    [c.controller, c.keyId, c.node, c.nonce, c.versions, PutU64(c.expiry)]
  }

  function CanonicalChallenge(c: Challenge): Bytes {
    Encode(ChallengeFields(c))
  }

  predicate ChallengeOk(c: Challenge) {
    c.keyId != [] && c.versions == ['1' as int]
  }

  function ParseChallenge(verify: Verifier, raw: Bytes, controllerKey: Bytes): Parsed<Challenge> {
    var r := ReadSigned(raw, CHALLENGE_MAX, 6);
    if r.None? then Err(Malformed)
    else
      var p := r.value.0;
      if |p[0]| != 16 || |p[2]| != 16 || |p[3]| != 32 || |p[5]| != 8 then Err(Malformed)
      else
        var c := Challenge(p[0], p[1], p[2], p[3], p[4], GetU64(p[5]));
        if !ChallengeOk(c) then Err(Malformed)
        else if !verify(controllerKey, SigningBytes(CanonicalChallenge(c)), r.value.1) then Err(BadSignature)
        else Ok(c)
  }

  lemma ChallengeFieldsBack(p: seq<Bytes>)
    requires |p| == 6 && |p[0]| == 16 && |p[2]| == 16 && |p[3]| == 32 && |p[5]| == 8
    ensures ChallengeFields(Challenge(p[0], p[1], p[2], p[3], p[4], GetU64(p[5]))) == p
  {
    PutGetU64(p[5]);
  }

  /** Accepted bytes are exactly the encoding of an acceptable challenge with a good signature. */
  lemma ChallengeCodec(verify: Verifier, raw: Bytes, key: Bytes, c: Challenge)
    ensures ParseChallenge(verify, raw, key) == Ok(c)
       <==> (ChallengeOk(c) && |raw| <= CHALLENGE_MAX && |SigOf(raw)| == SIG_LEN
             && raw == CanonicalChallenge(c) + SigOf(raw)
             && verify(key, SigningBytes(CanonicalChallenge(c)), SigOf(raw)))
  {
    var r := ReadSigned(raw, CHALLENGE_MAX, 6);
    if ParseChallenge(verify, raw, key) == Ok(c) {
      ChallengeFieldsBack(r.value.0);
      ReadSignedExactly(raw, CHALLENGE_MAX, ChallengeFields(c), r.value.1);
      SigOfJoined(CanonicalChallenge(c), r.value.1);
    }
    if raw == CanonicalChallenge(c) + SigOf(raw) && |raw| <= CHALLENGE_MAX && |SigOf(raw)| == SIG_LEN {
      ReadSignedExactly(raw, CHALLENGE_MAX, ChallengeFields(c), SigOf(raw));
    }
  }

  // ---- request ----

  function RequestFields(r: Request): seq<Bytes> {
    [r.challengeHash, r.nonce, r.publicKey, PutU32(r.version), r.token, r.capabilityHash]
  }

  function CanonicalRequest(r: Request): Bytes {
    Encode(RequestFields(r))
  }

  predicate RequestOk(r: Request) {
    1 <= |r.token| <= MAX_TOKEN && r.version != 0
  }

  /** The signature is checked with the key the request itself presents. */
  function ParseRequest(verify: Verifier, raw: Bytes, issued: Bytes): Parsed<Request> {
    var s := ReadSigned(raw, REQUEST_MAX, 6);
    if s.None? then Err(Malformed)
    else
      var p := s.value.0;
      if |p[0]| != 32 || |p[1]| != 32 || |p[2]| != 32 || |p[3]| != 4 || |p[5]| != 32 then Err(Malformed)
      else
        var r := Request(p[0], p[1], p[2], GetU32(p[3]), p[4], p[5]);
        if !RequestOk(r) then Err(Malformed)
        else if r.challengeHash != issued then Err(WrongChallenge)
        else if !verify(r.publicKey, SigningBytes(CanonicalRequest(r)), s.value.1) then Err(BadSignature)
        else Ok(r)
  }

  lemma RequestFieldsBack(p: seq<Bytes>)
    requires |p| == 6 && |p[0]| == 32 && |p[1]| == 32 && |p[2]| == 32 && |p[3]| == 4 && |p[5]| == 32
    ensures RequestFields(Request(p[0], p[1], p[2], GetU32(p[3]), p[4], p[5])) == p
  {
    PutGetU32(p[3]);
  }

  lemma RequestCodec(verify: Verifier, raw: Bytes, issued: Bytes, r: Request)
    ensures ParseRequest(verify, raw, issued) == Ok(r)
       <==> (RequestOk(r) && r.challengeHash == issued && |raw| <= REQUEST_MAX && |SigOf(raw)| == SIG_LEN
             && raw == CanonicalRequest(r) + SigOf(raw)
             && verify(r.publicKey, SigningBytes(CanonicalRequest(r)), SigOf(raw)))
  {
    var s := ReadSigned(raw, REQUEST_MAX, 6);
    if ParseRequest(verify, raw, issued) == Ok(r) {
      RequestFieldsBack(s.value.0);
      ReadSignedExactly(raw, REQUEST_MAX, RequestFields(r), s.value.1);
      SigOfJoined(CanonicalRequest(r), s.value.1);
    }
    if raw == CanonicalRequest(r) + SigOf(raw) && |raw| <= REQUEST_MAX && |SigOf(raw)| == SIG_LEN {
      ReadSignedExactly(raw, REQUEST_MAX, RequestFields(r), SigOf(raw));
    }
  }

  // ---- result ----

  function BindingFields(b: Binding): seq<Bytes> {
    [b.controller, b.keyId, b.node, b.keyHash, PutU32(b.version), b.resultId, PutU64(b.expiry)]
  }

  function CanonicalBinding(b: Binding): Bytes {
    Encode(BindingFields(b))
  }

  predicate BindingOk(b: Binding) {
    b.keyId != [] && b.version != 0
  }

  function ParseBinding(verify: Verifier, raw: Bytes, controllerKey: Bytes): Parsed<Binding> {
    var s := ReadSigned(raw, RESULT_MAX, 7);
    if s.None? then Err(Malformed)
    else
      var p := s.value.0;
      if |p[0]| != 16 || |p[2]| != 16 || |p[3]| != 32 || |p[4]| != 4 || |p[5]| != 16 || |p[6]| != 8
      then Err(Malformed)
      else
        var b := Binding(p[0], p[1], p[2], p[3], GetU32(p[4]), p[5], GetU64(p[6]));
        if !BindingOk(b) then Err(Malformed)
        else if !verify(controllerKey, SigningBytes(CanonicalBinding(b)), s.value.1) then Err(BadSignature)
        else Ok(b)
  }

  lemma BindingFieldsBack(p: seq<Bytes>)
    requires |p| == 7 && |p[0]| == 16 && |p[2]| == 16 && |p[3]| == 32 && |p[4]| == 4 && |p[5]| == 16 && |p[6]| == 8
    ensures BindingFields(Binding(p[0], p[1], p[2], p[3], GetU32(p[4]), p[5], GetU64(p[6]))) == p
  {
    PutGetU32(p[4]);
    PutGetU64(p[6]);
  }

  lemma BindingCodec(verify: Verifier, raw: Bytes, key: Bytes, b: Binding)
    ensures ParseBinding(verify, raw, key) == Ok(b)
       <==> (BindingOk(b) && |raw| <= RESULT_MAX && |SigOf(raw)| == SIG_LEN
             && raw == CanonicalBinding(b) + SigOf(raw)
             && verify(key, SigningBytes(CanonicalBinding(b)), SigOf(raw)))
  {
    var s := ReadSigned(raw, RESULT_MAX, 7);
    if ParseBinding(verify, raw, key) == Ok(b) {
      BindingFieldsBack(s.value.0);
      ReadSignedExactly(raw, RESULT_MAX, BindingFields(b), s.value.1);
      SigOfJoined(CanonicalBinding(b), s.value.1);
    }
    if raw == CanonicalBinding(b) + SigOf(raw) && |raw| <= RESULT_MAX && |SigOf(raw)| == SIG_LEN {
      ReadSignedExactly(raw, RESULT_MAX, BindingFields(b), SigOf(raw));
    }
  }

  // ---- no two messages share their bytes ----

  datatype Message = AChallenge(c: Challenge) | ARequest(r: Request) | ABinding(b: Binding)

  function MessageFields(m: Message): seq<Bytes> {
    match m
    case AChallenge(c) => ChallengeFields(c)
    case ARequest(r) => RequestFields(r)
    case ABinding(b) => BindingFields(b)
  }

  lemma SameFieldsSameMessage(m: Message, n: Message)
    requires MessageFields(m) == MessageFields(n)
    ensures m == n
  {
    var p, q := MessageFields(m), MessageFields(n);
    assert |p| == |q| && |p[0]| == |q[0]|;
    if m.AChallenge? && n.AChallenge? {
      assert GetU64(p[5]) == m.c.expiry && GetU64(q[5]) == n.c.expiry;
    } else if m.ARequest? && n.ARequest? {
      assert GetU32(p[3]) == m.r.version && GetU32(q[3]) == n.r.version;
    } else if m.ABinding? && n.ABinding? {
      assert GetU32(p[4]) == m.b.version && GetU32(q[4]) == n.b.version;
      assert GetU64(p[6]) == m.b.expiry && GetU64(q[6]) == n.b.expiry;
    }
  }

  /** Canonical bytes of two different messages, of the same kind or not, never coincide. */
  lemma CanonicalUnique(m: Message, n: Message)
    requires Short(MessageFields(m)) && Short(MessageFields(n))
    requires Encode(MessageFields(m)) == Encode(MessageFields(n))
    ensures m == n
  {
    EncodeInjective(MessageFields(m), MessageFields(n));
    SameFieldsSameMessage(m, n);
  }
}
