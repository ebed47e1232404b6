/** The two variable-length probe frames: the arm (ARM1) and the provider frame (WAN1). */
module ProbeFrames {
  import opened Options
  import opened Bytes
  import opened SignedFields

  const ENDPOINT_MAX := 255
  const TTL_MAX := 24 * 60 * 60 * 1000
  const FRAME_MAX := 4 + 32 + 16 + 16 + 16 + 1 + ENDPOINT_MAX + 16 + 32 + SIG_LEN
  const ARM_FIXED := 4 + 16 + 16 + 32 + 4 + 16 + 1
  const WAN_FIXED := 4 + 32 + 16 + 16 + 16 + 1

  datatype Arm = Arm(
    probe: Bytes16, provider: Bytes16, key: Bytes32, source: Bytes4, activation: Bytes16, endpoint: Bytes,
    ttl: U64, expiry: Bytes16)

  datatype Frame = Frame(
    digest: Bytes32, probe: Bytes16, provider: Bytes16, activation: Bytes16, endpoint: Bytes, expiry: Bytes16,
    challenge: Bytes32, sig: Bytes64)

  function ArmMagic(): (m: Bytes)
    ensures |m| == 4
  {
    Ascii("ARM1")
  }

  function WanMagic(): (m: Bytes)
    ensures |m| == 4
  {
    Ascii("WAN1")
  }

  predicate Zero(bs: Bytes) {
    forall i :: 0 <= i < |bs| ==> bs[i] == 0
  }

  // ---- arm ----

  /** The length of the endpoint is cut off at one byte. */
  function CanonicalArm(a: Arm): Bytes {
    ArmMagic() + a.probe + a.provider + a.key + a.source + a.activation + [|a.endpoint| % 256] + a.endpoint
    + PutU64(a.ttl) + a.expiry
  }

  predicate ArmOk(endpointOk: Bytes -> bool, a: Arm) {
    && !Zero(a.provider) && !Zero(a.probe) && 0 < a.ttl <= TTL_MAX
    && 1 <= |a.endpoint| <= ENDPOINT_MAX && endpointOk(a.endpoint)
  }

  predicate ArmFramed(raw: Bytes) {
    && ARM_FIXED <= |raw| <= FRAME_MAX && raw[..4] == ArmMagic()
    && raw[ARM_FIXED - 1] != 0 && |raw| == ARM_FIXED + raw[ARM_FIXED - 1] + 8 + 16
  }

  function ArmOf(raw: Bytes): Arm
    requires ArmFramed(raw)
  {
    var n := raw[ARM_FIXED - 1];
    Arm(raw[4..20], raw[20..36], raw[36..68], raw[68..72], raw[72..88], raw[89..89 + n],
        GetU64(raw[89 + n..97 + n]), raw[97 + n..])
  }

  function ParseArm(endpointOk: Bytes -> bool, raw: Bytes): Option<Arm> {
    if !ArmFramed(raw) || !ArmOk(endpointOk, ArmOf(raw)) then None else Some(ArmOf(raw))
  }

  lemma ArmBytesBack(raw: Bytes)
    requires ArmFramed(raw)
    ensures CanonicalArm(ArmOf(raw)) == raw
  {
    var n := raw[ARM_FIXED - 1];
    PutGetU64(raw[89 + n..97 + n]);
    assert raw == raw[..4] + raw[4..20] + raw[20..36] + raw[36..68] + raw[68..72] + raw[72..88] + [raw[88]]
                  + raw[89..89 + n] + raw[89 + n..97 + n] + raw[97 + n..];
  }

  lemma ArmBack(a: Arm)
    requires 1 <= |a.endpoint| <= ENDPOINT_MAX
    ensures ArmFramed(CanonicalArm(a)) && ArmOf(CanonicalArm(a)) == a
  {
    var raw := CanonicalArm(a);
    var n := |a.endpoint|;
    assert raw[..4] == ArmMagic() && raw[88] == n;
    assert raw[4..20] == a.probe && raw[20..36] == a.provider && raw[36..68] == a.key;
    assert raw[68..72] == a.source && raw[72..88] == a.activation && raw[89..89 + n] == a.endpoint;
    assert raw[89 + n..97 + n] == PutU64(a.ttl) && raw[97 + n..] == a.expiry;
  }

  /** The parser accepts exactly the canonical bytes of valid arms. */
  lemma ArmCodec(endpointOk: Bytes -> bool, raw: Bytes, a: Arm)
    ensures ParseArm(endpointOk, raw) == Some(a) <==> ArmOk(endpointOk, a) && raw == CanonicalArm(a)
  {
    if ArmFramed(raw) {
      ArmBytesBack(raw);
    }
    if 1 <= |a.endpoint| <= ENDPOINT_MAX {
      ArmBack(a);
    }
  }

  // ---- provider frame ----

  function CanonicalFrame(f: Frame): Bytes {
    WanMagic() + f.digest + f.probe + f.provider + f.activation + [|f.endpoint| % 256] + f.endpoint
    + f.expiry + f.challenge
  }

  predicate WanFramed(raw: Bytes) {
    && WAN_FIXED <= |raw| <= FRAME_MAX && raw[..4] == WanMagic()
    && raw[WAN_FIXED - 1] != 0 && |raw| == WAN_FIXED + raw[WAN_FIXED - 1] + 16 + 32 + SIG_LEN
  }

  function FrameOf(raw: Bytes): Frame
    requires WanFramed(raw)
  {
    var n := raw[WAN_FIXED - 1];
    Frame(raw[4..36], raw[36..52], raw[52..68], raw[68..84], raw[85..85 + n], raw[85 + n..101 + n],
          raw[101 + n..133 + n], raw[133 + n..])
  }

  function ParseFrame(endpointOk: Bytes -> bool, raw: Bytes): Option<Frame> {
    if !WanFramed(raw) || !endpointOk(FrameOf(raw).endpoint) then None else Some(FrameOf(raw))
  }

  lemma FrameBytesBack(raw: Bytes)
    requires WanFramed(raw)
    ensures CanonicalFrame(FrameOf(raw)) + FrameOf(raw).sig == raw
  {
    var n := raw[WAN_FIXED - 1];
    assert raw == raw[..4] + raw[4..36] + raw[36..52] + raw[52..68] + raw[68..84] + [raw[84]] + raw[85..85 + n]
                  + raw[85 + n..101 + n] + raw[101 + n..133 + n] + raw[133 + n..];
  }

  lemma FrameBack(f: Frame)
    requires 1 <= |f.endpoint| <= ENDPOINT_MAX
    ensures WanFramed(CanonicalFrame(f) + f.sig) && FrameOf(CanonicalFrame(f) + f.sig) == f
  {
    var raw := CanonicalFrame(f) + f.sig;
    var n := |f.endpoint|;
    assert raw[..4] == WanMagic() && raw[84] == n;
    assert raw[4..36] == f.digest && raw[36..52] == f.probe && raw[52..68] == f.provider;
    assert raw[68..84] == f.activation && raw[85..85 + n] == f.endpoint && raw[85 + n..101 + n] == f.expiry;
    assert raw[101 + n..133 + n] == f.challenge && raw[133 + n..] == f.sig;
  }

  /** The parser accepts exactly the canonical bytes of frames with a good endpoint, signature appended. */
  lemma FrameCodec(endpointOk: Bytes -> bool, raw: Bytes, f: Frame)
    ensures ParseFrame(endpointOk, raw) == Some(f)
       <==> 1 <= |f.endpoint| <= ENDPOINT_MAX && endpointOk(f.endpoint) && raw == CanonicalFrame(f) + f.sig
  {
    if WanFramed(raw) {
      FrameBytesBack(raw);
    }
    if 1 <= |f.endpoint| <= ENDPOINT_MAX {
      FrameBack(f);
    }
  }
}
