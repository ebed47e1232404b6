/** The agent's probe operations and replay cache. Times are in nanoseconds. */
module ProbeAgent {
  import opened Bytes
  import opened ProbeFrames
  import opened SignedFields

  const MILLISECOND := 1_000_000
  const REPLAY_WINDOW := 5 * 60 * 1000 * MILLISECOND
  const OP_MAX := 1024

  datatype Op = Op(arm: Arm, digest: Bytes32, deadline: int, used: bool)

  datatype State = State(ops: map<Bytes16, Op>, replay: map<Bytes16, int>)

  /** Hashing, signature checking and the endpoint rule. */
  datatype Rules = Rules(sha: Bytes -> Bytes32, verify: Verifier, endpointOk: Bytes -> bool)

  datatype Armed = ArmedAs(digest: Bytes32) | InvalidArm | Replay | Conflict | StateFull

  function Digest(r: Rules, a: Arm): Bytes32 {
    r.sha(CanonicalArm(a))
  }

  /** An operation dies strictly after its deadline, a replay entry at the end of its window. */
  function Swept(s: State, now: int): State {
    State(map id | id in s.ops && now <= s.ops[id].deadline :: s.ops[id],
          map id | id in s.replay && now < s.replay[id] :: s.replay[id])
  }

  function ArmAnswer(r: Rules, s: State, a: Arm, now: int): Armed {
    var t := Swept(s, now);
    if !ArmOk(r.endpointOk, a) then InvalidArm
    else if a.probe in t.replay then
      (if a.probe in t.ops && t.ops[a.probe].digest == Digest(r, a) then Replay else Conflict)
    else if a.probe in t.ops then
      (if t.ops[a.probe].digest != Digest(r, a) then Conflict else ArmedAs(Digest(r, a)))
    else if |t.ops| >= OP_MAX then StateFull
    else ArmedAs(Digest(r, a))
  }

  function ArmStep(r: Rules, s: State, a: Arm, now: int): State {
    if !ArmOk(r.endpointOk, a) then s
    else
      var t := Swept(s, now);
      if a.probe !in t.replay && a.probe !in t.ops && |t.ops| < OP_MAX
      then t.(ops := t.ops[a.probe := Op(a, Digest(r, a), now + a.ttl * MILLISECOND, false)])
      else t
  }

  predicate Accepts(r: Rules, s: State, f: Frame, source: Bytes4, now: int) {
    && f.probe in s.ops && !s.ops[f.probe].used && now <= s.ops[f.probe].deadline
    && Matches(r, s.ops[f.probe], f, source)
  }

  predicate Matches(r: Rules, op: Op, f: Frame, source: Bytes4) {
    && source == op.arm.source && f.digest == op.digest && f.provider == op.arm.provider
    && f.activation == op.arm.activation && f.endpoint == op.arm.endpoint && f.expiry == op.arm.expiry
    && r.verify(op.arm.key, CanonicalFrame(f), f.sig)
  }

  function IngressStep(r: Rules, s: State, f: Frame, source: Bytes4, now: int): State {
    if !Accepts(r, s, f, source, now) then s
    else State(s.ops[f.probe := s.ops[f.probe].(used := true)], s.replay[f.probe := now + REPLAY_WINDOW])
  }

  // ---- runs ----

  datatype Call = ArmCall(arm: Arm, now: int) | IngressCall(frame: Frame, source: Bytes4, now: int)

  function Step(r: Rules, s: State, c: Call): State {
    match c
    case ArmCall(a, now) => ArmStep(r, s, a, now)
    case IngressCall(f, source, now) => IngressStep(r, s, f, source, now)
  }

  /** A sequence of calls from an empty agent, with a clock that never goes back. */
  ghost predicate IsRun(r: Rules, ss: seq<State>, cs: seq<Call>) {
    && |ss| == |cs| + 1 && ss[0] == State(map[], map[])
    && (forall i :: 0 <= i < |cs| ==> ss[i + 1] == Step(r, ss[i], cs[i]))
    && (forall i, j :: 0 <= i <= j < |cs| ==> cs[i].now <= cs[j].now)
  }

  lemma {:induction false} OperationsBounded(r: Rules, ss: seq<State>, cs: seq<Call>, i: nat)
    requires IsRun(r, ss, cs) && i < |ss|
    ensures |ss[i].ops| <= OP_MAX
  {
    if i > 0 {
      OperationsBounded(r, ss, cs, i - 1);
      StepBounded(r, ss[i - 1], cs[i - 1]);
    }
  }

  lemma StepBounded(r: Rules, s: State, c: Call)
    requires |s.ops| <= OP_MAX
    ensures |Step(r, s, c).ops| <= OP_MAX
  {
    if c.ArmCall? {
      var t := Swept(s, c.now);
      Sizes(t.ops, s.ops);
    } else if Accepts(r, s, c.frame, c.source, c.now) {
      assert Step(r, s, c).ops.Keys == s.ops.Keys;
      assert |Step(r, s, c).ops.Keys| == |Step(r, s, c).ops|;
    }
  }

  lemma Sizes(a: map<Bytes16, Op>, b: map<Bytes16, Op>)
    requires a.Keys <= b.Keys
    ensures |a| <= |b|
  {
    SubsetSize(a.Keys, b.Keys);
    assert |a.Keys| == |a| && |b.Keys| == |b|;
  }

  lemma {:induction false} SubsetSize(a: set<Bytes16>, b: set<Bytes16>)
    requires a <= b
    ensures |a| <= |b|
  {
    if a != {} {
      var x :| x in a;
      SubsetSize(a - {x}, b - {x});
    }
  }

  /** Arming again while the operation is alive, with any material, leaves operation and deadline as they are. */
  lemma LiveRearmChangesNothing(r: Rules, s: State, a: Arm, now: int)
    requires a.probe in s.ops && now <= s.ops[a.probe].deadline
    ensures a.probe in ArmStep(r, s, a, now).ops && ArmStep(r, s, a, now).ops[a.probe] == s.ops[a.probe]
    ensures ArmAnswer(r, s, a, now).ArmedAs? ==> ArmAnswer(r, s, a, now).digest == s.ops[a.probe].digest
  {
  }

  /** An accepted frame carries the armed material, from the armed source, under the armed key. */
  ghost predicate AcceptedAt(r: Rules, ss: seq<State>, cs: seq<Call>, i: nat, id: Bytes16)
    requires IsRun(r, ss, cs)
  {
    i < |cs| && cs[i].IngressCall? && cs[i].frame.probe == id
    && Accepts(r, ss[i], cs[i].frame, cs[i].source, cs[i].now)
  }

  /** The call creates a new, unused operation for the id, strictly after the deadline and once the window is over. */
  ghost predicate RearmedAt(r: Rules, ss: seq<State>, cs: seq<Call>, k: nat, id: Bytes16, deadline: int, windowEnd: int)
    requires IsRun(r, ss, cs)
  {
    && k < |cs| && cs[k].ArmCall? && cs[k].arm.probe == id && id !in Swept(ss[k], cs[k].now).ops
    && id in ss[k + 1].ops && !ss[k + 1].ops[id].used
    && deadline < cs[k].now && windowEnd <= cs[k].now
  }

  ghost predicate RearmedAfter(r: Rules, ss: seq<State>, cs: seq<Call>, i: nat, k: nat, id: Bytes16)
    requires IsRun(r, ss, cs)
  {
    i < |cs| && id in ss[i].ops && RearmedAt(r, ss, cs, k, id, ss[i].ops[id].deadline, cs[i].now + REPLAY_WINDOW)
  }

  /**
    After an acceptance at a time with this window end, and before the next
    arming: the used operation is there or has been swept, and the replay
    entry is there unless its window is over. `last` is the latest time seen.
   */
  predicate Burnt(s: State, id: Bytes16, deadline: int, windowEnd: int, last: int) {
    && (id in s.ops ==> s.ops[id].used && s.ops[id].deadline == deadline)
    && (id !in s.ops ==> deadline < last)
    && (if id in s.replay then s.replay[id] == windowEnd else windowEnd <= last)
  }

  lemma BurntStays(r: Rules, s: State, c: Call, id: Bytes16, deadline: int, windowEnd: int, last: int)
    requires Burnt(s, id, deadline, windowEnd, last) && last <= c.now
    ensures c.IngressCall? && c.frame.probe == id ==> !Accepts(r, s, c.frame, c.source, c.now)
    ensures || Burnt(Step(r, s, c), id, deadline, windowEnd, c.now)
            || (c.ArmCall? && c.arm.probe == id && id !in Swept(s, c.now).ops && id in Step(r, s, c).ops
                && !Step(r, s, c).ops[id].used && deadline < c.now && windowEnd <= c.now)
  {
  }

  lemma {:induction false} BurntUntilRearm(r: Rules, ss: seq<State>, cs: seq<Call>, m: nat, j: nat, id: Bytes16,
                                           deadline: int, windowEnd: int, last: int)
    requires IsRun(r, ss, cs) && m <= j < |cs|
    requires Burnt(ss[m], id, deadline, windowEnd, last) && last <= cs[m].now
    requires AcceptedAt(r, ss, cs, j, id)
    ensures exists k :: m <= k < j && RearmedAt(r, ss, cs, k, id, deadline, windowEnd)
    decreases j - m
  {
    BurntStays(r, ss[m], cs[m], id, deadline, windowEnd, last);
    if !Burnt(ss[m + 1], id, deadline, windowEnd, cs[m].now) {
      assert RearmedAt(r, ss, cs, m, id, deadline, windowEnd);
      assert m < j;
    } else {
      assert m < j;
      BurntUntilRearm(r, ss, cs, m + 1, j, id, deadline, windowEnd, cs[m].now);
    }
  }

  /**
    Two accepted ingresses of one probe are at least a replay window apart and
    separated by a new arming strictly after the first operation's deadline.
   */
  lemma SingleUse(r: Rules, ss: seq<State>, cs: seq<Call>, i: nat, j: nat, id: Bytes16)
    requires IsRun(r, ss, cs) && i < j
    requires AcceptedAt(r, ss, cs, i, id) && AcceptedAt(r, ss, cs, j, id)
    ensures cs[i].now + REPLAY_WINDOW <= cs[j].now
    ensures exists k :: i < k < j && RearmedAfter(r, ss, cs, i, k, id)
  {
    var deadline, windowEnd := ss[i].ops[id].deadline, cs[i].now + REPLAY_WINDOW;
    assert Burnt(ss[i + 1], id, deadline, windowEnd, cs[i].now);
    BurntUntilRearm(r, ss, cs, i + 1, j, id, deadline, windowEnd, cs[i].now);
    var k :| i + 1 <= k < j && RearmedAt(r, ss, cs, k, id, deadline, windowEnd);
    assert RearmedAfter(r, ss, cs, i, k, id);
  }

  // ---- the agent itself ----

  class Agent {
    const rules: Rules
    var ops: map<Bytes16, Op>
    var replay: map<Bytes16, int>

    ghost function View(): State
      reads this
    {
      State(ops, replay)
    }

    constructor (rules: Rules)
      ensures this.rules == rules && View() == State(map[], map[])
    {
      this.rules, ops, replay := rules, map[], map[];
    }

    method Sweep(now: int)
      modifies this
      ensures View() == Swept(old(View()), now)
    {
      var ids := ops.Keys;
      while ids != {}
        invariant ids <= old(ops).Keys && replay == old(replay)
        invariant forall id :: id in ops <==> id in old(ops) && (id in ids || now <= old(ops)[id].deadline)
        invariant forall id :: id in ops ==> ops[id] == old(ops)[id]
        decreases |ids|
      {
        var id :| id in ids;
        ids := ids - {id};
        if now > ops[id].deadline {
          ops := ops - {id};
        }
      }
      assert ops == Swept(old(View()), now).ops;
      ids := replay.Keys;
      while ids != {}
        invariant ids <= old(replay).Keys && ops == Swept(old(View()), now).ops
        invariant forall id :: id in replay <==> id in old(replay) && (id in ids || now < old(replay)[id])
        invariant forall id :: id in replay ==> replay[id] == old(replay)[id]
        decreases |ids|
      {
        var id :| id in ids;
        ids := ids - {id};
        if now >= replay[id] {
          replay := replay - {id};
        }
      }
      assert replay == Swept(old(View()), now).replay;
    }

    method ArmProbe(a: Arm, now: int) returns (answer: Armed)
      modifies this
      ensures View() == ArmStep(rules, old(View()), a, now)
      ensures answer == ArmAnswer(rules, old(View()), a, now)
    {
      if !ArmOk(rules.endpointOk, a) {
        return InvalidArm;
      }
      var digest := Digest(rules, a);
      Sweep(now);
      if a.probe in replay {
        if a.probe in ops && ops[a.probe].digest == digest {
          return Replay;
        }
        return Conflict;
      }
      if a.probe in ops {
        if ops[a.probe].digest != digest {
          return Conflict;
        }
        return ArmedAs(digest);
      }
      if |ops| >= OP_MAX {
        return StateFull;
      }
      ops := ops[a.probe := Op(a, digest, now + a.ttl * MILLISECOND, false)];
      answer := ArmedAs(digest);
    }

    method HandleIngress(f: Frame, source: Bytes4, now: int) returns (accepted: bool)
      modifies this
      ensures View() == IngressStep(rules, old(View()), f, source, now)
      ensures accepted == Accepts(rules, old(View()), f, source, now)
    {
      if f.probe !in ops || ops[f.probe].used || now > ops[f.probe].deadline {
        return false;
      }
      if !Matches(rules, ops[f.probe], f, source) {
        return false;
      }
      ops := ops[f.probe := ops[f.probe].(used := true)];
      replay := replay[f.probe := now + REPLAY_WINDOW];
      accepted := true;
    }
  }
}
