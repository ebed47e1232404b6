/**
  The invariant of the data-plane step system, proved for every step.  Steps
  that only change the plane go through `PlaneFrame`, steps that only move an
  operation go through `OpFrame`; what is left to each step is a fact about one
  critical section.
 */
module DataPlaneInvariant {
  import opened DataPlane
  import opened DataPlaneSystem

  // ---- what one critical section does to one actor ----

  predicate SamePlace(p: Plane, q: Plane, a: ActorId) {
    (Forwarded(p, a) <==> Forwarded(q, a)) && (Pended(p, a) <==> Pended(q, a)) && (Extra(p, a) <==> Extra(q, a))
  }

  /** The actor stays where it is, is handed from forwards to cleanup, or is dropped once clean. */
  ghost predicate Kept(p: Plane, q: Plane, a: ActorId) {
    && a in p.actors && a in q.actors
    && var x, y := p.actors[a], q.actors[a];
       && y.fid == x.fid && y.discarded == x.discarded
       && (CleanupInv(x) ==> CleanupInv(y))
       && (x.complete ==> y.complete)
       && (|| (SamePlace(p, q, a) && y.retired == x.retired)
           || (Forwarded(p, a) && !Forwarded(q, a) && (Pended(q, a) != Extra(q, a)) && y.retired)
           || (y.complete && !Forwarded(q, a) && !Pended(q, a) && !Extra(q, a) && !Forwarded(p, a)
               && y.retired == x.retired))
  }

  ghost predicate AllKept(p: Plane, q: Plane) {
    && KeysInv(q) && q.actors.Keys == p.actors.Keys
    && forall a | a in p.actors :: Kept(p, q, a)
  }

  /** The part of the invariant that the critical sections need. */
  ghost predicate PlaneInv(p: Plane) {
    && KeysInv(p)
    && forall a | a in p.actors ::
         && CleanupInv(p.actors[a])
         && !(Forwarded(p, a) && (Pended(p, a) || Extra(p, a))) && !(Pended(p, a) && Extra(p, a))
         && (Forwarded(p, a) ==> !p.actors[a].retired && !p.actors[a].discarded)
  }

  lemma PlaneOf(s: State)
    requires Inv(s)
    ensures PlaneInv(s.plane)
  {
    forall a | a in s.plane.actors
      ensures !(Forwarded(s.plane, a) && (Pended(s.plane, a) || Extra(s.plane, a)))
      ensures !(Pended(s.plane, a) && Extra(s.plane, a))
    {
      assert Places(s, a) <= 1;
    }
  }

  /** Changing one actor's record, not its forward, moves nothing. */
  lemma RecordFrame(p: Plane, a: ActorId, x: Actor)
    requires KeysInv(p) && a in p.actors && x.fid == p.actors[a].fid
    ensures var q := p.(actors := p.actors[a := x]);
            KeysInv(q) && forall b | b in p.actors :: SamePlace(p, q, b)
  {
    var q := p.(actors := p.actors[a := x]);
    forall b | b in p.actors ensures SamePlace(p, q, b) {
      assert q.actors[b].fid == p.actors[b].fid;
    }
  }

  /** An actor that is nowhere in the plane ends up in exactly one cleanup map. */
  lemma AddPendingEffect(p: Plane, f: Fid, a: ActorId)
    requires KeysInv(p) && a in p.actors && p.actors[a].fid == f
    requires !Pended(p, a) && !Extra(p, a)
    ensures var q := AddPending(p, f, a);
            && KeysInv(q) && q.forwards == p.forwards
            && q.actors == p.actors[a := p.actors[a].(retired := true)]
            && Pended(q, a) != Extra(q, a)
            && forall b | b in p.actors && b != a :: SamePlace(p, q, b)
  {
    var m := if f !in p.pending then p.(pending := p.pending[f := a]) else p.(extras := p.extras[a := f]);
    var q := AddPending(p, f, a);
    assert q == m.(actors := m.actors[a := m.actors[a].(retired := true)]);
    assert KeysInv(m);
    forall b | b in p.actors && b != a ensures SamePlace(p, m, b) {
    }
    RecordFrame(m, a, m.actors[a].(retired := true));
    forall b | b in p.actors && b != a ensures SamePlace(p, q, b) {
      assert SamePlace(p, m, b) && SamePlace(m, q, b);
    }
    assert SamePlace(m, q, a);
  }

  lemma DemoteKeeps(p: Plane, f: Fid)
    requires PlaneInv(p)
    ensures AllKept(p, Demote(p, f))
  {
    if f in p.forwards {
      var a := p.forwards[f];
      var m := p.(forwards := p.forwards - {f});
      assert Forwarded(p, a);
      assert KeysInv(m) && !Pended(m, a) && !Extra(m, a);
      AddPendingEffect(m, f, a);
      var q := Demote(p, f);
      forall b | b in p.actors ensures Kept(p, q, b) {
        if b != a {
          WithdrawElsewhere(p, f, b);
          assert SamePlace(m, q, b);
        }
      }
    } else {
      SamePlaneKeeps(p);
    }
  }

  lemma WithdrawElsewhere(p: Plane, f: Fid, b: ActorId)
    requires KeysInv(p) && f in p.forwards && b in p.actors && b != p.forwards[f]
    ensures SamePlace(p, p.(forwards := p.forwards - {f}), b)
  {
  }

  lemma DemoteAllKeeps(p: Plane)
    requires PlaneInv(p)
    ensures AllKept(p, DemoteAll(p))
    ensures DemoteAll(p).forwards == map[]
  {
    var q := DemoteAll(p);
    forall b | b in p.actors ensures Kept(p, q, b) {
      DemoteAllKeepsOne(p, b);
    }
    DemoteAllKeys(p);
  }

  lemma DemoteAllKeys(p: Plane)
    requires KeysInv(p)
    ensures KeysInv(DemoteAll(p))
  {
    var q := DemoteAll(p);
    forall f | f in q.pending ensures q.pending[f] in q.actors && q.actors[q.pending[f]].fid == f {
      assert q.pending[f] == if f in p.pending then p.pending[f] else p.forwards[f];
    }
    forall a | a in q.extras ensures a in q.actors && q.actors[a].fid == q.extras[a] {
      assert a in Overflow(p) ==> q.extras[a] == p.actors[a].fid;
    }
  }

  lemma DemoteAllKeepsOne(p: Plane, b: ActorId)
    requires PlaneInv(p) && b in p.actors
    ensures Kept(p, DemoteAll(p), b)
  {
    var q := DemoteAll(p);
    if Forwarded(p, b) {
      assert q.actors[b] == p.actors[b].(retired := true);
    } else {
      assert q.actors[b] == p.actors[b];
      assert SamePlace(p, q, b);
    }
  }

  lemma RecordKept(p: Plane, a: ActorId, x: Actor)
    requires KeysInv(p) && a in p.actors && CleanupInv(x)
    requires x.fid == p.actors[a].fid && x.discarded == p.actors[a].discarded && x.retired == p.actors[a].retired
    requires p.actors[a].complete ==> x.complete
    ensures AllKept(p, p.(actors := p.actors[a := x]))
  {
    RecordFrame(p, a, x);
  }

  lemma SetTargetKeeps(p: Plane, a: ActorId, target: Target)
    requires PlaneInv(p)
    ensures AllKept(p, SetTarget(p, a, target))
  {
    if a in p.actors && target.Endpoint? {
      RecordKept(p, a, SetTarget(p, a, target).actors[a]);
    } else {
      SamePlaneKeeps(p);
    }
  }

  lemma StartCleanupKeeps(p: Plane, a: ActorId)
    requires PlaneInv(p) && a in p.actors && p.actors[a].retired && !p.actors[a].complete && !p.actors[a].inProgress
    ensures AllKept(p, StartCleanup(p, a))
  {
    RecordKept(p, a, StartCleanup(p, a).actors[a]);
  }

  lemma FinishCleanupKeeps(p: Plane, a: ActorId, ok: bool)
    requires PlaneInv(p) && a in p.actors && p.actors[a].inProgress
    ensures AllKept(p, FinishCleanup(p, a, ok))
  {
    RecordKept(p, a, FinishCleanup(p, a, ok).actors[a]);
  }

  lemma RemovePendingKeeps(p: Plane, a: ActorId)
    requires PlaneInv(p) && a in p.actors && p.actors[a].complete
    ensures AllKept(p, RemovePending(p, p.actors[a].fid, a))
  {
    var q := RemovePending(p, p.actors[a].fid, a);
    assert p.actors[a].retired;
    RemovePendingEffect(p, p.actors[a].fid, a);
    forall b | b in p.actors ensures Kept(p, q, b) {
      assert b != a ==> SamePlace(p, q, b);
    }
  }

  /** Removal touches the maps for this very actor only, and leaves it in neither. */
  lemma RemovePendingEffect(p: Plane, f: Fid, a: ActorId)
    requires KeysInv(p) && a in p.actors && p.actors[a].fid == f && !(Pended(p, a) && Extra(p, a))
    ensures var q := RemovePending(p, f, a);
            && KeysInv(q) && q.forwards == p.forwards && q.actors == p.actors && !Pended(q, a) && !Extra(q, a)
            && forall b | b in p.actors && b != a :: SamePlace(p, q, b)
  {
  }

  // ---- frames ----

  /** A step that changes only the plane, and every actor there as `Kept` allows. */
  lemma PlaneFrame(s: State, t: State)
    requires Inv(s) && AllKept(s.plane, t.plane)
    requires t.ops == s.ops && t.gate == s.gate && t.holder == s.holder
    requires t.supervised == s.supervised && t.callers == s.callers
    requires forall a | a in t.unlisting :: a in t.plane.actors && t.plane.actors[a].complete
    ensures Inv(t)
  {
    forall a | a in t.plane.actors
      ensures OwnedWell(t, a)
    {
      assert Kept(s.plane, t.plane, a);
      assert Held(t, a) <==> Held(s, a);
      assert OwnedWell(s, a);
    }
    forall o | o in t.ops && (t.ops[o].pc.Acquired? || t.ops[o].pc.Installing? || t.ops[o].pc.Rejected?)
      ensures t.ops[o].pc.actor in t.plane.actors && t.plane.actors[t.ops[o].pc.actor].fid == t.ops[o].fid
    {
      assert Kept(s.plane, t.plane, t.ops[o].pc.actor);
    }
    forall a | a in t.callers ensures a in t.plane.actors && t.plane.actors[a].retired {
      assert Kept(s.plane, t.plane, a) && OwnedWell(s, a);
    }
  }

  /** The gate is in order and every actor is in the same hands as before. */
  ghost predicate SameHands(s: State, t: State) {
    OpsInv(t) && forall a | a in s.plane.actors :: Held(t, a) <==> Held(s, a)
  }

  /** A step that only moves operations; who holds which actor stays the same. */
  lemma OpFrame(s: State, t: State)
    requires Inv(s) && SameHands(s, t)
    requires t.plane == s.plane && t.supervised == s.supervised && t.unlisting == s.unlisting && t.callers == s.callers
    ensures Inv(t)
  {
    forall a | a in t.plane.actors ensures OwnedWell(t, a) {
      assert OwnedWell(s, a);
    }
  }

  // ---- the steps ----

  predicate SameMaps(p: Plane, q: Plane) {
    q.forwards == p.forwards && q.pending == p.pending && q.extras == p.extras && q.actors == p.actors
  }

  /** Flags and generations do not matter to ownership. */
  lemma FlagsFrame(p: Plane, q: Plane, r: Plane)
    requires AllKept(p, q) && SameMaps(q, r)
    ensures AllKept(p, r)
  {
    forall a | a in p.actors ensures Kept(p, r, a) {
      assert Kept(p, q, a) && SamePlace(q, r, a);
    }
  }

  lemma SamePlaneKeeps(p: Plane)
    requires PlaneInv(p)
    ensures AllKept(p, p)
  {
  }

  lemma FlagSteps(s: State, q: Plane)
    requires Inv(s) && SameMaps(s.plane, q)
    ensures Inv(s.(plane := q))
  {
    PlaneOf(s);
    SamePlaneKeeps(s.plane);
    FlagsFrame(s.plane, s.plane, q);
    PlaneFrame(s, s.(plane := q));
  }

  lemma KeepsCapabilityLost(s: State)
    requires Inv(s) && Enabled(s, CapabilityLost)
    ensures Inv(Do(s, CapabilityLost))
  {
    if s.plane.capabilityReady {
      PlaneOf(s);
      DemoteAllKeeps(s.plane);
      FlagsFrame(s.plane, DemoteAll(s.plane), LoseCapability(s.plane));
      PlaneFrame(s, s.(plane := LoseCapability(s.plane)));
    }
  }

  lemma KeepsStop(s: State, f: Fid)
    requires Inv(s)
    ensures Inv(s.(plane := Demote(s.plane, f)))
  {
    PlaneOf(s);
    DemoteKeeps(s.plane, f);
    PlaneFrame(s, s.(plane := Demote(s.plane, f)));
  }

  lemma KeepsTakeUp(s: State, a: ActorId)
    requires Inv(s) && a in s.plane.actors && s.plane.actors[a].retired
    ensures Inv(s.(callers := s.callers + {a}))
  {
    var t := s.(callers := s.callers + {a});
    forall b | b in t.plane.actors ensures OwnedWell(t, b) {
      assert OwnedWell(s, b);
    }
  }

  lemma KeepsSetTarget(s: State, a: ActorId, target: Target)
    requires Inv(s)
    ensures Inv(s.(plane := SetTarget(s.plane, a, target)))
  {
    PlaneOf(s);
    SetTargetKeeps(s.plane, a, target);
    PlaneFrame(s, s.(plane := SetTarget(s.plane, a, target)));
  }

  lemma KeepsBeginCleanup(s: State, a: ActorId)
    requires Inv(s) && a in s.plane.actors && s.plane.actors[a].retired
    requires !s.plane.actors[a].complete && !s.plane.actors[a].inProgress
    ensures Inv(s.(plane := StartCleanup(s.plane, a)))
  {
    PlaneOf(s);
    StartCleanupKeeps(s.plane, a);
    PlaneFrame(s, s.(plane := StartCleanup(s.plane, a)));
  }

  lemma KeepsEndCleanup(s: State, a: ActorId, ok: bool, u: set<ActorId>)
    requires Inv(s) && a in s.plane.actors && s.plane.actors[a].inProgress
    requires u == if ok then s.unlisting + {a} else s.unlisting
    ensures Inv(s.(plane := FinishCleanup(s.plane, a, ok), unlisting := u))
  {
    PlaneOf(s);
    FinishCleanupKeeps(s.plane, a, ok);
    var t := s.(plane := FinishCleanup(s.plane, a, ok), unlisting := u);
    forall b | b in u ensures b in t.plane.actors && t.plane.actors[b].complete {
      if b != a {
        assert Kept(s.plane, t.plane, b);
      }
    }
    PlaneFrame(s, t);
  }

  lemma KeepsUnlist(s: State, a: ActorId)
    requires Inv(s) && a in s.unlisting && a in s.plane.actors
    ensures Inv(s.(plane := RemovePending(s.plane, s.plane.actors[a].fid, a), unlisting := s.unlisting - {a}))
  {
    PlaneOf(s);
    RemovePendingKeeps(s.plane, a);
    PlaneFrame(s, s.(plane := RemovePending(s.plane, s.plane.actors[a].fid, a), unlisting := s.unlisting - {a}));
  }

  lemma KeepsCloseDemote(s: State)
    requires Inv(s)
    ensures Inv(s.(plane := DemoteAll(s.plane), closer := Demoted))
  {
    PlaneOf(s);
    DemoteAllKeeps(s.plane);
    PlaneFrame(s, s.(plane := DemoteAll(s.plane), closer := Demoted));
  }

  // ---- operations ----

  /** Moving one operation along, gate and actor unchanged. */
  lemma KeepsMove(s: State, o: OpId, pc: Pc)
    requires Inv(s) && o in s.ops && !s.ops[o].pc.Installing?
    requires HoldsGate(s.ops[o].pc) && HoldsGate(pc) && !pc.Installing?
    requires (pc.Acquired? || pc.Rejected?) ==> HoldsActor(s.ops[o].pc, pc.actor)
    requires forall a :: HoldsActor(s.ops[o].pc, a) <==> HoldsActor(pc, a)
    ensures Inv(At(s, o, pc))
  {
    MoveHands(s, o, pc);
    OpFrame(s, At(s, o, pc));
  }

  lemma MoveHands(s: State, o: OpId, pc: Pc)
    requires OpsInv(s) && o in s.ops && !s.ops[o].pc.Installing?
    requires HoldsGate(s.ops[o].pc) && HoldsGate(pc) && !pc.Installing?
    requires (pc.Acquired? || pc.Rejected?) ==> HoldsActor(s.ops[o].pc, pc.actor)
    requires forall a :: HoldsActor(s.ops[o].pc, a) <==> HoldsActor(pc, a)
    ensures SameHands(s, At(s, o, pc))
  {
  }

  lemma KeepsEnter(s: State, o: OpId, f: Fid, kind: Kind)
    requires Inv(s) && o !in s.ops
    ensures Inv(s.(ops := s.ops[o := Op(f, kind, Waiting)]))
  {
    EnterHands(s, o, f, kind);
    OpFrame(s, s.(ops := s.ops[o := Op(f, kind, Waiting)]));
  }

  lemma EnterHands(s: State, o: OpId, f: Fid, kind: Kind)
    requires OpsInv(s) && o !in s.ops
    ensures SameHands(s, s.(ops := s.ops[o := Op(f, kind, Waiting)]))
  {
  }

  lemma KeepsPassGate(s: State, o: OpId)
    requires Inv(s) && o in s.ops && s.ops[o].pc.Waiting? && s.ops[o].fid !in s.gate
    ensures Inv(At(s, o, Begun).(gate := s.gate[s.ops[o].fid := o]))
  {
    PassGateHands(s, o);
    OpFrame(s, At(s, o, Begun).(gate := s.gate[s.ops[o].fid := o]));
  }

  lemma PassGateHands(s: State, o: OpId)
    requires OpsInv(s) && o in s.ops && s.ops[o].pc.Waiting? && s.ops[o].fid !in s.gate
    ensures SameHands(s, At(s, o, Begun).(gate := s.gate[s.ops[o].fid := o]))
  {
  }

  lemma KeepsGiveUp(s: State, o: OpId)
    requires Inv(s) && o in s.ops && s.ops[o].pc.Waiting?
    ensures Inv(At(s, o, Done))
  {
    GiveUpHands(s, o);
    OpFrame(s, At(s, o, Done));
  }

  lemma GiveUpHands(s: State, o: OpId)
    requires OpsInv(s) && o in s.ops && s.ops[o].pc.Waiting?
    ensures SameHands(s, At(s, o, Done))
  {
  }

  lemma KeepsRelease(s: State, o: OpId)
    requires Inv(s) && o in s.ops && s.ops[o].pc.Leaving?
    ensures Inv(At(s, o, Done).(gate := s.gate - {s.ops[o].fid}))
  {
    ReleaseHands(s, o);
    OpFrame(s, At(s, o, Done).(gate := s.gate - {s.ops[o].fid}));
  }

  lemma ReleaseHands(s: State, o: OpId)
    requires OpsInv(s) && o in s.ops && s.ops[o].pc.Leaving?
    ensures SameHands(s, At(s, o, Done).(gate := s.gate - {s.ops[o].fid}))
  {
  }

  lemma KeepsLock(s: State, o: OpId)
    requires Inv(s) && o in s.ops && s.ops[o].pc.Acquired? && s.holder == {}
    ensures Inv(At(s, o, Installing(s.ops[o].pc.route, s.ops[o].pc.actor)).(holder := {o}))
  {
    LockHands(s, o);
    OpFrame(s, At(s, o, Installing(s.ops[o].pc.route, s.ops[o].pc.actor)).(holder := {o}));
  }

  lemma LockHands(s: State, o: OpId)
    requires OpsInv(s) && o in s.ops && s.ops[o].pc.Acquired? && s.holder == {}
    ensures SameHands(s, At(s, o, Installing(s.ops[o].pc.route, s.ops[o].pc.actor)).(holder := {o}))
  {
  }

  lemma KeepsReject(s: State, o: OpId)
    requires Inv(s) && o in s.ops && (s.ops[o].pc.Acquired? || (s.ops[o].pc.Installing? && o in s.holder))
    ensures Inv(At(s, o, Rejected(s.ops[o].pc.actor)).(holder := s.holder - {o}))
  {
    RejectHands(s, o);
    OpFrame(s, At(s, o, Rejected(s.ops[o].pc.actor)).(holder := s.holder - {o}));
  }

  lemma RejectHands(s: State, o: OpId)
    requires OpsInv(s) && o in s.ops && (s.ops[o].pc.Acquired? || (s.ops[o].pc.Installing? && o in s.holder))
    ensures SameHands(s, At(s, o, Rejected(s.ops[o].pc.actor)).(holder := s.holder - {o}))
  {
  }

  /** Only actor `a` changes hands; every other actor is as before. */
  ghost predicate OthersSame(s: State, t: State, a: ActorId) {
    && t.plane.actors.Keys == s.plane.actors.Keys + {a}
    && forall b | b in s.plane.actors && b != a ::
         && t.plane.actors[b] == s.plane.actors[b] && SamePlace(s.plane, t.plane, b)
         && (Held(t, b) <==> Held(s, b)) && (b in t.supervised <==> b in s.supervised)
  }

  lemma HandFrame(s: State, t: State, a: ActorId)
    requires Inv(s) && OpsInv(t) && KeysInv(t.plane) && SetsInv(t)
    requires OthersSame(s, t, a) && OwnedWell(t, a)
    ensures Inv(t)
  {
    forall b | b in t.plane.actors ensures OwnedWell(t, b) {
      if b != a {
        assert OwnedWell(s, b);
      }
    }
  }

  lemma AcquirePlane(p: Plane, a: ActorId, x: Actor)
    requires KeysInv(p) && a !in p.actors
    ensures var q := p.(actors := p.actors[a := x]);
            && KeysInv(q) && !Forwarded(q, a) && !Pended(q, a) && !Extra(q, a)
            && forall b | b in p.actors :: SamePlace(p, q, b)
  {
  }

  lemma AcquireOps(s: State, t: State, o: OpId, route: Gens, a: ActorId, x: Actor)
    requires OpsInv(s) && o in s.ops && HoldsGate(s.ops[o].pc) && !s.ops[o].pc.Installing?
    requires a !in s.plane.actors && x.fid == s.ops[o].fid
    requires forall b :: !HoldsActor(s.ops[o].pc, b)
    requires t == At(s, o, Acquired(route, a)).(plane := s.plane.(actors := s.plane.actors[a := x]))
    ensures OpsInv(t) && Held(t, a) && forall b | b in s.plane.actors :: Held(t, b) <==> Held(s, b)
  {
    forall p | p in t.ops && (t.ops[p].pc.Acquired? || t.ops[p].pc.Installing? || t.ops[p].pc.Rejected?)
      ensures t.ops[p].pc.actor in t.plane.actors && t.plane.actors[t.ops[p].pc.actor].fid == t.ops[p].fid
    {
      assert p != o ==> t.ops[p] == s.ops[p];
    }
  }

  lemma AcquireSets(s: State, t: State, a: ActorId)
    requires SetsInv(s) && a !in s.plane.actors
    requires t.unlisting == s.unlisting && t.supervised == s.supervised && t.callers == s.callers
    requires forall b | b in s.plane.actors :: b in t.plane.actors && t.plane.actors[b] == s.plane.actors[b]
    ensures SetsInv(t) && a !in t.supervised
  {
  }

  /** A new actor starts in the hands of its operation. */
  lemma KeepsAcquire(s: State, o: OpId, route: Gens, a: ActorId, target: Target)
    requires Inv(s) && o in s.ops && (s.ops[o].pc.Cleared? || s.ops[o].pc.Routed?) && a !in s.plane.actors
    ensures Inv(At(s, o, Acquired(route, a))
                .(plane := s.plane.(actors := s.plane.actors[a := FreshActor(s.ops[o].fid, route, target)])))
  {
    var x := FreshActor(s.ops[o].fid, route, target);
    var t := At(s, o, Acquired(route, a)).(plane := s.plane.(actors := s.plane.actors[a := x]));
    AcquireOps(s, t, o, route, a, x);
    AcquirePlane(s.plane, a, x);
    AcquireSets(s, t, a);
    assert OwnedWell(t, a);
    HandFrame(s, t, a);
  }

  /** The operation lets go of its actor; the plane may change for that actor only. */
  lemma LetGo(s: State, t: State, o: OpId, a: ActorId)
    requires OpsInv(s) && o in s.ops && HoldsActor(s.ops[o].pc, a)
    requires t.ops == s.ops[o := s.ops[o].(pc := Leaving)] && t.gate == s.gate && t.holder == s.holder - {o}
    requires t.plane.actors.Keys == s.plane.actors.Keys && t.plane.actors[a].fid == s.plane.actors[a].fid
    requires forall b | b in s.plane.actors && b != a :: t.plane.actors[b] == s.plane.actors[b]
    ensures OpsInv(t) && !Held(t, a)
    ensures forall b | b in s.plane.actors && b != a :: Held(t, b) <==> Held(s, b)
  {
    forall p | p in t.ops && (t.ops[p].pc.Acquired? || t.ops[p].pc.Installing? || t.ops[p].pc.Rejected?)
      ensures t.ops[p].pc.actor in t.plane.actors && t.plane.actors[t.ops[p].pc.actor].fid == t.ops[p].fid
    {
      assert t.ops[p] == s.ops[p];
    }
  }

  lemma InstallPlane(p: Plane, f: Fid, a: ActorId)
    requires KeysInv(p) && a in p.actors && p.actors[a].fid == f && f !in p.forwards
    ensures var q := p.(forwards := p.forwards[f := a]);
            && KeysInv(q) && Forwarded(q, a) && (Pended(q, a) <==> Pended(p, a))
            && forall b | b in p.actors && b != a :: SamePlace(p, q, b)
  {
  }

  lemma KeepsCommit(s: State, o: OpId)
    requires Inv(s) && o in s.ops && s.ops[o].pc.Installing? && o in s.holder
    requires s.ops[o].fid !in s.plane.forwards
    ensures var a := s.ops[o].pc.actor;
            Inv(At(s, o, Leaving).(plane := s.plane.(forwards := s.plane.forwards[s.ops[o].fid := a]),
                                   supervised := s.supervised + {a}, holder := s.holder - {o}))
  {
    var a := s.ops[o].pc.actor;
    var t := At(s, o, Leaving).(plane := s.plane.(forwards := s.plane.forwards[s.ops[o].fid := a]),
                                supervised := s.supervised + {a}, holder := s.holder - {o});
    assert OwnedWell(s, a) && Held(s, a);
    LetGo(s, t, o, a);
    InstallPlane(s.plane, s.ops[o].fid, a);
    HandFrame(s, t, a);
  }

  lemma OneRetired(s: State, t: State, a: ActorId)
    requires SetsInv(s) && a in s.plane.actors && t.unlisting == s.unlisting && t.supervised == s.supervised && t.callers == s.callers
    requires t.plane.actors == s.plane.actors[a := s.plane.actors[a].(retired := true)]
    ensures SetsInv(t)
  {
  }

  lemma HandToCleanup(s: State, t: State, a: ActorId)
    requires Inv(s) && Held(s, a) && OpsInv(t) && !Held(t, a) && KeysInv(t.plane)
    requires t.unlisting == s.unlisting && t.supervised == s.supervised && t.callers == s.callers
    requires t.plane.actors == s.plane.actors[a := s.plane.actors[a].(retired := true)]
    requires Pended(t.plane, a) != Extra(t.plane, a) && t.plane.forwards == s.plane.forwards
    requires forall b | b in s.plane.actors && b != a :: SamePlace(s.plane, t.plane, b) && (Held(t, b) <==> Held(s, b))
    ensures Inv(t)
  {
    OneRetired(s, t, a);
    assert OwnedWell(s, a);
    HandFrame(s, t, a);
  }

  lemma KeepsAbandon(s: State, o: OpId)
    requires Inv(s) && o in s.ops && s.ops[o].pc.Rejected?
    ensures Inv(At(s, o, Leaving).(plane := AddPending(s.plane, s.ops[o].fid, s.ops[o].pc.actor)))
  {
    var a := s.ops[o].pc.actor;
    assert OwnedWell(s, a) && Held(s, a);
    var t := At(s, o, Leaving).(plane := AddPending(s.plane, s.ops[o].fid, a));
    AddPendingEffect(s.plane, s.ops[o].fid, a);
    LetGo(s, t, o, a);
    HandToCleanup(s, t, a);
  }

  lemma KeepsDiscard(s: State, o: OpId)
    requires Inv(s) && o in s.ops && s.ops[o].pc.Rejected?
    ensures var a := s.ops[o].pc.actor;
            a in s.plane.actors
            && Inv(At(s, o, Leaving).(plane := s.plane.(actors := s.plane.actors[a := s.plane.actors[a].(discarded := true)])))
  {
    var a := s.ops[o].pc.actor;
    var x := s.plane.actors[a].(discarded := true);
    var t := At(s, o, Leaving).(plane := s.plane.(actors := s.plane.actors[a := x]));
    assert OwnedWell(s, a) && Held(s, a);
    RecordFrame(s.plane, a, x);
    LetGo(s, t, o, a);
    HandAway(s, t, a);
  }

  lemma HandAway(s: State, t: State, a: ActorId)
    requires Inv(s) && Held(s, a) && OpsInv(t) && !Held(t, a) && KeysInv(t.plane)
    requires t.unlisting == s.unlisting && t.supervised == s.supervised && t.callers == s.callers
    requires t.plane.actors == s.plane.actors[a := s.plane.actors[a].(discarded := true)]
    requires forall b | b in s.plane.actors :: SamePlace(s.plane, t.plane, b) && (b != a ==> (Held(t, b) <==> Held(s, b)))
    ensures Inv(t)
  {
    assert OwnedWell(s, a);
    HandFrame(s, t, a);
  }
}
