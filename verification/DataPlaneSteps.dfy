/** Every step keeps both invariants of the data-plane step system. */
module DataPlaneSteps {
  import opened DataPlane
  import opened DataPlaneSystem
  import opened DataPlaneInvariant

  // ---- generation stamps ----

  /** The plane may lose forwards and move to newer generations, unless an install holds the mutex. */
  predicate Ages(p: Plane, q: Plane) {
    && (forall f | f in q.forwards :: f in p.forwards)
    && (forall a | a in p.actors :: a in q.actors && q.actors[a].gens == p.actors[a].gens)
    && p.gens.composition <= q.gens.composition && p.gens.capability <= q.gens.capability
    && (p.gens.capability == q.gens.capability ==> p.capabilityReady == q.capabilityReady)
  }

  predicate SameGens(p: Plane, q: Plane) {
    q.gens == p.gens && q.closing == p.closing
  }

  lemma AddPendingAges(p: Plane, f: Fid, a: ActorId)
    ensures Ages(p, AddPending(p, f, a)) && SameGens(p, AddPending(p, f, a))
  {
  }

  lemma RemovePendingAges(p: Plane, f: Fid, a: ActorId)
    ensures Ages(p, RemovePending(p, f, a)) && SameGens(p, RemovePending(p, f, a))
  {
  }

  lemma AcquireAges(p: Plane, a: ActorId, x: Actor)
    requires a !in p.actors
    ensures Ages(p, p.(actors := p.actors[a := x])) && SameGens(p, p.(actors := p.actors[a := x]))
  {
  }

  lemma DemoteAges(p: Plane, f: Fid)
    ensures Ages(p, Demote(p, f)) && SameGens(p, Demote(p, f))
  {
    if f in p.forwards {
      AddPendingAges(p.(forwards := p.forwards - {f}), f, p.forwards[f]);
    }
  }

  lemma SetTargetAges(p: Plane, a: ActorId, target: Target)
    ensures Ages(p, SetTarget(p, a, target)) && SameGens(p, SetTarget(p, a, target))
  {
  }

  lemma StartCleanupAges(p: Plane, a: ActorId)
    ensures Ages(p, StartCleanup(p, a)) && SameGens(p, StartCleanup(p, a))
  {
  }

  lemma FinishCleanupAges(p: Plane, a: ActorId, ok: bool)
    ensures Ages(p, FinishCleanup(p, a, ok)) && SameGens(p, FinishCleanup(p, a, ok))
  {
  }

  lemma DemoteAllAges(p: Plane)
    ensures Ages(p, DemoteAll(p)) && SameGens(p, DemoteAll(p))
  {
  }

  lemma RouteFrame(s: State, t: State)
    requires OpsInv(s) && RouteInv(s) && t.ops == s.ops && Ages(s.plane, t.plane)
    requires s.holder == {} || SameGens(s.plane, t.plane)
    ensures RouteInv(t)
  {
    forall o | o in t.ops ensures RoutedWell(t, o) {
      assert RoutedWell(s, o);
    }
  }

  /** Moving operation `o` and nothing else that the stamps depend on. */
  lemma RouteMove(s: State, t: State, o: OpId)
    requires OpsInv(s) && RouteInv(s) && o in s.ops && t.ops.Keys == s.ops.Keys
    requires forall p | p in s.ops && p != o :: t.ops[p] == s.ops[p]
    requires Ages(s.plane, t.plane) && SameGens(s.plane, t.plane)
    requires RoutedWell(t, o)
    ensures RouteInv(t)
  {
    forall p | p in t.ops ensures RoutedWell(t, p) {
      assert RoutedWell(s, p);
    }
  }

  /** The same with the plane untouched. */
  lemma RouteAt(s: State, t: State, o: OpId)
    requires RouteInv(s) && o in s.ops && t.ops.Keys == s.ops.Keys && t.plane == s.plane
    requires forall p | p in s.ops && p != o :: t.ops[p] == s.ops[p]
    requires RoutedWell(t, o)
    ensures RouteInv(t)
  {
    forall p | p in t.ops ensures RoutedWell(t, p) {
      assert RoutedWell(s, p);
    }
  }

  lemma RouteCommit(s: State, o: OpId)
    requires Inv(s) && RouteInv(s) && o in s.ops && s.ops[o].pc.Installing? && o in s.holder
    ensures var a := s.ops[o].pc.actor;
            RouteInv(At(s, o, Leaving).(plane := s.plane.(forwards := s.plane.forwards[s.ops[o].fid := a]),
                                        supervised := s.supervised + {a}, holder := s.holder - {o}))
  {
    var a := s.ops[o].pc.actor;
    var t := At(s, o, Leaving).(plane := s.plane.(forwards := s.plane.forwards[s.ops[o].fid := a]),
                                supervised := s.supervised + {a}, holder := s.holder - {o});
    forall p | p in t.ops ensures RoutedWell(t, p) {
      assert RoutedWell(s, p);
    }
  }

  ghost predicate Good(s: State) {
    Inv(s) && RouteInv(s)
  }

  // ---- steps by group ----

  lemma KeepsFlags(s: State, q: Plane)
    requires Good(s) && s.holder == {} && DataPlaneInvariant.SameMaps(s.plane, q) && Ages(s.plane, q)
    ensures Good(s.(plane := q))
  {
    FlagSteps(s, q);
    RouteFrame(s, s.(plane := q));
  }

  lemma KeepsFence(s: State, f: Fid)
    requires Good(s)
    ensures Good(s.(fence := s.fence + {f}))
  {
    FlagSteps(s, s.plane);
    RouteFrame(s, s.(fence := s.fence + {f}));
  }

  lemma KeepsLoss(s: State)
    requires Good(s) && Enabled(s, CapabilityLost)
    ensures Good(Do(s, CapabilityLost))
  {
    KeepsCapabilityLost(s);
    DemoteAllAges(s.plane);
    RouteFrame(s, s.(plane := LoseCapability(s.plane)));
  }

  lemma KeepsEntry(s: State, o: OpId, f: Fid, kind: Kind)
    requires Good(s) && Enabled(s, Enter(o, f, kind))
    ensures Good(Do(s, Enter(o, f, kind)))
  {
    KeepsEnter(s, o, f, kind);
    RouteEnter(s, o, f, kind);
  }

  lemma RouteEnter(s: State, o: OpId, f: Fid, kind: Kind)
    requires RouteInv(s) && o !in s.ops
    ensures RouteInv(s.(ops := s.ops[o := Op(f, kind, Waiting)]))
  {
    var t := s.(ops := s.ops[o := Op(f, kind, Waiting)]);
    forall p | p in t.ops ensures RoutedWell(t, p) {
      assert p != o ==> RoutedWell(s, p);
    }
  }

  lemma KeepsPassing(s: State, o: OpId)
    requires Good(s) && Enabled(s, PassGate(o))
    ensures Good(Do(s, PassGate(o)))
  {
    KeepsPassGate(s, o);
    RouteAt(s, At(s, o, Begun).(gate := s.gate[s.ops[o].fid := o]), o);
  }

  lemma KeepsReleasing(s: State, o: OpId)
    requires Good(s) && Enabled(s, Release(o))
    ensures Good(Do(s, Release(o)))
  {
    KeepsRelease(s, o);
    RouteAt(s, At(s, o, Done).(gate := s.gate - {s.ops[o].fid}), o);
  }

  lemma KeepsSnapshotRoute(s: State, o: OpId)
    requires Good(s) && Enabled(s, SnapshotRoute(o))
    ensures Good(Do(s, SnapshotRoute(o)))
  {
    KeepsMove(s, o, Routed(s.plane.gens));
    RouteAt(s, At(s, o, Routed(s.plane.gens)), o);
  }

  lemma KeepsClearForInstall(s: State, o: OpId)
    requires Good(s) && Enabled(s, ClearForInstall(o))
    ensures Good(Do(s, ClearForInstall(o)))
  {
    assert RoutedWell(s, o);
    KeepsMove(s, o, Cleared(s.ops[o].pc.route));
    RouteAt(s, At(s, o, Cleared(s.ops[o].pc.route)), o);
  }

  lemma KeepsQuit(s: State, o: OpId)
    requires Good(s) && Enabled(s, Quit(o))
    ensures Good(Do(s, Quit(o)))
  {
    if s.ops[o].pc.Waiting? {
      KeepsGivingUp(s, o);
    } else {
      KeepsLeaving(s, o);
    }
  }

  lemma KeepsGivingUp(s: State, o: OpId)
    requires Good(s) && o in s.ops && s.ops[o].pc.Waiting?
    ensures Good(At(s, o, Done))
  {
    KeepsGiveUp(s, o);
    RouteAt(s, At(s, o, Done), o);
  }

  lemma KeepsLeaving(s: State, o: OpId)
    requires Good(s) && o in s.ops && (s.ops[o].pc.Begun? || s.ops[o].pc.Routed? || s.ops[o].pc.Cleared?)
    ensures Good(At(s, o, Leaving))
  {
    KeepsMove(s, o, Leaving);
    RouteAt(s, At(s, o, Leaving), o);
  }

  lemma KeepsLocking(s: State, o: OpId)
    requires Good(s) && Enabled(s, LockInstall(o))
    ensures Good(Do(s, LockInstall(o)))
  {
    assert RoutedWell(s, o);
    KeepsLock(s, o);
    RouteAt(s, At(s, o, Installing(s.ops[o].pc.route, s.ops[o].pc.actor)).(holder := {o}), o);
  }

  lemma KeepsRejection(s: State, o: OpId)
    requires Good(s) && Enabled(s, Reject(o))
    ensures Good(Do(s, Reject(o)))
  {
    assert RoutedWell(s, o);
    KeepsReject(s, o);
    RouteAt(s, At(s, o, Rejected(s.ops[o].pc.actor)).(holder := s.holder - {o}), o);
  }

  lemma KeepsAcquisition(s: State, o: OpId, a: ActorId, target: Target)
    requires Good(s) && Enabled(s, Acquire(o, a, target))
    ensures Good(Do(s, Acquire(o, a, target)))
  {
    var t := Do(s, Acquire(o, a, target));
    assert RoutedWell(s, o);
    KeepsAcquire(s, o, s.ops[o].pc.route, a, target);
    AcquireAges(s.plane, a, t.plane.actors[a]);
    RouteMove(s, t, o);
  }

  lemma KeepsCommitInstall(s: State, o: OpId)
    requires Good(s) && Enabled(s, CommitInstall(o))
    ensures Good(Do(s, CommitInstall(o)))
  {
    assert RoutedWell(s, o);
    KeepsCommit(s, o);
    RouteCommit(s, o);
  }

  lemma RouteLeave(s: State, o: OpId, q: Plane)
    requires Good(s) && o in s.ops && Ages(s.plane, q) && SameGens(s.plane, q)
    ensures RouteInv(At(s, o, Leaving).(plane := q))
  {
    RouteMove(s, At(s, o, Leaving).(plane := q), o);
  }

  lemma KeepsAbandonment(s: State, o: OpId)
    requires Good(s) && Enabled(s, Abandon(o))
    ensures Good(Do(s, Abandon(o)))
  {
    var p, f, a := s.plane, s.ops[o].fid, s.ops[o].pc.actor;
    if p.closing {
      KeepsDiscard(s, o);
      RouteLeave(s, o, p.(actors := p.actors[a := p.actors[a].(discarded := true)]));
    } else {
      KeepsAbandon(s, o);
      AddPendingAges(p, f, a);
      RouteLeave(s, o, AddPending(p, f, a));
    }
  }

  lemma KeepsDemotion(s: State, f: Fid)
    requires Good(s)
    ensures Good(s.(plane := Demote(s.plane, f)))
  {
    KeepsStop(s, f);
    DemoteAges(s.plane, f);
    RouteFrame(s, s.(plane := Demote(s.plane, f)));
  }

  lemma KeepsTaking(s: State, a: ActorId)
    requires Good(s) && a in s.plane.actors && (Pended(s.plane, a) || Extra(s.plane, a) || s.plane.actors[a].retired)
    ensures Good(s.(callers := s.callers + {a}))
  {
    assert OwnedWell(s, a);
    KeepsTakeUp(s, a);
    RouteFrame(s, s.(callers := s.callers + {a}));
  }

  lemma KeepsRunError(s: State, a: ActorId)
    requires Good(s) && Enabled(s, RunError(a))
    ensures Good(Do(s, RunError(a)))
  {
    if Forwarded(s.plane, a) {
      KeepsDemoteAndTake(s, a);
    } else {
      assert OwnedWell(s, a);
      KeepsTaking(s, a);
    }
  }

  lemma KeepsDemoteAndTake(s: State, a: ActorId)
    requires Good(s) && a in s.supervised && a in s.plane.actors && Forwarded(s.plane, a)
    ensures Good(s.(plane := Demote(s.plane, s.plane.actors[a].fid), callers := s.callers + {a}))
  {
    var f := s.plane.actors[a].fid;
    KeepsDemotion(s, f);
    KeepsTaking(s.(plane := Demote(s.plane, f)), a);
  }

  lemma KeepsMutation(s: State, a: ActorId, target: Target)
    requires Good(s)
    ensures Good(s.(plane := SetTarget(s.plane, a, target)))
  {
    KeepsSetTarget(s, a, target);
    SetTargetAges(s.plane, a, target);
    RouteFrame(s, s.(plane := SetTarget(s.plane, a, target)));
  }

  lemma KeepsHotUpdate(s: State, o: OpId, target: Target)
    requires Good(s) && Enabled(s, HotUpdate(o, target))
    ensures Good(Do(s, HotUpdate(o, target)))
  {
    var a := s.plane.forwards[s.ops[o].fid];
    KeepsMutation(s, a, target);
    KeepsLeaving(s.(plane := SetTarget(s.plane, a, target)), o);
  }

  lemma KeepsBeginning(s: State, a: ActorId)
    requires Good(s) && Enabled(s, BeginCleanup(a))
    ensures Good(Do(s, BeginCleanup(a)))
  {
    KeepsBeginCleanup(s, a);
    StartCleanupAges(s.plane, a);
    RouteFrame(s, s.(plane := StartCleanup(s.plane, a)));
  }

  lemma KeepsEnding(s: State, a: ActorId, ok: bool)
    requires Good(s) && Enabled(s, EndCleanup(a, ok))
    ensures Good(Do(s, EndCleanup(a, ok)))
  {
    var u := if ok then s.unlisting + {a} else s.unlisting;
    KeepsEndCleanup(s, a, ok, u);
    FinishCleanupAges(s.plane, a, ok);
    RouteFrame(s, s.(plane := FinishCleanup(s.plane, a, ok), unlisting := u));
  }

  lemma KeepsUnlisting(s: State, a: ActorId)
    requires Good(s) && Enabled(s, Unlist(a))
    ensures Good(Do(s, Unlist(a)))
  {
    KeepsUnlist(s, a);
    RemovePendingAges(s.plane, s.plane.actors[a].fid, a);
    RouteFrame(s, s.(plane := RemovePending(s.plane, s.plane.actors[a].fid, a), unlisting := s.unlisting - {a}));
  }

  lemma KeepsCloser(s: State, c: Closer)
    requires Good(s)
    ensures Good(s.(closer := c))
  {
    FlagSteps(s, s.plane);
    RouteFrame(s, s.(closer := c));
  }

  lemma KeepsCloseBegin(s: State)
    requires Good(s) && s.holder == {}
    ensures Good(s.(plane := s.plane.(closing := true), closer := Draining))
  {
    var q := s.plane.(closing := true);
    FlagSteps(s, q);
    RouteFrame(s, s.(plane := q));
    KeepsCloser(s.(plane := q), Draining);
  }

  lemma KeepsClosingDemotion(s: State)
    requires Good(s)
    ensures Good(s.(plane := DemoteAll(s.plane), closer := Demoted))
  {
    KeepsCloseDemote(s);
    DemoteAllAges(s.plane);
    RouteFrame(s, s.(plane := DemoteAll(s.plane), closer := Demoted));
  }

  lemma OpStepKeepsGood(s: State, st: Step)
    requires Good(s) && Enabled(s, st) && OpStep(st)
    ensures Good(Do(s, st))
  {
    if st.Enter? || st.PassGate? || st.Release? || st.SnapshotRoute? || st.ClearForInstall? || st.Quit? {
      BareStepKeepsGood(s, st);
    } else {
      ActorStepKeepsGood(s, st);
    }
  }

  /** The steps of an operation that has no actor in hand and touches none. */
  lemma BareStepKeepsGood(s: State, st: Step)
    requires Good(s) && Enabled(s, st)
    requires st.Enter? || st.PassGate? || st.Release? || st.SnapshotRoute? || st.ClearForInstall? || st.Quit?
    ensures Good(Do(s, st))
  {
    match st
    case Enter(o, f, kind) => KeepsEntry(s, o, f, kind);
    case PassGate(o) => KeepsPassing(s, o);
    case Release(o) => KeepsReleasing(s, o);
    case SnapshotRoute(o) => KeepsSnapshotRoute(s, o);
    case ClearForInstall(o) => KeepsClearForInstall(s, o);
    case Quit(o) => KeepsQuit(s, o);
  }

  lemma ActorStepKeepsGood(s: State, st: Step)
    requires Good(s) && Enabled(s, st)
    requires st.HotUpdate? || st.Acquire? || st.LockInstall? || st.Reject? || st.CommitInstall? || st.Abandon?
    ensures Good(Do(s, st))
  {
    match st
    case HotUpdate(o, target) => KeepsHotUpdate(s, o, target);
    case Acquire(o, a, target) => KeepsAcquisition(s, o, a, target);
    case LockInstall(o) => KeepsLocking(s, o);
    case Reject(o) => KeepsRejection(s, o);
    case CommitInstall(o) => KeepsCommitInstall(s, o);
    case Abandon(o) => KeepsAbandonment(s, o);
  }

  lemma CloseStepKeepsGood(s: State, st: Step)
    requires Good(s) && Enabled(s, st)
    requires CloseStep(st)
    ensures Good(Do(s, st))
  {
    match st
    case CloseBegin => KeepsCloseBegin(s);
    case CloseDemote => KeepsClosingDemotion(s);
    case CloseList => KeepsCloser(s, Do(s, st).closer);
    case CloseItem(_, _) => KeepsCloser(s, Do(s, st).closer);
    case CloseReturn => KeepsCloser(s, Do(s, st).closer);
    case CloseGiveUp => KeepsCloser(s, Do(s, st).closer);
  }

  lemma CleanupStepKeepsGood(s: State, st: Step)
    requires Good(s) && Enabled(s, st) && (st.TakeUp? || st.BeginCleanup? || st.EndCleanup? || st.Unlist?)
    ensures Good(Do(s, st))
  {
    match st
    case TakeUp(a) => KeepsTaking(s, a);
    case BeginCleanup(a) => KeepsBeginning(s, a);
    case EndCleanup(a, ok) => KeepsEnding(s, a, ok);
    case Unlist(a) => KeepsUnlisting(s, a);
  }

  lemma PlaneStepKeepsGood(s: State, st: Step)
    requires Good(s) && Enabled(s, st) && !OpStep(st) && !CloseStep(st)
    ensures Good(Do(s, st))
  {
    match st
    case FenceDelete(f) => KeepsFence(s, f);
    case RebuildTraversal => KeepsFlags(s, Rebuild(s.plane));
    case CapabilityLost => KeepsLoss(s);
    case CapabilityRestored(fp) => KeepsFlags(s, RestoreCapability(s.plane, fp));
    case Stop(f) => KeepsDemotion(s, f);
    case RunError(a) => KeepsRunError(s, a);
    case TakeUp(_) => CleanupStepKeepsGood(s, st);
    case BeginCleanup(_) => CleanupStepKeepsGood(s, st);
    case EndCleanup(_, _) => CleanupStepKeepsGood(s, st);
    case Unlist(_) => CleanupStepKeepsGood(s, st);
    case Rollback(_, token, target) => KeepsMutation(s, token.0, target);
    case LegacyRollback(f, target) =>
      if f in s.plane.forwards {
        KeepsMutation(s, s.plane.forwards[f], target);
      }
  }

  /** Every step of the system keeps ownership, gate and stamp invariants. */
  lemma StepKeepsGood(s: State, st: Step)
    requires Good(s) && Enabled(s, st)
    ensures Good(Do(s, st))
  {
    if OpStep(st) {
      OpStepKeepsGood(s, st);
    } else if CloseStep(st) {
      CloseStepKeepsGood(s, st);
    } else {
      PlaneStepKeepsGood(s, st);
    }
  }
}
