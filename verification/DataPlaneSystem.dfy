/**
  Every interleaving of the data plane's operations, as a step system.

  One step is one section under the data-plane mutex, one section under an
  actor's cleanup mutex, one external action (an acquisition, a cleanup attempt)
  or one change of the durable delete fence.  The fence is not guarded by the
  mutex: it may grow between any two steps, also while an install section holds
  the mutex, so an install is two steps with the mutex held between them.
 */
module DataPlaneSystem {
  import opened DataPlane

  type OpId = nat

  datatype Kind = Apply | Reopen

  /** Where an admitted apply or reopen is. */
  datatype Pc =
    | Waiting                                  // admitted, not yet past the per-forward gate
    | Begun                                    // holds the gate
    | Routed(route: Gens)                      // generations snapshot taken
    | Cleared(route: Gens)                     // apply only: checked, about to acquire
    | Acquired(route: Gens, actor: ActorId)
    | Installing(route: Gens, actor: ActorId)  // holds the mutex
    | Rejected(actor: ActorId)                 // must abandon the actor
    | Leaving                                  // holds the gate, nothing else
    | Done

  datatype Op = Op(fid: Fid, kind: Kind, pc: Pc)

  datatype Closer =
    | Idle
    | Draining
    | Demoted
    | Collecting(todo: set<ActorId>, failed: bool)
    | Returned(ok: bool)

  datatype State = State(
    plane: Plane,
    ops: map<OpId, Op>,
    gate: map<Fid, OpId>,      // forwardOps entries that are active
    holder: set<OpId>,         // who holds the mutex across steps
    fence: set<Fid>,           // durable delete fences
    supervised: set<ActorId>,  // actors whose accept loop was started
    callers: set<ActorId>,     // actors some thread is going to pass to cleanupActor
    unlisting: set<ActorId>,   // cleaned, removal section still to come
    closer: Closer)

  datatype Step =
    | FenceDelete(f: Fid)
    | RebuildTraversal
    | CapabilityLost
    | CapabilityRestored(fingerprint: string)
    | Enter(o: OpId, f: Fid, kind: Kind)
    | PassGate(o: OpId)
    | SnapshotRoute(o: OpId)
    | ClearForInstall(o: OpId)
    | HotUpdate(o: OpId, target: Target)
    | Acquire(o: OpId, a: ActorId, target: Target)
    | LockInstall(o: OpId)
    | CommitInstall(o: OpId)
    | Reject(o: OpId)
    | Abandon(o: OpId)
    | Quit(o: OpId)
    | Release(o: OpId)
    | Stop(f: Fid)
    | RunError(a: ActorId)
    | TakeUp(a: ActorId)
    | BeginCleanup(a: ActorId)
    | EndCleanup(a: ActorId, ok: bool)
    | Unlist(a: ActorId)
    | Rollback(f: Fid, token: (ActorId, nat), target: Target)
    | LegacyRollback(f: Fid, target: Target)
    | CloseBegin
    | CloseDemote
    | CloseList
    | CloseItem(a: ActorId, ok: bool)
    | CloseReturn
    | CloseGiveUp

  predicate HoldsGate(pc: Pc) {
    !pc.Waiting? && !pc.Done?
  }

  predicate HoldsActor(pc: Pc, a: ActorId) {
    (pc.Acquired? || pc.Installing? || pc.Rejected?) && pc.actor == a
  }

  /** The actor is in the hands of the in-flight operation of its forward. */
  predicate Held(s: State, a: ActorId) {
    a in s.plane.actors
    && var f := s.plane.actors[a].fid;
       f in s.gate && s.gate[f] in s.ops && HoldsActor(s.ops[s.gate[f]].pc, a)
  }

  predicate Free(s: State) {
    s.holder == {}
  }

  /** No admitted operation is left (the admission wait group is at zero). */
  predicate Drained(s: State) {
    forall o | o in s.ops :: s.ops[o].pc.Done?
  }

  predicate OpStep(st: Step) {
    st.Enter? || st.PassGate? || st.SnapshotRoute? || st.ClearForInstall? || st.HotUpdate? || st.Acquire?
    || st.LockInstall? || st.CommitInstall? || st.Reject? || st.Abandon? || st.Quit? || st.Release?
  }

  predicate CloseStep(st: Step) {
    st.CloseBegin? || st.CloseDemote? || st.CloseList? || st.CloseItem? || st.CloseReturn? || st.CloseGiveUp?
  }

  // ---- guards ----

  predicate Enabled(s: State, st: Step) {
    if OpStep(st) then OpEnabled(s, st)
    else if CloseStep(st) then CloseEnabled(s, st)
    else PlaneEnabled(s, st)
  }

  predicate OpEnabled(s: State, st: Step)
    requires OpStep(st)
  {
    var p := s.plane;
    match st
    case Enter(o, _, _) => Free(s) && o !in s.ops && !p.closing
    case PassGate(o) => o in s.ops && s.ops[o].pc.Waiting? && s.ops[o].fid !in s.gate
    case SnapshotRoute(o) => Free(s) && o in s.ops && s.ops[o].pc.Begun?
    case ClearForInstall(o) =>
      Free(s) && o in s.ops && s.ops[o].kind.Apply? && s.ops[o].pc.Routed?
      && !p.closing && PendingFor(p, s.ops[o].fid) == {} && s.ops[o].fid !in p.forwards
      && p.capabilityReady && s.ops[o].fid !in s.fence
    case HotUpdate(o, _) =>
      Free(s) && o in s.ops && s.ops[o].kind.Apply? && s.ops[o].pc.Routed?
      && !p.closing && PendingFor(p, s.ops[o].fid) == {} && s.ops[o].fid in p.forwards
      && s.ops[o].fid !in s.fence && p.capabilityReady
    case Acquire(o, a, _) =>
      o in s.ops && a !in p.actors
      && (if s.ops[o].kind.Apply? then s.ops[o].pc.Cleared? else s.ops[o].pc.Routed?)
    case LockInstall(o) =>
      Free(s) && o in s.ops && s.ops[o].pc.Acquired? && s.ops[o].pc.actor in p.actors
      && !p.closing && p.actors[s.ops[o].pc.actor].gens == p.gens
      && s.ops[o].fid !in s.fence && s.ops[o].fid !in p.forwards
      && (s.ops[o].kind.Reopen? ==> PendingFor(p, s.ops[o].fid) == {})
    case CommitInstall(o) => o in s.ops && s.ops[o].pc.Installing? && o in s.holder
    // Every refusal between acquisition and publication: closing, a stale
    // generation, a fence, an unreadable store, the terminal latch, a failed
    // journal refresh.  Allowing it always only adds behaviours.
    case Reject(o) => o in s.ops && (s.ops[o].pc.Acquired? || (s.ops[o].pc.Installing? && o in s.holder))
    case Abandon(o) => Free(s) && o in s.ops && s.ops[o].pc.Rejected?
    // Every error return of an operation that owns no actor.
    case Quit(o) => o in s.ops && (s.ops[o].pc.Waiting? || s.ops[o].pc.Begun? || s.ops[o].pc.Routed? || s.ops[o].pc.Cleared?)
    case Release(o) => o in s.ops && s.ops[o].pc.Leaving?
  }

  predicate CloseEnabled(s: State, st: Step)
    requires CloseStep(st)
  {
    match st
    case CloseBegin => Free(s) && (s.closer.Idle? || s.closer.Returned?)
    case CloseDemote => Free(s) && s.closer.Draining? && Drained(s)
    case CloseList => Free(s) && s.closer.Demoted?
    // cleanupActor's answer for one listed actor.  Nil comes from a completed
    // actor, from a finished attempt whose recorded error is nil, or from an
    // attempt of the caller's own that just succeeded.
    case CloseItem(a, ok) =>
      s.closer.Collecting? && a in s.closer.todo
      && (ok ==> a in s.plane.actors && s.plane.actors[a].finished > 0 && !s.plane.actors[a].failed)
    case CloseReturn => s.closer.Collecting? && s.closer.todo == {}
    case CloseGiveUp => s.closer.Draining? || s.closer.Demoted? || s.closer.Collecting?
  }

  predicate PlaneEnabled(s: State, st: Step)
    requires !OpStep(st) && !CloseStep(st)
  {
    var p := s.plane;
    match st
    case FenceDelete(_) => true
    case RebuildTraversal => Free(s)
    case CapabilityLost => Free(s)
    case CapabilityRestored(_) => Free(s)
    case Stop(_) => Free(s)
    case RunError(a) => Free(s) && a in s.supervised && a in p.actors
    // Who calls cleanupActor got the actor from a cleanup map under the mutex,
    // or supervised its failed accept loop.
    case TakeUp(a) => Free(s) && (Pended(p, a) || Extra(p, a))
    case BeginCleanup(a) => a in s.callers && a in p.actors && !p.actors[a].complete && !p.actors[a].inProgress
    case EndCleanup(a, _) => a in p.actors && p.actors[a].inProgress
    case Unlist(a) => Free(s) && a in s.unlisting && a in p.actors
    case Rollback(_, _, _) => Free(s)
    case LegacyRollback(_, _) => Free(s)
  }

  // ---- effects ----

  function At(s: State, o: OpId, pc: Pc): State
    requires o in s.ops
  {
    s.(ops := s.ops[o := s.ops[o].(pc := pc)])
  }

  function Do(s: State, st: Step): State
    requires Enabled(s, st)
  {
    if OpStep(st) then OpDo(s, st)
    else if CloseStep(st) then CloseDo(s, st)
    else PlaneDo(s, st)
  }

  function OpDo(s: State, st: Step): State
    requires OpStep(st) && OpEnabled(s, st)
  {
    var p := s.plane;
    match st
    case Enter(o, f, kind) => s.(ops := s.ops[o := Op(f, kind, Waiting)])
    case PassGate(o) => At(s, o, Begun).(gate := s.gate[s.ops[o].fid := o])
    case SnapshotRoute(o) => At(s, o, Routed(p.gens))
    case ClearForInstall(o) => At(s, o, Cleared(s.ops[o].pc.route))
    case HotUpdate(o, target) =>
      At(s, o, Leaving).(plane := SetTarget(p, p.forwards[s.ops[o].fid], target))
    case Acquire(o, a, target) =>
      At(s, o, Acquired(s.ops[o].pc.route, a))
        .(plane := p.(actors := p.actors[a := FreshActor(s.ops[o].fid, s.ops[o].pc.route, target)]))
    case LockInstall(o) =>
      At(s, o, Installing(s.ops[o].pc.route, s.ops[o].pc.actor)).(holder := {o})
    case CommitInstall(o) =>
      At(s, o, Leaving).(plane := p.(forwards := p.forwards[s.ops[o].fid := s.ops[o].pc.actor]),
                         supervised := s.supervised + {s.ops[o].pc.actor},
                         holder := s.holder - {o})
    case Reject(o) => At(s, o, Rejected(s.ops[o].pc.actor)).(holder := s.holder - {o})
    case Abandon(o) =>
      var a := s.ops[o].pc.actor;
      At(s, o, Leaving).(plane :=
        if !p.closing then AddPending(p, s.ops[o].fid, a)
        else if a in p.actors then p.(actors := p.actors[a := p.actors[a].(discarded := true)])
        else p)
    case Quit(o) => At(s, o, if s.ops[o].pc.Waiting? then Done else Leaving)
    case Release(o) => At(s, o, Done).(gate := s.gate - {s.ops[o].fid})
  }

  function CloseDo(s: State, st: Step): State
    requires CloseStep(st) && CloseEnabled(s, st)
  {
    match st
    case CloseBegin => s.(plane := s.plane.(closing := true), closer := Draining)
    case CloseDemote => s.(plane := DemoteAll(s.plane), closer := Demoted)
    case CloseList => s.(closer := Collecting(Listed(s.plane), false))
    case CloseItem(a, ok) => s.(closer := Collecting(s.closer.todo - {a}, s.closer.failed || !ok))
    case CloseReturn => s.(closer := Returned(!s.closer.failed))
    case CloseGiveUp => s.(closer := Returned(false))
  }

  function PlaneDo(s: State, st: Step): State
    requires !OpStep(st) && !CloseStep(st) && PlaneEnabled(s, st)
  {
    var p := s.plane;
    match st
    case FenceDelete(f) => s.(fence := s.fence + {f})
    case RebuildTraversal => s.(plane := Rebuild(p))
    case CapabilityLost => s.(plane := LoseCapability(p))
    case CapabilityRestored(fp) => s.(plane := RestoreCapability(p, fp))
    case Stop(f) => s.(plane := Demote(p, f))
    case RunError(a) =>
      s.(plane := if Forwarded(p, a) then Demote(p, p.actors[a].fid) else p, callers := s.callers + {a})
    case TakeUp(a) => s.(callers := s.callers + {a})
    case BeginCleanup(a) => s.(plane := StartCleanup(p, a))
    case EndCleanup(a, ok) =>
      s.(plane := FinishCleanup(p, a, ok), unlisting := if ok then s.unlisting + {a} else s.unlisting)
    case Unlist(a) =>
      s.(plane := RemovePending(p, p.actors[a].fid, a), unlisting := s.unlisting - {a})
    case Rollback(f, token, target) => s.(plane := FencedRollback(p, f, token, target))
    case LegacyRollback(f, target) =>
      s.(plane := if f in p.forwards then SetTarget(p, p.forwards[f], target) else p)
  }

  predicate Initial(s: State) {
    && s.plane == NewPlane(s.plane.capabilityReady, s.plane.gens.fingerprint)
    && s.ops == map[] && s.gate == map[] && s.holder == {} && s.supervised == {} && s.callers == {} && s.unlisting == {}
    && s.closer == Idle
  }

  // ---- the invariant ----

  /** Counts the places an actor is kept in. */
  function Places(s: State, a: ActorId): nat {
    (if Held(s, a) then 1 else 0) + (if Forwarded(s.plane, a) then 1 else 0)
    + (if Pended(s.plane, a) then 1 else 0) + (if Extra(s.plane, a) then 1 else 0)
  }

  ghost predicate OpsInv(s: State) {
    && (forall o | o in s.ops && HoldsGate(s.ops[o].pc) ::
          s.ops[o].fid in s.gate && s.gate[s.ops[o].fid] == o)
    && (forall f | f in s.gate ::
          s.gate[f] in s.ops && s.ops[s.gate[f]].fid == f && HoldsGate(s.ops[s.gate[f]].pc))
    && (forall o | o in s.ops && (s.ops[o].pc.Acquired? || s.ops[o].pc.Installing? || s.ops[o].pc.Rejected?) ::
          s.ops[o].pc.actor in s.plane.actors && s.plane.actors[s.ops[o].pc.actor].fid == s.ops[o].fid)
    && (forall o | o in s.holder :: o in s.ops && s.ops[o].pc.Installing? && s.holder == {o})
    && (forall o | o in s.ops && s.ops[o].pc.Installing? :: o in s.holder)
  }

  ghost predicate KeysInv(p: Plane) {
    && (forall f | f in p.forwards :: p.forwards[f] in p.actors && p.actors[p.forwards[f]].fid == f)
    && (forall f | f in p.pending :: p.pending[f] in p.actors && p.actors[p.pending[f]].fid == f)
    && (forall a | a in p.extras :: a in p.actors && p.actors[a].fid == p.extras[a])
  }

  /** Cleanup bookkeeping of one actor. */
  predicate CleanupInv(a: Actor) {
    && (a.started > 0 ==> a.retired)
    && a.started == a.finished + (if a.inProgress then 1 else 0)
    && (a.complete ==> !a.inProgress && a.finished > 0)
    && (a.finished > 0 ==> (a.complete <==> !a.failed))
    && (a.discarded ==> !a.retired)
  }

  /** Where one actor is kept, and what its flags say about that. */
  ghost predicate OwnedWell(s: State, a: ActorId)
    requires a in s.plane.actors
  {
    && CleanupInv(s.plane.actors[a])
    && Places(s, a) <= 1
    && (Held(s, a) || Forwarded(s.plane, a) ==> !s.plane.actors[a].retired && !s.plane.actors[a].discarded)
    && (Pended(s.plane, a) || Extra(s.plane, a) ==> s.plane.actors[a].retired)
    && (!s.plane.actors[a].complete && !s.plane.actors[a].discarded ==> Places(s, a) == 1)
    && (a in s.supervised ==> Forwarded(s.plane, a) || s.plane.actors[a].retired)
  }

  ghost predicate OwnerInv(s: State) {
    forall a | a in s.plane.actors :: OwnedWell(s, a)
  }

  ghost predicate SetsInv(s: State) {
    && (forall a | a in s.unlisting :: a in s.plane.actors && s.plane.actors[a].complete)
    && (forall a | a in s.supervised :: a in s.plane.actors)
    && (forall a | a in s.callers :: a in s.plane.actors && s.plane.actors[a].retired)
  }

  ghost predicate Inv(s: State) {
    OpsInv(s) && KeysInv(s.plane) && OwnerInv(s) && SetsInv(s)
  }

  predicate HasRoute(pc: Pc) {
    pc.Routed? || pc.Cleared? || pc.Acquired? || pc.Installing?
  }

  /** What the generation stamps of an operation say about the present. */
  predicate RoutedWell(s: State, o: OpId)
    requires o in s.ops
  {
    var op := s.ops[o];
    && (HasRoute(op.pc) ==>
          op.pc.route.composition <= s.plane.gens.composition && op.pc.route.capability <= s.plane.gens.capability)
    && (op.pc.Acquired? || op.pc.Installing? ==>
          op.pc.actor in s.plane.actors && s.plane.actors[op.pc.actor].gens == op.pc.route)
    && (op.kind.Apply? && (op.pc.Cleared? || op.pc.Acquired? || op.pc.Installing? || op.pc.Rejected?) ==>
          op.fid !in s.plane.forwards)
    && (op.kind.Apply? && (op.pc.Cleared? || op.pc.Acquired? || op.pc.Installing?) ==>
          (op.pc.route.capability == s.plane.gens.capability ==> s.plane.capabilityReady))
    && (op.pc.Installing? ==> op.fid !in s.plane.forwards && op.pc.route == s.plane.gens && !s.plane.closing)
  }

  ghost predicate RouteInv(s: State) {
    forall o | o in s.ops :: RoutedWell(s, o)
  }
}
