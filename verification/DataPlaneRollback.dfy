/** Exactly when a fenced rollback takes effect, over every run. */
module DataPlaneRollback {
  import opened DataPlane
  import opened DataPlaneSystem
  import opened DataPlaneSteps
  import opened DataPlaneRuns
  import opened DataPlaneFences

  /** The step sets the backend target of the actor. */
  predicate Mutates(s: State, st: Step, a: ActorId) {
    || (st.HotUpdate? && st.target.Endpoint? && st.o in s.ops && s.ops[st.o].fid in s.plane.forwards && s.plane.forwards[s.ops[st.o].fid] == a)
    || (st.Rollback? && st.token.0 == a && st.target.Endpoint? && Hits(s.plane, st.f, st.token))
    || (st.LegacyRollback? && st.target.Endpoint? && st.f in s.plane.forwards && s.plane.forwards[st.f] == a)
  }

  predicate Hits(p: Plane, f: Fid, token: (ActorId, nat)) {
    f in p.forwards && p.forwards[f] == token.0 && token.0 in p.actors
    && p.actors[token.0].updateSeq == token.1 && token.1 != 0
  }

  /** The step takes the live actor out of service: a stop, its own failure, a capability loss, a close. */
  predicate Unseats(s: State, st: Step, a: ActorId)
    requires a in s.plane.actors
  {
    || (st.Stop? && st.f == s.plane.actors[a].fid) || (st.RunError? && st.a == a)
    || (st.CapabilityLost? && s.plane.capabilityReady) || st.CloseDemote?
  }

  // ---- one actor through one step ----

  predicate Through(p: Plane, q: Plane, a: ActorId, mutated: bool) {
    a in p.actors ==>
      && a in q.actors && q.actors[a].fid == p.actors[a].fid && (p.actors[a].retired ==> q.actors[a].retired)
      && q.actors[a].updateSeq == p.actors[a].updateSeq + (if mutated then 1 else 0)
  }

  lemma PendingThrough(p: Plane, f: Fid, b: ActorId, a: ActorId)
    ensures Through(p, AddPending(p, f, b), a, false) && Through(p, RemovePending(p, f, b), a, false)
  {
  }

  lemma DemoteThrough(p: Plane, f: Fid, a: ActorId)
    ensures Through(p, Demote(p, f), a, false)
  {
  }

  lemma DemoteAllThrough(p: Plane, a: ActorId)
    ensures Through(p, DemoteAll(p), a, false)
  {
  }

  lemma CleanupThrough(p: Plane, b: ActorId, ok: bool, a: ActorId)
    ensures Through(p, StartCleanup(p, b), a, false) && Through(p, FinishCleanup(p, b, ok), a, false)
  {
  }

  lemma SetTargetThrough(p: Plane, b: ActorId, target: Target, a: ActorId)
    ensures Through(p, SetTarget(p, b, target), a, a == b && target.Endpoint?)
  {
  }

  lemma OpThrough(s: State, st: Step, a: ActorId)
    requires OpStep(st) && OpEnabled(s, st) && a in s.plane.actors
    ensures Through(s.plane, OpDo(s, st).plane, a, Mutates(s, st, a))
  {
    if st.HotUpdate? {
      SetTargetThrough(s.plane, s.plane.forwards[s.ops[st.o].fid], st.target, a);
    } else if st.Abandon? {
      PendingThrough(s.plane, s.ops[st.o].fid, s.ops[st.o].pc.actor, a);
    }
  }

  lemma PlaneThrough(s: State, st: Step, a: ActorId)
    requires !OpStep(st) && !CloseStep(st) && PlaneEnabled(s, st) && a in s.plane.actors
    ensures Through(s.plane, PlaneDo(s, st).plane, a, Mutates(s, st, a))
  {
    if st.Stop? {
      DemoteThrough(s.plane, st.f, a);
    } else if st.RunError? {
      DemoteThrough(s.plane, s.plane.actors[st.a].fid, a);
    } else if st.CapabilityLost? {
      DemoteAllThrough(s.plane, a);
    } else if st.Unlist? {
      PendingThrough(s.plane, s.plane.actors[st.a].fid, st.a, a);
    } else if st.BeginCleanup? {
      CleanupThrough(s.plane, st.a, true, a);
    } else if st.EndCleanup? {
      CleanupThrough(s.plane, st.a, st.ok, a);
    } else if st.Rollback? {
      SetTargetThrough(s.plane, st.token.0, st.target, a);
    } else if st.LegacyRollback? && st.f in s.plane.forwards {
      SetTargetThrough(s.plane, s.plane.forwards[st.f], st.target, a);
    }
  }

  lemma StepThrough(s: State, st: Step, a: ActorId)
    requires Enabled(s, st) && a in s.plane.actors
    ensures Through(s.plane, Do(s, st).plane, a, Mutates(s, st, a))
  {
    if OpStep(st) {
      OpThrough(s, st, a);
    } else if CloseStep(st) {
      CloseThrough(s, st, a);
    } else {
      PlaneThrough(s, st, a);
    }
  }

  lemma CloseThrough(s: State, st: Step, a: ActorId)
    requires CloseStep(st) && CloseEnabled(s, st) && a in s.plane.actors
    ensures Through(s.plane, CloseDo(s, st).plane, a, Mutates(s, st, a))
  {
    DemoteAllThrough(s.plane, a);
  }

  // ---- in service, or retired for good ----

  lemma DemoteSeat(p: Plane, f: Fid, a: ActorId)
    requires Forwarded(p, a)
    ensures if f == p.actors[a].fid then a in Demote(p, f).actors && Demote(p, f).actors[a].retired else Forwarded(Demote(p, f), a)
    ensures a in DemoteAll(p).actors && DemoteAll(p).actors[a].retired
  {
  }

  lemma OpSeat(s: State, st: Step, a: ActorId)
    requires RouteInv(s) && OpStep(st) && OpEnabled(s, st) && Forwarded(s.plane, a)
    ensures Forwarded(OpDo(s, st).plane, a)
  {
    if st.CommitInstall? {
      assert RoutedWell(s, st.o);
    }
  }

  lemma PlaneSeat(s: State, st: Step, a: ActorId)
    requires !OpStep(st) && !CloseStep(st) && PlaneEnabled(s, st) && Forwarded(s.plane, a)
    ensures var q := PlaneDo(s, st).plane;
            if Unseats(s, st, a) then a in q.actors && q.actors[a].retired else Forwarded(q, a)
  {
    if st.Stop? {
      DemoteSeat(s.plane, st.f, a);
    } else if st.RunError? {
      DemoteSeat(s.plane, s.plane.actors[st.a].fid, a);
    } else if st.CapabilityLost? {
      DemoteSeat(s.plane, "", a);
    }
  }

  lemma StepSeat(s: State, st: Step, a: ActorId)
    requires RouteInv(s) && Enabled(s, st) && Forwarded(s.plane, a)
    ensures var q := Do(s, st).plane;
            if Unseats(s, st, a) then a in q.actors && q.actors[a].retired else Forwarded(q, a)
  {
    if OpStep(st) {
      OpSeat(s, st, a);
    } else if CloseStep(st) {
      CloseSeat(s, st, a);
    } else {
      PlaneSeat(s, st, a);
    }
  }

  lemma CloseSeat(s: State, st: Step, a: ActorId)
    requires CloseStep(st) && CloseEnabled(s, st) && Forwarded(s.plane, a)
    ensures var q := CloseDo(s, st).plane;
            if Unseats(s, st, a) then a in q.actors && q.actors[a].retired else Forwarded(q, a)
  {
    DemoteSeat(s.plane, "", a);
  }

  // ---- over runs ----

  /** Between two points of a run nobody set the actor's target. */
  ghost predicate Untouched(r: Run, i: nat, j: nat, a: ActorId)
    requires IsRun(r) && j < |r.states|
  {
    forall m | i <= m < j :: !Mutates(r.states[m], r.steps[m], a)
  }

  /** Between two points of a run nothing took the actor out of service. */
  ghost predicate InService(r: Run, i: nat, j: nat, a: ActorId)
    requires IsRun(r) && j < |r.states|
  {
    forall m | i <= m < j :: a in r.states[m].plane.actors && !Unseats(r.states[m], r.steps[m], a)
  }

  lemma {:induction false} SeqAlong(r: Run, i: nat, j: nat, a: ActorId)
    requires IsRun(r) && i <= j < |r.states| && a in r.states[i].plane.actors
    ensures a in r.states[j].plane.actors && r.states[j].plane.actors[a].fid == r.states[i].plane.actors[a].fid
    ensures r.states[i].plane.actors[a].retired ==> r.states[j].plane.actors[a].retired
    ensures r.states[i].plane.actors[a].updateSeq <= r.states[j].plane.actors[a].updateSeq
    ensures r.states[i].plane.actors[a].updateSeq == r.states[j].plane.actors[a].updateSeq <==> Untouched(r, i, j, a)
    decreases j - i
  {
    if i < j {
      StepThrough(r.states[i], r.steps[i], a);
      SeqAlong(r, i + 1, j, a);
    }
  }

  lemma {:induction false} SeatAlong(r: Run, i: nat, j: nat, a: ActorId)
    requires IsRun(r) && i <= j < |r.states| && Forwarded(r.states[i].plane, a)
    ensures Forwarded(r.states[j].plane, a) <==> InService(r, i, j, a)
    decreases j - i
  {
    if i < j {
      Reachable(r, i);
      StepSeat(r.states[i], r.steps[i], a);
      if Unseats(r.states[i], r.steps[i], a) {
        SeqAlong(r, i + 1, j, a);
        RetiredIsOut(r, j, a);
      } else {
        SeatAlong(r, i + 1, j, a);
      }
    }
  }

  lemma RetiredIsOut(r: Run, j: nat, a: ActorId)
    requires IsRun(r) && j < |r.states| && a in r.states[j].plane.actors && r.states[j].plane.actors[a].retired
    ensures !Forwarded(r.states[j].plane, a)
  {
    Reachable(r, j);
    assert OwnedWell(r.states[j], a);
  }

  /** Only a live actor is mutated; it stays live and its counter is no longer zero. */
  lemma MutationSeats(s: State, st: Step, a: ActorId)
    requires Good(s) && Enabled(s, st) && Mutates(s, st, a)
    ensures Forwarded(Do(s, st).plane, a) && Do(s, st).plane.actors[a].updateSeq != 0
  {
    assert Forwarded(s.plane, a);
    StepSeat(s, st, a);
    StepThrough(s, st, a);
  }

  /** A rollback that hits with a proper target changes the plane; any other leaves it alone. */
  lemma HitsChange(p: Plane, f: Fid, token: (ActorId, nat), target: Target)
    ensures FencedRollback(p, f, token, target) != p <==> Hits(p, f, token) && target.Endpoint?
    ensures Hits(p, f, token) && target.Endpoint? ==> FencedRollback(p, f, token, target).actors[token.0].target == target
  {
    if Hits(p, f, token) && target.Endpoint? {
      assert FencedRollback(p, f, token, target).actors[token.0].updateSeq == p.actors[token.0].updateSeq + 1;
    }
  }

  /**
    The compensation for a mutation, a hot update or an earlier compensation, takes
    effect exactly when its target is an IPv4 endpoint and since then nobody set the
    actor's target and nothing took the actor out of service; and then it sets the
    target it was given.
   */
  lemma RollbackExactly(r: Run, i: nat, j: nat, a: ActorId, target: Target)
    requires IsRun(r) && i < j < |r.steps| && Mutates(r.states[i], r.steps[i], a) && a in r.states[i + 1].plane.actors
    requires var x := r.states[i + 1].plane.actors[a]; r.steps[j] == Rollback(x.fid, (a, x.updateSeq), target)
    ensures r.states[j + 1].plane != r.states[j].plane <==>
              target.Endpoint? && Untouched(r, i + 1, j, a) && InService(r, i + 1, j, a)
    ensures r.states[j + 1].plane != r.states[j].plane ==>
              a in r.states[j + 1].plane.actors && r.states[j + 1].plane.actors[a].target == target
  {
    var x := r.states[i + 1].plane.actors[a];
    Reachable(r, i);
    MutationSeats(r.states[i], r.steps[i], a);
    SeqAlong(r, i + 1, j, a);
    SeatAlong(r, i + 1, j, a);
    HitsChange(r.states[j].plane, x.fid, (a, x.updateSeq), target);
    RollbackDoes(r.states[j], x.fid, (a, x.updateSeq), target);
  }

  lemma RollbackDoes(s: State, f: Fid, token: (ActorId, nat), target: Target)
    requires Enabled(s, Rollback(f, token, target))
    ensures Do(s, Rollback(f, token, target)).plane == FencedRollback(s.plane, f, token, target)
  {
  }
}
