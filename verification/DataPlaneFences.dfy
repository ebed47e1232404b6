/** The generation fence of installs and the sequence fence of rollbacks, over every run. */
module DataPlaneFences {
  import opened DataPlane
  import opened DataPlaneSystem
  import opened DataPlaneSteps
  import opened DataPlaneRuns

  // ---- generations only grow ----

  predicate GensGrow(p: Plane, q: Plane) {
    && p.gens.composition <= q.gens.composition && p.gens.capability <= q.gens.capability
    && (p.gens.capability == q.gens.capability ==>
          p.capabilityReady == q.capabilityReady && p.gens.fingerprint == q.gens.fingerprint)
  }

  lemma PlaneStepGens(s: State, st: Step)
    requires !OpStep(st) && !CloseStep(st) && PlaneEnabled(s, st)
    ensures GensGrow(s.plane, PlaneDo(s, st).plane)
    ensures st.RebuildTraversal? ==> PlaneDo(s, st).plane.gens.composition > s.plane.gens.composition
    ensures st.CapabilityLost? && s.plane.capabilityReady ==>
              PlaneDo(s, st).plane.gens.capability > s.plane.gens.capability
    ensures st.CapabilityRestored? && !s.plane.capabilityReady ==>
              PlaneDo(s, st).plane.gens.capability > s.plane.gens.capability
  {
  }

  lemma OpStepGens(s: State, st: Step)
    requires OpStep(st) && OpEnabled(s, st)
    ensures GensGrow(s.plane, OpDo(s, st).plane)
  {
  }

  lemma StepGens(s: State, st: Step)
    requires Enabled(s, st)
    ensures GensGrow(s.plane, Do(s, st).plane)
    ensures st.RebuildTraversal? ==> Do(s, st).plane.gens.composition > s.plane.gens.composition
    ensures st.CapabilityLost? && s.plane.capabilityReady ==> Do(s, st).plane.gens.capability > s.plane.gens.capability
    ensures st.CapabilityRestored? && !s.plane.capabilityReady ==>
              Do(s, st).plane.gens.capability > s.plane.gens.capability
  {
    if OpStep(st) {
      OpStepGens(s, st);
    } else if !CloseStep(st) {
      PlaneStepGens(s, st);
    }
  }

  lemma RunGens(r: Run, i: nat)
    requires IsRun(r) && i < |r.steps|
    ensures GensGrow(r.states[i].plane, r.states[i + 1].plane)
  {
    StepGens(r.states[i], r.steps[i]);
  }

  lemma GensGrowTrans(p: Plane, q: Plane, r: Plane)
    requires GensGrow(p, q) && GensGrow(q, r)
    ensures GensGrow(p, r)
  {
  }

  lemma {:induction false} GensGrowAlong(r: Run, i: nat, j: nat)
    requires IsRun(r) && i <= j < |r.states|
    ensures GensGrow(r.states[i].plane, r.states[j].plane)
    decreases j - i
  {
    if i < j {
      RunGens(r, i);
      GensGrowAlong(r, i + 1, j);
      GensGrowTrans(r.states[i].plane, r.states[i + 1].plane, r.states[j].plane);
    }
  }

  // ---- an operation keeps its route ----

  /** Operation `o` took its route snapshot when the generations were `g`. */
  predicate RoutedAt(s: State, o: OpId, g: Gens) {
    o in s.ops && !s.ops[o].pc.Waiting? && !s.ops[o].pc.Begun? && (HasRoute(s.ops[o].pc) ==> s.ops[o].pc.route == g)
  }

  lemma OpStepKeepsRoute(s: State, st: Step, o: OpId, g: Gens)
    requires OpStep(st) && OpEnabled(s, st) && RoutedAt(s, o, g)
    ensures RoutedAt(OpDo(s, st), o, g)
  {
    if st.o != o {
      assert OpDo(s, st).ops[o] == s.ops[o];
    }
  }

  lemma OpsUntouched(s: State, st: Step)
    requires Enabled(s, st) && !OpStep(st)
    ensures Do(s, st).ops == s.ops
  {
  }

  lemma StepKeepsRoute(s: State, st: Step, o: OpId, g: Gens)
    requires Enabled(s, st) && RoutedAt(s, o, g)
    ensures RoutedAt(Do(s, st), o, g)
  {
    if OpStep(st) {
      OpStepKeepsRoute(s, st, o, g);
    } else {
      OpsUntouched(s, st);
    }
  }

  lemma {:induction false} RouteKept(r: Run, i: nat, j: nat, o: OpId)
    requires IsRun(r) && i < j < |r.states| && r.steps[i] == SnapshotRoute(o)
    ensures RoutedAt(r.states[j], o, r.states[i].plane.gens)
    decreases j
  {
    if i + 1 < j {
      RouteKept(r, i, j - 1, o);
      StepKeepsRoute(r.states[j - 1], r.steps[j - 1], o, r.states[i].plane.gens);
    }
  }

  /**
    When an actor is published, no rebuild and no capability loss or restore
    happened since its operation's route snapshot; when an apply published it,
    the capability was ready at every moment in between.
   */
  lemma GenerationFence(r: Run, i: nat, j: nat, o: OpId, m: nat)
    requires IsRun(r) && i < j < |r.steps| && r.steps[i] == SnapshotRoute(o) && r.steps[j] == CommitInstall(o)
    requires i <= m <= j
    ensures r.states[m].plane.gens == r.states[i].plane.gens
    ensures m < j ==> r.steps[m] != RebuildTraversal
    ensures m < j && r.steps[m].CapabilityLost? ==> !r.states[m].plane.capabilityReady
    ensures m < j && r.steps[m].CapabilityRestored? ==> r.states[m].plane.capabilityReady
    ensures r.states[j].ops[o].kind.Apply? ==> r.states[m].plane.capabilityReady
  {
    Reachable(r, j);
    RouteKept(r, i, j, o);
    assert RoutedWell(r.states[j], o);
    GensGrowAlong(r, i, m);
    GensGrowAlong(r, m, j);
    if m < j {
      StepGens(r.states[m], r.steps[m]);
      GensGrowAlong(r, m + 1, j);
    }
  }

  // ---- rollback ----

  /** The update counter of an actor never falls, and while it stands still so does the target. */
  predicate TargetGrows(p: Plane, q: Plane, a: ActorId) {
    a in p.actors ==>
      && a in q.actors && p.actors[a].updateSeq <= q.actors[a].updateSeq
      && (p.actors[a].updateSeq == q.actors[a].updateSeq ==> p.actors[a].target == q.actors[a].target)
  }

  lemma StepTarget(s: State, st: Step, a: ActorId)
    requires Enabled(s, st)
    ensures TargetGrows(s.plane, Do(s, st).plane, a)
  {
    if st.BeginCleanup? {
      CleanupTarget(s.plane, st.a, true, a);
    } else if st.EndCleanup? {
      CleanupTarget(s.plane, st.a, st.ok, a);
    } else {
      StepGrows(s, st);
    }
  }

  lemma CleanupTarget(p: Plane, b: ActorId, ok: bool, a: ActorId)
    ensures TargetGrows(p, StartCleanup(p, b), a) && TargetGrows(p, FinishCleanup(p, b, ok), a)
  {
  }

  lemma {:induction false} TargetGrowsAlong(r: Run, i: nat, j: nat, a: ActorId)
    requires IsRun(r) && i <= j < |r.states|
    ensures TargetGrows(r.states[i].plane, r.states[j].plane, a)
    decreases j - i
  {
    if i < j {
      RunTarget(r, i, a);
      TargetGrowsAlong(r, i + 1, j, a);
      TargetGrowsTrans(r.states[i].plane, r.states[i + 1].plane, r.states[j].plane, a);
    }
  }

  lemma RunTarget(r: Run, i: nat, a: ActorId)
    requires IsRun(r) && i < |r.steps|
    ensures TargetGrows(r.states[i].plane, r.states[i + 1].plane, a)
  {
    StepTarget(r.states[i], r.steps[i], a);
  }

  lemma TargetGrowsTrans(p: Plane, q: Plane, r: Plane, a: ActorId)
    requires TargetGrows(p, q, a) && TargetGrows(q, r, a)
    ensures TargetGrows(p, r, a)
  {
  }

  /** What a compensation does: all or nothing, and only to the token's own actor. */
  lemma RollbackEffect(p: Plane, f: Fid, token: (ActorId, nat), target: Target)
    ensures var q := FencedRollback(p, f, token, target);
            var hit := f in p.forwards && p.forwards[f] == token.0 && token.0 in p.actors
                       && p.actors[token.0].updateSeq == token.1 && token.1 != 0 && target.Endpoint?;
            && q.forwards == p.forwards && q.pending == p.pending && q.extras == p.extras && q.gens == p.gens
            && q.actors.Keys == p.actors.Keys
            && (forall b | b in p.actors && (b != token.0 || !hit) :: q.actors[b] == p.actors[b])
            && (hit ==> q.actors[token.0].target == target && q.actors[token.0].updateSeq == token.1 + 1)
  {
  }

  /**
    A compensation whose token was issued by the mutation at step `i` changes
    anything at step `j` only when that actor is still the live one of its forward
    and nobody updated it in between, however often a target value came back.
   */
  lemma RollbackOnlyUndoesTheLatest(r: Run, i: nat, j: nat, m: nat, f: Fid, a: ActorId, target: Target)
    requires IsRun(r) && i < j < |r.steps| && i < m <= j && a in r.states[i + 1].plane.actors
    requires r.steps[j] == Rollback(f, (a, r.states[i + 1].plane.actors[a].updateSeq), target)
    requires r.states[j + 1].plane != r.states[j].plane
    ensures f in r.states[j].plane.forwards && r.states[j].plane.forwards[f] == a
    ensures a in r.states[m].plane.actors
    ensures r.states[m].plane.actors[a].updateSeq == r.states[i + 1].plane.actors[a].updateSeq
    ensures r.states[m].plane.actors[a].target == r.states[i + 1].plane.actors[a].target
    ensures a in r.states[j + 1].plane.actors && r.states[j + 1].plane.actors[a].target == target
  {
    var token := (a, r.states[i + 1].plane.actors[a].updateSeq);
    RollbackEffect(r.states[j].plane, f, token, target);
    TargetGrowsAlong(r, i + 1, m, a);
    TargetGrowsAlong(r, m, j, a);
  }
}
