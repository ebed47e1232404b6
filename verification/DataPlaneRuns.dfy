/** What holds in every run of the data plane, for every interleaving. */
module DataPlaneRuns {
  import opened DataPlane
  import opened DataPlaneSystem
  import opened DataPlaneSteps

  datatype Run = Run(states: seq<State>, steps: seq<Step>)

  ghost predicate IsRun(r: Run) {
    && |r.states| == |r.steps| + 1
    && Initial(r.states[0])
    && forall i | 0 <= i < |r.steps| ::
         Enabled(r.states[i], r.steps[i]) && r.states[i + 1] == Do(r.states[i], r.steps[i])
  }

  lemma {:induction false} Reachable(r: Run, i: nat)
    requires IsRun(r) && i < |r.states|
    ensures Good(r.states[i])
  {
    if i > 0 {
      Reachable(r, i - 1);
      StepKeepsGood(r.states[i - 1], r.steps[i - 1]);
    }
  }

  // ---- ownership ----

  /** Every actor that is neither clean nor discarded is kept in exactly one place. */
  lemma OwnershipConserved(r: Run, i: nat, a: ActorId)
    requires IsRun(r) && i < |r.states| && a in r.states[i].plane.actors
    ensures var s := r.states[i];
            && (!s.plane.actors[a].complete && !s.plane.actors[a].discarded ==> Places(s, a) == 1)
            && Places(s, a) <= 1
            && (Forwarded(s.plane, a) ==> s.plane.actors[a].started == 0 && !s.plane.actors[a].complete)
  {
    Reachable(r, i);
    assert OwnedWell(r.states[i], a);
  }

  /** How a step other than a cleanup attempt may change an actor's record. */
  predicate Grows(x: Actor, y: Actor) {
    && y.complete == x.complete && y.inProgress == x.inProgress && (x.discarded ==> y.discarded)
    && x.updateSeq <= y.updateSeq && (x.updateSeq == y.updateSeq ==> x.target == y.target)
  }

  ghost predicate AllGrow(p: Plane, q: Plane) {
    forall a | a in p.actors :: a in q.actors && Grows(p.actors[a], q.actors[a])
  }

  lemma DemotionsGrow(p: Plane, f: Fid)
    ensures AllGrow(p, Demote(p, f)) && AllGrow(p, DemoteAll(p))
  {
  }

  lemma AbandonGrows(p: Plane, f: Fid, a: ActorId)
    ensures AllGrow(p, AddPending(p, f, a))
    ensures a in p.actors ==> AllGrow(p, p.(actors := p.actors[a := p.actors[a].(discarded := true)]))
  {
  }

  lemma SetTargetGrows(p: Plane, a: ActorId, target: Target)
    ensures AllGrow(p, SetTarget(p, a, target))
  {
  }

  lemma OpStepGrows(s: State, st: Step)
    requires OpStep(st) && OpEnabled(s, st)
    ensures AllGrow(s.plane, OpDo(s, st).plane)
  {
    if st.Abandon? {
      AbandonGrows(s.plane, s.ops[st.o].fid, s.ops[st.o].pc.actor);
    } else if st.HotUpdate? {
      SetTargetGrows(s.plane, s.plane.forwards[s.ops[st.o].fid], st.target);
    } else if !st.Acquire? {
      assert OpDo(s, st).plane.actors == s.plane.actors;
    }
  }

  lemma PlaneStepGrows(s: State, st: Step)
    requires Enabled(s, st) && !OpStep(st) && !CloseStep(st) && !st.BeginCleanup? && !st.EndCleanup?
    ensures AllGrow(s.plane, Do(s, st).plane)
  {
    if st.Stop? {
      DemotionsGrow(s.plane, st.f);
    } else if st.RunError? {
      DemotionsGrow(s.plane, s.plane.actors[st.a].fid);
    } else if st.CapabilityLost? {
      DemotionsGrow(s.plane, "");
    } else if st.Rollback? {
      SetTargetGrows(s.plane, st.token.0, st.target);
    } else if st.LegacyRollback? {
      if st.f in s.plane.forwards {
        SetTargetGrows(s.plane, s.plane.forwards[st.f], st.target);
      }
    } else {
      assert Do(s, st).plane.actors == s.plane.actors;
    }
  }

  lemma StepGrows(s: State, st: Step)
    requires Enabled(s, st) && !st.BeginCleanup? && !st.EndCleanup?
    ensures AllGrow(s.plane, Do(s, st).plane)
  {
    if OpStep(st) {
      OpStepGrows(s, st);
    } else if CloseStep(st) {
      DemotionsGrow(s.plane, "");
    } else {
      PlaneStepGrows(s, st);
    }
  }

  // ---- cleanup attempts ----

  /** A begun attempt keeps the actor busy until it ends; a success is for good. */
  lemma {:induction false} AttemptRuns(r: Run, i: nat, j: nat, a: ActorId)
    requires IsRun(r) && i < j <= |r.steps| && r.steps[i] == BeginCleanup(a)
    requires forall k | i < k < j :: r.steps[k] != EndCleanup(a, false)
    ensures a in r.states[j].plane.actors
    ensures r.states[j].plane.actors[a].inProgress || r.states[j].plane.actors[a].complete
    decreases j
  {
    if j == i + 1 {
      AttemptStarts(r.states[i], a);
    } else {
      AttemptRuns(r, i, j - 1, a);
      RunBusy(r, j - 1, a);
    }
  }

  lemma RunBusy(r: Run, k: nat, a: ActorId)
    requires IsRun(r) && k < |r.steps| && r.steps[k] != EndCleanup(a, false) && a in r.states[k].plane.actors
    ensures StaysBusy(r.states[k].plane, r.states[k + 1].plane, a)
  {
    StepBusy(r.states[k], r.steps[k], a);
  }

  lemma AttemptStarts(s: State, a: ActorId)
    requires Enabled(s, BeginCleanup(a))
    ensures a in Do(s, BeginCleanup(a)).plane.actors && Do(s, BeginCleanup(a)).plane.actors[a].inProgress
  {
  }

  predicate StaysBusy(p: Plane, q: Plane, a: ActorId) {
    a in p.actors && a in q.actors
    && (p.actors[a].complete ==> q.actors[a].complete)
    && (p.actors[a].inProgress ==> q.actors[a].inProgress || q.actors[a].complete)
  }

  lemma CleanupBusy(p: Plane, b: ActorId, ok: bool, a: ActorId)
    requires a in p.actors
    ensures StaysBusy(p, StartCleanup(p, b), a)
    ensures b != a || ok ==> StaysBusy(p, FinishCleanup(p, b, ok), a)
    ensures a in FinishCleanup(p, b, ok).actors && (p.actors[a].complete ==> FinishCleanup(p, b, ok).actors[a].complete)
  {
  }

  lemma StepBusy(s: State, st: Step, a: ActorId)
    requires Enabled(s, st) && a in s.plane.actors
    ensures a in Do(s, st).plane.actors
    ensures s.plane.actors[a].complete ==> Do(s, st).plane.actors[a].complete
    ensures st != EndCleanup(a, false) ==> StaysBusy(s.plane, Do(s, st).plane, a)
  {
    if st.BeginCleanup? {
      CleanupBusy(s.plane, st.a, true, a);
    } else if st.EndCleanup? {
      CleanupBusy(s.plane, st.a, st.ok, a);
    } else {
      StepGrows(s, st);
    }
  }

  /** Attempts on one actor never overlap: between two of them the first one failed. */
  lemma AttemptsNeverOverlap(r: Run, i: nat, j: nat, a: ActorId)
    requires IsRun(r) && i < j < |r.steps| && r.steps[i] == BeginCleanup(a) && r.steps[j] == BeginCleanup(a)
    ensures exists k :: i < k < j && r.steps[k] == EndCleanup(a, false)
  {
    if forall k | i < k < j :: r.steps[k] != EndCleanup(a, false) {
      AttemptRuns(r, i, j, a);
    }
  }

  lemma {:induction false} StaysComplete(r: Run, i: nat, j: nat, a: ActorId)
    requires IsRun(r) && i <= j < |r.states| && a in r.states[i].plane.actors && r.states[i].plane.actors[a].complete
    ensures a in r.states[j].plane.actors && r.states[j].plane.actors[a].complete
    decreases j
  {
    if i < j {
      StaysComplete(r, i, j - 1, a);
      StepBusy(r.states[j - 1], r.steps[j - 1], a);
    }
  }

  /** No attempt follows a success. */
  lemma NoAttemptAfterSuccess(r: Run, i: nat, j: nat, a: ActorId)
    requires IsRun(r) && i < j < |r.steps| && r.steps[i] == EndCleanup(a, true)
    ensures r.steps[j] != BeginCleanup(a)
  {
    SuccessCompletes(r.states[i], a);
    StaysComplete(r, i + 1, j, a);
  }

  lemma SuccessCompletes(s: State, a: ActorId)
    requires Enabled(s, EndCleanup(a, true))
    ensures a in Do(s, EndCleanup(a, true)).plane.actors && Do(s, EndCleanup(a, true)).plane.actors[a].complete
  {
  }

  // ---- closeAll ----

  /** Nothing in flight, nothing live, nothing admitted any more. */
  ghost predicate Quiet(s: State) {
    s.plane.closing && Drained(s) && s.plane.forwards == map[]
  }

  /** While closeAll runs past its demotion: nothing is in flight, nothing is live. */
  ghost predicate CloseInv(s: State) {
    && (s.closer.Demoted? || s.closer.Collecting? || s.closer == Returned(true) ==>
          Quiet(s))
    && (s.closer.Draining? ==> s.plane.closing)
    && (s.closer.Collecting? && !s.closer.failed ==>
          forall a | a in s.plane.actors && !Settled(s.plane.actors[a]) :: a in s.closer.todo)
    && (s.closer == Returned(true) ==> forall a | a in s.plane.actors :: Settled(s.plane.actors[a]))
  }

  predicate Settled(a: Actor) {
    a.complete || a.discarded
  }

  /** With nothing in flight and nothing live, an unsettled actor is in a cleanup map. */
  lemma UnsettledIsListed(s: State, a: ActorId)
    requires Good(s) && Quiet(s) && a in s.plane.actors && !Settled(s.plane.actors[a])
    ensures a in Listed(s.plane)
  {
    assert OwnedWell(s, a) && Places(s, a) == 1;
    assert !Held(s, a) && !Forwarded(s.plane, a);
    if Pended(s.plane, a) {
      assert s.plane.pending[s.plane.actors[a].fid] == a;
    }
  }

  /** With nothing admitted and the gate closed, no operation can take a step. */
  lemma NoOpStep(s: State, st: Step)
    requires Quiet(s) && OpStep(st)
    ensures !OpEnabled(s, st)
  {
  }

  lemma NothingToDemote(p: Plane, f: Fid)
    requires p.forwards == map[]
    ensures Demote(p, f) == p && DemoteAll(p).forwards == map[] && DemoteAll(p).actors.Keys == p.actors.Keys
  {
  }

  /** Past the demotion only cleanup moves on. */
  lemma QuietPlaneStep(s: State, st: Step)
    requires Quiet(s) && !OpStep(st) && !CloseStep(st) && PlaneEnabled(s, st)
    ensures Quiet(PlaneDo(s, st)) && PlaneDo(s, st).plane.actors.Keys == s.plane.actors.Keys
  {
    if st.CapabilityLost? || st.Stop? {
      NothingToDemote(s.plane, if st.Stop? then st.f else "");
    }
  }

  lemma QuietStep(s: State, st: Step)
    requires Quiet(s) && Enabled(s, st)
    ensures Quiet(Do(s, st)) && Do(s, st).plane.actors.Keys == s.plane.actors.Keys
  {
    if OpStep(st) {
      NoOpStep(s, st);
    } else if CloseStep(st) {
      NothingToDemote(s.plane, "");
    } else {
      QuietPlaneStep(s, st);
    }
  }

  lemma SettledStays(s: State, st: Step, a: ActorId)
    requires Enabled(s, st) && a in s.plane.actors && Settled(s.plane.actors[a])
    ensures a in Do(s, st).plane.actors && Settled(Do(s, st).plane.actors[a])
  {
    StepBusy(s, st, a);
    if !st.BeginCleanup? && !st.EndCleanup? {
      StepGrows(s, st);
    }
  }

  lemma CloseStepKeepsCloseInv(s: State, st: Step)
    requires Good(s) && CloseInv(s) && CloseStep(st) && CloseEnabled(s, st)
    ensures CloseInv(CloseDo(s, st))
  {
    match st
    case CloseBegin =>
    case CloseDemote => DemotedIsQuiet(s);
    case CloseList => ListedIsAll(s);
    case CloseItem(a, ok) => ItemKeepsCloseInv(s, a, ok);
    case CloseReturn =>
    case CloseGiveUp =>
  }

  lemma DemotedIsQuiet(s: State)
    requires CloseInv(s) && CloseEnabled(s, CloseDemote)
    ensures Quiet(CloseDo(s, CloseDemote))
  {
  }

  lemma ListedIsAll(s: State)
    requires Good(s) && CloseInv(s) && s.closer.Demoted?
    ensures CloseInv(s.(closer := Collecting(Listed(s.plane), false)))
  {
    forall a | a in s.plane.actors && !Settled(s.plane.actors[a]) ensures a in Listed(s.plane) {
      UnsettledIsListed(s, a);
    }
  }

  lemma ItemKeepsCloseInv(s: State, a: ActorId, ok: bool)
    requires OwnerInv(s) && CloseInv(s) && CloseEnabled(s, CloseItem(a, ok))
    ensures CloseInv(s.(closer := Collecting(s.closer.todo - {a}, s.closer.failed || !ok)))
  {
    if ok {
      NilMeansComplete(s, a);
    }
  }

  /** What cleanupActor answers nil for is clean. */
  lemma NilMeansComplete(s: State, a: ActorId)
    requires OwnerInv(s) && a in s.plane.actors && s.plane.actors[a].finished > 0 && !s.plane.actors[a].failed
    ensures s.plane.actors[a].complete
  {
    assert OwnedWell(s, a);
  }

  lemma OtherStepKeepsCloseInv(s: State, st: Step)
    requires Good(s) && CloseInv(s) && Enabled(s, st) && !CloseStep(st)
    ensures CloseInv(Do(s, st))
  {
    var t := Do(s, st);
    CloserUntouched(s, st);
    if Quiet(s) {
      QuietStep(s, st);
      forall a | a in s.plane.actors && Settled(s.plane.actors[a]) ensures Settled(t.plane.actors[a]) {
        SettledStays(s, st, a);
      }
    }
  }

  lemma CloserUntouched(s: State, st: Step)
    requires Enabled(s, st) && !CloseStep(st)
    ensures Do(s, st).closer == s.closer && (s.plane.closing ==> Do(s, st).plane.closing)
  {
    if OpStep(st) {
      CloserUntouchedByOp(s, st);
    } else {
      CloserUntouchedByPlane(s, st);
    }
  }

  lemma CloserUntouchedByOp(s: State, st: Step)
    requires OpStep(st) && OpEnabled(s, st)
    ensures OpDo(s, st).closer == s.closer && OpDo(s, st).plane.closing == s.plane.closing
  {
  }

  lemma CloserUntouchedByPlane(s: State, st: Step)
    requires !OpStep(st) && !CloseStep(st) && PlaneEnabled(s, st)
    ensures PlaneDo(s, st).closer == s.closer && PlaneDo(s, st).plane.closing == s.plane.closing
  {
  }

  lemma {:induction false} CloseInvReachable(r: Run, i: nat)
    requires IsRun(r) && i < |r.states|
    ensures CloseInv(r.states[i])
  {
    if i > 0 {
      Reachable(r, i - 1);
      CloseInvReachable(r, i - 1);
      if CloseStep(r.steps[i - 1]) {
        CloseStepKeepsCloseInv(r.states[i - 1], r.steps[i - 1]);
      } else {
        OtherStepKeepsCloseInv(r.states[i - 1], r.steps[i - 1]);
      }
    }
  }

  /**
    When closeAll has returned nil, every actor ever acquired is cleanup-complete,
    except those the closing branch of abandonment discarded; and nothing is live.
   */
  lemma CloseAllCleansEverything(r: Run, i: nat, a: ActorId)
    requires IsRun(r) && i < |r.states| && r.states[i].closer == Returned(true) && a in r.states[i].plane.actors
    ensures r.states[i].plane.actors[a].complete || r.states[i].plane.actors[a].discarded
    ensures r.states[i].plane.forwards == map[] && Drained(r.states[i])
  {
    CloseInvReachable(r, i);
  }

  // ---- one operation per forward ----

  /** Two operations past the gate never share a forward. */
  lemma OneOperationPerForward(r: Run, i: nat, o1: OpId, o2: OpId)
    requires IsRun(r) && i < |r.states|
    requires o1 in r.states[i].ops && o2 in r.states[i].ops
    requires HoldsGate(r.states[i].ops[o1].pc) && HoldsGate(r.states[i].ops[o2].pc)
    requires r.states[i].ops[o1].fid == r.states[i].ops[o2].fid
    ensures o1 == o2
  {
    Reachable(r, i);
  }

  /** After its acquisition an apply never meets another actor for its forward. */
  lemma ApplyMeetsNoActor(r: Run, i: nat, o: OpId)
    requires IsRun(r) && i < |r.states| && o in r.states[i].ops && r.states[i].ops[o].kind.Apply?
    requires r.states[i].ops[o].pc.Acquired? || r.states[i].ops[o].pc.Installing?
    ensures r.states[i].ops[o].fid !in r.states[i].plane.forwards
  {
    Reachable(r, i);
    assert RoutedWell(r.states[i], o);
  }

  // ---- no resurrection ----

  /** The fence of `f` is durable, nothing is live for it and no install that passed the fence test is under way. */
  ghost predicate Buried(s: State, f: Fid) {
    && f in s.fence && f !in s.plane.forwards
    && forall o | o in s.ops && s.ops[o].fid == f :: !s.ops[o].pc.Installing?
  }

  lemma OpStepKeepsBuried(s: State, st: Step, f: Fid)
    requires Buried(s, f) && OpStep(st) && OpEnabled(s, st)
    ensures Buried(OpDo(s, st), f)
  {
  }

  lemma PlaneStepKeepsBuried(s: State, st: Step, f: Fid)
    requires Buried(s, f) && !OpStep(st) && !CloseStep(st) && PlaneEnabled(s, st)
    ensures Buried(PlaneDo(s, st), f)
  {
  }

  lemma StepKeepsBuried(s: State, st: Step, f: Fid)
    requires Buried(s, f) && Enabled(s, st)
    ensures Buried(Do(s, st), f)
  {
    if OpStep(st) {
      OpStepKeepsBuried(s, st, f);
    } else if !CloseStep(st) {
      PlaneStepKeepsBuried(s, st, f);
    }
  }

  lemma {:induction false} StaysBuried(r: Run, i: nat, j: nat, f: Fid)
    requires IsRun(r) && i <= j < |r.states| && Buried(r.states[i], f)
    ensures Buried(r.states[j], f)
    decreases j
  {
    if i < j {
      StaysBuried(r, i, j - 1, f);
      StepKeepsBuried(r.states[j - 1], r.steps[j - 1], f);
    }
  }

  /** Once the fence of `f` is durable and a stop of `f` ran after that, `f` never has a live actor again. */
  lemma NoResurrection(r: Run, i: nat, j: nat, f: Fid)
    requires IsRun(r) && i < |r.steps| && r.steps[i] == Stop(f) && f in r.states[i].fence && i < j < |r.states|
    ensures f !in r.states[j].plane.forwards
  {
    Reachable(r, i);
    StaysBuried(r, i + 1, j, f);
  }
}
