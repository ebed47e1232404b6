/** Exactly which steps take a hook's backlog past the bound, and by how much over a run. */
module QueueBounds {
  import opened Options
  import opened Queue
  import opened QueueSafety
  import opened QueueRuns

  /** The step puts a dead letter of the hook back into the queue. */
  ghost predicate RetriesDeadLetter(db: Db, s: Step, hook: string) {
    s.Retry? && s.id in db.rows && db.rows[s.id].phase == Dlqed && db.rows[s.id].hook == hook
  }

  /** No enqueue for the hook allows more than `bound` rows. */
  predicate Within(s: Step, hook: string, bound: nat) {
    s.Enqueue? && s.evt.hook == hook ==> MaxQueue(s.evt.policy) <= bound
  }

  lemma ClaimBacklog(db: Db, s: Step, hook: string)
    requires s.Claim?
    ensures Backlog(Do(db, s).rows, hook) <= Backlog(db.rows, hook)
  {
    ClaimAt(db, s.drops, s.ids, s.ts);
  }

  lemma RowBacklog(db: Db, s: Step, hook: string, id: nat)
    requires !s.Claim? && !s.Enqueue? && !RetriesDeadLetter(db, s, hook)
    requires id in Backlog(Do(db, s).rows, hook)
    ensures id in Backlog(db.rows, hook)
  {
    if id in db.rows {
      RowSteps(db, s, id);
    } else {
      NewRows(db, s, id);
    }
  }

  lemma Smaller(a: set<nat>, b: set<nat>)
    requires a <= b
    ensures |a| <= |b|
    decreases a
  {
    if a != {} {
      var x :| x in a;
      Smaller(a - {x}, b - {x});
    }
  }

  /** A backlog grows by one or not at all: by an enqueue up to its MaxQueue, or by the retry of a dead letter. */
  lemma BacklogStep(db: Db, s: Step, hook: string)
    ensures var before, after := |Backlog(db.rows, hook)|, |Backlog(Do(db, s).rows, hook)|;
            if RetriesDeadLetter(db, s, hook) then after == before + 1
            else after <= before || (s.Enqueue? && s.evt.hook == hook && after == before + 1 <= MaxQueue(s.evt.policy))
  {
    if RetriesDeadLetter(db, s, hook) {
      RetryIgnoresBound(db, s.id);
    } else if s.Enqueue? {
      EnqueueBoundsBacklog(db, s.evt, s.known, s.pick, s.ts, hook);
    } else if s.Claim? {
      ClaimBacklog(db, s, hook);
      Smaller(Backlog(Do(db, s).rows, hook), Backlog(db.rows, hook));
    } else {
      forall id | id in Backlog(Do(db, s).rows, hook) ensures id in Backlog(db.rows, hook) {
        RowBacklog(db, s, hook, id);
      }
      Smaller(Backlog(Do(db, s).rows, hook), Backlog(db.rows, hook));
    }
  }

  function Max(a: nat, b: nat): nat {
    if a < b then b else a
  }

  /** A step passes the bound exactly when it retries a dead letter of the hook while the backlog is at the bound. */
  lemma BoundBreaks(db: Db, s: Step, hook: string, bound: nat)
    requires Within(s, hook, bound)
    ensures |Backlog(Do(db, s).rows, hook)| > Max(|Backlog(db.rows, hook)|, bound)
       <==> RetriesDeadLetter(db, s, hook) && |Backlog(db.rows, hook)| >= bound
  {
    BacklogStep(db, s, hook);
  }

  /** The dead letters of the hook put back by the first n steps. */
  ghost function Retries(dbs: seq<Db>, steps: seq<Step>, hook: string, n: nat): nat
    requires IsRun(dbs, steps) && n < |dbs|
  {
    if n == 0 then 0
    else Retries(dbs, steps, hook, n - 1) + (if RetriesDeadLetter(dbs[n - 1], steps[n - 1], hook) then 1 else 0)
  }

  /** Over any run a backlog exceeds the bound by at most the number of dead letters put back. */
  lemma {:induction false} BacklogBound(dbs: seq<Db>, steps: seq<Step>, hook: string, bound: nat, n: nat)
    requires IsRun(dbs, steps) && n < |dbs|
    requires forall k :: 0 <= k < n ==> Within(steps[k], hook, bound)
    ensures |Backlog(dbs[n].rows, hook)| <= bound + Retries(dbs, steps, hook, n)
  {
    if n > 0 {
      BacklogBound(dbs, steps, hook, bound, n - 1);
      BacklogStep(dbs[n - 1], steps[n - 1], hook);
    } else {
      assert Backlog(dbs[0].rows, hook) == {};
    }
  }

  // ---- a run that passes the bound ----

  const ONE := Policy(Some(DeadLetter), 1, 1)

  function Sent(event: string): Event {
    Event("h", event, "k", "n", "p", ONE)
  }

  /** Two events for a queue of one: the second becomes a dead letter, and is then retried. */
  function OverfillingSteps(): seq<Step> {
    [Enqueue(Sent("e"), true, 0, 0), Enqueue(Sent("f"), true, 1, 0), Retry(1)]
  }

  function RowOf(event: string, phase: Phase): Row {
    Row("h", event, "k", "n", "p", phase, 0, 1, 0, 0, 0, 0)
  }

  function OverfillingRun(): seq<Db> {
    [Db(map[], [], multiset{}, 0),
     Db(map[0 := RowOf("e", Pending)], [], multiset{}, 0),
     Db(map[0 := RowOf("e", Pending), 1 := RowOf("f", Dlqed)], [DlqedAudit(1)], multiset{}, 0),
     Db(map[0 := RowOf("e", Pending), 1 := RowOf("f", Pending)], [DlqedAudit(1), RetryAudit(1)], multiset{}, 0)]
  }

  lemma FirstEnqueue(db: Db)
    requires db.rows == map[] && db.now == 0
    ensures Enabled(db, OverfillingSteps()[0])
    ensures Do(db, OverfillingSteps()[0]) == db.(rows := map[0 := RowOf("e", Pending)])
  {
    assert Backlog(db.rows, "h") == {};
  }

  lemma SecondEnqueue(db: Db)
    requires db.rows == map[0 := RowOf("e", Pending)] && db.now == 0
    ensures Enabled(db, OverfillingSteps()[1])
    ensures Do(db, OverfillingSteps()[1])
         == db.(rows := map[0 := RowOf("e", Pending), 1 := RowOf("f", Dlqed)], audit := db.audit + [DlqedAudit(1)])
  {
    assert Backlog(db.rows, "h") == {0};
    assert "e"[0] != "f"[0];
    assert map[0 := RowOf("e", Pending)][1 := RowOf("f", Dlqed)] == map[0 := RowOf("e", Pending), 1 := RowOf("f", Dlqed)];
  }

  lemma RetryStep(db: Db)
    requires db.rows == map[0 := RowOf("e", Pending), 1 := RowOf("f", Dlqed)] && db.now == 0
    ensures Do(db, OverfillingSteps()[2])
         == db.(rows := map[0 := RowOf("e", Pending), 1 := RowOf("f", Pending)], audit := db.audit + [RetryAudit(1)])
  {
    assert db.rows[1 := RowOf("f", Pending)] == map[0 := RowOf("e", Pending), 1 := RowOf("f", Pending)];
  }

  lemma TwoWaiting()
    ensures Backlog(map[0 := RowOf("e", Pending), 1 := RowOf("f", Pending)], "h") == {0, 1}
  {
  }

  lemma OverfillingIsRun()
    ensures IsRun(OverfillingRun(), OverfillingSteps())
  {
    var dbs := OverfillingRun();
    FirstEnqueue(dbs[0]);
    SecondEnqueue(dbs[1]);
    RetryStep(dbs[2]);
    assert dbs[1].audit + [DlqedAudit(1)] == [DlqedAudit(1)];
    assert dbs[2].audit + [RetryAudit(1)] == dbs[3].audit;
    forall i | 0 <= i < 3 ensures Enabled(dbs[i], OverfillingSteps()[i]) && dbs[i + 1] == Do(dbs[i], OverfillingSteps()[i]) {
      assert i == 0 || i == 1 || i == 2;
    }
  }

  /** A run from the empty queue, every enqueue bounded by one row, that ends with two. */
  lemma BoundPassed()
    ensures IsRun(OverfillingRun(), OverfillingSteps())
    ensures forall k :: 0 <= k < |OverfillingSteps()| ==> Within(OverfillingSteps()[k], "h", 1)
    ensures |Backlog(OverfillingRun()[3].rows, "h")| == 2
  {
    OverfillingIsRun();
    TwoWaiting();
  }
}
