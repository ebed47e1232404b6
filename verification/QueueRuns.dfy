/** Whole runs of the queue: nothing is lost silently, bounds hold, and a claimed row is not handed out twice too soon. */
module QueueRuns {
  import opened Queue
  import opened QueueSafety

  lemma TerminalForever(dbs: seq<Db>, steps: seq<Step>, i: nat, j: nat, id: nat)
    requires IsRun(dbs, steps) && i <= j < |dbs|
    requires id in dbs[i].rows && Terminal(dbs[i].rows[id].phase)
    ensures id in dbs[j].rows && dbs[j].rows[id].phase == dbs[i].rows[id].phase
  {
    RunFollows(dbs, steps, i, j);
  }

  lemma RowsStaySane(dbs: seq<Db>, steps: seq<Step>, i: nat, id: nat)
    requires IsRun(dbs, steps) && i < |dbs| && id in dbs[i].rows
    ensures Live(dbs[i].rows[id].phase) ==> dbs[i].rows[id].attempts < dbs[i].rows[id].maxAttempts
    ensures forall j :: (j in dbs[i].rows && dbs[i].rows[j].hook == dbs[i].rows[id].hook
                         && dbs[i].rows[j].event == dbs[i].rows[id].event) ==> j == id
  {
    RunKeepsInv(dbs, steps, i);
    assert HasAttempts(dbs[i].rows[id]);
  }

  /** Once an event has its row, sending it again in any later state answers with that row and changes nothing. */
  lemma EnqueueIsIdempotent(dbs: seq<Db>, steps: seq<Step>, i: nat, j: nat, id: nat, evt: Event, known: bool, pick: nat, ts: int)
    requires IsRun(dbs, steps) && i <= j < |dbs|
    requires id in dbs[i].rows && IsFor(dbs[i].rows[id], evt)
    requires evt.hook != "" && evt.event != "" && known
    ensures Answer(dbs[j], evt, known, pick) == Existing(id)
    ensures Do(dbs[j], Enqueue(evt, known, pick, ts)) == dbs[j]
  {
    RunFollows(dbs, steps, i, j);
    RunKeepsInv(dbs, steps, j);
    assert id in dbs[j].rows && IsFor(dbs[j].rows[id], evt);
  }

  // ---- nothing is lost silently ----

  /** The step owes this audit row: it dead-letters or drops the row, or coalesces or refuses the event. */
  ghost predicate Owes(db: Db, s: Step, a: Audit) {
    match a
    case CoalescedAudit(id, hook, event) =>
      s.Enqueue? && s.evt.hook == hook && s.evt.event == event && Answer(db, s.evt, s.known, s.pick) == CoalescedInto(id)
    case RefusedAudit(hook, event) =>
      s.Enqueue? && s.evt.hook == hook && s.evt.event == event && Answer(db, s.evt, s.known, s.pick) == QueueFull
    case DlqedAudit(id) => Enters(db, Do(db, s), id, Dlqed)
    case DroppedAudit(id) => Enters(db, Do(db, s), id, Dropped)
    case _ => false
  }

  ghost function Owed(dbs: seq<Db>, steps: seq<Step>, a: Audit, n: nat): nat
    requires IsRun(dbs, steps) && n < |dbs|
  {
    if n == 0 then 0
    else Owed(dbs, steps, a, n - 1) + (if Owes(dbs[n - 1], steps[n - 1], a) then 1 else 0)
  }

  lemma OneMore(audit: seq<Audit>, more: seq<Audit>, a: Audit)
    ensures multiset(audit)[a] <= multiset(audit + more)[a]
    ensures a in more ==> multiset(audit)[a] + 1 <= multiset(audit + more)[a]
  {
    assert multiset(audit + more) == multiset(audit) + multiset(more);
    assert a in more ==> multiset(more)[a] >= 1;
  }

  lemma StepPays(db: Db, s: Step, a: Audit)
    requires Enabled(db, s)
    ensures multiset(db.audit)[a] + (if Owes(db, s, a) then 1 else 0) <= multiset(Do(db, s).audit)[a]
  {
    AuditGrows(db, s);
    var after := Do(db, s).audit;
    var more := after[|db.audit|..];
    assert after == db.audit + more;
    if Owes(db, s, a) {
      PaidInAudit(db, s, a);
    }
    OneMore(db.audit, more, a);
  }

  lemma PaidInAudit(db: Db, s: Step, a: Audit)
    requires Enabled(db, s) && Owes(db, s, a)
    ensures |db.audit| <= |Do(db, s).audit| && a in Do(db, s).audit[|db.audit|..]
  {
    var n := |db.audit|;
    if a.DlqedAudit? {
      EntersDeadLetter(db, s, a.id);
      assert Do(db, s).audit[n..] == [a];
    } else if a.DroppedAudit? {
      EntersDropped(db, s, a.id);
      assert Do(db, s).audit[n..] == DropAudits(s.drops);
      var i :| 0 <= i < |s.drops| && s.drops[i] == a.id;
      assert DropAudits(s.drops)[i] == a;
    } else {
      assert Do(db, s).audit[n..] == [a];
    }
  }

  /**
    Over any run, each dead-lettering and each drop of a row, and each event
    coalesced or refused, has an audit row of its own.
   */
  lemma {:induction false} NothingLostSilently(dbs: seq<Db>, steps: seq<Step>, a: Audit, n: nat)
    requires IsRun(dbs, steps) && n < |dbs|
    ensures Owed(dbs, steps, a, n) <= multiset(dbs[n].audit)[a]
  {
    if n > 0 {
      NothingLostSilently(dbs, steps, a, n - 1);
      StepPays(dbs[n - 1], steps[n - 1], a);
    }
  }

  /**
    The converse fails: a failure write records a dead letter that did not
    happen exactly when its attempts are used up and its row has left flight.
   */
  lemma AuditWithoutDeadLetter(db: Db, t: Ticket)
    ensures var after := FailureWritten(db, t);
            (after.audit == db.audit + [DlqedAudit(t.id)] && !Enters(db, after, t.id, Dlqed))
            <==> (t.attempt >= t.maxAttempts && !Records(db, t))
  {
    assert db.audit + [DlqedAudit(t.id)] != db.audit by {
      assert |db.audit + [DlqedAudit(t.id)]| == |db.audit| + 1;
    }
  }

  // ---- the bound ----

  lemma BacklogChange(a: map<nat, Row>, b: map<nat, Row>, hook: string, id: nat, r: Row)
    requires id !in a && b == a[id := r]
    ensures Backlog(b, hook) == Backlog(a, hook) + (if r.hook == hook && Live(r.phase) then {id} else {})
  {
  }

  lemma BacklogSame(a: map<nat, Row>, b: map<nat, Row>, hook: string, id: nat, r: Row)
    requires id in a && b == a[id := r]
    requires r.hook == a[id].hook && Live(r.phase) == Live(a[id].phase)
    ensures Backlog(b, hook) == Backlog(a, hook)
  {
  }

  /** Enqueueing never raises a backlog above the bound, nor further above it; other hooks are not touched. */
  lemma EnqueueBoundsBacklog(db: Db, evt: Event, known: bool, pick: nat, ts: int, hook: string)
    ensures var before := |Backlog(db.rows, hook)|;
            var after := |Backlog(Enqueued(db, evt, known, pick, ts).rows, hook)|;
            if hook == evt.hook then after == before || after == before + 1 <= MaxQueue(evt.policy) else after == before
  {
    var after := Enqueued(db, evt, known, pick, ts);
    var answer := Answer(db, evt, known, pick);
    if answer.Queued? || answer.DeadLettered? {
      BacklogChange(db.rows, after.rows, hook, pick, after.rows[pick]);
    } else if answer.CoalescedInto? {
      BacklogSame(db.rows, after.rows, hook, pick, after.rows[pick]);
    }
  }

  /** A retry puts a dead letter back whatever the bound says. */
  lemma RetryIgnoresBound(db: Db, id: nat)
    requires id in db.rows && db.rows[id].phase == Dlqed
    ensures |Backlog(Retried(db, id).rows, db.rows[id].hook)| == |Backlog(db.rows, db.rows[id].hook)| + 1
  {
    var hook := db.rows[id].hook;
    assert Backlog(Retried(db, id).rows, hook) == Backlog(db.rows, hook) + {id};
  }

  // ---- claims ----

  /** A step that records a failure of the row: it finds it in flight and takes it out. */
  ghost predicate FailureRecorded(db: Db, s: Step, id: nat) {
    s.FailWrite? && s.ticket.id == id && Records(db, s.ticket)
  }

  /**
    Since a claim made at `ts`: ended for good, still in flight and not touched
    earlier than that, or put back because it had been in flight too long.
   */
  predicate Held(r: Row, ts: int) {
    || Terminal(r.phase)
    || (r.phase == InFlight && ts <= r.updated)
    || (r.phase == Pending && ts + STUCK_SECONDS < r.next)
  }

  lemma ClaimHolds(db: Db, s: Step, id: nat)
    requires Enabled(db, s) && s.Claim? && id in s.ids
    ensures id in Do(db, s).rows && Held(Do(db, s).rows[id], s.ts)
  {
    ClaimAt(db, s.drops, s.ids, s.ts);
    assert Due(WithoutExpired(Requeued(db.rows, s.ts), s.ts), id, s.ts);
  }

  /** A step that stamps the row in flight with a clock reading from before `ts`: the clock went back. */
  ghost predicate Backdated(db: Db, s: Step, id: nat, ts: int) {
    && s.Decommission? && s.node != "" && s.deadline > 0 && db.now < ts
    && id in db.rows && db.rows[id].phase == InFlight && db.rows[id].node == s.node
  }

  /** Exactly a recorded failure and a backdated stamp end a hold. */
  lemma HoldLasts(db: Db, s: Step, id: nat, ts: int)
    requires id in db.rows && Held(db.rows[id], ts) && Enabled(db, s)
    ensures id in Do(db, s).rows
    ensures Held(Do(db, s).rows[id], ts) <==> !FailureRecorded(db, s, id) && !Backdated(db, s, id, ts)
  {
    if s.Claim? {
      ClaimKeepsHold(db, s, id, ts);
    } else {
      RowSteps(db, s, id);
    }
  }

  lemma ClaimKeepsHold(db: Db, s: Step, id: nat, ts: int)
    requires id in db.rows && Held(db.rows[id], ts) && Enabled(db, s) && s.Claim?
    ensures id in Do(db, s).rows && Held(Do(db, s).rows[id], ts)
  {
    ClaimAt(db, s.drops, s.ids, s.ts);
    if id in s.ids {
      assert Due(WithoutExpired(Requeued(db.rows, s.ts), s.ts), id, s.ts);
    }
  }

  lemma HeldTooSoon(db: Db, s: Step, id: nat, ts: int)
    requires id in db.rows && Held(db.rows[id], ts)
    requires Enabled(db, s) && s.Claim? && id in s.ids
    ensures ts + STUCK_SECONDS < s.ts
  {
    assert Due(WithoutExpired(Requeued(db.rows, s.ts), s.ts), id, s.ts);
  }

  lemma {:induction false} HeldAlong(dbs: seq<Db>, steps: seq<Step>, i: nat, j: nat, id: nat, ts: int)
    requires IsRun(dbs, steps) && i <= j < |dbs|
    requires id in dbs[i].rows && Held(dbs[i].rows[id], ts)
    requires forall k :: i <= k < j ==> !FailureRecorded(dbs[k], steps[k], id) && !Backdated(dbs[k], steps[k], id, ts)
    ensures id in dbs[j].rows && Held(dbs[j].rows[id], ts)
    decreases j - i
  {
    if i < j {
      HoldLasts(dbs[i], steps[i], id, ts);
      HeldAlong(dbs, steps, i + 1, j, id, ts);
    }
  }

  /**
    A row handed out twice, whatever the clock did: a failure of it was recorded in
    between, or the two claims' times are more than 300 seconds apart, or the clock
    had gone back and a decommission of its node stamped the row with that.
   */
  lemma ClaimedTwice(dbs: seq<Db>, steps: seq<Step>, i: nat, j: nat, id: nat)
    requires IsRun(dbs, steps) && i < j < |steps|
    requires steps[i].Claim? && id in steps[i].ids && steps[j].Claim? && id in steps[j].ids
    ensures || (exists k :: i < k < j && FailureRecorded(dbs[k], steps[k], id))
            || (exists k :: i < k < j && Backdated(dbs[k], steps[k], id, steps[i].ts))
            || steps[i].ts + STUCK_SECONDS < steps[j].ts
  {
    if forall k :: i < k < j ==> !FailureRecorded(dbs[k], steps[k], id) && !Backdated(dbs[k], steps[k], id, steps[i].ts) {
      ClaimHolds(dbs[i], steps[i], id);
      HeldAlong(dbs, steps, i + 1, j, id, steps[i].ts);
      HeldTooSoon(dbs[j], steps[j], id, steps[i].ts);
    }
  }

  /** Between steps `i` and `j` the clock never reads earlier than `ts`. */
  predicate NotBefore(dbs: seq<Db>, i: nat, j: nat, ts: int)
    requires j <= |dbs|
  {
    forall k :: i < k < j ==> ts <= dbs[k].now
  }

  /** With a clock that does not go back behind the first claim: a failure in between, or more than 300 seconds. */
  lemma NotClaimedTwiceTooSoon(dbs: seq<Db>, steps: seq<Step>, i: nat, j: nat, id: nat)
    requires IsRun(dbs, steps) && i < j < |steps|
    requires steps[i].Claim? && id in steps[i].ids && steps[j].Claim? && id in steps[j].ids
    requires NotBefore(dbs, i, j, steps[i].ts)
    ensures (exists k :: i < k < j && FailureRecorded(dbs[k], steps[k], id))
         || steps[i].ts + STUCK_SECONDS < steps[j].ts
  {
    ClaimedTwice(dbs, steps, i, j, id);
  }
}
