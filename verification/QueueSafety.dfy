/** What every step of the queue keeps. */
module QueueSafety {
  import opened Queue

  // ---- rows keep their identity, and terminal phases are never left ----

  predicate SameIdentity(a: Row, b: Row) {
    a.hook == b.hook && a.event == b.event && a.kind == b.kind && a.node == b.node
    && a.maxAttempts == b.maxAttempts && a.created == b.created
  }

  predicate RowFollows(a: Row, b: Row) {
    SameIdentity(a, b) && (Terminal(a.phase) ==> b.phase == a.phase)
  }

  ghost predicate Follows(a: map<nat, Row>, b: map<nat, Row>) {
    forall id :: id in a ==> id in b && RowFollows(a[id], b[id])
  }

  /** What a claim makes of one row: requeued if stuck, dropped if expired, and taken if it is on the list. */
  function ClaimedRow(r: Row, taken: bool, ts: int): Row {
    var q := RequeuedRow(r, ts);
    if Expired(q, ts) then q.(phase := Dropped, updated := ts)
    else if taken && Waiting(q.phase) then q.(phase := InFlight, updated := ts)
    else q
  }

  lemma ClaimAt(db: Db, drops: seq<nat>, ids: seq<nat>, ts: int)
    ensures Claimed(db, drops, ids, ts).rows.Keys == db.rows.Keys
    ensures forall id :: id in db.rows ==> Claimed(db, drops, ids, ts).rows[id] == ClaimedRow(db.rows[id], id in ids, ts)
  {
  }

  /** A single row after any step but a claim, which changes many. */
  function RowAfter(db: Db, s: Step, id: nat): Row
    requires id in db.rows
  {
    var r := db.rows[id];
    match s
    case Enqueue(evt, _, pick, ts) => if pick == id && Waiting(r.phase) then CoalescedRow(r, evt, ts) else r
    case MarkDelivered(d, ts) => if d == id && r.phase == InFlight then r.(phase := Delivered, updated := ts) else r
    case FailWrite(t) =>
      if t.id != id || r.phase != InFlight then r
      else if t.attempt >= t.maxAttempts then r.(phase := Dlqed, attempts := t.attempt, updated := t.ts)
      else r.(phase := Failed, attempts := t.attempt, next := t.next, updated := t.ts)
    case Retry(d) =>
      if d == id && (r.phase == Failed || r.phase == Dlqed)
      then r.(phase := Pending, attempts := 0, next := db.now, updated := db.now) else r
    case Decommission(node, deadline) =>
      if node != "" && deadline > 0 && r.node == node && Live(r.phase) then r.(deadline := deadline, updated := db.now) else r
    case _ => r
  }

  lemma RowSteps(db: Db, s: Step, id: nat)
    requires id in db.rows && !s.Claim?
    ensures id in Do(db, s).rows
    ensures s.Enqueue? ==> Do(db, s).rows[id] == db.rows[id] || Do(db, s).rows[id] == RowAfter(db, s, id)
    ensures !s.Enqueue? ==> Do(db, s).rows[id] == RowAfter(db, s, id)
  {
    if s.Enqueue? {
      EnqueueAt(db, s, id);
    }
  }

  lemma EnqueueAt(db: Db, s: Step, id: nat)
    requires id in db.rows && s.Enqueue?
    ensures id in Do(db, s).rows
    ensures Do(db, s).rows[id] == db.rows[id] || Do(db, s).rows[id] == RowAfter(db, s, id)
  {
  }

  lemma StepFollowsAt(db: Db, s: Step, id: nat)
    requires id in db.rows
    ensures id in Do(db, s).rows && RowFollows(db.rows[id], Do(db, s).rows[id])
  {
    if s.Claim? {
      ClaimAt(db, s.drops, s.ids, s.ts);
    } else {
      RowSteps(db, s, id);
    }
  }

  lemma StepFollows(db: Db, s: Step)
    ensures Follows(db.rows, Do(db, s).rows)
  {
    forall id | id in db.rows ensures id in Do(db, s).rows && RowFollows(db.rows[id], Do(db, s).rows[id]) {
      StepFollowsAt(db, s, id);
    }
  }

  lemma {:induction false} RunFollows(dbs: seq<Db>, steps: seq<Step>, i: nat, j: nat)
    requires IsRun(dbs, steps) && i <= j < |dbs|
    ensures Follows(dbs[i].rows, dbs[j].rows)
    decreases j - i
  {
    if i < j {
      StepFollows(dbs[i], steps[i]);
      RunFollows(dbs, steps, i + 1, j);
    }
  }

  // ---- the invariant ----

  /** A row that may still be delivered has attempts left. */
  ghost predicate AttemptsLeft(rows: map<nat, Row>) {
    forall id :: id in rows ==> HasAttempts(rows[id])
  }

  predicate HasAttempts(r: Row) {
    0 < r.maxAttempts && (Live(r.phase) ==> r.attempts < r.maxAttempts)
  }

  ghost predicate OneRowPerEvent(rows: map<nat, Row>) {
    forall a, b :: a in rows && b in rows && rows[a].hook == rows[b].hook && rows[a].event == rows[b].event ==> a == b
  }

  /** A pending failure write carries the bound of its row. */
  ghost predicate TicketsMatch(db: Db) {
    forall t :: t in db.tickets ==> t.id in db.rows && t.maxAttempts == db.rows[t.id].maxAttempts
  }

  /** Every dead-lettered or dropped row has its audit row. */
  ghost predicate LossAudited(db: Db) {
    && (forall id :: id in db.rows && db.rows[id].phase == Dlqed ==> DlqedAudit(id) in db.audit)
    && (forall id :: id in db.rows && db.rows[id].phase == Dropped ==> DroppedAudit(id) in db.audit)
  }

  ghost predicate Inv(db: Db) {
    AttemptsLeft(db.rows) && OneRowPerEvent(db.rows) && TicketsMatch(db) && LossAudited(db)
  }

  /** Only an enqueue creates rows, and only one for an event that has none. */
  lemma NewRows(db: Db, s: Step, id: nat)
    requires id in Do(db, s).rows && id !in db.rows
    ensures s.Enqueue? && id == s.pick && IsFor(Do(db, s).rows[id], s.evt)
    ensures forall j :: j in db.rows ==> !IsFor(db.rows[j], s.evt)
    ensures var r := Do(db, s).rows[id];
            r.attempts == 0 < r.maxAttempts && r.updated == s.ts && (r.phase == Pending || r.phase == Dlqed)
  {
  }

  lemma RowKeepsAttempts(db: Db, s: Step, id: nat)
    requires id in db.rows && HasAttempts(db.rows[id])
    requires s.FailWrite? && s.ticket.id == id ==> s.ticket.maxAttempts == db.rows[id].maxAttempts
    ensures id in Do(db, s).rows && HasAttempts(Do(db, s).rows[id])
  {
    if s.Claim? {
      ClaimAt(db, s.drops, s.ids, s.ts);
    } else {
      RowSteps(db, s, id);
    }
  }

  lemma KeepsAttempts(db: Db, s: Step)
    requires AttemptsLeft(db.rows) && TicketsMatch(db) && (s.FailWrite? ==> s.ticket in db.tickets)
    ensures AttemptsLeft(Do(db, s).rows)
  {
    forall id | id in Do(db, s).rows ensures HasAttempts(Do(db, s).rows[id]) {
      if id in db.rows {
        RowKeepsAttempts(db, s, id);
      } else {
        NewRows(db, s, id);
      }
    }
  }

  lemma KeepsOneRow(db: Db, s: Step)
    requires OneRowPerEvent(db.rows)
    ensures OneRowPerEvent(Do(db, s).rows)
  {
    StepFollows(db, s);
    forall id | id in Do(db, s).rows && id !in db.rows
      ensures s.Enqueue? && id == s.pick && IsFor(Do(db, s).rows[id], s.evt)
      ensures forall j :: j in db.rows ==> !IsFor(db.rows[j], s.evt)
    {
      NewRows(db, s, id);
    }
  }

  lemma KeepsTickets(db: Db, s: Step)
    requires TicketsMatch(db)
    ensures TicketsMatch(Do(db, s))
  {
    var after := Do(db, s);
    forall t | t in after.tickets ensures t.id in after.rows && t.maxAttempts == after.rows[t.id].maxAttempts {
      TicketOrigin(db, s, t);
      StepFollowsAt(db, s, t.id);
    }
  }

  lemma TicketOrigin(db: Db, s: Step, t: Ticket)
    requires t in Do(db, s).tickets
    ensures t in db.tickets || (t.id in db.rows && t.maxAttempts == db.rows[t.id].maxAttempts)
  {
  }

  lemma KeepsAudited(db: Db, s: Step)
    requires LossAudited(db) && Enabled(db, s)
    ensures LossAudited(Do(db, s))
  {
    forall id | id in Do(db, s).rows && Do(db, s).rows[id].phase == Dlqed ensures DlqedAudit(id) in Do(db, s).audit {
      DeadLetterAudited(db, s, id);
    }
    forall id | id in Do(db, s).rows && Do(db, s).rows[id].phase == Dropped ensures DroppedAudit(id) in Do(db, s).audit {
      DropAudited(db, s, id);
    }
  }

  lemma StepKeepsInv(db: Db, s: Step)
    requires Inv(db) && Enabled(db, s)
    ensures Inv(Do(db, s))
  {
    KeepsAttempts(db, s);
    KeepsOneRow(db, s);
    KeepsTickets(db, s);
    KeepsAudited(db, s);
  }

  lemma {:induction false} RunKeepsInv(dbs: seq<Db>, steps: seq<Step>, i: nat)
    requires IsRun(dbs, steps) && i < |dbs|
    ensures Inv(dbs[i])
  {
    if i > 0 {
      RunKeepsInv(dbs, steps, i - 1);
      StepKeepsInv(dbs[i - 1], steps[i - 1]);
    }
  }

  // ---- with a steady clock ----

  /** No row and no failure read carries a time that the clock has not reached. */
  ghost predicate NotAhead(db: Db) {
    && (forall id :: id in db.rows ==> db.rows[id].updated <= db.now)
    && (forall t :: t in db.tickets ==> t.ts <= db.now)
  }

  /** The clock does not go back, and a time read before a transaction is not ahead of it. */
  predicate Steady(db: Db, s: Step) {
    && (s.Tick? ==> db.now <= s.time)
    && (s.Claim? || s.Enqueue? || s.MarkDelivered? || s.FailRead? ==> s.ts <= db.now)
  }

  lemma RowNotAhead(db: Db, s: Step, id: nat)
    requires id in db.rows && db.rows[id].updated <= db.now
    requires s.Claim? || s.Enqueue? || s.MarkDelivered? ==> s.ts <= db.now
    requires s.FailWrite? ==> s.ticket.ts <= db.now
    ensures id in Do(db, s).rows && Do(db, s).rows[id].updated <= db.now
  {
    if s.Claim? {
      ClaimAt(db, s.drops, s.ids, s.ts);
    } else {
      RowSteps(db, s, id);
    }
  }

  lemma KeepsNotAhead(db: Db, s: Step)
    requires NotAhead(db) && Enabled(db, s) && Steady(db, s)
    ensures NotAhead(Do(db, s))
  {
    TicketsNotAhead(db, s);
    forall id | id in Do(db, s).rows ensures Do(db, s).rows[id].updated <= Do(db, s).now {
      if id in db.rows {
        RowNotAhead(db, s, id);
      } else {
        NewRows(db, s, id);
      }
    }
  }

  lemma TicketsNotAhead(db: Db, s: Step)
    requires forall t :: t in db.tickets ==> t.ts <= db.now
    requires s.FailRead? ==> s.ts <= db.now
    requires s.Tick? ==> db.now <= s.time
    ensures db.now <= Do(db, s).now
    ensures forall t :: t in Do(db, s).tickets ==> t.ts <= Do(db, s).now
  {
  }

  // ---- losses and their audit rows ----

  /** The step moves the row into the phase, or creates it there. */
  ghost predicate Enters(a: Db, b: Db, id: nat, p: Phase) {
    id in b.rows && b.rows[id].phase == p && (id in a.rows ==> a.rows[id].phase != p)
  }

  ghost predicate Extends(a: seq<Audit>, b: seq<Audit>) {
    |a| <= |b| && b[..|a|] == a
  }

  lemma AuditGrows(db: Db, s: Step)
    ensures Extends(db.audit, Do(db, s).audit)
  {
  }

  lemma DeadLetterAudited(db: Db, s: Step, id: nat)
    requires LossAudited(db) && Enabled(db, s)
    requires id in Do(db, s).rows && Do(db, s).rows[id].phase == Dlqed
    ensures DlqedAudit(id) in Do(db, s).audit
  {
    if Enters(db, Do(db, s), id, Dlqed) {
      EntersDeadLetter(db, s, id);
      var a := Do(db, s).audit;
      assert a[|db.audit|] == DlqedAudit(id);
    } else {
      AuditGrows(db, s);
    }
  }

  lemma EntersDeadLetter(db: Db, s: Step, id: nat)
    requires Enters(db, Do(db, s), id, Dlqed)
    ensures Do(db, s).audit == db.audit + [DlqedAudit(id)]
  {
    if id !in db.rows {
      NewRows(db, s, id);
    } else if s.Claim? {
      ClaimAt(db, s.drops, s.ids, s.ts);
      assert false;
    } else {
      RowSteps(db, s, id);
      assert s.FailWrite?;
    }
  }

  lemma DropAudited(db: Db, s: Step, id: nat)
    requires LossAudited(db) && Enabled(db, s)
    requires id in Do(db, s).rows && Do(db, s).rows[id].phase == Dropped
    ensures DroppedAudit(id) in Do(db, s).audit
  {
    if Enters(db, Do(db, s), id, Dropped) {
      EntersDropped(db, s, id);
    } else {
      AuditGrows(db, s);
    }
  }

  lemma OnlyClaimsDrop(db: Db, s: Step, id: nat)
    requires Enters(db, Do(db, s), id, Dropped)
    ensures s.Claim? && id in db.rows
  {
    if id !in db.rows {
      NewRows(db, s, id);
    } else if !s.Claim? {
      RowSteps(db, s, id);
    }
  }

  lemma EntersDropped(db: Db, s: Step, id: nat)
    requires Enabled(db, s) && Enters(db, Do(db, s), id, Dropped)
    ensures s.Claim? && id in s.drops && Do(db, s).audit == db.audit + DropAudits(s.drops)
    ensures DroppedAudit(id) in Do(db, s).audit
  {
    OnlyClaimsDrop(db, s, id);
    ClaimDropsListed(db, s, id);
    AuditOfDrop(db.audit, s.drops, id);
  }

  lemma ClaimDropsListed(db: Db, s: Step, id: nat)
    requires s.Claim? && id in db.rows && ListsExpired(Requeued(db.rows, s.ts), s.drops, s.ts)
    requires Enters(db, Claimed(db, s.drops, s.ids, s.ts), id, Dropped)
    ensures id in s.drops
  {
    ClaimAt(db, s.drops, s.ids, s.ts);
    assert Expired(RequeuedRow(db.rows[id], s.ts), s.ts);
  }

  lemma AuditOfDrop(audit: seq<Audit>, drops: seq<nat>, id: nat)
    requires id in drops
    ensures DroppedAudit(id) in audit + DropAudits(drops)
  {
    var i :| 0 <= i < |drops| && drops[i] == id;
    assert (audit + DropAudits(drops))[|audit| + i] == DroppedAudit(id);
  }
}
