/** The audit log accounts for losses exactly, but for dead letters recorded twice. */
module QueueAccounts {
  import opened Options
  import opened Queue
  import opened QueueSafety
  import opened QueueRuns

  /** A failure write that records a dead letter although the row has left flight since its failure was read. */
  ghost predicate Spurious(db: Db, s: Step, a: Audit) {
    s.FailWrite? && a == DlqedAudit(s.ticket.id) && s.ticket.attempt >= s.ticket.maxAttempts && !Records(db, s.ticket)
  }

  predicate IsLoss(a: Audit) {
    a.CoalescedAudit? || a.RefusedAudit? || a.DlqedAudit? || a.DroppedAudit?
  }

  ghost function One(b: bool): nat {
    if b then 1 else 0
  }

  lemma CountOne(audit: seq<Audit>, x: Audit, a: Audit)
    ensures multiset(audit + [x])[a] == multiset(audit)[a] + One(x == a)
  {
    assert multiset(audit + [x]) == multiset(audit) + multiset{x};
  }

  // ---- one step at a time ----

  lemma EnqueueAccounts(db: Db, s: Step, a: Audit)
    requires s.Enqueue? && IsLoss(a)
    ensures multiset(Do(db, s).audit)[a] == multiset(db.audit)[a] + One(Owes(db, s, a))
  {
    EnqueueCounts(db, s, a);
    OwesLoss(db, s, a);
  }

  /** The one audit row that an answer stands for. */
  predicate AnswerRecords(answer: Outcome, evt: Event, a: Audit) {
    match answer
    case CoalescedInto(id) => a == CoalescedAudit(id, evt.hook, evt.event)
    case DeadLettered(id) => a == DlqedAudit(id)
    case QueueFull => a == RefusedAudit(evt.hook, evt.event)
    case _ => false
  }

  lemma EnqueueCounts(db: Db, s: Step, a: Audit)
    requires s.Enqueue?
    ensures multiset(Do(db, s).audit)[a]
         == multiset(db.audit)[a] + One(AnswerRecords(Answer(db, s.evt, s.known, s.pick), s.evt, a))
  {
    var answer := Answer(db, s.evt, s.known, s.pick);
    if answer.CoalescedInto? {
      CountOne(db.audit, CoalescedAudit(answer.id, s.evt.hook, s.evt.event), a);
    } else if answer.DeadLettered? {
      CountOne(db.audit, DlqedAudit(answer.id), a);
    } else if answer.QueueFull? {
      CountOne(db.audit, RefusedAudit(s.evt.hook, s.evt.event), a);
    }
  }

  /** An enqueue owes a dead letter only for the row it creates, and never a drop. */
  lemma OwesLoss(db: Db, s: Step, a: Audit)
    requires s.Enqueue?
    ensures a.DlqedAudit? ==> (Owes(db, s, a) <==> Answer(db, s.evt, s.known, s.pick) == DeadLettered(a.id))
    ensures a.DroppedAudit? ==> !Owes(db, s, a)
  {
    if a.DlqedAudit? && Owes(db, s, a) {
      EntersDeadLetter(db, s, a.id);
    }
    if a.DroppedAudit? && Owes(db, s, a) {
      OnlyClaimsDrop(db, s, a.id);
    }
  }

  lemma WriteAccounts(db: Db, s: Step, a: Audit)
    requires s.FailWrite? && IsLoss(a)
    ensures multiset(Do(db, s).audit)[a] == multiset(db.audit)[a] + One(Owes(db, s, a)) + One(Spurious(db, s, a))
  {
    WriteOwes(db, s, a);
    if s.ticket.attempt >= s.ticket.maxAttempts {
      CountOne(db.audit, DlqedAudit(s.ticket.id), a);
    }
  }

  /** A failure write owes exactly the dead letter of the row it finds in flight at its last attempt. */
  lemma WriteOwes(db: Db, s: Step, a: Audit)
    requires s.FailWrite? && IsLoss(a)
    ensures Owes(db, s, a) <==>
              a == DlqedAudit(s.ticket.id) && s.ticket.attempt >= s.ticket.maxAttempts && Records(db, s.ticket)
  {
    AuditWithoutDeadLetter(db, s.ticket);
    if a.DlqedAudit? && Owes(db, s, a) {
      RowSteps(db, s, a.id);
    }
    if a.DroppedAudit? && Owes(db, s, a) {
      OnlyClaimsDrop(db, s, a.id);
    }
  }

  lemma {:induction false} CountDrops(drops: seq<nat>, a: Audit)
    requires forall i, j :: 0 <= i < j < |drops| ==> drops[i] != drops[j]
    ensures multiset(DropAudits(drops))[a] == One(a.DroppedAudit? && a.id in drops)
  {
    if drops != [] {
      var n := |drops| - 1;
      var front := drops[..n];
      CountDrops(front, a);
      assert DropAudits(drops) == DropAudits(front) + [DroppedAudit(drops[n])];
      CountOne(DropAudits(front), DroppedAudit(drops[n]), a);
      assert drops == front + [drops[n]];
    }
  }

  lemma ClaimAccounts(db: Db, s: Step, a: Audit)
    requires s.Claim? && Enabled(db, s) && IsLoss(a)
    ensures multiset(Do(db, s).audit)[a] == multiset(db.audit)[a] + One(Owes(db, s, a))
  {
    CountDrops(s.drops, a);
    assert multiset(db.audit + DropAudits(s.drops)) == multiset(db.audit) + multiset(DropAudits(s.drops));
    if a.DroppedAudit? {
      DropsExactly(db, s, a.id);
    } else if a.DlqedAudit? && Owes(db, s, a) {
      ClaimAt(db, s.drops, s.ids, s.ts);
    }
  }

  /** A claim drops exactly the rows it lists. */
  lemma DropsExactly(db: Db, s: Step, id: nat)
    requires s.Claim? && Enabled(db, s)
    ensures Enters(db, Do(db, s), id, Dropped) <==> id in s.drops
  {
    ClaimAt(db, s.drops, s.ids, s.ts);
    if Enters(db, Do(db, s), id, Dropped) {
      EntersDropped(db, s, id);
    }
    if id in s.drops {
      assert Expired(Requeued(db.rows, s.ts)[id], s.ts);
    }
  }

  /** A step other than these writes no audit row of a loss, and owes none. */
  lemma OtherAccounts(db: Db, s: Step, a: Audit)
    requires !s.Enqueue? && !s.FailWrite? && !s.Claim? && IsLoss(a)
    ensures multiset(Do(db, s).audit)[a] == multiset(db.audit)[a] && !Owes(db, s, a)
  {
    if s.Retry? {
      CountOne(db.audit, RetryAudit(s.id), a);
    } else if s.Decommission? {
      CountOne(db.audit, DecommissionAudit(s.node, s.deadline), a);
    }
    if a.DlqedAudit? && Owes(db, s, a) {
      if a.id in db.rows {
        RowSteps(db, s, a.id);
      } else {
        NewRows(db, s, a.id);
      }
    }
    if a.DroppedAudit? && Owes(db, s, a) {
      OnlyClaimsDrop(db, s, a.id);
    }
  }

  lemma StepAccounts(db: Db, s: Step, a: Audit)
    requires Enabled(db, s) && IsLoss(a)
    ensures multiset(Do(db, s).audit)[a] == multiset(db.audit)[a] + One(Owes(db, s, a)) + One(Spurious(db, s, a))
  {
    if s.Enqueue? {
      EnqueueAccounts(db, s, a);
    } else if s.FailWrite? {
      WriteAccounts(db, s, a);
    } else if s.Claim? {
      ClaimAccounts(db, s, a);
    } else {
      OtherAccounts(db, s, a);
    }
  }

  // ---- over runs ----

  ghost function Surplus(dbs: seq<Db>, steps: seq<Step>, a: Audit, n: nat): nat
    requires IsRun(dbs, steps) && n < |dbs|
  {
    if n == 0 then 0 else Surplus(dbs, steps, a, n - 1) + One(Spurious(dbs[n - 1], steps[n - 1], a))
  }

  /**
    Over any run, the audit rows of a loss number exactly its occurrences, plus,
    for a dead letter, the failure writes that came after the row had left flight.
   */
  lemma {:induction false} LossesAccounted(dbs: seq<Db>, steps: seq<Step>, a: Audit, n: nat)
    requires IsRun(dbs, steps) && n < |dbs| && IsLoss(a)
    ensures multiset(dbs[n].audit)[a]
         == multiset(dbs[0].audit)[a] + Owed(dbs, steps, a, n) + Surplus(dbs, steps, a, n)
    ensures !a.DlqedAudit? ==> Surplus(dbs, steps, a, n) == 0
  {
    if n > 0 {
      LossesAccounted(dbs, steps, a, n - 1);
      StepAccounts(dbs[n - 1], steps[n - 1], a);
    }
  }

  // ---- a run with a dead letter recorded twice ----

  function TheEvent(): Event {
    Event("h", "e", "k", "n", "p", Policy(None, 1, 1))
  }

  function TheRow(phase: Phase, attempts: nat): Row {
    Row("h", "e", "k", "n", "p", phase, attempts, 1, 0, 0, 0, 0)
  }

  const NO_JITTER: int -> int := x => 0

  function TheTicket(): Ticket {
    Ticket(0, 1, 1, 1, 0)
  }

  /** One event, claimed; its only attempt fails, and two writers both read that before either writes. */
  function TwiceSteps(): seq<Step> {
    [Enqueue(TheEvent(), true, 0, 0), Claim(1, 0, [], [0]), FailRead(0, 0, NO_JITTER), FailRead(0, 0, NO_JITTER),
     FailWrite(TheTicket()), FailWrite(TheTicket())]
  }

  function TwiceRun(): seq<Db> {
    var t := TheTicket();
    [Db(map[], [], multiset{}, 0),
     Db(map[0 := TheRow(Pending, 0)], [], multiset{}, 0),
     Db(map[0 := TheRow(InFlight, 0)], [], multiset{}, 0),
     Db(map[0 := TheRow(InFlight, 0)], [], multiset{t}, 0),
     Db(map[0 := TheRow(InFlight, 0)], [], multiset{t, t}, 0),
     Db(map[0 := TheRow(Dlqed, 1)], [DlqedAudit(0)], multiset{t}, 0),
     Db(map[0 := TheRow(Dlqed, 1)], [DlqedAudit(0), DlqedAudit(0)], multiset{}, 0)]
  }

  lemma TwiceEnqueued()
    ensures Enabled(TwiceRun()[0], TwiceSteps()[0]) && Do(TwiceRun()[0], TwiceSteps()[0]) == TwiceRun()[1]
  {
    assert Backlog(TwiceRun()[0].rows, "h") == {};
  }

  lemma TwiceClaimed()
    ensures Enabled(TwiceRun()[1], TwiceSteps()[1]) && Do(TwiceRun()[1], TwiceSteps()[1]) == TwiceRun()[2]
  {
    RowsTaken();
    assert [] + DropAudits([]) == [];
  }

  lemma RowsTaken()
    ensures var rows := map[0 := TheRow(Pending, 0)];
            Requeued(rows, 0) == rows && WithoutExpired(rows, 0) == rows && Taken(rows, [0], 0) == map[0 := TheRow(InFlight, 0)]
  {
  }

  lemma TwiceRead(db: Db)
    requires db.rows == map[0 := TheRow(InFlight, 0)] && db.now == 0
    ensures FailureRead(db, 0, 0, NO_JITTER) == db.(tickets := db.tickets + multiset{TheTicket()})
  {
    assert Doubled(0) == 1;
  }

  lemma TwiceReads()
    ensures Enabled(TwiceRun()[2], TwiceSteps()[2]) && Do(TwiceRun()[2], TwiceSteps()[2]) == TwiceRun()[3]
    ensures Enabled(TwiceRun()[3], TwiceSteps()[3]) && Do(TwiceRun()[3], TwiceSteps()[3]) == TwiceRun()[4]
  {
    TwiceRead(TwiceRun()[2]);
    TwiceRead(TwiceRun()[3]);
    var t := TheTicket();
    assert multiset{} + multiset{t} == multiset{t} && multiset{t} + multiset{t} == multiset{t, t};
  }

  lemma TwiceWritten()
    ensures Enabled(TwiceRun()[4], TwiceSteps()[4]) && Do(TwiceRun()[4], TwiceSteps()[4]) == TwiceRun()[5]
    ensures Enabled(TwiceRun()[5], TwiceSteps()[5]) && Do(TwiceRun()[5], TwiceSteps()[5]) == TwiceRun()[6]
  {
    var t := TheTicket();
    assert multiset{t, t} - multiset{t} == multiset{t} && multiset{t} - multiset{t} == multiset{};
    assert map[0 := TheRow(InFlight, 0)][0 := TheRow(Dlqed, 1)] == map[0 := TheRow(Dlqed, 1)];
    assert [] + [DlqedAudit(0)] == [DlqedAudit(0)] && [DlqedAudit(0)] + [DlqedAudit(0)] == [DlqedAudit(0), DlqedAudit(0)];
  }

  lemma TwiceStep(i: nat)
    requires i < 6
    ensures Enabled(TwiceRun()[i], TwiceSteps()[i]) && TwiceRun()[i + 1] == Do(TwiceRun()[i], TwiceSteps()[i])
  {
    if i == 0 {
      TwiceEnqueued();
    } else if i == 1 {
      TwiceClaimed();
    } else if i <= 3 {
      TwiceReads();
    } else {
      TwiceWritten();
    }
  }

  lemma TwiceIsRun()
    ensures IsRun(TwiceRun(), TwiceSteps())
  {
    forall i | 0 <= i < 6 ensures Enabled(TwiceRun()[i], TwiceSteps()[i]) && TwiceRun()[i + 1] == Do(TwiceRun()[i], TwiceSteps()[i]) {
      TwiceStep(i);
    }
  }

  /** A run from the empty queue that dead-letters its row once and records it twice. */
  lemma RecordedTwice()
    ensures IsRun(TwiceRun(), TwiceSteps()) && Spurious(TwiceRun()[5], TwiceSteps()[5], DlqedAudit(0))
    ensures multiset(TwiceRun()[6].audit)[DlqedAudit(0)] == 2 && Owed(TwiceRun(), TwiceSteps(), DlqedAudit(0), 6) == 1
  {
    TwiceIsRun();
    LossesAccounted(TwiceRun(), TwiceSteps(), DlqedAudit(0), 5);
    LossesAccounted(TwiceRun(), TwiceSteps(), DlqedAudit(0), 6);
  }
}
