/** A clock that goes back can hand a row out twice at the same time. */
module QueueClock {
  import opened Queue
  import opened QueueRuns
  import opened QueueAccounts

  const NOON := 1000

  /** The row of the one event, enqueued at noon. */
  function NoonRow(phase: Phase, deadline: int, updated: int): Row {
    Row("h", "e", "k", "n", "p", phase, 0, 1, NOON, deadline, NOON, updated)
  }

  function NoonDb(rows: map<nat, Row>, audit: seq<Audit>, now: int): Db {
    Db(rows, audit, multiset{}, now)
  }

  /** Claimed at noon; the clock goes back; a decommission stamps the row; claimed at noon again. */
  function BackSteps(): seq<Step> {
    [Enqueue(TheEvent(), true, 0, NOON), Claim(1, NOON, [], [0]), Tick(0), Decommission("n", 2 * NOON), Claim(1, NOON, [], [0])]
  }

  function BackRun(): seq<Db> {
    var marked := [DecommissionAudit("n", 2 * NOON)];
    [NoonDb(map[], [], NOON),
     NoonDb(map[0 := NoonRow(Pending, 0, NOON)], [], NOON),
     NoonDb(map[0 := NoonRow(InFlight, 0, NOON)], [], NOON),
     NoonDb(map[0 := NoonRow(InFlight, 0, NOON)], [], 0),
     NoonDb(map[0 := NoonRow(InFlight, 2 * NOON, 0)], marked, 0),
     NoonDb(map[0 := NoonRow(InFlight, 2 * NOON, NOON)], marked, 0)]
  }

  lemma Enqueues()
    ensures Enabled(BackRun()[0], BackSteps()[0]) && Do(BackRun()[0], BackSteps()[0]) == BackRun()[1]
  {
    assert Backlog(BackRun()[0].rows, "h") == {};
  }

  /** A claim at noon that finds the row waiting, or in flight since long before. */
  lemma ClaimsAtNoon(db: Db, r: Row)
    requires db.rows == map[0 := r] && (r.deadline == 0 || r.deadline == 2 * NOON)
    requires (r.phase == Pending && r.next == NOON) || (r.phase == InFlight && r.updated < NOON - STUCK_SECONDS)
    ensures Enabled(db, Claim(1, NOON, [], [0]))
    ensures Do(db, Claim(1, NOON, [], [0])) == db.(rows := map[0 := r.(phase := InFlight, next := NOON, updated := NOON)])
  {
    var requeued := Requeued(db.rows, NOON);
    assert requeued.Keys == {0} && Waiting(requeued[0].phase) && requeued[0].next == NOON;
    assert WithoutExpired(requeued, NOON) == requeued;
    assert Taken(requeued, [0], NOON) == map[0 := r.(phase := InFlight, next := NOON, updated := NOON)];
    assert db.audit + DropAudits([]) == db.audit;
  }

  lemma Marks()
    ensures Enabled(BackRun()[3], BackSteps()[3]) && Do(BackRun()[3], BackSteps()[3]) == BackRun()[4]
  {
    assert Do(BackRun()[3], BackSteps()[3]).rows == BackRun()[4].rows;
    assert [] + BackRun()[4].audit == BackRun()[4].audit;
  }

  lemma BackIsRun()
    ensures IsRun(BackRun(), BackSteps())
  {
    forall i | 0 <= i < 5 ensures Enabled(BackRun()[i], BackSteps()[i]) && BackRun()[i + 1] == Do(BackRun()[i], BackSteps()[i]) {
      if i == 0 {
        Enqueues();
      } else if i == 1 {
        ClaimsAtNoon(BackRun()[1], NoonRow(Pending, 0, NOON));
      } else if i == 3 {
        Marks();
      } else if i == 4 {
        ClaimsAtNoon(BackRun()[4], NoonRow(InFlight, 2 * NOON, 0));
      }
    }
  }

  /** A run from the empty queue: two claims at one time hand out the same row, and no failure was recorded. */
  lemma ClaimedTwiceAtOnce()
    ensures IsRun(BackRun(), BackSteps()) && Backdated(BackRun()[3], BackSteps()[3], 0, NOON)
    ensures BackSteps()[1] == BackSteps()[4] == Claim(1, NOON, [], [0])
    ensures forall k :: 1 < k < 4 ==> !FailureRecorded(BackRun()[k], BackSteps()[k], 0)
  {
    BackIsRun();
  }
}
