/** The queue store, whose methods change the tables in place; each is one step of the queue. */
module QueueStore {
  import opened Options
  import opened Queue
  import opened QueueSafety

  /** The rows after the first updates of the drop loop. */
  function DropListed(rows: map<nat, Row>, drops: seq<nat>, ts: int): map<nat, Row> {
    map id | id in rows :: if id in drops then rows[id].(phase := Dropped, updated := ts) else rows[id]
  }

  class Store {
    var rows: map<nat, Row>
    var audit: seq<Audit>
    var tickets: multiset<Ticket>
    var now: int

    ghost function View(): Db
      reads this
    {
      Db(rows, audit, tickets, now)
    }

    constructor (time: int)
      ensures View() == Db(map[], [], multiset{}, time)
    {
      rows, audit, tickets, now := map[], [], multiset{}, time;
    }

    // ---- enqueue ----

    /** The oldest waiting row of the hook and kind. */
    method FindTarget(evt: Event) returns (target: Option<nat>)
      ensures target.Some? ==> Oldest(rows, target.value, evt)
      ensures target.None? ==> forall id :: !Candidate(rows, id, evt)
    {
      var left: set<nat> := set id | id in rows && Candidate(rows, id, evt);
      target := None;
      while left != {}
        invariant forall id :: id in left ==> Candidate(rows, id, evt)
        invariant target.None? ==> forall id :: Candidate(rows, id, evt) ==> id in left
        invariant target.Some? ==> Candidate(rows, target.value, evt)
        invariant target.Some? ==>
                    forall id :: Candidate(rows, id, evt) && id !in left ==> rows[target.value].created <= rows[id].created
        decreases |left|
      {
        var id :| id in left;
        left := left - {id};
        if target.None? || rows[id].created < rows[target.value].created {
          target := Some(id);
        }
      }
    }

    method EnqueueEvent(evt: Event, known: bool, newId: nat, ts: int) returns (answer: Outcome, ghost pick: nat)
      requires OneRowPerEvent(rows)
      modifies this`rows, this`audit
      ensures OneRowPerEvent(rows)
      ensures Picks(old(View()), evt, pick) && (answer.Queued? || answer.DeadLettered? ==> pick == newId)
      ensures answer == Answer(old(View()), evt, known, pick)
      ensures View() == Do(old(View()), Enqueue(evt, known, pick, ts))
    {
      KeepsOneRow(View(), Enqueue(evt, known, newId, ts));
      var target := FindTarget(evt);
      KeepsOneRow(View(), Enqueue(evt, known, if target.Some? then target.value else newId, ts));
      pick := if target.Some? then target.value else newId;
      if evt.hook == "" || evt.event == "" || !known {
        return Rejected, pick;
      }
      if exists id :: id in rows && IsFor(rows[id], evt) {
        var id :| id in rows && IsFor(rows[id], evt);
        return Existing(id), pick;
      }
      if |Backlog(rows, evt.hook)| < MaxQueue(evt.policy) {
        pick := newId;
        if newId in rows {
          return Rejected, pick;
        }
        Insert(newId, evt, Pending, ts);
        return Queued(newId), pick;
      }
      answer := EnqueueFull(evt, target, newId, ts);
      pick := if OnFullOf(evt.policy) == Coalesce && target.Some? then target.value else newId;
    }

    method Insert(id: nat, evt: Event, phase: Phase, ts: int)
      modifies this`rows
      ensures View() == Inserted(old(View()), id, evt, phase, ts)
    {
      rows := rows[id := Row(evt.hook, evt.event, KindOf(evt), evt.node, evt.payload,
                             phase, 0, MaxAttempts(evt.policy), ts, 0, ts, ts)];
    }

    /** The queue is full: coalesce, refuse or dead-letter, with the audit row in the same transaction. */
    method EnqueueFull(evt: Event, target: Option<nat>, newId: nat, ts: int) returns (answer: Outcome)
      requires evt.hook != "" && evt.event != ""
      requires !exists id :: id in rows && IsFor(rows[id], evt)
      requires |Backlog(rows, evt.hook)| >= MaxQueue(evt.policy)
      requires target.Some? ==> Oldest(rows, target.value, evt)
      requires target.None? ==> forall id :: !Candidate(rows, id, evt)
      modifies this`rows, this`audit
      ensures var pick := if OnFullOf(evt.policy) == Coalesce && target.Some? then target.value else newId;
              answer == Answer(old(View()), evt, true, pick) && View() == Enqueued(old(View()), evt, true, pick, ts)
    {
      if OnFullOf(evt.policy) == Refuse {
        audit := audit + [RefusedAudit(evt.hook, evt.event)];
        return QueueFull;
      }
      if OnFullOf(evt.policy) == Coalesce && target.Some? {
        var r := rows[target.value];
        if r.phase == Failed {
          r := r.(phase := Pending, attempts := 0, next := ts);
        }
        rows := rows[target.value := r.(payload := evt.payload, updated := ts)];
        audit := audit + [CoalescedAudit(target.value, evt.hook, evt.event)];
        return CoalescedInto(target.value);
      }
      if newId in rows {
        return Rejected;
      }
      Insert(newId, evt, Dlqed, ts);
      audit := audit + [DlqedAudit(newId)];
      answer := DeadLettered(newId);
    }

    // ---- claim ----

    method ListExpired(ts: int) returns (drops: seq<nat>)
      ensures ListsExpired(rows, drops, ts)
    {
      var left := set id | id in rows && Expired(rows[id], ts);
      drops := [];
      while left != {}
        invariant forall id :: id in drops || id in left <==> id in rows && Expired(rows[id], ts)
        invariant forall id :: id in drops ==> id !in left
        invariant forall i, j :: 0 <= i < j < |drops| ==> drops[i] != drops[j]
        decreases |left|
      {
        var id :| id in left;
        left := left - {id};
        drops := drops + [id];
      }
    }

    method DropExpired(ts: int) returns (drops: seq<nat>)
      modifies this`rows, this`audit
      ensures ListsExpired(old(rows), drops, ts)
      ensures rows == WithoutExpired(old(rows), ts)
      ensures audit == old(audit) + DropAudits(drops)
    {
      drops := ListExpired(ts);
      var i := 0;
      while i < |drops|
        invariant i <= |drops|
        invariant rows == DropListed(old(rows), drops[..i], ts)
        invariant audit == old(audit) + DropAudits(drops[..i])
      {
        rows := rows[drops[i] := rows[drops[i]].(phase := Dropped, updated := ts)];
        audit := audit + [DroppedAudit(drops[i])];
        assert drops[..i + 1] == drops[..i] + [drops[i]];
        assert DropAudits(drops[..i + 1]) == DropAudits(drops[..i]) + [DroppedAudit(drops[i])];
        i := i + 1;
      }
      assert drops[..i] == drops;
    }

    method Earliest(left: set<nat>) returns (first: nat)
      requires left != {} && forall id :: id in left ==> id in rows
      ensures first in left && forall id :: id in left && id != first ==> Before(rows, first, id)
    {
      first :| first in left;
      var todo := left - {first};
      while todo != {}
        invariant todo <= left && first in left && first !in todo
        invariant forall id :: id in left && id !in todo && id != first ==> Before(rows, first, id)
        decreases |todo|
      {
        var id :| id in todo;
        todo := todo - {id};
        if Before(rows, id, first) {
          first := id;
        }
      }
    }

    method SelectDue(max: nat, ts: int) returns (ids: seq<nat>)
      ensures FirstDue(rows, ids, max, ts)
    {
      var left := set id | id in rows && Due(rows, id, ts);
      ids := [];
      while |ids| < max && left != {}
        invariant |ids| <= max
        invariant forall id :: id in ids || id in left <==> Due(rows, id, ts)
        invariant Ascending(rows, ids)
        invariant forall c, id :: c in ids && id in left ==> Before(rows, c, id)
        decreases |left|
      {
        var id := Earliest(left);
        left := left - {id};
        ids := ids + [id];
      }
    }

    method ClaimDue(max: int, ts: int) returns (ids: seq<nat>, ghost drops: seq<nat>)
      modifies this`rows, this`audit
      ensures max <= 0 ==> ids == [] && View() == old(View())
      ensures max > 0 ==> ListsExpired(Requeued(old(rows), ts), drops, ts)
      ensures max > 0 ==> FirstDue(WithoutExpired(Requeued(old(rows), ts), ts), ids, max, ts)
      ensures max > 0 ==> View() == Do(old(View()), Claim(max, ts, drops, ids))
    {
      ids, drops := [], [];
      if max <= 0 {
        return;
      }
      rows := Requeued(rows, ts);
      var listed := DropExpired(ts);
      drops := listed;
      ids := SelectDue(max, ts);
      TakeAll(ids, ts);
    }

    method TakeAll(ids: seq<nat>, ts: int)
      requires forall id :: id in ids ==> id in rows
      modifies this`rows
      ensures rows == Taken(old(rows), ids, ts)
    {
      var i := 0;
      while i < |ids|
        invariant i <= |ids|
        invariant rows == Taken(old(rows), ids[..i], ts)
      {
        if Waiting(rows[ids[i]].phase) {
          rows := rows[ids[i] := rows[ids[i]].(phase := InFlight, updated := ts)];
        }
        assert ids[..i + 1] == ids[..i] + [ids[i]];
        i := i + 1;
      }
      assert ids[..i] == ids;
    }

    // ---- outcomes of a delivery ----

    method FinishDelivery(id: nat, ts: int) returns (found: bool)
      modifies this`rows
      ensures found == (id in old(rows))
      ensures View() == Do(old(View()), MarkDelivered(id, ts))
    {
      found := id in rows;
      if found && rows[id].phase == InFlight {
        rows := rows[id := rows[id].(phase := Delivered, updated := ts)];
      }
    }

    method ReadFailure(id: nat, ts: int, jitter: int -> int) returns (t: Option<Ticket>)
      modifies this`tickets
      ensures View() == Do(old(View()), FailRead(id, ts, jitter))
      ensures t.Some? ==> t.value in tickets
    {
      if id !in rows || rows[id].phase != InFlight {
        return None;
      }
      var attempt := rows[id].attempts + 1;
      t := Some(Ticket(id, attempt, rows[id].maxAttempts, ts + Backoff(attempt, jitter), ts));
      tickets := tickets + multiset{t.value};
    }

    method WriteFailure(t: Ticket)
      requires t in tickets
      modifies this`rows, this`audit, this`tickets
      ensures View() == Do(old(View()), FailWrite(t))
    {
      tickets := tickets - multiset{t};
      var inFlight := t.id in rows && rows[t.id].phase == InFlight;
      if t.attempt >= t.maxAttempts {
        if inFlight {
          rows := rows[t.id := rows[t.id].(phase := Dlqed, attempts := t.attempt, updated := t.ts)];
        }
        audit := audit + [DlqedAudit(t.id)];
      } else if inFlight {
        rows := rows[t.id := rows[t.id].(phase := Failed, attempts := t.attempt, next := t.next, updated := t.ts)];
      }
    }

    method RetryDelivery(id: nat) returns (ok: bool)
      modifies this`rows, this`audit
      ensures ok == (id in old(rows) && (old(rows)[id].phase == Failed || old(rows)[id].phase == Dlqed))
      ensures View() == Do(old(View()), Retry(id))
    {
      ok := id in rows && (rows[id].phase == Failed || rows[id].phase == Dlqed);
      if ok {
        rows := rows[id := rows[id].(phase := Pending, attempts := 0, next := now, updated := now)];
        audit := audit + [RetryAudit(id)];
      }
    }

    method MarkDecommissioned(node: string, deadline: int) returns (ok: bool)
      modifies this`rows, this`audit
      ensures ok == (node != "" && deadline > 0)
      ensures View() == Do(old(View()), Decommission(node, deadline))
    {
      ok := node != "" && deadline > 0;
      if ok {
        rows := map id | id in rows ::
          if rows[id].node == node && Live(rows[id].phase)
          then rows[id].(deadline := deadline, updated := now)
          else rows[id];
        audit := audit + [DecommissionAudit(node, deadline)];
      }
    }
  }
}
