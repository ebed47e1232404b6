/**
  The durable hook queue as a table of rows, an append-only audit log, and the
  writes of MarkFailed that were decided on but not yet made. Each step is one
  transaction, except that MarkFailed reads in one step and writes in another.
 */
module Queue {
  import opened Options

  datatype Phase = Pending | InFlight | Delivered | Failed | Dlqed | Dropped

  datatype Row = Row(
    hook: string, event: string, kind: string, node: string, payload: string,
    phase: Phase, attempts: nat, maxAttempts: nat, next: int, deadline: int, created: int, updated: int)

  datatype OnFull = Coalesce | Refuse | DeadLetter

  datatype Policy = Policy(onFull: Option<OnFull>, maxQueue: int, maxAttempts: int)

  datatype Event = Event(hook: string, event: string, kind: string, node: string, payload: string, policy: Policy)

  datatype Audit =
    | CoalescedAudit(id: nat, hook: string, event: string)
    | DlqedAudit(id: nat)
    | RefusedAudit(hook: string, event: string)
    | DroppedAudit(id: nat)
    | RetryAudit(id: nat)
    | DecommissionAudit(node: string, deadline: int)

  /** A failure that MarkFailed has read and decided on, not yet written. */
  datatype Ticket = Ticket(id: nat, attempt: nat, maxAttempts: nat, next: int, ts: int)

  datatype Db = Db(rows: map<nat, Row>, audit: seq<Audit>, tickets: multiset<Ticket>, now: int)

  const DEFAULT_MAX_QUEUE := 100
  const DEFAULT_MAX_ATTEMPTS := 8
  const STUCK_SECONDS := 300

  function OnFullOf(p: Policy): OnFull {
    if p.onFull.Some? then p.onFull.value else DeadLetter
  }

  function MaxQueue(p: Policy): (n: nat)
    ensures n > 0
  {
    if p.maxQueue <= 0 then DEFAULT_MAX_QUEUE else p.maxQueue
  }

  function MaxAttempts(p: Policy): (n: nat)
    ensures n > 0
  {
    if p.maxAttempts <= 0 then DEFAULT_MAX_ATTEMPTS else p.maxAttempts
  }

  function KindOf(evt: Event): string {
    if evt.kind == "" then "lifecycle" else evt.kind
  }

  predicate Live(p: Phase) {
    p == Pending || p == InFlight || p == Failed
  }

  predicate Terminal(p: Phase) {
    p == Delivered || p == Dropped
  }

  predicate Waiting(p: Phase) {
    p == Pending || p == Failed
  }

  // ---- enqueue ----

  predicate IsFor(r: Row, evt: Event) {
    r.hook == evt.hook && r.event == evt.event
  }

  function Backlog(rows: map<nat, Row>, hook: string): set<nat> {
    set id | id in rows && rows[id].hook == hook && Live(rows[id].phase)
  }

  predicate Candidate(rows: map<nat, Row>, id: nat, evt: Event) {
    id in rows && rows[id].hook == evt.hook && rows[id].kind == KindOf(evt) && Waiting(rows[id].phase)
  }

  /** A row a full queue may coalesce into: of this hook and kind, waiting, and none older. */
  ghost predicate Oldest(rows: map<nat, Row>, id: nat, evt: Event) {
    && Candidate(rows, id, evt)
    && forall j | Candidate(rows, j, evt) :: rows[id].created <= rows[j].created
  }

  function Inserted(db: Db, id: nat, evt: Event, phase: Phase, ts: int): Db {
    db.(rows := db.rows[id := Row(evt.hook, evt.event, KindOf(evt), evt.node, evt.payload,
                                  phase, 0, MaxAttempts(evt.policy), ts, 0, ts, ts)])
  }

  function CoalescedRow(r: Row, evt: Event, ts: int): Row {
    if r.phase == Failed then r.(phase := Pending, attempts := 0, next := ts, payload := evt.payload, updated := ts)
    else r.(payload := evt.payload, updated := ts)
  }

  datatype Outcome = Rejected | Existing(id: nat) | Queued(id: nat) | CoalescedInto(id: nat) | DeadLettered(id: nat) | QueueFull

  /** What EnqueueEvent answers; `pick` is the new row's random id, or the row to coalesce into. */
  ghost function Answer(db: Db, evt: Event, known: bool, pick: nat): Outcome {
    if evt.hook == "" || evt.event == "" || !known then Rejected
    else if exists id :: id in db.rows && IsFor(db.rows[id], evt) then
      Existing(var id :| id in db.rows && IsFor(db.rows[id], evt); id)
    else if |Backlog(db.rows, evt.hook)| < MaxQueue(evt.policy) then
      (if pick in db.rows then Rejected else Queued(pick))
    else if OnFullOf(evt.policy) == Refuse then QueueFull
    else if OnFullOf(evt.policy) == Coalesce && Oldest(db.rows, pick, evt) then CoalescedInto(pick)
    else if pick in db.rows then Rejected
    else DeadLettered(pick)
  }

  ghost function Enqueued(db: Db, evt: Event, known: bool, pick: nat, ts: int): Db {
    match Answer(db, evt, known, pick)
    case Rejected => db
    case Existing(_) => db
    case Queued(id) => Inserted(db, id, evt, Pending, ts)
    case CoalescedInto(id) =>
      db.(rows := if id in db.rows then db.rows[id := CoalescedRow(db.rows[id], evt, ts)] else db.rows,
          audit := db.audit + [CoalescedAudit(id, evt.hook, evt.event)])
    case DeadLettered(id) =>
      var d := Inserted(db, id, evt, Dlqed, ts);
      d.(audit := db.audit + [DlqedAudit(id)])
    case QueueFull => db.(audit := db.audit + [RefusedAudit(evt.hook, evt.event)])
  }

  // ---- claim ----

  function RequeuedRow(r: Row, ts: int): Row {
    if r.phase == InFlight && r.updated < ts - STUCK_SECONDS then r.(phase := Pending, next := ts, updated := ts) else r
  }

  function Requeued(rows: map<nat, Row>, ts: int): map<nat, Row> {
    map id | id in rows :: RequeuedRow(rows[id], ts)
  }

  predicate Expired(r: Row, ts: int) {
    0 < r.deadline <= ts && Live(r.phase)
  }

  function WithoutExpired(rows: map<nat, Row>, ts: int): map<nat, Row> {
    map id | id in rows :: if Expired(rows[id], ts) then rows[id].(phase := Dropped, updated := ts) else rows[id]
  }

  predicate Due(rows: map<nat, Row>, id: nat, ts: int) {
    id in rows && Waiting(rows[id].phase) && rows[id].next <= ts
  }

  /** The order in which due rows are handed out. */
  predicate Before(rows: map<nat, Row>, a: nat, b: nat)
    requires a in rows && b in rows
  {
    rows[a].next < rows[b].next || (rows[a].next == rows[b].next && a < b)
  }

  predicate Ascending(rows: map<nat, Row>, ids: seq<nat>)
    requires forall id :: id in ids ==> id in rows
  {
    forall i, j :: 0 <= i < j < |ids| ==> Before(rows, ids[i], ids[j])
  }

  /** The first `max` due rows, in order. */
  ghost predicate FirstDue(rows: map<nat, Row>, ids: seq<nat>, max: int, ts: int) {
    && |ids| <= max
    && (forall id :: id in ids ==> Due(rows, id, ts))
    && Ascending(rows, ids)
    && (forall id :: Due(rows, id, ts) && id !in ids ==> |ids| == max && forall c :: c in ids ==> Before(rows, c, id))
  }

  function Taken(rows: map<nat, Row>, ids: seq<nat>, ts: int): map<nat, Row> {
    map id | id in rows ::
      if id in ids && Waiting(rows[id].phase) then rows[id].(phase := InFlight, updated := ts) else rows[id]
  }

  function DropAudits(drops: seq<nat>): (a: seq<Audit>)
    ensures |a| == |drops| && forall i :: 0 <= i < |a| ==> a[i] == DroppedAudit(drops[i])
  {
    seq(|drops|, i requires 0 <= i < |drops| => DroppedAudit(drops[i]))
  }

  function Claimed(db: Db, drops: seq<nat>, ids: seq<nat>, ts: int): Db {
    db.(rows := Taken(WithoutExpired(Requeued(db.rows, ts), ts), ids, ts), audit := db.audit + DropAudits(drops))
  }

  // ---- outcomes of a delivery ----

  function Finished(db: Db, id: nat, ts: int): Db {
    if id in db.rows && db.rows[id].phase == InFlight
    then db.(rows := db.rows[id := db.rows[id].(phase := Delivered, updated := ts)])
    else db
  }

  function Backoff(attempt: int, jitter: int -> int): (b: int)
    ensures 1 <= b <= 300
  {
    var base := Doubled(if attempt <= 0 then 0 else if attempt > 8 then 7 else attempt - 1);
    var b := base + jitter(base / 5);
    if b < 1 then 1 else if b > 300 then 300 else b
  }

  function Doubled(n: nat): (p: int)
    ensures p >= 1
  {
    if n == 0 then 1 else 2 * Doubled(n - 1)
  }

  /** MarkFailed reads a row that is in flight and decides what to write. */
  function FailureRead(db: Db, id: nat, ts: int, jitter: int -> int): Db {
    if id in db.rows && db.rows[id].phase == InFlight then
      var r := db.rows[id];
      db.(tickets := db.tickets +
                     multiset{Ticket(id, r.attempts + 1, r.maxAttempts, ts + Backoff(r.attempts + 1, jitter), ts)})
    else db
  }

  predicate Records(db: Db, t: Ticket) {
    t.id in db.rows && db.rows[t.id].phase == InFlight
  }

  /** The write made later; the row may meanwhile have moved, and only an in-flight row is changed. */
  function FailureWritten(db: Db, t: Ticket): Db {
    var d := db.(tickets := db.tickets - multiset{t});
    if t.attempt >= t.maxAttempts then
      d.(rows := if Records(db, t)
                 then db.rows[t.id := db.rows[t.id].(phase := Dlqed, attempts := t.attempt, updated := t.ts)]
                 else db.rows,
         audit := db.audit + [DlqedAudit(t.id)])
    else if Records(db, t) then
      d.(rows := db.rows[t.id := db.rows[t.id].(phase := Failed, attempts := t.attempt, next := t.next, updated := t.ts)])
    else d
  }

  function Retried(db: Db, id: nat): Db {
    if id in db.rows && (db.rows[id].phase == Failed || db.rows[id].phase == Dlqed) then
      db.(rows := db.rows[id := db.rows[id].(phase := Pending, attempts := 0, next := db.now, updated := db.now)],
          audit := db.audit + [RetryAudit(id)])
    else db
  }

  function Decommissioned(db: Db, node: string, deadline: int): Db {
    if node == "" || deadline <= 0 then db
    else
      db.(rows := map id | id in db.rows ::
            if db.rows[id].node == node && Live(db.rows[id].phase)
            then db.rows[id].(deadline := deadline, updated := db.now)
            else db.rows[id],
          audit := db.audit + [DecommissionAudit(node, deadline)])
  }

  // ---- steps ----

  /**
    A new clock reading, or one transaction. The clock may go either way; a time `ts`
    was read before its transaction began, so it is any time at all.
   */
  datatype Step =
    | Tick(time: int)
    | Enqueue(evt: Event, known: bool, pick: nat, ts: int)
    | Claim(max: int, ts: int, drops: seq<nat>, ids: seq<nat>)
    | MarkDelivered(id: nat, ts: int)
    | FailRead(id: nat, ts: int, jitter: int -> int)
    | FailWrite(ticket: Ticket)
    | Retry(id: nat)
    | Decommission(node: string, deadline: int)

  /** The rows a claim drops, each listed once. */
  ghost predicate ListsExpired(rows: map<nat, Row>, drops: seq<nat>, ts: int) {
    && (forall id :: id in drops <==> id in rows && Expired(rows[id], ts))
    && (forall i, j :: 0 <= i < j < |drops| ==> drops[i] != drops[j])
  }

  /** With a full coalescing queue, `pick` is a coalescing target whenever there is one. */
  ghost predicate Picks(db: Db, evt: Event, pick: nat) {
    (exists id :: Candidate(db.rows, id, evt)) && OnFullOf(evt.policy) == Coalesce
    && |Backlog(db.rows, evt.hook)| >= MaxQueue(evt.policy)
    ==> Oldest(db.rows, pick, evt)
  }

  ghost predicate Enabled(db: Db, s: Step) {
    match s
    case Tick(_) => true
    case Enqueue(evt, known, pick, ts) => Picks(db, evt, pick)
    case Claim(max, ts, drops, ids) =>
      && 0 < max
      && ListsExpired(Requeued(db.rows, ts), drops, ts)
      && FirstDue(WithoutExpired(Requeued(db.rows, ts), ts), ids, max, ts)
    case MarkDelivered(_, _) => true
    case FailRead(_, _, _) => true
    case FailWrite(t) => t in db.tickets
    case Retry(_) => true
    case Decommission(_, _) => true
  }

  ghost function Do(db: Db, s: Step): Db {
    match s
    case Tick(time) => db.(now := time)
    case Enqueue(evt, known, pick, ts) => Enqueued(db, evt, known, pick, ts)
    case Claim(max, ts, drops, ids) => Claimed(db, drops, ids, ts)
    case MarkDelivered(id, ts) => Finished(db, id, ts)
    case FailRead(id, ts, jitter) => FailureRead(db, id, ts, jitter)
    case FailWrite(t) => FailureWritten(db, t)
    case Retry(id) => Retried(db, id)
    case Decommission(node, deadline) => Decommissioned(db, node, deadline)
  }

  ghost predicate IsRun(dbs: seq<Db>, steps: seq<Step>) {
    && |dbs| == |steps| + 1
    && dbs[0].rows == map[] && dbs[0].tickets == multiset{}
    && forall i :: 0 <= i < |steps| ==> Enabled(dbs[i], steps[i]) && dbs[i + 1] == Do(dbs[i], steps[i])
  }
}
