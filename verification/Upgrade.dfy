/**
  The transactional upgrade: snapshot, journal, promotion, rollback and recovery.

  A disk holds the live tree and one backup directory for each upgrade.  Every
  atomic write and every read phase uses up one element of `faults`: it works, or
  it reports an error with or without having taken effect (a rename that succeeds
  while syncing the directory fails reports an error although the file is in
  place).  When `faults` is used up the process has crashed: no later write takes
  effect and every later operation reports an error, so an operation that reports
  success did not crash.
 */
module Upgrade {
  import opened Options

  type Path = string
  type Id = string
  type Content = string
  type Digest = string

  datatype Node = File(content: Content, mode: nat, uid: nat, gid: nat) | Special

  type Tree = map<Path, Node>

  /** What the tree holds at a path. */
  function Get(t: Tree, p: Path): Option<Node> {
    if p in t then Some(t[p]) else None
  }

  datatype Entry = Entry(path: Path, present: bool, digest: Digest, mode: nat, uid: nat, gid: nat)

  datatype Phase =
    | SnapshotReady | Promoting | Promoted | Migrating | HealthChecking
    | RollbackInProgress | RollbackFailed | Complete | RolledBack | Recovered

  datatype Journal = Journal(manifest: seq<Entry>, phase: Phase, promoted: seq<Path>, restored: seq<Path>)

  /** One backup directory: the copied files, beside them transaction.json. */
  datatype Backup = Backup(files: Tree, journal: Option<Journal>)

  datatype Disk = Disk(live: Tree, backups: map<Id, Backup>)

  datatype Fault = Fine | Fails(effect: bool)

  datatype World = World(disk: Disk, faults: seq<Fault>)

  /** Who creates files: the process that runs the upgrade. */
  const PROCESS_UID: nat := 0
  const PROCESS_GID: nat := 0

  // ---- primitives ----

  /** An atomic write that would turn the disk into `d`. */
  function Write(w: World, d: Disk): (World, bool) {
    if w.faults == [] then (w, false)
    else match w.faults[0]
      case Fine => (World(d, w.faults[1..]), true)
      case Fails(effect) => (World(if effect then d else w.disk, w.faults[1..]), false)
  }

  /** A phase of reads. */
  function Read(w: World): (World, bool) {
    if w.faults == [] then (w, false) else (w.(faults := w.faults[1..]), w.faults[0].Fine?)
  }

  function WithLive(d: Disk, p: Path, n: Option<Node>): Disk {
    d.(live := if n.Some? then d.live[p := n.value] else d.live - {p})
  }

  function WithJournal(d: Disk, id: Id, j: Journal): Disk {
    if id in d.backups then d.(backups := d.backups[id := d.backups[id].(journal := Some(j))])
    else d.(backups := d.backups[id := Backup(map[], Some(j))])
  }

  function WithBackupFile(d: Disk, id: Id, p: Path, n: Node): Disk {
    if id in d.backups then d.(backups := d.backups[id := d.backups[id].(files := d.backups[id].files[p := n])])
    else d.(backups := d.backups[id := Backup(map[p := n], None)])
  }

  function WriteJournal(w: World, id: Id, j: Journal): (World, bool) {
    Write(w, WithJournal(w.disk, id, j))
  }

  function FilesOf(d: Disk, id: Id): Tree {
    if id in d.backups then d.backups[id].files else map[]
  }

  function JournalOf(d: Disk, id: Id): Option<Journal> {
    if id in d.backups then d.backups[id].journal else None
  }

  // ---- snapshot ----

  /** The copying loop of CreateSnapshot from file `i` on; `entries` is the manifest so far. */
  function SnapshotFrom(w: World, sha: Content -> Digest, id: Id, files: seq<Path>, i: nat, entries: seq<Entry>)
    : (World, Option<seq<Entry>>)
    requires i <= |files|
    decreases |files| - i
  {
    if i == |files| then (w, Some(entries))
    else
      var p := files[i];
      var (w1, seen) := Read(w);
      if !seen then (w1, None)
      else if p !in w.disk.live then
        SnapshotFrom(w1, sha, id, files, i + 1, entries + [Entry(p, false, "", 0, 0, 0)])
      else if w.disk.live[p].Special? then (w1, None)
      else
        var n := w.disk.live[p];
        var (w2, copied) := Write(w1, WithBackupFile(w1.disk, id, p, File(n.content, n.mode, PROCESS_UID, PROCESS_GID)));
        if !copied then (w2, None)
        else
          var (w3, hashed) := Read(w2);
          if !hashed then (w3, None)
          else SnapshotFrom(w3, sha, id, files, i + 1,
                            entries + [Entry(p, true, sha(n.content), n.mode, n.uid, n.gid)])
  }

  predicate Distinct(files: seq<Path>) {
    forall i, j | 0 <= i < j < |files| :: files[i] != files[j]
  }

  function Paths(m: seq<Entry>): seq<Path> {
    seq(|m|, i requires 0 <= i < |m| => m[i].path)
  }

  /** One manifest entry against a tree; ownership is compared on the live tree only. */
  predicate Matches(sha: Content -> Digest, t: Tree, e: Entry, live: bool) {
    if !e.present then e.path !in t
    else
      && e.path in t && t[e.path].File? && t[e.path].mode == e.mode && sha(t[e.path].content) == e.digest
      && (live ==> t[e.path].uid == e.uid && t[e.path].gid == e.gid)
  }

  /** verifySnapshotFiles */
  predicate Verified(sha: Content -> Digest, t: Tree, m: seq<Entry>, live: bool) {
    m != [] && Distinct(Paths(m)) && forall i | 0 <= i < |m| :: Matches(sha, t, m[i], live)
  }

  // ---- restore ----

  /** What a restore reports after each file: nothing, or the two journals of a rollback. */
  datatype Progress = Silent | Journaled(id: Id, readable: bool, journal: Journal)

  function Report(w: World, prog: Progress, p: Path): (r: (World, Progress, bool))
    ensures r.1.Silent? == prog.Silent?
  {
    if prog.Silent? then (w, prog, true)
    else
      var (w1, ok) := Read(w);   // rollback.json, which nothing reads back
      if !ok then (w1, prog, false)
      else if !prog.readable then (w1, prog, true)
      else
        var j := prog.journal.(restored := prog.journal.restored + [p]);
        var (w2, ok2) := WriteJournal(w1, prog.id, j);
        (w2, prog.(journal := j), ok2)
  }

  /** One entry: remove, or copy and then restore the owner. */
  function RestoreEntry(w: World, files: Tree, e: Entry): (World, bool) {
    if !e.present then
      if e.path !in w.disk.live then Read(w)
      else if w.disk.live[e.path].Special? then (w, false)
      else Write(w, WithLive(w.disk, e.path, None))
    else if e.path !in files || files[e.path].Special? then (w, false)
    else
      var n := File(files[e.path].content, e.mode, PROCESS_UID, PROCESS_GID);
      var (w1, copied) := Write(w, WithLive(w.disk, e.path, Some(n)));
      if !copied then (w1, false)
      else Write(w1, WithLive(w1.disk, e.path, Some(n.(uid := e.uid, gid := e.gid))))
  }

  /** The restoring loop from entry `i` on; it goes on after an error. */
  function RestoreFrom(w: World, files: Tree, m: seq<Entry>, i: nat, prog: Progress, failed: bool)
    : (r: (World, Progress, bool))
    requires i <= |m|
    ensures r.1.Silent? == prog.Silent?
    decreases |m| - i
  {
    if i == |m| then (w, prog, failed)
    else
      var (w1, ok) := RestoreEntry(w, files, m[i]);
      if !ok then RestoreFrom(w1, files, m, i + 1, prog, true)
      else
        var (w2, prog2, reported) := Report(w1, prog, m[i].path);
        RestoreFrom(w2, files, m, i + 1, prog2, failed || !reported)
  }

  predicate NothingSpecial(t: Tree, m: seq<Entry>) {
    forall i | 0 <= i < |m| :: m[i].path in t ==> t[m[i].path].File?
  }

  /** restoreSnapshotWithProgress */
  function Restore(w: World, sha: Content -> Digest, id: Id, m: seq<Entry>, prog: Progress): (r: (World, Progress, bool))
    ensures r.1.Silent? == prog.Silent?
  {
    var files := FilesOf(w.disk, id);
    var (w1, checked) := Read(w);
    if !checked || !Verified(sha, files, m, false) then (w1, prog, false)
    else
      var (w2, inspected) := Read(w1);
      if !inspected || !NothingSpecial(w2.disk.live, m) then (w2, prog, false)
      else
        var (w3, prog3, failed) := RestoreFrom(w2, files, m, 0, prog, false);
        var (w4, verified) := Read(w3);
        (w4, prog3, !failed && verified && Verified(sha, w4.disk.live, m, true))
  }

  // ---- recovery ----

  predicate Terminal(p: Phase) {
    p.Complete? || p.RolledBack? || p.Recovered?
  }

  predicate Recoverable(p: Phase) {
    p.SnapshotReady? || p.Promoting? || p.Promoted? || p.Migrating? || p.HealthChecking? || p.RollbackInProgress?
  }

  /** One backup directory of recoverInterruptedUpgrade. */
  function RecoverOne(w: World, sha: Content -> Digest, id: Id): (World, bool) {
    if JournalOf(w.disk, id).None? then (w, true)
    else
      var (w1, readable) := Read(w);
      var j := JournalOf(w.disk, id).value;
      if !readable then (w1, false)
      else if Terminal(j.phase) then (w1, true)
      else if !Recoverable(j.phase) then (w1, false)
      else
        var (w2, checked) := Read(w1);
        if !checked || !Verified(sha, FilesOf(w2.disk, id), j.manifest, false) then (w2, false)
        else
          var (w3, _, ok) := Restore(w2, sha, id, j.manifest, Silent);
          if ok then WriteJournal(w3, id, j.(phase := Recovered))
          else (WriteJournal(w3, id, j.(phase := RollbackFailed)).0, false)
  }

  /** recoverInterruptedUpgrade: the directories in listing order, stopping at the first error. */
  function RecoverFrom(w: World, sha: Content -> Digest, order: seq<Id>, i: nat): (World, bool)
    requires i <= |order|
    decreases |order| - i
  {
    if i == |order| then (w, true)
    else
      var (w1, ok) := RecoverOne(w, sha, order[i]);
      if !ok then (w1, false) else RecoverFrom(w1, sha, order, i + 1)
  }

  function Recover(w: World, sha: Content -> Digest, order: seq<Id>): (World, bool) {
    var (w1, listed) := Read(w);
    if !listed then (w1, false) else RecoverFrom(w1, sha, order, 0)
  }

  // ---- upgrade ----

  datatype Request = Request(
    files: seq<Path>,
    staging: Tree,
    migration: Option<seq<(Path, Option<Node>)>>,  // the writes of Migrate, in order
    healthCheck: bool)

  /** Success, an error before anything was promoted, or an error after a rollback was tried. */
  datatype Outcome = Upgraded | Refused | Reverted(rolledBack: bool)

  /** rollbackUpgrade */
  function Rollback(w: World, sha: Content -> Digest, id: Id, m: seq<Entry>): (World, Outcome) {
    var (w1, _) := Read(w);                     // rollback.json; an error is only remembered
    var (w2, readable0) := Read(w1);            // reading transaction.json back
    var readable := readable0 && JournalOf(w2.disk, id).Some?;
    var j := if readable then JournalOf(w2.disk, id).value.(phase := RollbackInProgress)
             else Journal(m, RollbackInProgress, [], []);
    var w3 := if readable then WriteJournal(w2, id, j).0 else w2;
    var (w4, prog, ok) := Restore(w3, sha, id, m, Journaled(id, readable, j));
    var (w5, noted) := Read(w4);                // rollback.json: "failed" or "complete"
    if !ok then
      (if readable then WriteJournal(w5, id, prog.journal.(phase := RollbackFailed)).0 else w5, Reverted(false))
    else if !noted then (w5, Reverted(true))
    else (if readable then WriteJournal(w5, id, prog.journal.(phase := RolledBack)).0 else w5, Reverted(true))
  }

  /** The promotion loop from file `i` on. */
  function PromoteFrom(w: World, id: Id, req: Request, i: nat, j: Journal): (World, Journal, bool)
    requires i <= |req.files|
    decreases |req.files| - i
  {
    if i == |req.files| then (w, j, true)
    else
      var p := req.files[i];
      var (w1, seen) := Read(w);                // cancellation, staged file
      if !seen || p !in req.staging || req.staging[p].Special? then (w1, j, false)
      else
        var n := File(req.staging[p].content, req.staging[p].mode, PROCESS_UID, PROCESS_GID);
        var (w2, copied) := Write(w1, WithLive(w1.disk, p, Some(n)));
        if !copied then (w2, j, false)
        else
          var j2 := j.(promoted := j.promoted + [p]);
          var (w3, noted) := WriteJournal(w2, id, j2);
          if !noted then (w3, j2, false) else PromoteFrom(w3, id, req, i + 1, j2)
  }

  /** The writes of Migrate from write `i` on. */
  function MigrateFrom(w: World, writes: seq<(Path, Option<Node>)>, i: nat): (World, bool)
    requires i <= |writes|
    decreases |writes| - i
  {
    if i == |writes| then Read(w)
    else
      var (w1, ok) := Write(w, WithLive(w.disk, writes[i].0, writes[i].1));
      if !ok then (w1, false) else MigrateFrom(w1, writes, i + 1)
  }

  /** Everything from the first promotion to the gates; false asks for a rollback. */
  function PromoteAndGate(w: World, id: Id, req: Request, j: Journal): (World, Journal, bool) {
    var (w1, j1, promoted) := PromoteFrom(w, id, req, 0, j);
    if !promoted then (w1, j1, false)
    else
      var j2 := j1.(phase := Promoted);
      var (w2, noted) := WriteJournal(w1, id, j2);
      if !noted then (w2, j2, false)
      else
        var (w3, j3, migrated) := Migrate(w2, id, req, j2);
        if !migrated then (w3, j3, false) else HealthCheck(w3, id, req, j3)
  }

  function Migrate(w: World, id: Id, req: Request, j: Journal): (World, Journal, bool) {
    if req.migration.None? then (w, j, true)
    else
      var j1 := j.(phase := Migrating);
      var (w1, noted) := WriteJournal(w, id, j1);
      if !noted then (w1, j1, false)
      else var (w2, ok) := MigrateFrom(w1, req.migration.value, 0); (w2, j1, ok)
  }

  function HealthCheck(w: World, id: Id, req: Request, j: Journal): (World, Journal, bool) {
    if !req.healthCheck then (w, j, true)
    else
      var j1 := j.(phase := HealthChecking);
      var (w1, noted) := WriteJournal(w, id, j1);
      if !noted then (w1, j1, false) else var (w2, ok) := Read(w1); (w2, j1, ok)
  }

  /** Snapshot and the two journal writes that precede the first promotion. */
  function Prepare(w: World, sha: Content -> Digest, id: Id, req: Request): (World, Option<Journal>) {
    var (w1, m) := SnapshotFrom(w, sha, id, req.files, 0, []);
    if m.None? then (w1, None)
    else
      var (w2, written) := Read(w1);            // manifest.json, which nothing reads back
      var (w3, checked) := Read(w2);
      if !written || !checked || !Verified(sha, FilesOf(w3.disk, id), m.value, false) then (w3, None)
      else
        var j := Journal(m.value, SnapshotReady, [], []);
        var (w4, ready) := WriteJournal(w3, id, j);
        if !ready then (w4, None)
        else
          var j2 := j.(phase := Promoting);
          var (w5, promoting) := WriteJournal(w4, id, j2);
          (w5, if promoting then Some(j2) else None)
  }

  /** The part of TransactionalUpgrade after recovery. */
  function UpgradeFrom(w: World, sha: Content -> Digest, id: Id, req: Request): (World, Outcome) {
    var (w1, j1) := Prepare(w, sha, id, req);
    if j1.None? then (w1, Refused)
    else
      var (w2, j2, gated) := PromoteAndGate(w1, id, req, j1.value);
      if !gated then Rollback(w2, sha, id, j1.value.manifest)
      else
        var (w3, done) := WriteJournal(w2, id, j2.(phase := Complete));
        if done then (w3, Upgraded) else Rollback(w3, sha, id, j1.value.manifest)
  }

  /** TransactionalUpgrade: recovery of earlier transactions, then the upgrade under a fresh id. */
  function TransactionalUpgrade(w: World, sha: Content -> Digest, order: seq<Id>, id: Id, req: Request): (World, Outcome) {
    var (w1, recovered) := Recover(w, sha, order);
    if !recovered then (w1, Refused) else UpgradeFrom(w1, sha, id, req)
  }
}
