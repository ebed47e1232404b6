/** What one restore, rollback, recovery or snapshot does to the disk, for every fault sequence. */
module UpgradeRestore {
  import opened Options
  import opened Upgrade

  // ---- frames ----

  /** The two trees agree except perhaps on `ps`. */
  ghost predicate SameOff(t: Tree, u: Tree, ps: set<Path>) {
    forall p | p !in ps :: Get(t, p) == Get(u, p)
  }

  /** Backups keep their files and manifests; only the journal of `id` may move on. */
  ghost predicate OnlyJournal(d: Disk, e: Disk, id: Id) {
    && e.backups.Keys == d.backups.Keys
    && (forall k | k in d.backups && k != id :: e.backups[k] == d.backups[k])
    && (id in d.backups ==> SameRecord(d.backups[id], e.backups[id]))
  }

  predicate SameRecord(b: Backup, c: Backup) {
    && c.files == b.files && b.journal.Some? == c.journal.Some?
    && (b.journal.Some? ==> c.journal.value.manifest == b.journal.value.manifest)
  }

  lemma OnlyJournalTrans(d: Disk, e: Disk, f: Disk, id: Id)
    requires OnlyJournal(d, e, id) && OnlyJournal(e, f, id)
    ensures OnlyJournal(d, f, id)
  {
  }

  lemma WriteJournalFrame(w: World, id: Id, j: Journal)
    requires JournalOf(w.disk, id).Some? && JournalOf(w.disk, id).value.manifest == j.manifest
    ensures var (v, ok) := WriteJournal(w, id, j);
            && OnlyJournal(w.disk, v.disk, id) && v.disk.live == w.disk.live
            && (ok ==> JournalOf(v.disk, id) == Some(j))
            && (v.disk == w.disk || JournalOf(v.disk, id) == Some(j))
  {
  }

  // ---- one entry ----

  /** The node a manifest entry stands for. */
  function Wanted(files: Tree, e: Entry): Option<Node> {
    if e.present && e.path in files && files[e.path].File?
    then Some(File(files[e.path].content, e.mode, e.uid, e.gid)) else None
  }

  lemma RestoreEntryEffect(w: World, files: Tree, e: Entry)
    ensures var (v, ok) := RestoreEntry(w, files, e);
            && v.disk.backups == w.disk.backups
            && SameOff(w.disk.live, v.disk.live, {e.path})
            && (ok ==> Get(v.disk.live, e.path) == Wanted(files, e))
  {
  }

  lemma ReportEffect(w: World, prog: Progress, p: Path)
    requires Ready(w.disk, prog)
    ensures var (v, prog2, _) := Report(w, prog, p);
            && v.disk.live == w.disk.live && Moves(w.disk, v.disk, prog) && Ready(v.disk, prog2) && SameProgress(prog, prog2)
  {
  }

  /** A reporting restore writes the journal of its own transaction. */
  predicate Ready(d: Disk, prog: Progress) {
    prog.Journaled? && prog.readable ==>
      JournalOf(d, prog.id).Some? && JournalOf(d, prog.id).value.manifest == prog.journal.manifest
  }

  predicate SameProgress(a: Progress, b: Progress) {
    a == b || (a.Journaled? && b.Journaled? && a.id == b.id && a.readable == b.readable
               && a.journal.manifest == b.journal.manifest && a.journal.phase == b.journal.phase)
  }

  /** The disk change a restore may make outside the live tree. */
  ghost predicate Moves(d: Disk, e: Disk, prog: Progress) {
    if prog.Silent? then e.backups == d.backups
    else
      && OnlyJournal(d, e, prog.id)
      && (JournalOf(e, prog.id) == JournalOf(d, prog.id) || PhaseIs(e, prog.id, prog.journal.phase))
  }

  predicate PhaseIs(d: Disk, id: Id, phase: Phase) {
    JournalOf(d, id).Some? && JournalOf(d, id).value.phase == phase
  }

  lemma MovesTrans(d: Disk, e: Disk, f: Disk, a: Progress, b: Progress)
    requires Moves(d, e, a) && Moves(e, f, b) && SameProgress(a, b)
    ensures Moves(d, f, a)
  {
    if a.Journaled? {
      OnlyJournalTrans(d, e, f, a.id);
    }
  }

  lemma SameBackupsMoves(d: Disk, e: Disk, prog: Progress)
    requires e.backups == d.backups
    ensures Moves(d, e, prog)
  {
  }

  // ---- the loop ----

  ghost predicate RestoredFrom(files: Tree, m: seq<Entry>, t: Tree, i: nat) {
    forall k | i <= k < |m| :: Get(t, m[k].path) == Wanted(files, m[k])
  }

  /** Entries from `i` on only touch their own paths. */
  ghost predicate TouchesFrom(m: seq<Entry>, t: Tree, u: Tree, i: nat) {
    forall p | (forall k | i <= k < |m| :: m[k].path != p) :: Get(t, p) == Get(u, p)
  }

  lemma {:induction false} RestoreFromEffect(w: World, files: Tree, m: seq<Entry>, i: nat, prog: Progress, failed: bool)
    requires i <= |m| && Distinct(Paths(m)) && Ready(w.disk, prog)
    ensures var (v, prog2, failed2) := RestoreFrom(w, files, m, i, prog, failed);
            && Moves(w.disk, v.disk, prog) && SameProgress(prog, prog2) && Ready(v.disk, prog2)
            && TouchesFrom(m, w.disk.live, v.disk.live, i)
            && (failed ==> failed2)
            && (!failed2 ==> RestoredFrom(files, m, v.disk.live, i))
    decreases |m| - i
  {
    if i < |m| {
      var (w1, ok) := RestoreEntry(w, files, m[i]);
      RestoreEntryEffect(w, files, m[i]);
      SameBackupsMoves(w.disk, w1.disk, prog);
      var (w2, prog2, reported) := if ok then Report(w1, prog, m[i].path) else (w1, prog, false);
      if ok {
        ReportEffect(w1, prog, m[i].path);
        MovesTrans(w.disk, w1.disk, w2.disk, prog, prog);
      }
      RestoreFromEffect(w2, files, m, i + 1, prog2, failed || !reported);
      var (v, prog3, failed3) := RestoreFrom(w2, files, m, i + 1, prog2, failed || !reported);
      MovesTrans(w.disk, w2.disk, v.disk, prog, prog2);
      LaterElsewhere(m, i, w2.disk.live, v.disk.live);
      FirstThenRest(m, i, w.disk.live, w2.disk.live, v.disk.live);
    }
  }

  lemma LaterElsewhere(m: seq<Entry>, i: nat, t: Tree, u: Tree)
    requires i < |m| && Distinct(Paths(m)) && TouchesFrom(m, t, u, i + 1)
    ensures Get(t, m[i].path) == Get(u, m[i].path)
  {
    forall k | i + 1 <= k < |m| ensures m[k].path != m[i].path {
      assert Paths(m)[i] != Paths(m)[k];
    }
  }

  lemma FirstThenRest(m: seq<Entry>, i: nat, t: Tree, u: Tree, v: Tree)
    requires i < |m| && SameOff(t, u, {m[i].path}) && TouchesFrom(m, u, v, i + 1)
    ensures TouchesFrom(m, t, v, i)
  {
    forall p | forall k | i <= k < |m| :: m[k].path != p ensures Get(t, p) == Get(v, p) {
      assert m[i].path != p;
    }
  }

  /** A whole restore: on success every entry is as the snapshot says, and no other path was touched. */
  lemma RestoreEffect(w: World, sha: Content -> Digest, id: Id, m: seq<Entry>, prog: Progress)
    requires Ready(w.disk, prog)
    ensures var (v, prog2, ok) := Restore(w, sha, id, m, prog);
            && Moves(w.disk, v.disk, prog) && SameProgress(prog, prog2) && Ready(v.disk, prog2)
            && TouchesFrom(m, w.disk.live, v.disk.live, 0)
            && (ok ==> RestoredFrom(FilesOf(w.disk, id), m, v.disk.live, 0))
  {
    var files := FilesOf(w.disk, id);
    RestoreLoops(w, sha, id, m, prog);
    if Verified(sha, files, m, false) {
      RestoreFromEffect(Read(Read(w).0).0, files, m, 0, prog, false);
    }
    SameBackupsMoves(w.disk, w.disk, prog);
  }

  /** A restore is refused, or it is its loop on a verified snapshot. */
  lemma RestoreLoops(w: World, sha: Content -> Digest, id: Id, m: seq<Entry>, prog: Progress)
    ensures var (v, prog2, ok) := Restore(w, sha, id, m, prog);
            var w2 := Read(Read(w).0).0;
            var (w3, prog3, failed) := RestoreFrom(w2, FilesOf(w.disk, id), m, 0, prog, false);
            && w2.disk == w.disk
            && (|| (v.disk == w.disk && prog2 == prog && !ok)
                || (Verified(sha, FilesOf(w.disk, id), m, false) && v.disk == w3.disk && prog2 == prog3 && (ok ==> !failed)))
  {
  }

  // ---- rollback ----

  /** The journal of `id` records manifest `m`. */
  predicate Records(d: Disk, id: Id, m: seq<Entry>) {
    JournalOf(d, id).Some? && JournalOf(d, id).value.manifest == m
  }

  lemma OnlyJournalSelf(d: Disk, id: Id)
    ensures OnlyJournal(d, d, id)
  {
  }

  /** The first half of a rollback: announce it in the journal if that can be read. */
  lemma AnnounceEffect(w: World, id: Id, m: seq<Entry>, readable: bool, j: Journal)
    requires Records(w.disk, id, m) && j == JournalOf(w.disk, id).value.(phase := RollbackInProgress)
    ensures var v := if readable then WriteJournal(w, id, j).0 else w;
            && OnlyJournal(w.disk, v.disk, id) && v.disk.live == w.disk.live && Records(v.disk, id, m)
            && (JournalOf(v.disk, id) == JournalOf(w.disk, id) || PhaseIs(v.disk, id, RollbackInProgress))
  {
    WriteJournalFrame(w, id, j);
  }

  /** The last half: close the journal with `phase`. */
  lemma ConcludeEffect(w: World, id: Id, readable: bool, j: Journal)
    requires readable ==> Records(w.disk, id, j.manifest)
    ensures var v := if readable then WriteJournal(w, id, j).0 else w;
            && OnlyJournal(w.disk, v.disk, id) && v.disk.live == w.disk.live
            && (JournalOf(v.disk, id) == JournalOf(w.disk, id) || PhaseIs(v.disk, id, j.phase))
  {
    if readable {
      WriteJournalFrame(w, id, j);
    }
  }

  lemma RollbackEffect(w: World, sha: Content -> Digest, id: Id, m: seq<Entry>)
    requires Records(w.disk, id, m)
    ensures var (v, out) := Rollback(w, sha, id, m);
            && OnlyJournal(w.disk, v.disk, id) && TouchesFrom(m, w.disk.live, v.disk.live, 0)
            && out.Reverted?
            && (out.rolledBack ==> RestoredFrom(FilesOf(w.disk, id), m, v.disk.live, 0))
            && (|| JournalOf(v.disk, id) == JournalOf(w.disk, id)
                || PhaseIs(v.disk, id, RollbackInProgress) || PhaseIs(v.disk, id, RollbackFailed)
                || (PhaseIs(v.disk, id, RolledBack) && out.rolledBack))
  {
    var w2 := Read(Read(w).0).0;
    var readable := Read(Read(w).0).1;
    var j := JournalOf(w.disk, id).value.(phase := RollbackInProgress);
    assert w2.disk == w.disk;
    AnnounceEffect(w2, id, m, readable, j);
    var w3 := if readable then WriteJournal(w2, id, j).0 else w2;
    var j0 := if readable then j else Journal(m, RollbackInProgress, [], []);
    RestoreEffect(w3, sha, id, m, Journaled(id, readable, j0));
    var (w4, prog, ok) := Restore(w3, sha, id, m, Journaled(id, readable, j0));
    var (w5, noted) := Read(w4);
    OnlyJournalTrans(w.disk, w3.disk, w5.disk, id);
    ConcludeEffect(w5, id, readable, prog.journal.(phase := RollbackFailed));
    ConcludeEffect(w5, id, readable, prog.journal.(phase := RolledBack));
    var (v, out) := Rollback(w, sha, id, m);
    OnlyJournalTrans(w.disk, w5.disk, v.disk, id);
  }
}
