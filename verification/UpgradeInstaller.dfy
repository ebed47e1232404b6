/**
  The upgrade as it is written: a disk changed in place, loops that go file by
  file, journals mutated and rewritten.  Each method computes the function of
  module Upgrade of the same name, for every fault sequence.
 */
module UpgradeInstaller {
  import opened Options
  import opened Upgrade

  class Installer {
    var live: Tree
    var backups: map<Id, Backup>
    var faults: seq<Fault>
    const sha: Content -> Digest

    ghost function View(): World
      reads this
    {
      World(Disk(live, backups), faults)
    }

    constructor (w: World, sha: Content -> Digest)
      ensures View() == w && this.sha == sha
    {
      live, backups, faults := w.disk.live, w.disk.backups, w.faults;
      this.sha := sha;
    }

    /** One operation of the process: does it report success, and did it take effect? */
    method Tick() returns (ok: bool, effect: bool)
      modifies `faults
      ensures ok == Read(old(View())).1 && View() == Read(old(View())).0
      ensures forall d :: Write(old(View()), d) == (World(if effect then d else old(View()).disk, faults), ok)
    {
      if faults == [] {
        return false, false;
      }
      ok := faults[0].Fine?;
      effect := ok || faults[0].effect;
      faults := faults[1..];
    }

    method PutLive(p: Path, n: Option<Node>) returns (ok: bool)
      modifies this
      ensures (View(), ok) == Write(old(View()), WithLive(old(View()).disk, p, n))
    {
      var effect;
      ok, effect := Tick();
      if effect {
        live := if n.Some? then live[p := n.value] else live - {p};
      }
    }

    method PutJournal(id: Id, j: Journal) returns (ok: bool)
      modifies this
      ensures (View(), ok) == WriteJournal(old(View()), id, j)
    {
      var effect;
      ok, effect := Tick();
      if effect {
        backups := backups[id := if id in backups then backups[id].(journal := Some(j)) else Backup(map[], Some(j))];
      }
    }

    method PutBackupFile(id: Id, p: Path, n: Node) returns (ok: bool)
      modifies this
      ensures (View(), ok) == Write(old(View()), WithBackupFile(old(View()).disk, id, p, n))
    {
      var effect;
      ok, effect := Tick();
      if effect {
        backups := backups[id := if id in backups then backups[id].(files := backups[id].files[p := n]) else Backup(map[p := n], None)];
      }
    }

    method CreateSnapshot(id: Id, files: seq<Path>) returns (manifest: Option<seq<Entry>>)
      modifies this
      ensures (View(), manifest) == SnapshotFrom(old(View()), sha, id, files, 0, [])
    {
      var entries := [];
      var i := 0;
      while i < |files|
        invariant 0 <= i <= |files|
        invariant SnapshotFrom(View(), sha, id, files, i, entries) == SnapshotFrom(old(View()), sha, id, files, 0, [])
      {
        var p := files[i];
        var seen, _ := Tick();
        if !seen {
          return None;
        }
        if p !in live {
          entries := entries + [Entry(p, false, "", 0, 0, 0)];
        } else if live[p].Special? {
          return None;
        } else {
          var n := live[p];
          var copied := PutBackupFile(id, p, File(n.content, n.mode, PROCESS_UID, PROCESS_GID));
          if !copied {
            return None;
          }
          var hashed, _ := Tick();
          if !hashed {
            return None;
          }
          entries := entries + [Entry(p, true, sha(n.content), n.mode, n.uid, n.gid)];
        }
        i := i + 1;
      }
      return Some(entries);
    }

    method RestoreOne(files: Tree, e: Entry) returns (ok: bool)
      modifies this
      ensures (View(), ok) == RestoreEntry(old(View()), files, e)
    {
      if !e.present {
        if e.path !in live {
          var effect;
          ok, effect := Tick();
        } else if live[e.path].Special? {
          ok := false;
        } else {
          ok := PutLive(e.path, None);
        }
      } else if e.path !in files || files[e.path].Special? {
        ok := false;
      } else {
        var n := File(files[e.path].content, e.mode, PROCESS_UID, PROCESS_GID);
        ok := PutLive(e.path, Some(n));
        if ok {
          ok := PutLive(e.path, Some(n.(uid := e.uid, gid := e.gid)));
        }
      }
    }

    method ReportProgress(prog: Progress, p: Path) returns (prog2: Progress, ok: bool)
      modifies this
      ensures (View(), prog2, ok) == Report(old(View()), prog, p)
    {
      prog2, ok := prog, true;
      if prog.Journaled? {
        var effect;
        ok, effect := Tick();
        if ok && prog.readable {
          prog2 := prog.(journal := prog.journal.(restored := prog.journal.restored + [p]));
          ok := PutJournal(prog.id, prog2.journal);
        }
      }
    }

    method RestoreSnapshotWithProgress(id: Id, m: seq<Entry>, prog: Progress) returns (prog2: Progress, ok: bool)
      modifies this
      ensures (View(), prog2, ok) == Restore(old(View()), sha, id, m, prog)
    {
      prog2 := prog;
      var files := if id in backups then backups[id].files else map[];
      var checked, _ := Tick();
      if !checked || !Verified(sha, files, m, false) {
        return prog2, false;
      }
      var inspected, _ := Tick();
      if !inspected || !NothingSpecial(live, m) {
        return prog2, false;
      }
      ghost var start := View();
      var failed := false;
      var i := 0;
      while i < |m|
        invariant 0 <= i <= |m|
        invariant RestoreFrom(View(), files, m, i, prog2, failed) == RestoreFrom(start, files, m, 0, prog, false)
      {
        var restored := RestoreOne(files, m[i]);
        if !restored {
          failed := true;
        } else {
          var reported;
          prog2, reported := ReportProgress(prog2, m[i].path);
          failed := failed || !reported;
        }
        i := i + 1;
      }
      var verified, _ := Tick();
      ok := !failed && verified && Verified(sha, live, m, true);
    }

    method RecoverInterrupted(order: seq<Id>) returns (ok: bool)
      modifies this
      ensures (View(), ok) == Recover(old(View()), sha, order)
    {
      var listed, _ := Tick();
      if !listed {
        return false;
      }
      ghost var start := View();
      var i := 0;
      while i < |order|
        invariant 0 <= i <= |order|
        invariant RecoverFrom(View(), sha, order, i) == RecoverFrom(start, sha, order, 0)
      {
        ok := RecoverDirectory(order[i]);
        if !ok {
          return;
        }
        i := i + 1;
      }
      ok := true;
    }

    method RecoverDirectory(id: Id) returns (ok: bool)
      modifies this
      ensures (View(), ok) == RecoverOne(old(View()), sha, id)
    {
      if id !in backups || backups[id].journal.None? {
        return true;
      }
      var j := backups[id].journal.value;
      var readable, _ := Tick();
      if !readable {
        return false;
      }
      if Terminal(j.phase) {
        return true;
      }
      if !Recoverable(j.phase) {
        return false;
      }
      var checked, _ := Tick();
      if !checked || !Verified(sha, backups[id].files, j.manifest, false) {
        return false;
      }
      var _, restored := RestoreSnapshotWithProgress(id, j.manifest, Silent);
      if restored {
        ok := PutJournal(id, j.(phase := Recovered));
      } else {
        var _ := PutJournal(id, j.(phase := RollbackFailed));
        ok := false;
      }
    }

    method PromoteFiles(id: Id, req: Request, j: Journal) returns (j2: Journal, ok: bool)
      modifies this
      ensures (View(), j2, ok) == PromoteFrom(old(View()), id, req, 0, j)
    {
      j2 := j;
      var i := 0;
      while i < |req.files|
        invariant 0 <= i <= |req.files|
        invariant PromoteFrom(View(), id, req, i, j2) == PromoteFrom(old(View()), id, req, 0, j)
      {
        var p := req.files[i];
        var seen, _ := Tick();
        if !seen || p !in req.staging || req.staging[p].Special? {
          return j2, false;
        }
        var copied := PutLive(p, Some(File(req.staging[p].content, req.staging[p].mode, PROCESS_UID, PROCESS_GID)));
        if !copied {
          return j2, false;
        }
        j2 := j2.(promoted := j2.promoted + [p]);
        ok := PutJournal(id, j2);
        if !ok {
          return;
        }
        i := i + 1;
      }
      ok := true;
    }

    method RollbackUpgrade(id: Id, m: seq<Entry>) returns (out: Outcome)
      modifies this
      ensures (View(), out) == Rollback(old(View()), sha, id, m)
    {
      var announced, _ := Tick();
      var readable, _ := Tick();
      readable := readable && id in backups && backups[id].journal.Some?;
      var j := if readable then backups[id].journal.value.(phase := RollbackInProgress)
               else Journal(m, RollbackInProgress, [], []);
      if readable {
        var _ := PutJournal(id, j);
      }
      var prog, ok := RestoreSnapshotWithProgress(id, m, Journaled(id, readable, j));
      var noted, _ := Tick();
      out := Reverted(ok);
      if readable && (!ok || noted) {
        var _ := PutJournal(id, prog.journal.(phase := if ok then RolledBack else RollbackFailed));
      }
    }

    method MigrateFiles(writes: seq<(Path, Option<Node>)>) returns (ok: bool)
      modifies this
      ensures (View(), ok) == MigrateFrom(old(View()), writes, 0)
    {
      var i := 0;
      while i < |writes|
        invariant 0 <= i <= |writes|
        invariant MigrateFrom(View(), writes, i) == MigrateFrom(old(View()), writes, 0)
      {
        ok := PutLive(writes[i].0, writes[i].1);
        if !ok {
          return;
        }
        i := i + 1;
      }
      var effect;
      ok, effect := Tick();
    }

    method PromoteMigrateCheck(id: Id, req: Request, j: Journal) returns (j2: Journal, ok: bool)
      modifies this
      ensures (View(), j2, ok) == PromoteAndGate(old(View()), id, req, j)
    {
      j2, ok := PromoteFiles(id, req, j);
      if !ok {
        return;
      }
      j2 := j2.(phase := Promoted);
      ok := PutJournal(id, j2);
      if !ok {
        return;
      }
      if req.migration.Some? {
        j2 := j2.(phase := Migrating);
        ok := PutJournal(id, j2);
        if !ok {
          return;
        }
        ok := MigrateFiles(req.migration.value);
        if !ok {
          return;
        }
      }
      if req.healthCheck {
        j2 := j2.(phase := HealthChecking);
        ok := PutJournal(id, j2);
        if !ok {
          return;
        }
        var effect;
        ok, effect := Tick();
      }
    }

    method SnapshotAndJournal(id: Id, req: Request) returns (journal: Option<Journal>)
      modifies this
      ensures (View(), journal) == Prepare(old(View()), sha, id, req)
    {
      var m := CreateSnapshot(id, req.files);
      if m.None? {
        return None;
      }
      var written, _ := Tick();
      var checked, _ := Tick();
      if !written || !checked || !Verified(sha, if id in backups then backups[id].files else map[], m.value, false) {
        return None;
      }
      var j := Journal(m.value, SnapshotReady, [], []);
      var ok := PutJournal(id, j);
      if !ok {
        return None;
      }
      j := j.(phase := Promoting);
      ok := PutJournal(id, j);
      journal := if ok then Some(j) else None;
    }

    /** The whole call; with UpgradeRuns its outcomes and crashes are all accounted for. */
    method UpgradeTransaction(order: seq<Id>, id: Id, req: Request) returns (out: Outcome)
      modifies this
      ensures (View(), out) == TransactionalUpgrade(old(View()), sha, order, id, req)
    {
      var recovered := RecoverInterrupted(order);
      if !recovered {
        return Refused;
      }
      var j := SnapshotAndJournal(id, req);
      if j.None? {
        return Refused;
      }
      var j2, gated := PromoteMigrateCheck(id, req, j.value);
      if gated {
        var done := PutJournal(id, j2.(phase := Complete));
        if done {
          return Upgraded;
        }
      }
      out := RollbackUpgrade(id, j.value.manifest);
    }
  }
}
