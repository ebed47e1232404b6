/** Snapshot, promotion and migration, for every fault sequence. */
module UpgradeForward {
  import opened Options
  import opened Upgrade
  import opened UpgradeRestore

  /** Backups other than `id` are exactly as before. */
  ghost predicate OthersSame(d: Disk, e: Disk, id: Id) {
    forall k | k != id :: (k in e.backups <==> k in d.backups) && (k in d.backups ==> e.backups[k] == d.backups[k])
  }

  lemma OthersSameTrans(d: Disk, e: Disk, f: Disk, id: Id)
    requires OthersSame(d, e, id) && OthersSame(e, f, id)
    ensures OthersSame(d, f, id)
  {
    forall k | k != id
      ensures (k in f.backups <==> k in d.backups) && (k in d.backups ==> f.backups[k] == d.backups[k])
    {
      assert k in e.backups <==> k in d.backups;
    }
  }

  lemma OnlyJournalOthers(d: Disk, e: Disk, id: Id)
    requires OnlyJournal(d, e, id)
    ensures OthersSame(d, e, id)
  {
  }

  // ---- snapshot ----

  /** Every entry stands for exactly what tree `pre` held. */
  ghost predicate Faithful(files: Tree, m: seq<Entry>, pre: Tree) {
    forall k | 0 <= k < |m| :: Wanted(files, m[k]) == Get(pre, m[k].path)
  }

  ghost predicate Snapshotting(d: Disk, id: Id, files: seq<Path>, i: nat, entries: seq<Entry>) {
    && i <= |files| && |entries| == i && JournalOf(d, id).None?
    && (forall k | 0 <= k < i :: entries[k].path == files[k])
    && (forall p | p in FilesOf(d, id) :: exists k :: 0 <= k < i && files[k] == p)
    && Faithful(FilesOf(d, id), entries, d.live)
  }

  lemma SnapshotGrows(d: Disk, e: Disk, id: Id, files: seq<Path>, i: nat, entries: seq<Entry>, entry: Entry)
    requires Snapshotting(d, id, files, i, entries) && i < |files| && Distinct(files)
    requires e.live == d.live && JournalOf(e, id).None? && entry.path == files[i]
    requires forall p | p != files[i] :: Get(FilesOf(e, id), p) == Get(FilesOf(d, id), p)
    requires Wanted(FilesOf(e, id), entry) == Get(e.live, files[i])
    ensures Snapshotting(e, id, files, i + 1, entries + [entry])
  {
    var more := entries + [entry];
    forall k | 0 <= k < i + 1 ensures more[k].path == files[k] && Wanted(FilesOf(e, id), more[k]) == Get(e.live, more[k].path) {
      if k < i {
        assert more[k] == entries[k] && files[k] != files[i];
        assert Get(FilesOf(e, id), files[k]) == Get(FilesOf(d, id), files[k]);
      }
    }
    forall p | p in FilesOf(e, id) ensures exists k :: 0 <= k < i + 1 && files[k] == p {
      if p != files[i] {
        assert Get(FilesOf(e, id), p) == Get(FilesOf(d, id), p);
      }
    }
  }

  lemma CopyFrame(w: World, id: Id, p: Path, n: Node)
    requires JournalOf(w.disk, id).None?
    ensures var (v, ok) := Write(w, WithBackupFile(w.disk, id, p, n));
            && v.disk.live == w.disk.live && OthersSame(w.disk, v.disk, id) && JournalOf(v.disk, id).None?
            && (forall q | q != p :: Get(FilesOf(v.disk, id), q) == Get(FilesOf(w.disk, id), q))
            && (ok ==> Get(FilesOf(v.disk, id), p) == Some(n))
  {
  }

  lemma {:induction false} SnapshotFromEffect(w: World, sha: Content -> Digest, id: Id, files: seq<Path>, i: nat, entries: seq<Entry>)
    requires Distinct(files) && Snapshotting(w.disk, id, files, i, entries)
    ensures var (v, m) := SnapshotFrom(w, sha, id, files, i, entries);
            && v.disk.live == w.disk.live && OthersSame(w.disk, v.disk, id) && JournalOf(v.disk, id).None?
            && (m.Some? ==> Snapshotting(v.disk, id, files, |files|, m.value))
    decreases |files| - i
  {
    if i < |files| {
      var p := files[i];
      var w1 := Read(w).0;
      assert w1.disk == w.disk;
      if p !in w.disk.live {
        var e := Entry(p, false, "", 0, 0, 0);
        SnapshotGrows(w.disk, w1.disk, id, files, i, entries, e);
        SnapshotFromEffect(w1, sha, id, files, i + 1, entries + [e]);
      } else if w.disk.live[p].File? {
        var n := w.disk.live[p];
        var copy := File(n.content, n.mode, PROCESS_UID, PROCESS_GID);
        CopyFrame(w1, id, p, copy);
        var (w2, copied) := Write(w1, WithBackupFile(w1.disk, id, p, copy));
        var w3 := Read(w2).0;
        var e := Entry(p, true, sha(n.content), n.mode, n.uid, n.gid);
        if copied {
          SnapshotGrows(w.disk, w3.disk, id, files, i, entries, e);
          SnapshotFromEffect(w3, sha, id, files, i + 1, entries + [e]);
          OthersSameTrans(w.disk, w3.disk, SnapshotFrom(w3, sha, id, files, i + 1, entries + [e]).0.disk, id);
        }
      }
    }
  }

  /** The journal of `id`, when there is one, records a faithful snapshot of `pre` on `files`. */
  ghost predicate Recorded(d: Disk, id: Id, files: seq<Path>, pre: Tree) {
    JournalOf(d, id).Some? ==>
      Paths(JournalOf(d, id).value.manifest) == files && Faithful(FilesOf(d, id), JournalOf(d, id).value.manifest, pre)
  }

  lemma FirstJournal(w: World, id: Id, j: Journal, files: seq<Path>)
    requires Snapshotting(w.disk, id, files, |files|, j.manifest)
    ensures var (v, ok) := WriteJournal(w, id, j);
            && v.disk.live == w.disk.live && OthersSame(w.disk, v.disk, id) && Recorded(v.disk, id, files, w.disk.live)
            && (ok ==> JournalOf(v.disk, id) == Some(j))
            && (JournalOf(v.disk, id).Some? ==> JournalOf(v.disk, id) == Some(j))
  {
    assert Paths(j.manifest) == files;
  }

  lemma OnlyJournalRecorded(d: Disk, e: Disk, id: Id, files: seq<Path>, pre: Tree)
    requires OnlyJournal(d, e, id) && Recorded(d, id, files, pre)
    ensures Recorded(e, id, files, pre)
  {
  }

  /** Before anything is promoted the live tree is untouched, and a journal implies a faithful snapshot. */
  lemma PrepareEffect(w: World, sha: Content -> Digest, id: Id, req: Request)
    requires Distinct(req.files) && id !in w.disk.backups
    ensures var (v, j) := Prepare(w, sha, id, req);
            && v.disk.live == w.disk.live && OthersSame(w.disk, v.disk, id) && Recorded(v.disk, id, req.files, w.disk.live)
            && (j.Some? ==> JournalOf(v.disk, id) == j)
            && (JournalOf(v.disk, id).Some? ==> PhaseIs(v.disk, id, SnapshotReady) || PhaseIs(v.disk, id, Promoting))
  {
    SnapshotFromEffect(w, sha, id, req.files, 0, []);
    var (w1, m) := SnapshotFrom(w, sha, id, req.files, 0, []);
    if m.Some? {
      var w3 := Read(Read(w1).0).0;
      assert w3.disk == w1.disk;
      var j := Journal(m.value, SnapshotReady, [], []);
      FirstJournal(w3, id, j, req.files);
      var (w4, ready) := WriteJournal(w3, id, j);
      OthersSameTrans(w.disk, w3.disk, w4.disk, id);
      if ready {
        PromotingJournal(w4, id, j, req.files, w.disk.live);
        OthersSameTrans(w.disk, w4.disk, WriteJournal(w4, id, j.(phase := Promoting)).0.disk, id);
      }
    }
  }

  lemma PromotingJournal(w: World, id: Id, j: Journal, files: seq<Path>, pre: Tree)
    requires JournalOf(w.disk, id) == Some(j) && Recorded(w.disk, id, files, pre)
    ensures var (v, ok) := WriteJournal(w, id, j.(phase := Promoting));
            && v.disk.live == w.disk.live && OthersSame(w.disk, v.disk, id) && Recorded(v.disk, id, files, pre)
            && (ok ==> JournalOf(v.disk, id) == Some(j.(phase := Promoting)))
            && (v.disk == w.disk || PhaseIs(v.disk, id, Promoting))
  {
    WriteJournalFrame(w, id, j.(phase := Promoting));
    var v := WriteJournal(w, id, j.(phase := Promoting)).0;
    OnlyJournalRecorded(w.disk, v.disk, id, files, pre);
    OnlyJournalOthers(w.disk, v.disk, id);
  }

  // ---- promotion and gates ----

  /** The live tree after files `i..` were promoted. */
  function Promotion(t: Tree, req: Request, i: nat): Tree
    requires i <= |req.files|
    decreases |req.files| - i
  {
    if i == |req.files| then t
    else
      var p := req.files[i];
      Promotion(if p in req.staging && req.staging[p].File?
                then t[p := File(req.staging[p].content, req.staging[p].mode, PROCESS_UID, PROCESS_GID)] else t, req, i + 1)
  }

  function Migration(t: Tree, writes: seq<(Path, Option<Node>)>, i: nat): Tree
    requires i <= |writes|
    decreases |writes| - i
  {
    if i == |writes| then t
    else Migration(if writes[i].1.Some? then t[writes[i].0 := writes[i].1.value] else t - {writes[i].0}, writes, i + 1)
  }

  /** The live tree a completed upgrade leaves. */
  function Expected(t: Tree, req: Request): Tree {
    var promoted := Promotion(t, req, 0);
    if req.migration.Some? then Migration(promoted, req.migration.value, 0) else promoted
  }

  predicate MigratesListed(req: Request) {
    req.migration.Some? ==> forall i | 0 <= i < |req.migration.value| :: req.migration.value[i].0 in req.files
  }

  ghost predicate SameOffFiles(t: Tree, u: Tree, files: seq<Path>) {
    forall p | p !in files :: Get(t, p) == Get(u, p)
  }

  /** A phase an upgrade passes through on its way forward. */
  predicate OnTheWay(p: Phase) {
    p.Promoting? || p.Promoted? || p.Migrating? || p.HealthChecking?
  }

  ghost predicate MovesForward(d: Disk, e: Disk, id: Id, files: seq<Path>) {
    && OnlyJournal(d, e, id) && SameOffFiles(d.live, e.live, files)
    && (JournalOf(e, id) == JournalOf(d, id) || (JournalOf(e, id).Some? && OnTheWay(JournalOf(e, id).value.phase)))
  }

  lemma MovesForwardTrans(d: Disk, e: Disk, f: Disk, id: Id, files: seq<Path>)
    requires MovesForward(d, e, id, files) && MovesForward(e, f, id, files)
    ensures MovesForward(d, f, id, files)
  {
    OnlyJournalTrans(d, e, f, id);
  }

  lemma JournalForward(w: World, id: Id, j: Journal, files: seq<Path>)
    requires Records(w.disk, id, j.manifest) && OnTheWay(j.phase)
    ensures var (v, ok) := WriteJournal(w, id, j);
            MovesForward(w.disk, v.disk, id, files) && v.disk.live == w.disk.live && Records(v.disk, id, j.manifest)
  {
    WriteJournalFrame(w, id, j);
  }

  lemma LiveForward(w: World, id: Id, p: Path, n: Option<Node>, files: seq<Path>)
    requires p in files
    ensures var (v, ok) := Write(w, WithLive(w.disk, p, n));
            && MovesForward(w.disk, v.disk, id, files) && v.disk.backups == w.disk.backups
            && (ok ==> v.disk.live == WithLive(w.disk, p, n).live)
  {
  }

  lemma {:induction false} PromoteFromEffect(w: World, id: Id, req: Request, i: nat, j: Journal)
    requires i <= |req.files| && Records(w.disk, id, j.manifest) && j.phase.Promoting?
    ensures var (v, j2, ok) := PromoteFrom(w, id, req, i, j);
            && MovesForward(w.disk, v.disk, id, req.files) && Records(v.disk, id, j.manifest) && j2.manifest == j.manifest
            && (ok ==> v.disk.live == Promotion(w.disk.live, req, i))
    decreases |req.files| - i
  {
    if i < |req.files| {
      var p := req.files[i];
      var w1 := Read(w).0;
      assert w1.disk == w.disk;
      if p in req.staging && req.staging[p].File? {
        var n := File(req.staging[p].content, req.staging[p].mode, PROCESS_UID, PROCESS_GID);
        LiveForward(w1, id, p, Some(n), req.files);
        var (w2, copied) := Write(w1, WithLive(w1.disk, p, Some(n)));
        if copied {
          var j2 := j.(promoted := j.promoted + [p]);
          JournalForward(w2, id, j2, req.files);
          var (w3, noted) := WriteJournal(w2, id, j2);
          MovesForwardTrans(w.disk, w2.disk, w3.disk, id, req.files);
          if noted {
            PromoteFromEffect(w3, id, req, i + 1, j2);
            MovesForwardTrans(w.disk, w3.disk, PromoteFrom(w3, id, req, i + 1, j2).0.disk, id, req.files);
          }
        }
      }
    }
  }

  lemma {:induction false} MigrateFromEffect(w: World, id: Id, req: Request, i: nat)
    requires req.migration.Some? && i <= |req.migration.value| && MigratesListed(req)
    ensures var (v, ok) := MigrateFrom(w, req.migration.value, i);
            && MovesForward(w.disk, v.disk, id, req.files) && v.disk.backups == w.disk.backups
            && (ok ==> v.disk.live == Migration(w.disk.live, req.migration.value, i))
    decreases |req.migration.value| - i
  {
    var writes := req.migration.value;
    if i < |writes| {
      LiveForward(w, id, writes[i].0, writes[i].1, req.files);
      var (w1, ok) := Write(w, WithLive(w.disk, writes[i].0, writes[i].1));
      if ok {
        MigrateFromEffect(w1, id, req, i + 1);
        MovesForwardTrans(w.disk, w1.disk, MigrateFrom(w1, writes, i + 1).0.disk, id, req.files);
      }
    }
  }

  lemma MigrateEffect(w: World, id: Id, req: Request, j: Journal)
    requires Records(w.disk, id, j.manifest) && MigratesListed(req)
    ensures var (v, j2, ok) := Migrate(w, id, req, j);
            && MovesForward(w.disk, v.disk, id, req.files) && Records(v.disk, id, j.manifest) && j2.manifest == j.manifest
            && (ok ==> v.disk.live == if req.migration.Some? then Migration(w.disk.live, req.migration.value, 0) else w.disk.live)
  {
    if req.migration.Some? {
      JournalForward(w, id, j.(phase := Migrating), req.files);
      var (w1, noted) := WriteJournal(w, id, j.(phase := Migrating));
      if noted {
        MigrateFromEffect(w1, id, req, 0);
        MovesForwardTrans(w.disk, w1.disk, MigrateFrom(w1, req.migration.value, 0).0.disk, id, req.files);
      }
    } else {
      OnlyJournalSelf(w.disk, id);
    }
  }

  lemma HealthCheckEffect(w: World, id: Id, req: Request, j: Journal)
    requires Records(w.disk, id, j.manifest)
    ensures var (v, j2, ok) := HealthCheck(w, id, req, j);
            && MovesForward(w.disk, v.disk, id, req.files) && Records(v.disk, id, j.manifest) && j2.manifest == j.manifest
            && v.disk.live == w.disk.live
  {
    JournalForward(w, id, j.(phase := HealthChecking), req.files);
  }

  lemma PromoteAndGateEffect(w: World, id: Id, req: Request, j: Journal)
    requires JournalOf(w.disk, id) == Some(j) && j.phase.Promoting? && MigratesListed(req)
    ensures var (v, j2, ok) := PromoteAndGate(w, id, req, j);
            && MovesForward(w.disk, v.disk, id, req.files) && Records(v.disk, id, j.manifest) && j2.manifest == j.manifest
            && (ok ==> v.disk.live == Expected(w.disk.live, req))
  {
    PromoteFromEffect(w, id, req, 0, j);
    var (w1, j1, promoted) := PromoteFrom(w, id, req, 0, j);
    if promoted {
      var j2 := j1.(phase := Promoted);
      JournalForward(w1, id, j2, req.files);
      var (w2, noted) := WriteJournal(w1, id, j2);
      MovesForwardTrans(w.disk, w1.disk, w2.disk, id, req.files);
      if noted {
        MigrateEffect(w2, id, req, j2);
        var (w3, j3, migrated) := Migrate(w2, id, req, j2);
        MovesForwardTrans(w.disk, w2.disk, w3.disk, id, req.files);
        if migrated {
          HealthCheckEffect(w3, id, req, j3);
          MovesForwardTrans(w.disk, w3.disk, HealthCheck(w3, id, req, j3).0.disk, id, req.files);
        }
      }
    }
  }
}
