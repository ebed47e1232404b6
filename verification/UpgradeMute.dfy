/**
  When a rollback leaves no trace: exactly which faults keep a "complete" journal
  in place, and exactly which ones keep the live tree as it is.
 */
module UpgradeMute {
  import opened Options
  import opened Upgrade
  import opened UpgradeRestore

  /** A write made now is lost: it fails without effect, or the process is gone. */
  predicate Lost(w: World) {
    w.faults == [] || w.faults[0] == Fails(false)
  }

  lemma WriteIsLost(w: World, id: Id, j: Journal)
    requires !j.phase.Complete?
    ensures PhaseIs(WriteJournal(w, id, j).0.disk, id, Complete) <==> PhaseIs(w.disk, id, Complete) && Lost(w)
  {
  }

  // ---- the journal ----

  /** Every journal write that the restoring loop makes from entry `i` on is lost. */
  predicate LoopMute(w: World, files: Tree, m: seq<Entry>, i: nat, prog: Progress)
    requires i <= |m|
    decreases |m| - i
  {
    i == |m|
    || var (w1, ok) := RestoreEntry(w, files, m[i]);
       if !ok then LoopMute(w1, files, m, i + 1, prog)
       else ReportMute(w1) && LoopMute(Report(w1, prog, m[i].path).0, files, m, i + 1, Report(w1, prog, m[i].path).1)
  }

  /** One report: the journal is written only after rollback.json was. */
  predicate ReportMute(w: World) {
    Read(w).1 ==> Lost(Read(w).0)
  }

  /** Reports to a readable journal of transaction `id`, with a phase other than "complete". */
  predicate Reporting(prog: Progress, id: Id) {
    prog.Journaled? && prog.readable && prog.id == id && !prog.journal.phase.Complete?
  }

  lemma ReportMuteExact(w: World, prog: Progress, p: Path, id: Id)
    requires Reporting(prog, id)
    ensures var (v, prog2, _) := Report(w, prog, p);
            && Reporting(prog2, id) && v.disk.live == w.disk.live
            && (PhaseIs(v.disk, id, Complete) <==> PhaseIs(w.disk, id, Complete) && ReportMute(w))
  {
    var (w1, noted) := Read(w);
    WriteIsLost(w1, id, prog.journal.(restored := prog.journal.restored + [p]));
  }

  lemma {:induction false} LoopMuteExact(w: World, files: Tree, m: seq<Entry>, i: nat, prog: Progress, failed: bool, id: Id)
    requires i <= |m| && Reporting(prog, id)
    ensures var (v, prog2, _) := RestoreFrom(w, files, m, i, prog, failed);
            && Reporting(prog2, id)
            && (PhaseIs(v.disk, id, Complete) <==> PhaseIs(w.disk, id, Complete) && LoopMute(w, files, m, i, prog))
    decreases |m| - i
  {
    if i < |m| {
      var (w1, ok) := RestoreEntry(w, files, m[i]);
      RestoreEntryEffect(w, files, m[i]);
      if ok {
        ReportMuteExact(w1, prog, m[i].path, id);
        var (w2, prog2, reported) := Report(w1, prog, m[i].path);
        LoopMuteExact(w2, files, m, i + 1, prog2, failed || !reported, id);
      } else {
        LoopMuteExact(w1, files, m, i + 1, prog, true, id);
      }
    }
  }

  /** The world in which the restoring loop starts, if the checks before it pass. */
  function LoopStart(w: World, sha: Content -> Digest, id: Id, m: seq<Entry>): Option<World> {
    var (w1, checked) := Read(w);
    if !checked || !Verified(sha, FilesOf(w.disk, id), m, false) then None
    else
      var (w2, inspected) := Read(w1);
      if !inspected || !NothingSpecial(w2.disk.live, m) then None else Some(w2)
  }

  predicate RestoreMute(w: World, sha: Content -> Digest, id: Id, m: seq<Entry>, prog: Progress) {
    LoopStart(w, sha, id, m).Some? ==> LoopMute(LoopStart(w, sha, id, m).value, FilesOf(w.disk, id), m, 0, prog)
  }

  lemma RestoreMuteExact(w: World, sha: Content -> Digest, id: Id, m: seq<Entry>, prog: Progress)
    requires Reporting(prog, id)
    ensures var (v, prog2, _) := Restore(w, sha, id, m, prog);
            && Reporting(prog2, id)
            && (PhaseIs(v.disk, id, Complete) <==> PhaseIs(w.disk, id, Complete) && RestoreMute(w, sha, id, m, prog))
  {
    var s := LoopStart(w, sha, id, m);
    if s.Some? {
      LoopMuteExact(s.value, FilesOf(w.disk, id), m, 0, prog, false, id);
    }
  }

  /** The rollback reads transaction.json back. */
  predicate ReadsBack(w: World, id: Id) {
    Read(Read(w).0).1 && JournalOf(w.disk, id).Some?
  }

  function Announced(w: World, id: Id): Journal
    requires ReadsBack(w, id)
  {
    JournalOf(w.disk, id).value.(phase := RollbackInProgress)
  }

  /** The world after the announcement, in which the restore starts. */
  function Announce(w: World, id: Id): World {
    var w2 := Read(Read(w).0).0;
    if ReadsBack(w, id) then WriteJournal(w2, id, Announced(w, id)).0 else w2
  }

  /**
    No journal write of the rollback takes effect: transaction.json cannot be read
    back, so there is none, or the announcement, every report and the conclusion
    are lost.
   */
  predicate Mute(w: World, sha: Content -> Digest, id: Id, m: seq<Entry>) {
    ReadsBack(w, id) ==>
      var prog := Journaled(id, true, Announced(w, id));
      && Lost(Read(Read(w).0).0) && RestoreMute(Announce(w, id), sha, id, m, prog)
      && ConclusionLost(Restore(Announce(w, id), sha, id, m, prog).0, Restore(Announce(w, id), sha, id, m, prog).2)
  }

  /** After a restore that went well, the conclusion is not written if rollback.json cannot be. */
  predicate ConclusionLost(w: World, ok: bool) {
    (ok && !Read(w).1) || Lost(Read(w).0)
  }

  /** A rollback leaves "complete" standing exactly when it is mute. */
  lemma MuteExact(w: World, sha: Content -> Digest, id: Id, m: seq<Entry>)
    requires PhaseIs(w.disk, id, Complete)
    ensures PhaseIs(Rollback(w, sha, id, m).0.disk, id, Complete) <==> Mute(w, sha, id, m)
  {
    if ReadsBack(w, id) {
      SpokenExact(w, sha, id, m);
    } else {
      SilentRollback(w, sha, id, m);
    }
  }

  lemma SpokenExact(w: World, sha: Content -> Digest, id: Id, m: seq<Entry>)
    requires PhaseIs(w.disk, id, Complete) && ReadsBack(w, id)
    ensures PhaseIs(Rollback(w, sha, id, m).0.disk, id, Complete) <==> Mute(w, sha, id, m)
  {
    var w2 := Read(Read(w).0).0;
    var prog := Journaled(id, true, Announced(w, id));
    WriteIsLost(w2, id, Announced(w, id));
    RestoreMuteExact(Announce(w, id), sha, id, m, prog);
    var (w4, prog2, ok) := Restore(Announce(w, id), sha, id, m, prog);
    WriteIsLost(Read(w4).0, id, prog2.journal.(phase := RollbackFailed));
    WriteIsLost(Read(w4).0, id, prog2.journal.(phase := RolledBack));
  }

  lemma SilentRollback(w: World, sha: Content -> Digest, id: Id, m: seq<Entry>)
    requires !ReadsBack(w, id)
    ensures JournalOf(Rollback(w, sha, id, m).0.disk, id) == JournalOf(w.disk, id)
  {
    var w2 := Read(Read(w).0).0;
    var prog := Journaled(id, false, Journal(m, RollbackInProgress, [], []));
    SilentRestore(w2, sha, id, m, prog);
  }

  lemma SilentRestore(w: World, sha: Content -> Digest, id: Id, m: seq<Entry>, prog: Progress)
    requires prog.Journaled? && !prog.readable
    ensures Restore(w, sha, id, m, prog).0.disk.backups == w.disk.backups
  {
    var s := LoopStart(w, sha, id, m);
    if s.Some? {
      SilentLoop(s.value, FilesOf(w.disk, id), m, 0, prog, false);
    }
  }

  lemma {:induction false} SilentLoop(w: World, files: Tree, m: seq<Entry>, i: nat, prog: Progress, failed: bool)
    requires i <= |m| && prog.Journaled? && !prog.readable
    ensures RestoreFrom(w, files, m, i, prog, failed).0.disk.backups == w.disk.backups
    decreases |m| - i
  {
    if i < |m| {
      var (w1, ok) := RestoreEntry(w, files, m[i]);
      RestoreEntryEffect(w, files, m[i]);
      if ok {
        SilentLoop(Report(w1, prog, m[i].path).0, files, m, i + 1, prog, failed || !Report(w1, prog, m[i].path).2);
      } else {
        SilentLoop(w1, files, m, i + 1, prog, true);
      }
    }
  }

  // ---- the live tree ----

  /** No entry from `i` on changes the live tree: its write is lost, or writes what is there. */
  predicate LoopStill(w: World, files: Tree, m: seq<Entry>, i: nat, prog: Progress)
    requires i <= |m|
    decreases |m| - i
  {
    i == |m|
    || var (w1, ok) := RestoreEntry(w, files, m[i]);
       && w1.disk.live == w.disk.live
       && if !ok then LoopStill(w1, files, m, i + 1, prog)
          else LoopStill(Report(w1, prog, m[i].path).0, files, m, i + 1, Report(w1, prog, m[i].path).1)
  }

  lemma {:induction false} LoopStillExact(w: World, files: Tree, m: seq<Entry>, i: nat, prog: Progress, failed: bool)
    requires i <= |m| && Distinct(Paths(m)) && Ready(w.disk, prog)
    ensures RestoreFrom(w, files, m, i, prog, failed).0.disk.live == w.disk.live <==> LoopStill(w, files, m, i, prog)
    decreases |m| - i
  {
    if i < |m| {
      var (w1, ok) := RestoreEntry(w, files, m[i]);
      RestoreEntryEffect(w, files, m[i]);
      if ok {
        ReportEffect(w1, prog, m[i].path);
      }
      var (w2, prog2, reported) := if ok then Report(w1, prog, m[i].path) else (w1, prog, false);
      RestoreFromEffect(w2, files, m, i + 1, prog2, failed || !reported);
      LoopStillExact(w2, files, m, i + 1, prog2, failed || !reported);
      var v := RestoreFrom(w2, files, m, i + 1, prog2, failed || !reported).0;
      LaterElsewhere(m, i, w2.disk.live, v.disk.live);
      if w1.disk.live != w.disk.live {
        ChangedThere(w.disk.live, w1.disk.live, m[i].path);
      }
    }
  }

  /** Trees that agree off one path and differ, differ there. */
  lemma ChangedThere(t: Tree, u: Tree, p: Path)
    requires SameOff(t, u, {p}) && t != u
    ensures Get(t, p) != Get(u, p)
  {
    if Get(t, p) == Get(u, p) {
      SameNodes(t, u);
    }
  }

  lemma SameNodes(t: Tree, u: Tree)
    requires forall p :: Get(t, p) == Get(u, p)
    ensures t == u
  {
    forall p ensures (p in t <==> p in u) && (p in t ==> t[p] == u[p]) {
      assert Get(t, p) == Get(u, p);
    }
  }

  function FirstProgress(w: World, id: Id, m: seq<Entry>): Progress {
    if ReadsBack(w, id) then Journaled(id, true, Announced(w, id))
    else Journaled(id, false, Journal(m, RollbackInProgress, [], []))
  }

  /** The rollback does not get to its restoring loop, or the loop changes nothing. */
  predicate Still(w: World, sha: Content -> Digest, id: Id, m: seq<Entry>) {
    var s := LoopStart(Announce(w, id), sha, id, m);
    s.Some? ==> LoopStill(s.value, FilesOf(w.disk, id), m, 0, FirstProgress(w, id, m))
  }

  /** A rollback leaves the live tree as it is exactly when its restore is still. */
  lemma StillExact(w: World, sha: Content -> Digest, id: Id, m: seq<Entry>)
    requires Records(w.disk, id, m)
    ensures Rollback(w, sha, id, m).0.disk.live == w.disk.live <==> Still(w, sha, id, m)
  {
    var w3, prog := Announce(w, id), FirstProgress(w, id, m);
    if ReadsBack(w, id) {
      WriteJournalFrame(Read(Read(w).0).0, id, Announced(w, id));
    }
    assert FilesOf(w3.disk, id) == FilesOf(w.disk, id) && w3.disk.live == w.disk.live;
    var s := LoopStart(w3, sha, id, m);
    if s.Some? {
      LoopStillExact(s.value, FilesOf(w.disk, id), m, 0, prog, false);
    }
    RollbackLive(w, sha, id, m);
  }

  /** What a rollback does to the live tree is what its restore does. */
  lemma RollbackLive(w: World, sha: Content -> Digest, id: Id, m: seq<Entry>)
    ensures Rollback(w, sha, id, m).0.disk.live
         == Restore(Announce(w, id), sha, id, m, FirstProgress(w, id, m)).0.disk.live
  {
    var (w4, prog, ok) := Restore(Announce(w, id), sha, id, m, FirstProgress(w, id, m));
    JournalOnly(Read(w4).0, id, prog.journal.(phase := RollbackFailed));
    JournalOnly(Read(w4).0, id, prog.journal.(phase := RolledBack));
  }

  lemma JournalOnly(w: World, id: Id, j: Journal)
    ensures WriteJournal(w, id, j).0.disk.live == w.disk.live
  {
  }
}
