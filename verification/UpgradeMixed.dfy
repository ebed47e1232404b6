/**
  Two families of upgrades that leave a mixed tree under a "complete" journal, for
  every request that adds two files `a` and `b`.  In both the write of "complete"
  reports an error after taking effect.  In the first the rollback that follows
  cannot announce itself and the process dies in the middle of restoring.  In the
  second the process lives on: the rollback cannot read transaction.json back, so it
  never writes it again, and one file cannot be removed.
 */
module UpgradeMixed {
  import opened Options
  import opened Upgrade
  import opened UpgradeRestore
  import opened UpgradeForward

  datatype Case = Case(a: Path, b: Path, na: Node, nb: Node, id: Id, faults: seq<Fault>)

  /** Thirteen operations go well; the next, the write of "complete", fails after taking effect. */
  ghost predicate Alarmed(c: Case) {
    && c.a != c.b && c.na.File? && c.na == File(c.na.content, c.na.mode, PROCESS_UID, PROCESS_GID)
    && c.nb.File? && c.nb == File(c.nb.content, c.nb.mode, PROCESS_UID, PROCESS_GID)
    && |c.faults| >= 14 && (forall k | 0 <= k < 13 :: c.faults[k] == Fine) && c.faults[13] == Fails(true)
  }

  /** Then the announcement of the rollback fails, and the process dies after twenty operations. */
  ghost predicate Unlucky(c: Case) {
    && Alarmed(c) && |c.faults| == 20 && (forall k | 14 <= k < 20 && k != 16 :: c.faults[k] == Fine)
    && c.faults[16] == Fails(false)
  }

  /** Or transaction.json cannot be read back, and file `b` cannot be removed; what comes later does not matter. */
  ghost predicate Unreadable(c: Case) {
    && Alarmed(c) && |c.faults| >= 21 && c.faults[15].Fails?
    && c.faults[16] == Fine && c.faults[17] == Fine && c.faults[18] == Fine && c.faults[20] == Fails(false)
  }

  function Req(c: Case): Request { Request([c.a, c.b], Both(c), None, false) }

  function Both(c: Case): Tree { map[c.a := c.na][c.b := c.nb] }

  function Manifest(c: Case): seq<Entry> { [Entry(c.a, false, "", 0, 0, 0), Entry(c.b, false, "", 0, 0, 0)] }

  function J(c: Case, phase: Phase, promoted: seq<Path>): Journal { Journal(Manifest(c), phase, promoted, []) }

  function D(c: Case, live: Tree, j: Journal): Disk { Disk(live, map[c.id := Backup(map[], Some(j))]) }

  const EMPTY: Disk := Disk(map[], map[])

  /** The world when `k` operations are over. */
  function At(c: Case, d: Disk, k: nat): World
    requires k <= |c.faults|
  {
    World(d, c.faults[k..])
  }

  lemma Tick(c: Case, d: Disk, e: Disk, k: nat)
    requires k < |c.faults|
    ensures Read(At(c, d, k)) == (At(c, d, k + 1), c.faults[k].Fine?)
    ensures c.faults[k].Fine? ==> Write(At(c, d, k), e) == (At(c, e, k + 1), true)
    ensures c.faults[k] == Fails(true) ==> Write(At(c, d, k), e) == (At(c, e, k + 1), false)
    ensures c.faults[k] == Fails(false) ==> Write(At(c, d, k), e) == (At(c, d, k + 1), false)
  {
    assert c.faults[k..][0] == c.faults[k] && c.faults[k..][1..] == c.faults[k + 1..];
  }

  lemma SnapshotAbsent(c: Case, sha: Content -> Digest, k: nat, files: seq<Path>, i: nat, entries: seq<Entry>)
    requires k < |c.faults| && c.faults[k].Fine? && i < |files|
    ensures SnapshotFrom(At(c, EMPTY, k), sha, c.id, files, i, entries) ==
            SnapshotFrom(At(c, EMPTY, k + 1), sha, c.id, files, i + 1, entries + [Entry(files[i], false, "", 0, 0, 0)])
  {
    Tick(c, EMPTY, EMPTY, k);
  }

  lemma Prepared(c: Case, sha: Content -> Digest)
    requires Alarmed(c)
    ensures Prepare(At(c, EMPTY, 0), sha, c.id, Req(c)) ==
            (At(c, D(c, map[], J(c, Promoting, [])), 6), Some(J(c, Promoting, [])))
  {
    var files := [c.a, c.b];
    SnapshotAbsent(c, sha, 0, files, 0, []);
    SnapshotAbsent(c, sha, 1, files, 1, [Manifest(c)[0]]);
    assert [] + [Manifest(c)[0]] == [Manifest(c)[0]] && [Manifest(c)[0]] + [Manifest(c)[1]] == Manifest(c);
    Tick(c, EMPTY, EMPTY, 2);
    Tick(c, EMPTY, EMPTY, 3);
    Tick(c, EMPTY, D(c, map[], J(c, SnapshotReady, [])), 4);
    Tick(c, D(c, map[], J(c, SnapshotReady, [])), D(c, map[], J(c, Promoting, [])), 5);
    NothingBackedUp(c, sha);
    assert WithJournal(EMPTY, c.id, J(c, SnapshotReady, [])) == D(c, map[], J(c, SnapshotReady, []));
    assert WithJournal(D(c, map[], J(c, SnapshotReady, [])), c.id, J(c, Promoting, [])) == D(c, map[], J(c, Promoting, []));
  }

  lemma NothingBackedUp(c: Case, sha: Content -> Digest)
    requires Alarmed(c)
    ensures Verified(sha, map[], Manifest(c), false)
  {
  }

  lemma PromoteOne(c: Case, t: Tree, k: nat, i: nat, done: seq<Path>, p: Path)
    requires Alarmed(c) && i < 2 && p == Req(c).files[i] && k + 3 <= 13
    ensures PromoteFrom(At(c, D(c, t, J(c, Promoting, done)), k), c.id, Req(c), i, J(c, Promoting, done)) ==
            PromoteFrom(At(c, D(c, t[p := Both(c)[p]], J(c, Promoting, done + [p])), k + 3), c.id, Req(c), i + 1,
                        J(c, Promoting, done + [p]))
  {
    var d := D(c, t, J(c, Promoting, done));
    var e := D(c, t[p := Both(c)[p]], J(c, Promoting, done));
    var f := D(c, t[p := Both(c)[p]], J(c, Promoting, done + [p]));
    Tick(c, d, d, k);
    Tick(c, d, e, k + 1);
    Tick(c, e, f, k + 2);
    assert Both(c)[p] == File(Both(c)[p].content, Both(c)[p].mode, PROCESS_UID, PROCESS_GID);
    assert WithLive(d, p, Some(Both(c)[p])) == e;
    assert WithJournal(e, c.id, J(c, Promoting, done + [p])) == f;
  }

  lemma BothPromoted(c: Case)
    requires Alarmed(c)
    ensures PromoteFrom(At(c, D(c, map[], J(c, Promoting, [])), 6), c.id, Req(c), 0, J(c, Promoting, [])) ==
            (At(c, D(c, Both(c), J(c, Promoting, [c.a, c.b])), 12), J(c, Promoting, [c.a, c.b]), true)
  {
    FirstPromoted(c);
    SecondPromoted(c);
  }

  lemma FirstPromoted(c: Case)
    requires Alarmed(c)
    ensures PromoteFrom(At(c, D(c, map[], J(c, Promoting, [])), 6), c.id, Req(c), 0, J(c, Promoting, [])) ==
            PromoteFrom(At(c, D(c, map[c.a := c.na], J(c, Promoting, [c.a])), 9), c.id, Req(c), 1, J(c, Promoting, [c.a]))
  {
    PromoteOne(c, map[], 6, 0, [], c.a);
    assert [] + [c.a] == [c.a];
    assert map[][c.a := Both(c)[c.a]] == map[c.a := c.na];
  }

  lemma SecondPromoted(c: Case)
    requires Alarmed(c)
    ensures PromoteFrom(At(c, D(c, map[c.a := c.na], J(c, Promoting, [c.a])), 9), c.id, Req(c), 1, J(c, Promoting, [c.a])) ==
            (At(c, D(c, Both(c), J(c, Promoting, [c.a, c.b])), 12), J(c, Promoting, [c.a, c.b]), true)
  {
    PromoteOne(c, map[c.a := c.na], 9, 1, [c.a], c.b);
    assert [c.a] + [c.b] == [c.a, c.b];
    assert map[c.a := c.na][c.b := Both(c)[c.b]] == Both(c);
  }

  lemma Gated(c: Case)
    requires Alarmed(c)
    ensures PromoteAndGate(At(c, D(c, map[], J(c, Promoting, [])), 6), c.id, Req(c), J(c, Promoting, [])) ==
            (At(c, D(c, Both(c), J(c, Promoted, [c.a, c.b])), 13), J(c, Promoted, [c.a, c.b]), true)
  {
    BothPromoted(c);
    NextPhase(c, J(c, Promoting, [c.a, c.b]), Promoted, 12);
  }

  lemma NextPhase(c: Case, j: Journal, phase: Phase, k: nat)
    requires Alarmed(c) && k < |c.faults| && c.faults[k] != Fails(false)
    ensures WriteJournal(At(c, D(c, Both(c), j), k), c.id, j.(phase := phase)) ==
            (At(c, D(c, Both(c), j.(phase := phase)), k + 1), c.faults[k].Fine?)
  {
    var d, e := D(c, Both(c), j), D(c, Both(c), j.(phase := phase));
    assert WithJournal(d, c.id, j.(phase := phase)) == e;
    Tick(c, d, e, k);
  }

  lemma Restored(c: Case, sha: Content -> Digest, j: Journal)
    requires Unlucky(c)
    ensures var done := J(c, Complete, [c.a, c.b]);
            var (v, prog, ok) := Restore(At(c, D(c, Both(c), done), 17), sha, c.id, Manifest(c), Journaled(c.id, true, j));
            v == World(D(c, map[c.b := c.nb], done), []) && !ok && prog.Journaled?
  {
    var d := D(c, Both(c), J(c, Complete, [c.a, c.b]));
    var e := D(c, map[c.b := c.nb], J(c, Complete, [c.a, c.b]));
    var m, prog := Manifest(c), Journaled(c.id, true, j);
    Tick(c, d, d, 17);
    Tick(c, d, d, 18);
    Tick(c, d, e, 19);
    assert Both(c) - {c.a} == map[c.b := c.nb];
    assert At(c, e, 20) == World(e, []);
    NothingBackedUp(c, sha);
    assert RestoreEntry(At(c, d, 19), map[], m[0]) == (World(e, []), true);
    assert RestoreEntry(World(e, []), map[], m[1]) == (World(e, []), false);
    assert RestoreFrom(World(e, []), map[], m, 1, prog, true) == RestoreFrom(World(e, []), map[], m, 2, prog, true);
    assert RestoreFrom(At(c, d, 19), map[], m, 0, prog, false) == RestoreFrom(World(e, []), map[], m, 1, prog, true);
  }

  lemma RolledBackHalfway(c: Case, sha: Content -> Digest)
    requires Unlucky(c)
    ensures var done := J(c, Complete, [c.a, c.b]);
            Rollback(At(c, D(c, Both(c), done), 14), sha, c.id, Manifest(c)) ==
              (World(D(c, map[c.b := c.nb], done), []), Reverted(false))
  {
    var d := D(c, Both(c), J(c, Complete, [c.a, c.b]));
    var j := J(c, RollbackInProgress, [c.a, c.b]);
    Tick(c, d, d, 14);
    Tick(c, d, d, 15);
    Tick(c, d, WithJournal(d, c.id, j), 16);
    Restored(c, sha, j);
  }

  lemma Promotes(c: Case)
    requires Alarmed(c)
    ensures Expected(map[], Req(c)) == Both(c)
  {
    assert Promotion(map[c.a := c.na], Req(c), 1) == Promotion(Both(c), Req(c), 2);
    assert map[][c.a := c.na] == map[c.a := c.na];
  }

  /** The journal says "complete", yet the live tree is neither the old one nor the upgraded one. */
  ghost predicate EndsMixed(c: Case, sha: Content -> Digest) {
    var (v, out) := UpgradeFrom(World(EMPTY, c.faults), sha, c.id, Req(c));
    && PhaseIs(v.disk, c.id, Complete) && out == Reverted(false)
    && v.disk.live == map[c.b := c.nb] && v.disk.live != Expected(map[], Req(c)) && v.disk.live != map[]
  }

  lemma CompleteOverMixedTree(c: Case, sha: Content -> Digest)
    requires Unlucky(c)
    ensures EndsMixed(c, sha)
  {
    assert World(EMPTY, c.faults) == At(c, EMPTY, 0);
    Prepared(c, sha);
    Gated(c);
    NextPhase(c, J(c, Promoted, [c.a, c.b]), Complete, 13);
    RolledBackHalfway(c, sha);
    Promotes(c);
    Mixed(c);
  }

  // ---- without a crash ----

  lemma RestoredInPart(c: Case, sha: Content -> Digest)
    requires Unreadable(c)
    ensures var done := J(c, Complete, [c.a, c.b]);
            var prog := Journaled(c.id, false, Journal(Manifest(c), RollbackInProgress, [], []));
            var (v, _, ok) := Restore(At(c, D(c, Both(c), done), 16), sha, c.id, Manifest(c), prog);
            v.disk == D(c, map[c.b := c.nb], done) && !ok
  {
    var d := D(c, Both(c), J(c, Complete, [c.a, c.b]));
    var e := D(c, map[c.b := c.nb], J(c, Complete, [c.a, c.b]));
    var m, prog := Manifest(c), Journaled(c.id, false, Journal(Manifest(c), RollbackInProgress, [], []));
    Tick(c, d, d, 16);
    Tick(c, d, d, 17);
    Tick(c, d, e, 18);
    Tick(c, e, e, 19);
    Tick(c, e, WithLive(e, c.b, None), 20);
    NothingBackedUp(c, sha);
    assert Both(c) - {c.a} == map[c.b := c.nb];
    var reported := c.faults[19].Fine?;
    assert RestoreEntry(At(c, d, 18), map[], m[0]) == (At(c, e, 19), true);
    assert Report(At(c, e, 19), prog, c.a) == (At(c, e, 20), prog, reported);
    assert RestoreEntry(At(c, e, 20), map[], m[1]) == (At(c, e, 21), false);
    assert RestoreFrom(At(c, e, 20), map[], m, 1, prog, !reported) == RestoreFrom(At(c, e, 21), map[], m, 2, prog, true);
    assert RestoreFrom(At(c, d, 18), map[], m, 0, prog, false) == RestoreFrom(At(c, e, 20), map[], m, 1, prog, !reported);
  }

  lemma RolledBackUnread(c: Case, sha: Content -> Digest)
    requires Unreadable(c)
    ensures var done := J(c, Complete, [c.a, c.b]);
            var (v, out) := Rollback(At(c, D(c, Both(c), done), 14), sha, c.id, Manifest(c));
            v.disk == D(c, map[c.b := c.nb], done) && out == Reverted(false)
  {
    var d := D(c, Both(c), J(c, Complete, [c.a, c.b]));
    Tick(c, d, d, 14);
    Tick(c, d, d, 15);
    RestoredInPart(c, sha);
  }

  /** The same mixed tree under "complete", although the process never dies. */
  lemma CompleteWithoutCrash(c: Case, sha: Content -> Digest)
    requires Unreadable(c)
    ensures EndsMixed(c, sha)
  {
    assert World(EMPTY, c.faults) == At(c, EMPTY, 0);
    Prepared(c, sha);
    Gated(c);
    NextPhase(c, J(c, Promoted, [c.a, c.b]), Complete, 13);
    RolledBackUnread(c, sha);
    Promotes(c);
    Mixed(c);
  }

  lemma Mixed(c: Case)
    requires Alarmed(c)
    ensures map[c.b := c.nb] != Both(c) && map[c.b := c.nb] != map[]
  {
    assert c.a in Both(c) && c.a !in map[c.b := c.nb];
    assert c.b in map[c.b := c.nb];
  }

  // ---- one member of each family ----

  function Example(faults: seq<Fault>): Case {
    Case("a", "b", File("new a", 420, PROCESS_UID, PROCESS_GID), File("new b", 420, PROCESS_UID, PROCESS_GID), "1", faults)
  }

  function CrashFaults(): seq<Fault> {
    seq(20, k => if k == 13 then Fails(true) else if k == 16 then Fails(false) else Fine)
  }

  /** All later operations go well, more than the upgrade ever makes. */
  function NoCrashFaults(): seq<Fault> {
    seq(40, k => if k == 13 then Fails(true) else if k == 15 || k == 20 then Fails(false) else Fine)
  }

  lemma MixedTreeHappens(sha: Content -> Digest)
    ensures EndsMixed(Example(CrashFaults()), sha)
  {
    var c := Example(CrashFaults());
    assert c.a[0] != c.b[0];
    CompleteOverMixedTree(c, sha);
  }

  lemma MixedTreeWithoutCrash(sha: Content -> Digest)
    ensures EndsMixed(Example(NoCrashFaults()), sha)
  {
    var c := Example(NoCrashFaults());
    assert c.a[0] != c.b[0];
    CompleteWithoutCrash(c, sha);
  }
}
