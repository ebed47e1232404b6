/** Recovery of interrupted upgrades, for every fault sequence. */
module UpgradeRecovery {
  import opened Upgrade
  import opened UpgradeRestore

  /** A transaction journal outside the three final phases. */
  predicate Open(d: Disk, id: Id) {
    JournalOf(d, id).Some? && !Terminal(JournalOf(d, id).value.phase)
  }

  /** All entries of the journal of `id` are back as its backup says. */
  ghost predicate BackInPlace(d: Disk, id: Id, t: Tree) {
    JournalOf(d, id).Some? ==> RestoredFrom(FilesOf(d, id), JournalOf(d, id).value.manifest, t, 0)
  }

  lemma RecoverOneIdle(w: World, sha: Content -> Digest, id: Id)
    requires !Open(w.disk, id)
    ensures RecoverOne(w, sha, id).0.disk == w.disk
  {
  }

  /** A failed rollback is never touched again and stops the recovery. */
  lemma RecoverOneBlocked(w: World, sha: Content -> Digest, id: Id)
    requires PhaseIs(w.disk, id, RollbackFailed)
    ensures RecoverOne(w, sha, id).0.disk == w.disk && !RecoverOne(w, sha, id).1
  {
  }

  lemma RecoverOneEffect(w: World, sha: Content -> Digest, id: Id)
    ensures var (v, ok) := RecoverOne(w, sha, id);
            && OnlyJournal(w.disk, v.disk, id)
            && (Open(v.disk, id) ==> Open(w.disk, id) && !ok)
            && (Open(w.disk, id) && !Open(v.disk, id) ==> PhaseIs(v.disk, id, Recovered) && BackInPlace(w.disk, id, v.disk.live))
            && (JournalOf(w.disk, id).Some? ==>
                  TouchesFrom(JournalOf(w.disk, id).value.manifest, w.disk.live, v.disk.live, 0))
  {
    if Open(w.disk, id) {
      var j := JournalOf(w.disk, id).value;
      var w1 := Read(w).0;
      var w2 := Read(w1).0;
      assert w2.disk == w.disk;
      RestoreEffect(w2, sha, id, j.manifest, Silent);
      var w3 := Restore(w2, sha, id, j.manifest, Silent).0;
      WriteJournalFrame(w3, id, j.(phase := Recovered));
      WriteJournalFrame(w3, id, j.(phase := RollbackFailed));
    } else {
      RecoverOneIdle(w, sha, id);
    }
  }

  // ---- the loop over backup directories ----

  lemma {:induction false} RecoverNoneOpen(w: World, sha: Content -> Digest, order: seq<Id>, i: nat)
    requires i <= |order| && forall k | i <= k < |order| :: !Open(w.disk, order[k])
    ensures RecoverFrom(w, sha, order, i).0.disk == w.disk
    decreases |order| - i
  {
    if i < |order| {
      RecoverOneIdle(w, sha, order[i]);
      RecoverNoneOpen(RecoverOne(w, sha, order[i]).0, sha, order, i + 1);
    }
  }

  /** What any recovery keeps: backups, and every journal that is already final. */
  ghost predicate ClosesOnly(d: Disk, e: Disk) {
    && e.backups.Keys == d.backups.Keys
    && (forall k | k in d.backups :: SameRecord(d.backups[k], e.backups[k]))
    && (forall k | k in d.backups && !Open(d, k) :: e.backups[k] == d.backups[k])
  }

  lemma ClosesOnlyTrans(d: Disk, e: Disk, f: Disk)
    requires ClosesOnly(d, e) && ClosesOnly(e, f)
    ensures ClosesOnly(d, f)
  {
    forall k | k in d.backups ensures SameRecord(d.backups[k], f.backups[k]) {
      assert SameRecord(d.backups[k], e.backups[k]) && SameRecord(e.backups[k], f.backups[k]);
    }
    forall k | k in d.backups && !Open(d, k) ensures f.backups[k] == d.backups[k] {
      assert e.backups[k] == d.backups[k];
      assert !Open(e, k);
    }
  }

  lemma OneClosesOnly(w: World, sha: Content -> Digest, id: Id)
    ensures ClosesOnly(w.disk, RecoverOne(w, sha, id).0.disk)
  {
    RecoverOneEffect(w, sha, id);
    if !Open(w.disk, id) {
      RecoverOneIdle(w, sha, id);
    }
  }

  lemma {:induction false} RecoverFromCloses(w: World, sha: Content -> Digest, order: seq<Id>, i: nat)
    requires i <= |order|
    ensures var (v, ok) := RecoverFrom(w, sha, order, i);
            && ClosesOnly(w.disk, v.disk)
            && (ok ==> forall k | i <= k < |order| :: !Open(v.disk, order[k]))
    decreases |order| - i
  {
    if i < |order| {
      var (w1, ok) := RecoverOne(w, sha, order[i]);
      OneClosesOnly(w, sha, order[i]);
      RecoverOneEffect(w, sha, order[i]);
      if ok {
        RecoverFromCloses(w1, sha, order, i + 1);
        var v := RecoverFrom(w1, sha, order, i + 1).0;
        ClosesOnlyTrans(w.disk, w1.disk, v.disk);
        assert !Open(w1.disk, order[i]);
        StaysClosed(w1.disk, v.disk, order[i]);
      }
    }
  }

  lemma StaysClosed(d: Disk, e: Disk, id: Id)
    requires ClosesOnly(d, e) && !Open(d, id)
    ensures !Open(e, id) && JournalOf(e, id) == JournalOf(d, id)
  {
  }

  /** With a single open transaction, a recovery that reports success has put exactly its snapshot back. */
  lemma {:induction false} RecoverTheOpenOne(w: World, sha: Content -> Digest, order: seq<Id>, i: nat, x: nat)
    requires i <= x < |order| && Distinct(order) && Open(w.disk, order[x])
    requires forall k | i <= k < |order| && k != x :: !Open(w.disk, order[k])
    ensures var (v, ok) := RecoverFrom(w, sha, order, i);
            && TouchesFrom(JournalOf(w.disk, order[x]).value.manifest, w.disk.live, v.disk.live, 0)
            && (ok ==> BackInPlace(w.disk, order[x], v.disk.live))
            && (!Open(v.disk, order[x]) ==> BackInPlace(w.disk, order[x], v.disk.live))
    decreases |order| - i
  {
    var (w1, ok) := RecoverOne(w, sha, order[i]);
    if i < x {
      RecoverOneIdle(w, sha, order[i]);
      RecoverTheOpenOne(w1, sha, order, i + 1, x);
    } else {
      RecoverOneEffect(w, sha, order[x]);
      if ok {
        forall k | x + 1 <= k < |order| ensures !Open(w1.disk, order[k]) {
          assert order[k] != order[x];
        }
        RecoverNoneOpen(w1, sha, order, x + 1);
      }
    }
  }

  /** A recovery that meets a failed rollback changes nothing from there on and reports an error. */
  lemma {:induction false} RecoverBlocked(w: World, sha: Content -> Digest, order: seq<Id>, i: nat, x: nat)
    requires i <= x < |order| && PhaseIs(w.disk, order[x], RollbackFailed)
    requires forall k | i <= k < x :: !Open(w.disk, order[k])
    ensures RecoverFrom(w, sha, order, i).0.disk == w.disk && !RecoverFrom(w, sha, order, i).1
    decreases |order| - i
  {
    if i < x {
      RecoverOneIdle(w, sha, order[i]);
      RecoverBlocked(RecoverOne(w, sha, order[i]).0, sha, order, i + 1, x);
    } else {
      RecoverOneBlocked(w, sha, order[x]);
    }
  }
}
