/** One upgrade under any faults, and any sequence of upgrades, crashes and recoveries. */
module UpgradeRuns {
  import opened Options
  import opened Upgrade
  import opened UpgradeRestore
  import opened UpgradeMute
  import opened UpgradeRecovery
  import opened UpgradeForward

  // ---- one upgrade ----

  lemma BackOnFiles(files: Tree, m: seq<Entry>, paths: seq<Path>, pre: Tree, u: Tree, p: Path)
    requires Paths(m) == paths && Faithful(files, m, pre) && RestoredFrom(files, m, u, 0) && p in paths
    ensures Get(u, p) == Get(pre, p)
  {
    var k :| 0 <= k < |paths| && paths[k] == p;
    assert m[k].path == p;
  }

  lemma OffFiles(m: seq<Entry>, paths: seq<Path>, t: Tree, u: Tree)
    requires Paths(m) == paths && TouchesFrom(m, t, u, 0)
    ensures SameOffFiles(t, u, paths)
  {
    forall p | p !in paths ensures Get(t, p) == Get(u, p) {
      forall k | 0 <= k < |m| ensures m[k].path != p {
        assert paths[k] in paths;
      }
    }
  }

  lemma BackToPre(files: Tree, m: seq<Entry>, paths: seq<Path>, pre: Tree, t: Tree, u: Tree)
    requires Paths(m) == paths && Faithful(files, m, pre) && RestoredFrom(files, m, u, 0)
    requires SameOffFiles(pre, t, paths) && TouchesFrom(m, t, u, 0)
    ensures u == pre
  {
    OffFiles(m, paths, t, u);
    forall p ensures Get(u, p) == Get(pre, p) {
      if p in paths {
        BackOnFiles(files, m, paths, pre, u, p);
      }
    }
    SameNodes(u, pre);
  }

  /** What a rollback that starts in the middle of an upgrade of `pre` leaves. */
  ghost predicate RolledFrom(w: World, v: World, out: Outcome, id: Id, paths: seq<Path>, pre: Tree) {
    && OnlyJournal(w.disk, v.disk, id) && SameOffFiles(pre, v.disk.live, paths)
    && out.Reverted? && (out.rolledBack ==> v.disk.live == pre)
    && (|| JournalOf(v.disk, id) == JournalOf(w.disk, id)
        || PhaseIs(v.disk, id, RollbackInProgress) || PhaseIs(v.disk, id, RollbackFailed)
        || (PhaseIs(v.disk, id, RolledBack) && out.rolledBack))
  }

  lemma RollbackFromPre(w: World, sha: Content -> Digest, id: Id, m: seq<Entry>, paths: seq<Path>, pre: Tree)
    requires Records(w.disk, id, m) && Recorded(w.disk, id, paths, pre) && SameOffFiles(pre, w.disk.live, paths)
    ensures var (v, out) := Rollback(w, sha, id, m); RolledFrom(w, v, out, id, paths, pre)
  {
    RollbackEffect(w, sha, id, m);
    var (v, out) := Rollback(w, sha, id, m);
    OffFiles(m, paths, w.disk.live, v.disk.live);
    if out.rolledBack {
      BackToPre(FilesOf(w.disk, id), m, paths, pre, w.disk.live, v.disk.live);
    }
  }

  /** The world after the journal write of "complete", the fault it met, and the manifest, if the upgrade gets that far. */
  function Completing(w: World, sha: Content -> Digest, id: Id, req: Request): Option<(World, Fault, seq<Entry>)> {
    var (w1, j1) := Prepare(w, sha, id, req);
    if j1.None? then None
    else
      var (w2, j2, gated) := PromoteAndGate(w1, id, req, j1.value);
      if !gated || w2.faults == [] then None
      else Some((WriteJournal(w2, id, j2.(phase := Complete)).0, w2.faults[0], j1.value.manifest))
  }

  /** The write of "complete" takes effect and yet reports an error, and the rollback that follows is mute. */
  predicate FalseComplete(w: World, sha: Content -> Digest, id: Id, req: Request) {
    var c := Completing(w, sha, id, req);
    c.Some? && c.value.1 == Fails(true) && Mute(c.value.0, sha, id, c.value.2)
  }

  /** How an upgrade of tree `pre` to `expected` may end, whatever faults it met. */
  ghost predicate EndsWell(d: Disk, id: Id, files: seq<Path>, out: Outcome, pre: Tree, expected: Tree) {
    && Recorded(d, id, files, pre) && SameOffFiles(pre, d.live, files)
    && (out.Upgraded? ==> PhaseIs(d, id, Complete) && d.live == expected)
    && (out.Refused? || out == Reverted(true) ==> d.live == pre)
    && (PhaseIs(d, id, Complete) || Open(d, id) || d.live == pre)
    && (PhaseIs(d, id, RolledBack) ==> d.live == pre)
    && !PhaseIs(d, id, Recovered)
  }

  lemma MovesForwardKeeps(d: Disk, e: Disk, id: Id, files: seq<Path>, pre: Tree)
    requires MovesForward(d, e, id, files) && Recorded(d, id, files, pre) && SameOffFiles(pre, d.live, files)
    requires PhaseIs(d, id, Promoting)
    ensures Recorded(e, id, files, pre) && SameOffFiles(pre, e.live, files) && OthersSame(d, e, id)
    ensures JournalOf(e, id).Some? && OnTheWay(JournalOf(e, id).value.phase)
  {
    OnlyJournalRecorded(d, e, id, files, pre);
    OnlyJournalOthers(d, e, id);
  }

  /** A rollback from a disk whose journal is on the way, or says "complete" although that write reported an error. */
  lemma RevertEnds(w: World, sha: Content -> Digest, id: Id, m: seq<Entry>, files: seq<Path>, pre: Tree, expected: Tree)
    requires Records(w.disk, id, m) && Recorded(w.disk, id, files, pre) && SameOffFiles(pre, w.disk.live, files)
    requires OnTheWay(JournalOf(w.disk, id).value.phase) || PhaseIs(w.disk, id, Complete)
    ensures var (v, out) := Rollback(w, sha, id, m);
            && EndsWell(v.disk, id, files, out, pre, expected) && OthersSame(w.disk, v.disk, id) && !out.Upgraded?
            && (PhaseIs(v.disk, id, Complete) <==> PhaseIs(w.disk, id, Complete) && Mute(w, sha, id, m))
  {
    if PhaseIs(w.disk, id, Complete) {
      MuteExact(w, sha, id, m);
    }
    RollbackFromPre(w, sha, id, m, files, pre);
    var (v, out) := Rollback(w, sha, id, m);
    OnlyJournalRecorded(w.disk, v.disk, id, files, pre);
    OnlyJournalOthers(w.disk, v.disk, id);
  }

  lemma CompletingWrite(w: World, id: Id, j: Journal, files: seq<Path>, pre: Tree)
    requires Records(w.disk, id, j.manifest) && Recorded(w.disk, id, files, pre) && j.phase.Complete?
    ensures var (v, ok) := WriteJournal(w, id, j);
            && v.disk.live == w.disk.live && OthersSame(w.disk, v.disk, id) && Recorded(v.disk, id, files, pre)
            && Records(v.disk, id, j.manifest)
            && (ok ==> PhaseIs(v.disk, id, Complete))
            && (v.disk == w.disk || PhaseIs(v.disk, id, Complete))
            && (!ok && v.disk != w.disk ==> w.faults != [] && w.faults[0] == Fails(true))
  {
    WriteJournalFrame(w, id, j);
    var v := WriteJournal(w, id, j).0;
    OnlyJournalRecorded(w.disk, v.disk, id, files, pre);
    OnlyJournalOthers(w.disk, v.disk, id);
  }

  /**
    The upgrade proper, for every fault sequence: success means the expected tree
    and a "complete" journal; an error means that the whole old tree is back, or that
    the journal is open (for recovery, or saying that the rollback failed), or that it
    still says "complete".  The last happens exactly when the write of "complete"
    reported an error after taking effect and no journal write of the rollback took
    effect.
   */
  lemma UpgradeFromEnds(w: World, sha: Content -> Digest, id: Id, req: Request)
    requires Distinct(req.files) && id !in w.disk.backups && MigratesListed(req)
    ensures var (v, out) := UpgradeFrom(w, sha, id, req);
            && EndsWell(v.disk, id, req.files, out, w.disk.live, Expected(w.disk.live, req))
            && OthersSame(w.disk, v.disk, id)
            && (PhaseIs(v.disk, id, Complete) && !out.Upgraded? <==> FalseComplete(w, sha, id, req))
  {
    var pre := w.disk.live;
    PrepareEffect(w, sha, id, req);
    var (w1, j1) := Prepare(w, sha, id, req);
    if j1.Some? {
      PreparePhase(w, sha, id, req);
      PromoteAndGateEffect(w1, id, req, j1.value);
      var (w2, j2, gated) := PromoteAndGate(w1, id, req, j1.value);
      MovesForwardKeeps(w1.disk, w2.disk, id, req.files, pre);
      OthersSameTrans(w.disk, w1.disk, w2.disk, id);
      if !gated {
        RevertEnds(w2, sha, id, j1.value.manifest, req.files, pre, Expected(pre, req));
        OthersSameTrans(w.disk, w2.disk, UpgradeFrom(w, sha, id, req).0.disk, id);
      } else {
        CompletingEnds(w, w2, sha, id, req, j1.value.manifest, j2, pre);
      }
    }
  }

  /** The end of an upgrade that passed its gates. */
  lemma CompletingEnds(w: World, w2: World, sha: Content -> Digest, id: Id, req: Request, m: seq<Entry>, j: Journal, pre: Tree)
    requires Records(w2.disk, id, m) && Recorded(w2.disk, id, req.files, pre) && SameOffFiles(pre, w2.disk.live, req.files)
    requires OnTheWay(JournalOf(w2.disk, id).value.phase) && OthersSame(w.disk, w2.disk, id) && j.manifest == m
    requires w2.disk.live == Expected(pre, req)
    ensures var (w3, done) := WriteJournal(w2, id, j.(phase := Complete));
            var (v, out) := if done then (w3, Upgraded) else Rollback(w3, sha, id, m);
            && EndsWell(v.disk, id, req.files, out, pre, Expected(pre, req)) && OthersSame(w.disk, v.disk, id)
            && (PhaseIs(v.disk, id, Complete) && !out.Upgraded? <==>
                  w2.faults != [] && w2.faults[0] == Fails(true) && Mute(w3, sha, id, m))
  {
    CompletingWrite(w2, id, j.(phase := Complete), req.files, pre);
    var (w3, done) := WriteJournal(w2, id, j.(phase := Complete));
    OthersSameTrans(w.disk, w2.disk, w3.disk, id);
    if !done {
      RevertEnds(w3, sha, id, m, req.files, pre, Expected(pre, req));
      OthersSameTrans(w.disk, w3.disk, Rollback(w3, sha, id, m).0.disk, id);
    }
  }

  /**
    A "complete" journal stands over a tree other than the upgraded one exactly when
    it is falsely complete and the mute rollback changed the live tree.
   */
  lemma CompleteOverOtherTree(w: World, sha: Content -> Digest, id: Id, req: Request)
    requires Distinct(req.files) && id !in w.disk.backups && MigratesListed(req)
    ensures var v := UpgradeFrom(w, sha, id, req).0;
            PhaseIs(v.disk, id, Complete) && v.disk.live != Expected(w.disk.live, req)
            <==> FalseComplete(w, sha, id, req)
                 && !Still(Completing(w, sha, id, req).value.0, sha, id, Completing(w, sha, id, req).value.2)
  {
    UpgradeFromEnds(w, sha, id, req);
    if FalseComplete(w, sha, id, req) {
      PrepareEffect(w, sha, id, req);
      var (w1, j1) := Prepare(w, sha, id, req);
      PreparePhase(w, sha, id, req);
      PromoteAndGateEffect(w1, id, req, j1.value);
      var (w2, j2, _) := PromoteAndGate(w1, id, req, j1.value);
      CompletedTree(w2, sha, id, j1.value.manifest, j2);
    }
  }

  lemma CompletedTree(w: World, sha: Content -> Digest, id: Id, m: seq<Entry>, j: Journal)
    requires Records(w.disk, id, m) && j.manifest == m && w.faults != [] && w.faults[0] == Fails(true)
    ensures var (w3, done) := WriteJournal(w, id, j.(phase := Complete));
            !done && (Rollback(w3, sha, id, m).0.disk.live == w.disk.live <==> Still(w3, sha, id, m))
  {
    WriteJournalFrame(w, id, j.(phase := Complete));
    StillExact(WriteJournal(w, id, j.(phase := Complete)).0, sha, id, m);
  }

  lemma PreparePhase(w: World, sha: Content -> Digest, id: Id, req: Request)
    ensures var (v, j) := Prepare(w, sha, id, req); j.Some? ==> j.value.phase.Promoting?
  {
  }

  // ---- any sequence of upgrades, crashes, recoveries and application writes ----

  datatype Event =
    | UpgradeCall(order: seq<Id>, id: Id, req: Request, faults: seq<Fault>)
    | RecoverCall(order: seq<Id>, faults: seq<Fault>)
    | Application(live: Tree)   // between calls the application may change every live file

  /** The listing names every backup directory once. */
  ghost predicate Covers(order: seq<Id>, d: Disk) {
    Distinct(order) && forall k :: k in order <==> k in d.backups
  }

  ghost predicate Permitted(d: Disk, e: Event) {
    match e
    case UpgradeCall(order, id, req, _) =>
      Covers(order, d) && id !in d.backups && Distinct(req.files) && MigratesListed(req)
    case RecoverCall(order, _) => Covers(order, d)
    case Application(_) => true
  }

  function Next(d: Disk, sha: Content -> Digest, e: Event): Disk {
    match e
    case UpgradeCall(order, id, req, faults) => TransactionalUpgrade(World(d, faults), sha, order, id, req).0.disk
    case RecoverCall(order, faults) => Recover(World(d, faults), sha, order).0.disk
    case Application(live) => d.(live := live)
  }

  ghost predicate IsHistory(h: seq<Disk>, es: seq<Event>, sha: Content -> Digest) {
    && |h| == |es| + 1 && h[0].backups == map[]
    && (forall i | 0 <= i < |es| :: Permitted(h[i], es[i]) && h[i + 1] == Next(h[i], sha, es[i]))
    // an id is a time and a counter: no two calls share one
    && (forall i, j | 0 <= i < j < |es| && es[i].UpgradeCall? && es[j].UpgradeCall? :: es[i].id != es[j].id)
  }

  /** At most one transaction journal is outside the final phases. */
  ghost predicate OneOpen(d: Disk) {
    forall k, l | Open(d, k) && Open(d, l) :: k == l
  }

  /** Backups never lose or change what they recorded, and a closed journal is never written again. */
  ghost predicate Persists(d: Disk, e: Disk) {
    forall k | k in d.backups ::
      k in e.backups && SameRecord(d.backups[k], e.backups[k]) && (!Open(d, k) ==> e.backups[k] == d.backups[k])
  }

  lemma PersistsTrans(d: Disk, e: Disk, f: Disk)
    requires Persists(d, e) && Persists(e, f)
    ensures Persists(d, f)
  {
    forall k | k in d.backups
      ensures k in f.backups && SameRecord(d.backups[k], f.backups[k]) && (!Open(d, k) ==> f.backups[k] == d.backups[k])
    {
      assert k in e.backups && SameRecord(d.backups[k], e.backups[k]);
      assert SameRecord(e.backups[k], f.backups[k]);
      if !Open(d, k) {
        assert !Open(e, k);
      }
    }
  }

  lemma RecoverPersists(w: World, sha: Content -> Digest, order: seq<Id>)
    ensures var (v, ok) := Recover(w, sha, order);
            && ClosesOnly(w.disk, v.disk) && Persists(w.disk, v.disk)
            && (forall k | Open(v.disk, k) :: Open(w.disk, k))
            && (ok && (forall k | k in w.disk.backups :: k in order) ==> forall k :: !Open(v.disk, k))
  {
    var w1 := Read(w).0;
    RecoverFromCloses(w1, sha, order, 0);
    var (v, ok) := Recover(w, sha, order);
    forall k | Open(v.disk, k) ensures Open(w.disk, k) {
      assert SameRecord(w.disk.backups[k], v.disk.backups[k]);
    }
    if ok && forall k | k in w.disk.backups :: k in order {
      forall k ensures !Open(v.disk, k) {
        if k in v.disk.backups {
          assert k in order;
        }
      }
    }
  }

  lemma OthersPersist(d: Disk, e: Disk, id: Id)
    requires OthersSame(d, e, id) && id !in d.backups
    ensures Persists(d, e) && forall k | k != id :: Open(e, k) <==> Open(d, k)
  {
  }

  lemma NextKeeps(d: Disk, sha: Content -> Digest, e: Event)
    requires Permitted(d, e) && OneOpen(d)
    ensures OneOpen(Next(d, sha, e)) && Persists(d, Next(d, sha, e))
  {
    match e
    case RecoverCall(order, faults) => RecoverPersists(World(d, faults), sha, order);
    case Application(live) => assert forall k :: Open(d.(live := live), k) <==> Open(d, k);
    case UpgradeCall(order, id, req, faults) =>
      RecoverPersists(World(d, faults), sha, order);
      var (w1, ok) := Recover(World(d, faults), sha, order);
      if ok {
        UpgradeFromEnds(w1, sha, id, req);
        var v := UpgradeFrom(w1, sha, id, req).0;
        OthersPersist(w1.disk, v.disk, id);
        PersistsTrans(d, w1.disk, v.disk);
      }
  }

  lemma {:induction false} AlwaysOneOpen(h: seq<Disk>, es: seq<Event>, sha: Content -> Digest, i: nat)
    requires IsHistory(h, es, sha) && i < |h|
    ensures OneOpen(h[i])
  {
    if i > 0 {
      AlwaysOneOpen(h, es, sha, i - 1);
      NextKeeps(h[i - 1], sha, es[i - 1]);
    }
  }

  lemma {:induction false} PersistsAlong(h: seq<Disk>, es: seq<Event>, sha: Content -> Digest, i: nat, j: nat)
    requires IsHistory(h, es, sha) && i <= j < |h|
    ensures Persists(h[i], h[j])
    decreases j - i
  {
    if i < j {
      AlwaysOneOpen(h, es, sha, i);
      NextKeeps(h[i], sha, es[i]);
      PersistsAlong(h, es, sha, i + 1, j);
      PersistsTrans(h[i], h[i + 1], h[j]);
    }
  }

  /** The live tree that the snapshot of an upgrade call is taken from. */
  function PreTree(d: Disk, sha: Content -> Digest, e: Event): Tree
    requires e.UpgradeCall?
  {
    Recover(World(d, e.faults), sha, e.order).0.disk.live
  }

  lemma UpgradeRecords(d: Disk, sha: Content -> Digest, e: Event)
    requires e.UpgradeCall? && Permitted(d, e)
    ensures Recorded(Next(d, sha, e), e.id, e.req.files, PreTree(d, sha, e))
  {
    RecoverPersists(World(d, e.faults), sha, e.order);
    var (w1, ok) := Recover(World(d, e.faults), sha, e.order);
    if ok {
      UpgradeFromEnds(w1, sha, e.id, e.req);
    }
  }

  /** Nothing open means that recovery changes nothing. */
  lemma RecoverIdle(w: World, sha: Content -> Digest, order: seq<Id>)
    requires forall k :: !Open(w.disk, k)
    ensures Recover(w, sha, order).0.disk == w.disk
  {
    RecoverNoneOpen(Read(w).0, sha, order, 0);
  }

  lemma RecoverOpen(w: World, sha: Content -> Digest, order: seq<Id>, id: Id)
    requires OneOpen(w.disk) && Covers(order, w.disk) && Open(w.disk, id)
    ensures var (v, ok) := Recover(w, sha, order);
            && TouchesFrom(JournalOf(w.disk, id).value.manifest, w.disk.live, v.disk.live, 0)
            && (ok || !Open(v.disk, id) ==> BackInPlace(w.disk, id, v.disk.live))
  {
    assert id in order;
    var x :| 0 <= x < |order| && order[x] == id;
    var w1 := Read(w).0;
    assert w1.disk == w.disk;
    forall k | 0 <= k < |order| && k != x ensures !Open(w1.disk, order[k]) {
      assert order[k] != id;
    }
    RecoverTheOpenOne(w1, sha, order, 0, x);
  }

  /**
    Whatever the application wrote since: while the journal of an upgrade is open, a
    recovery that reports success leaves every listed path exactly as it was when the
    upgrade took its snapshot (content, mode, owner or absence), and no recovery
    touches another path.  While no journal at all is open, recovery leaves the disk
    untouched.
   */
  lemma OpenIsRestored(h: seq<Disk>, es: seq<Event>, sha: Content -> Digest, i: nat, j: nat,
                       order: seq<Id>, faults: seq<Fault>, p: Path)
    requires IsHistory(h, es, sha) && i < j < |h| && es[i].UpgradeCall? && Covers(order, h[j])
    ensures var (v, ok) := Recover(World(h[j], faults), sha, order);
            && (Open(h[j], es[i].id) && ok && p in es[i].req.files ==>
                  Get(v.disk.live, p) == Get(PreTree(h[i], sha, es[i]), p))
            && (Open(h[j], es[i].id) && p !in es[i].req.files ==> Get(v.disk.live, p) == Get(h[j].live, p))
            && ((forall k :: !Open(h[j], k)) ==> v.disk == h[j])
  {
    var w, id, pre := World(h[j], faults), es[i].id, PreTree(h[i], sha, es[i]);
    if Open(h[j], id) {
      StillRecorded(h, es, sha, i, j);
      AlwaysOneOpen(h, es, sha, j);
      RecoverOpen(w, sha, order, id);
      var (v, ok) := Recover(w, sha, order);
      var m := JournalOf(h[j], id).value.manifest;
      OffFiles(m, es[i].req.files, h[j].live, v.disk.live);
      if ok && p in es[i].req.files {
        BackOnFiles(FilesOf(h[j], id), m, es[i].req.files, pre, v.disk.live, p);
      }
    }
    if forall k :: !Open(h[j], k) {
      RecoverIdle(w, sha, order);
    }
  }

  lemma StillRecorded(h: seq<Disk>, es: seq<Event>, sha: Content -> Digest, i: nat, j: nat)
    requires IsHistory(h, es, sha) && i < j < |h| && es[i].UpgradeCall? && JournalOf(h[j], es[i].id).Some?
    ensures Recorded(h[j], es[i].id, es[i].req.files, PreTree(h[i], sha, es[i]))
  {
    var id := es[i].id;
    UpgradeRecords(h[i], sha, es[i]);
    PersistsAlong(h, es, sha, i + 1, j);
    if id in h[i + 1].backups {
      assert SameRecord(h[i + 1].backups[id], h[j].backups[id]);
    } else {
      NeverCreated(h, es, sha, i, j);
    }
  }

  lemma NextCreates(d: Disk, sha: Content -> Digest, e: Event, k: Id)
    requires Permitted(d, e) && k !in d.backups && k in Next(d, sha, e).backups
    ensures e.UpgradeCall? && e.id == k
  {
    match e
    case RecoverCall(order, faults) => RecoverPersists(World(d, faults), sha, order);
    case Application(live) =>
    case UpgradeCall(order, id, req, faults) =>
      RecoverPersists(World(d, faults), sha, order);
      var (w1, ok) := Recover(World(d, faults), sha, order);
      if ok {
        UpgradeFromEnds(w1, sha, id, req);
      }
  }

  /** A directory that an upgrade call did not create is never created later. */
  lemma {:induction false} NeverCreated(h: seq<Disk>, es: seq<Event>, sha: Content -> Digest, i: nat, j: nat)
    requires IsHistory(h, es, sha) && i < j < |h| && es[i].UpgradeCall? && es[i].id !in h[i + 1].backups
    ensures es[i].id !in h[j].backups
    decreases j
  {
    if i + 1 < j {
      NeverCreated(h, es, sha, i, j - 1);
      if es[i].id in h[j].backups {
        NextCreates(h[j - 1], sha, es[j - 1], es[i].id);
      }
    }
  }

  // ---- crash atomicity ----

  /** A call that does nothing but recover: a recovery, or an upgrade that its own recovery stopped. */
  predicate OnlyRecovers(d: Disk, sha: Content -> Digest, e: Event) {
    e.RecoverCall? || (e.UpgradeCall? && !Recover(World(d, e.faults), sha, e.order).1)
  }

  /** An upgrade of `pre` that did not complete: its journal alone may be open, and if it is not, the old tree is back. */
  ghost predicate Undecided(d: Disk, id: Id, files: seq<Path>, pre: Tree) {
    && Recorded(d, id, files, pre) && SameOffFiles(pre, d.live, files)
    && (forall k | Open(d, k) :: k == id)
    && (Open(d, id) || d.live == pre)
  }

  lemma RecoverDecides(w: World, sha: Content -> Digest, order: seq<Id>, id: Id, files: seq<Path>, pre: Tree)
    requires Undecided(w.disk, id, files, pre) && Covers(order, w.disk)
    ensures var (v, ok) := Recover(w, sha, order);
            Undecided(v.disk, id, files, pre) && (ok ==> v.disk.live == pre)
  {
    if Open(w.disk, id) {
      var (v, ok) := Recover(w, sha, order);
      var m := JournalOf(w.disk, id).value.manifest;
      RecoverPersists(w, sha, order);
      assert SameRecord(w.disk.backups[id], v.disk.backups[id]);
      RecoverOpen(w, sha, order, id);
      OffFiles(m, files, w.disk.live, v.disk.live);
      if ok || !Open(v.disk, id) {
        BackToPre(FilesOf(w.disk, id), m, files, pre, w.disk.live, v.disk.live);
      }
    } else {
      RecoverIdle(w, sha, order);
    }
  }

  /** The disk after an upgrade that got past its recovery. */
  lemma UpgradeLeaves(d: Disk, sha: Content -> Digest, e: Event)
    requires e.UpgradeCall? && Permitted(d, e) && Recover(World(d, e.faults), sha, e.order).1
    ensures var f := Next(d, sha, e);
            && (PhaseIs(f, e.id, Complete) ==> forall k :: !Open(f, k))
            && (!PhaseIs(f, e.id, Complete) ==> Undecided(f, e.id, e.req.files, PreTree(d, sha, e)))
  {
    var w1 := Recover(World(d, e.faults), sha, e.order).0;
    RecoverPersists(World(d, e.faults), sha, e.order);
    UpgradeFromEnds(w1, sha, e.id, e.req);
    OthersPersist(w1.disk, Next(d, sha, e), e.id);
  }

  lemma {:induction false} StaysUndecided(h: seq<Disk>, es: seq<Event>, sha: Content -> Digest, i: nat, j: nat,
                                          id: Id, files: seq<Path>, pre: Tree)
    requires IsHistory(h, es, sha) && i <= j < |h| && Undecided(h[i], id, files, pre)
    requires forall x | i <= x < j :: OnlyRecovers(h[x], sha, es[x])
    ensures Undecided(h[j], id, files, pre)
    decreases j - i
  {
    if i < j {
      RecoverDecides(World(h[i], es[i].faults), sha, es[i].order, id, files, pre);
      StaysUndecided(h, es, sha, i + 1, j, id, files, pre);
    }
  }

  lemma {:induction false} StaysSettled(h: seq<Disk>, es: seq<Event>, sha: Content -> Digest, i: nat, j: nat)
    requires IsHistory(h, es, sha) && i <= j < |h| && forall k :: !Open(h[i], k)
    requires forall x | i <= x < j :: OnlyRecovers(h[x], sha, es[x])
    ensures h[j] == h[i]
    decreases j - i
  {
    if i < j {
      RecoverIdle(World(h[i], es[i].faults), sha, es[i].order);
      StaysSettled(h, es, sha, i + 1, j);
    }
  }

  /**
    Crash atomicity.  Take any upgrade call in any history that got past its own
    recovery, crashed or not at any point, then any number of recoveries, each of
    which may crash or fail at any point, and one more recovery under any faults.
    Unless the upgrade left a "complete" journal, the last recovery, if it reports
    success, leaves the whole live tree as it was when the upgrade took its snapshot.
    If the upgrade left a "complete" journal, nothing since has changed the disk.
   */
  lemma CrashAtomicity(h: seq<Disk>, es: seq<Event>, sha: Content -> Digest, i: nat, j: nat,
                       order: seq<Id>, faults: seq<Fault>)
    requires IsHistory(h, es, sha) && i < j < |h| && es[i].UpgradeCall? && Covers(order, h[j])
    requires Recover(World(h[i], es[i].faults), sha, es[i].order).1
    requires forall x | i < x < j :: OnlyRecovers(h[x], sha, es[x])
    ensures var (v, ok) := Recover(World(h[j], faults), sha, order);
            && (PhaseIs(h[i + 1], es[i].id, Complete) ==> v.disk == h[i + 1])
            && (!PhaseIs(h[i + 1], es[i].id, Complete) && ok ==> v.disk.live == PreTree(h[i], sha, es[i]))
            && (ok ==> forall k :: !Open(v.disk, k))
  {
    var w, pre := World(h[j], faults), PreTree(h[i], sha, es[i]);
    UpgradeLeaves(h[i], sha, es[i]);
    RecoverPersists(w, sha, order);
    if PhaseIs(h[i + 1], es[i].id, Complete) {
      StaysSettled(h, es, sha, i + 1, j);
      RecoverIdle(w, sha, order);
    } else {
      StaysUndecided(h, es, sha, i + 1, j, es[i].id, es[i].req.files, pre);
      RecoverDecides(w, sha, order, es[i].id, es[i].req.files, pre);
    }
  }

  /** All or nothing: the tree after recovery is the old one or the upgraded one, but for the one exception. */
  lemma AllOrNothing(h: seq<Disk>, es: seq<Event>, sha: Content -> Digest, i: nat, j: nat,
                     order: seq<Id>, faults: seq<Fault>)
    requires IsHistory(h, es, sha) && i < j < |h| && es[i].UpgradeCall? && Covers(order, h[j])
    requires Recover(World(h[i], es[i].faults), sha, es[i].order).1
    requires forall x | i < x < j :: OnlyRecovers(h[x], sha, es[x])
    ensures var (v, ok) := Recover(World(h[j], faults), sha, order);
            var w1 := Recover(World(h[i], es[i].faults), sha, es[i].order).0;
            var id, req, live := es[i].id, es[i].req, w1.disk.live;
            ok ==> || v.disk.live == live || v.disk.live == Expected(live, req)
                   || (FalseComplete(w1, sha, id, req)
                       && !Still(Completing(w1, sha, id, req).value.0, sha, id, Completing(w1, sha, id, req).value.2))
  {
    CrashAtomicity(h, es, sha, i, j, order, faults);
    RecoverPersists(World(h[i], es[i].faults), sha, es[i].order);
    CompleteOverOtherTree(Recover(World(h[i], es[i].faults), sha, es[i].order).0, sha, es[i].id, es[i].req);
  }

  // ---- order of transactions ----

  /** Once an upgrade got past its recovery, no older transaction is ever open again. */
  lemma OlderStayClosed(h: seq<Disk>, es: seq<Event>, sha: Content -> Digest, i: nat, j: nat, k: Id)
    requires IsHistory(h, es, sha) && i < j < |h| && es[i].UpgradeCall? && k in h[i].backups
    requires Recover(World(h[i], es[i].faults), sha, es[i].order).1
    ensures !Open(h[j], k)
  {
    UpgradeLeaves(h[i], sha, es[i]);
    PersistsAlong(h, es, sha, i, i + 1);
    assert !Open(h[i + 1], k) && k in h[i + 1].backups;
    PersistsAlong(h, es, sha, i + 1, j);
  }

  /**
    Recovery never restores a snapshot older than a completed upgrade: whatever is
    open after an upgrade reported success was created by a later call.
   */
  lemma NothingOlderThanComplete(h: seq<Disk>, es: seq<Event>, sha: Content -> Digest, i: nat, j: nat, k: Id)
    requires IsHistory(h, es, sha) && i < j < |h| && es[i].UpgradeCall?
    requires TransactionalUpgrade(World(h[i], es[i].faults), sha, es[i].order, es[i].id, es[i].req).1.Upgraded?
    requires Open(h[j], k)
    ensures k !in h[i + 1].backups
  {
    var w1 := Recover(World(h[i], es[i].faults), sha, es[i].order).0;
    RecoverPersists(World(h[i], es[i].faults), sha, es[i].order);
    UpgradeFromEnds(w1, sha, es[i].id, es[i].req);
    PersistsAlong(h, es, sha, i + 1, j);
    if k in h[i].backups {
      OlderStayClosed(h, es, sha, i, j, k);
    } else if k in h[i + 1].backups {
      NextCreates(h[i], sha, es[i], k);
    }
  }

  // ---- a failed rollback ----

  lemma BlockedRecover(w: World, sha: Content -> Digest, order: seq<Id>, k: Id)
    requires OneOpen(w.disk) && Covers(order, w.disk) && PhaseIs(w.disk, k, RollbackFailed)
    ensures Recover(w, sha, order).0.disk == w.disk && !Recover(w, sha, order).1
  {
    assert k in order;
    var x :| 0 <= x < |order| && order[x] == k;
    var w1 := Read(w).0;
    assert w1.disk == w.disk && Open(w.disk, k);
    forall y | 0 <= y < x ensures !Open(w1.disk, order[y]) {
      assert order[y] != k;
    }
    RecoverBlocked(w1, sha, order, 0, x);
  }

  /** After a failed rollback every later upgrade is refused and every recovery errs, with the disk untouched. */
  lemma {:induction false} FailedRollbackBlocks(h: seq<Disk>, es: seq<Event>, sha: Content -> Digest, i: nat, j: nat, k: Id)
    requires IsHistory(h, es, sha) && i <= j < |es| && PhaseIs(h[i], k, RollbackFailed)
    ensures PhaseIs(h[j], k, RollbackFailed)
    ensures es[j].UpgradeCall? ==>
              TransactionalUpgrade(World(h[j], es[j].faults), sha, es[j].order, es[j].id, es[j].req) ==
                (Recover(World(h[j], es[j].faults), sha, es[j].order).0, Refused)
              && h[j + 1] == h[j]
    ensures es[j].RecoverCall? ==> !Recover(World(h[j], es[j].faults), sha, es[j].order).1 && h[j + 1] == h[j]
    decreases j
  {
    if i < j {
      FailedRollbackBlocks(h, es, sha, i, j - 1, k);
    }
    AlwaysOneOpen(h, es, sha, j);
    if !es[j].Application? {
      BlockedRecover(World(h[j], es[j].faults), sha, es[j].order, k);
    }
  }
}
