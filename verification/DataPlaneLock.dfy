/**
  The data plane as the object it is: fields updated in place, one method for
  each section that runs under its mutex.  Each method's contract is the
  corresponding function of module DataPlane on the fields' values, so the runs
  of DataPlaneSystem are runs of these sections.
 */
module DataPlaneLock {
  import opened DataPlane
  import opened DataPlaneSystem
  import opened DataPlaneInvariant

  // ---- one by one is all at once ----

  lemma DemoteOneThenAll(p: Plane, f: Fid)
    requires PlaneInv(p) && f in p.forwards
    ensures DemoteAll(Demote(p, f)) == DemoteAll(p)
  {
    DemoteSamePending(p, f);
    DemoteSameActors(p, f);
    DemoteSameExtras(p, f);
  }

  lemma DemoteElsewhere(p: Plane, f: Fid, b: ActorId)
    requires PlaneInv(p) && f in p.forwards && b in p.actors && b != p.forwards[f]
    ensures SamePlace(p, Demote(p, f), b) && Demote(p, f).actors[b] == p.actors[b]
  {
  }

  lemma DemoteSamePending(p: Plane, f: Fid)
    requires PlaneInv(p) && f in p.forwards
    ensures var q := Demote(p, f); q.forwards + q.pending == p.forwards + p.pending
  {
  }

  lemma DemoteSameActors(p: Plane, f: Fid)
    requires PlaneInv(p) && f in p.forwards
    ensures DemotedActors(Demote(p, f)) == DemotedActors(p)
  {
    var q := Demote(p, f);
    assert q.actors.Keys == p.actors.Keys;
    forall b | b in p.actors ensures DemotedActors(q)[b] == DemotedActors(p)[b] {
      if b != p.forwards[f] {
        DemoteElsewhere(p, f, b);
      }
    }
  }

  lemma OverflowElsewhere(p: Plane, f: Fid, b: ActorId)
    requires PlaneInv(p) && f in p.forwards && b in p.actors && b != p.forwards[f]
    ensures Overflows(Demote(p, f), b) <==> Overflows(p, b)
  {
    DemoteElsewhere(p, f, b);
    if Forwarded(p, b) {
      assert p.actors[b].fid != f;
    }
  }

  lemma OverflowWithout(p: Plane, q: Plane, a: ActorId)
    requires q.actors.Keys == p.actors.Keys && !Overflows(q, a)
    requires forall b | b in p.actors && b != a :: Overflows(q, b) == Overflows(p, b) && q.actors[b].fid == p.actors[b].fid
    ensures Overflow(q) == Overflow(p) - {a}
  {
  }

  lemma MergeMoved(e: map<ActorId, Fid>, o: map<ActorId, Fid>, a: ActorId, f: Fid)
    requires a in o ==> o[a] == f
    ensures (if a in o then e[a := f] else e) + (o - {a}) == e + o
  {
  }

  lemma OverflowShrinks(p: Plane, f: Fid)
    requires PlaneInv(p) && f in p.forwards
    ensures Overflow(Demote(p, f)) == Overflow(p) - {p.forwards[f]}
  {
    var q, a := Demote(p, f), p.forwards[f];
    forall b | b in p.actors && b != a
      ensures Overflows(q, b) == Overflows(p, b) && q.actors[b].fid == p.actors[b].fid
    {
      OverflowElsewhere(p, f, b);
    }
    OverflowWithout(p, q, a);
  }

  lemma DemoteExtras(p: Plane, f: Fid)
    requires PlaneInv(p) && f in p.forwards
    ensures var a := p.forwards[f];
            Demote(p, f).extras == (if a in Overflow(p) then p.extras[a := f] else p.extras)
            && (a in Overflow(p) ==> Overflow(p)[a] == f)
  {
  }

  lemma DemoteSameExtras(p: Plane, f: Fid)
    requires PlaneInv(p) && f in p.forwards
    ensures Demote(p, f).extras + Overflow(Demote(p, f)) == p.extras + Overflow(p)
  {
    OverflowShrinks(p, f);
    DemoteExtras(p, f);
    MergeMoved(p.extras, Overflow(p), p.forwards[f], f);
  }

  /** What `AllKept` allows keeps the plane's own invariant. */
  lemma KeptIsSound(p: Plane, q: Plane)
    requires PlaneInv(p) && AllKept(p, q)
    ensures PlaneInv(q)
  {
    forall a | a in q.actors
      ensures CleanupInv(q.actors[a])
      ensures !(Forwarded(q, a) && (Pended(q, a) || Extra(q, a))) && !(Pended(q, a) && Extra(q, a))
      ensures Forwarded(q, a) ==> !q.actors[a].retired && !q.actors[a].discarded
    {
      assert Kept(p, q, a);
    }
  }

  lemma NothingLeft(p: Plane)
    requires KeysInv(p) && p.forwards == map[]
    ensures DemoteAll(p) == p
  {
    assert DemoteAll(p).pending == p.pending;
    assert DemoteAll(p).extras == p.extras;
    assert DemoteAll(p).actors == p.actors;
  }

  ghost predicate SnapshotOf(actors: map<ActorId, Actor>, items: seq<(Fid, ActorId)>, seen: set<ActorId>) {
    && (forall i | 0 <= i < |items| :: items[i].1 in actors && actors[items[i].1].fid == items[i].0)
    && (forall i, j | 0 <= i < j < |items| :: items[i].1 != items[j].1)
    && (forall i | 0 <= i < |items| :: items[i].1 in seen)
    && (forall a | a in seen :: exists i :: 0 <= i < |items| && items[i].1 == a)
  }

  lemma SnapshotGrows(actors: map<ActorId, Actor>, items: seq<(Fid, ActorId)>, seen: set<ActorId>, f: Fid, a: ActorId)
    requires SnapshotOf(actors, items, seen) && a !in seen && a in actors && actors[a].fid == f
    ensures SnapshotOf(actors, items + [(f, a)], seen + {a})
  {
    var longer := items + [(f, a)];
    forall b | b in seen + {a} ensures exists i :: 0 <= i < |longer| && longer[i].1 == b {
      if b == a {
        assert longer[|items|].1 == b;
      } else {
        var i :| 0 <= i < |items| && items[i].1 == b;
        assert longer[i].1 == b;
      }
    }
  }

  lemma SnapshotLists(actors: map<ActorId, Actor>, items: seq<(Fid, ActorId)>, seen: set<ActorId>)
    requires SnapshotOf(actors, items, seen)
    ensures forall a :: (exists i :: 0 <= i < |items| && items[i].1 == a) <==> a in seen
  {
  }

  /** The actors pending for other forwards than `rest`. */
  function ActorsBut(pending: map<Fid, ActorId>, rest: set<Fid>): set<ActorId> {
    set f | f in pending && f !in rest :: pending[f]
  }

  lemma ActorsButEnds(pending: map<Fid, ActorId>)
    ensures ActorsBut(pending, pending.Keys) == {} && ActorsBut(pending, {}) == pending.Values
  {
  }

  lemma ActorsButNext(pending: map<Fid, ActorId>, rest: set<Fid>, f: Fid)
    requires f in pending && f in rest
    ensures ActorsBut(pending, rest - {f}) == ActorsBut(pending, rest) + {pending[f]}
  {
  }

  /** What a compensation answers: done, superseded by another update, or refused by the backend. */
  datatype Answer = Compensated | Stale | Invalid

  class LockedPlane {
    var forwards: map<Fid, ActorId>
    var cleanupPending: map<Fid, ActorId>
    var cleanupExtras: map<ActorId, Fid>
    var actors: map<ActorId, Actor>
    var closing: bool
    var capabilityReady: bool
    var generations: Gens

    ghost function View(): Plane
      reads this
    {
      Plane(forwards, cleanupPending, cleanupExtras, actors, closing, capabilityReady, generations)
    }

    ghost predicate Valid()
      reads this
    {
      PlaneInv(View())
    }

    constructor (ready: bool, fingerprint: string)
      ensures Valid() && View() == NewPlane(ready, fingerprint)
    {
      forwards, cleanupPending, cleanupExtras, actors := map[], map[], map[], map[];
      closing, capabilityReady, generations := false, ready, Gens(1, 1, fingerprint);
    }

    method AddCleanupPending(f: Fid, a: ActorId)
      modifies this
      ensures View() == AddPending(old(View()), f, a)
    {
      if f !in cleanupPending {
        cleanupPending := cleanupPending[f := a];
      } else if cleanupPending[f] != a {
        cleanupExtras := cleanupExtras[a := f];
      }
      if a in actors {
        actors := actors[a := actors[a].(retired := true)];
      }
    }

    method RemoveCleanupPending(f: Fid, a: ActorId)
      modifies this
      ensures View() == RemovePending(old(View()), f, a)
    {
      if f in cleanupPending && cleanupPending[f] == a {
        cleanupPending := cleanupPending - {f};
        return;
      }
      if a in cleanupExtras && cleanupExtras[a] == f {
        cleanupExtras := cleanupExtras - {a};
      }
    }

    /** stop and handleForwardRunError: one live actor is handed to cleanup. */
    method DemoteForward(f: Fid)
      requires Valid()
      modifies this
      ensures Valid() && View() == Demote(old(View()), f)
    {
      if f in forwards {
        var a := forwards[f];
        ghost var before := View();
        forwards := forwards - {f};
        AddCleanupPending(f, a);
        DemoteKeeps(before, f);
        KeptIsSound(before, View());
      }
    }

    /** The loop shared by markCapabilityLost and closeAll; the map is walked in any order. */
    method DemoteEverything()
      requires Valid()
      modifies this
      ensures Valid() && View() == DemoteAll(old(View()))
    {
      while forwards != map[]
        invariant Valid() && DemoteAll(View()) == DemoteAll(old(View()))
        decreases |forwards|
      {
        var f :| f in forwards;
        DemoteOneThenAll(View(), f);
        DemoteForward(f);
      }
      NothingLeft(View());
    }

    method MarkCapabilityLost() returns (transition: bool)
      requires Valid()
      modifies this
      ensures Valid() && View() == LoseCapability(old(View())) && transition == old(capabilityReady)
    {
      if !capabilityReady {
        return false;
      }
      DemoteEverything();
      capabilityReady := false;
      generations := generations.(capability := generations.capability + 1);
      transition := true;
    }

    method MarkCapabilityRestored(fingerprint: string) returns (transition: bool)
      requires Valid()
      modifies this
      ensures Valid() && View() == RestoreCapability(old(View()), fingerprint)
      ensures transition == !old(capabilityReady)
    {
      if capabilityReady {
        return false;
      }
      capabilityReady := true;
      generations := generations.(fingerprint := fingerprint, capability := generations.capability + 1);
      transition := true;
    }

    /** rollback: compensates only for the token's own update, and issues the next token. */
    method Rollback(f: Fid, token: (ActorId, nat), target: Target) returns (next: (ActorId, nat), answer: Answer)
      requires Valid()
      modifies this
      ensures View() == FencedRollback(old(View()), f, token, target)
      ensures !answer.Compensated? ==> View() == old(View()) && next == token
      ensures answer.Compensated? ==>
                next == (token.0, token.1 + 1) && token.0 in actors && actors[token.0].updateSeq == next.1
      ensures answer.Invalid? ==> target.Malformed?
      ensures answer.Stale? <==>
                !(old(f in forwards && forwards[f] == token.0 && actors[token.0].updateSeq == token.1) && token.1 != 0)
    {
      next, answer := token, Stale;
      if token.1 == 0 {
        return;
      }
      if f !in forwards || forwards[f] != token.0 || actors[forwards[f]].updateSeq != token.1 {
        return;
      }
      if target.Malformed? {
        answer := Invalid;
        return;
      }
      actors := actors[token.0 := actors[token.0].(target := target, updateSeq := token.1 + 1)];
      next, answer := (token.0, token.1 + 1), Compensated;
    }

    /** cleanupActorsSnapshot: every actor in either cleanup map, once, with its forward. */
    method CleanupActorsSnapshot() returns (items: seq<(Fid, ActorId)>)
      requires Valid()
      ensures forall i | 0 <= i < |items| :: items[i].1 in actors && actors[items[i].1].fid == items[i].0
      ensures forall i, j | 0 <= i < j < |items| :: items[i].1 != items[j].1
      ensures forall a :: (exists i :: 0 <= i < |items| && items[i].1 == a) <==> a in Listed(View())
    {
      var seen;
      items, seen := ListPending();
      items := ListExtras(items, seen);
      SnapshotLists(actors, items, seen + cleanupExtras.Keys);
    }

    /** Its first loop. */
    method ListPending() returns (items: seq<(Fid, ActorId)>, seen: set<ActorId>)
      requires KeysInv(View())
      ensures SnapshotOf(actors, items, seen) && seen == cleanupPending.Values
    {
      items, seen := [], {};
      var ids := cleanupPending.Keys;
      ActorsButEnds(cleanupPending);
      while ids != {}
        invariant ids <= cleanupPending.Keys
        invariant seen == ActorsBut(cleanupPending, ids)
        invariant SnapshotOf(actors, items, seen)
      {
        var f :| f in ids;
        ActorsButNext(cleanupPending, ids, f);
        if cleanupPending[f] !in seen {
          SnapshotGrows(actors, items, seen, f, cleanupPending[f]);
          items := items + [(f, cleanupPending[f])];
          seen := seen + {cleanupPending[f]};
        }
        ids := ids - {f};
      }
    }

    /** Its second loop. */
    method ListExtras(pending: seq<(Fid, ActorId)>, shown: set<ActorId>) returns (items: seq<(Fid, ActorId)>)
      requires KeysInv(View()) && SnapshotOf(actors, pending, shown)
      ensures SnapshotOf(actors, items, shown + cleanupExtras.Keys)
    {
      items := pending;
      var seen, extras := shown, cleanupExtras.Keys;
      while extras != {}
        invariant extras <= cleanupExtras.Keys
        invariant seen == shown + (cleanupExtras.Keys - extras)
        invariant SnapshotOf(actors, items, seen)
      {
        var a :| a in extras;
        if a !in seen {
          SnapshotGrows(actors, items, seen, cleanupExtras[a], a);
          items := items + [(cleanupExtras[a], a)];
          seen := seen + {a};
        }
        extras := extras - {a};
      }
      assert seen == shown + cleanupExtras.Keys;
    }
  }
}
