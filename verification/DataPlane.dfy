/**
  The fields of the agent's data plane that are guarded by its mutex, and the
  critical sections that update them, as functions on values.

  An actor (one live listener plus its lease) is identified by a number that
  stands for its identity.  The record kept for it holds the generation stamp it
  was acquired under, its backend target with the update counter, and the
  cleanup flags that cleanupMu guards.
 */
module DataPlane {

  type Fid = string
  type ActorId = nat

  /** A backend target: the text of an IPv4 address and port, or any other text. */
  datatype Target = Endpoint(text: string) | Malformed(text: string)

  /** What an acquisition records about the composition it was made under. */
  datatype Gens = Gens(composition: nat, capability: nat, fingerprint: string)

  datatype Actor = Actor(
    fid: Fid,
    gens: Gens,
    target: Target,
    updateSeq: nat,
    inProgress: bool,   // cleanupInProgress
    complete: bool,     // cleanupComplete
    failed: bool,       // cleanupErr != nil
    started: nat,       // cleanup attempts begun so far
    finished: nat,      // cleanup attempts ended so far
    retired: bool,      // has been handed to the cleanup maps
    discarded: bool)    // released by the closing branch of abandonment

  function FreshActor(f: Fid, gens: Gens, target: Target): Actor {
    Actor(f, gens, target, 0, false, false, false, 0, 0, false, false)
  }

  datatype Plane = Plane(
    forwards: map<Fid, ActorId>,
    pending: map<Fid, ActorId>,    // cleanupPending
    extras: map<ActorId, Fid>,     // cleanupExtras
    actors: map<ActorId, Actor>,
    closing: bool,
    capabilityReady: bool,
    gens: Gens)                    // the current generations

  function NewPlane(ready: bool, fingerprint: string): Plane {
    Plane(map[], map[], map[], map[], false, ready, Gens(1, 1, fingerprint))
  }

  predicate Forwarded(p: Plane, a: ActorId) {
    a in p.actors && p.actors[a].fid in p.forwards && p.forwards[p.actors[a].fid] == a
  }

  predicate Pended(p: Plane, a: ActorId) {
    a in p.actors && p.actors[a].fid in p.pending && p.pending[p.actors[a].fid] == a
  }

  predicate Extra(p: Plane, a: ActorId) {
    a in p.extras
  }

  // ---- critical sections ----

  /** addCleanupPendingLocked */
  function AddPending(p: Plane, f: Fid, a: ActorId): Plane {
    p.(pending := if f !in p.pending then p.pending[f := a] else p.pending,
       extras := if f in p.pending && p.pending[f] != a then p.extras[a := f] else p.extras,
       actors := if a in p.actors then p.actors[a := p.actors[a].(retired := true)] else p.actors)
  }

  /** removeCleanupPendingLocked */
  function RemovePending(p: Plane, f: Fid, a: ActorId): Plane {
    if f in p.pending && p.pending[f] == a then p.(pending := p.pending - {f})
    else if a in p.extras && p.extras[a] == f then p.(extras := p.extras - {a})
    else p
  }

  /** pendingActorsLocked, as a set */
  function PendingFor(p: Plane, f: Fid): set<ActorId> {
    (if f in p.pending then {p.pending[f]} else {}) + set a | a in p.extras && p.extras[a] == f
  }

  /** Takes the actor of `f`, if any, out of forwards and hands it to cleanup. */
  function Demote(p: Plane, f: Fid): Plane {
    if f in p.forwards
    then AddPending(p.(forwards := p.forwards - {f}), f, p.forwards[f])
    else p
  }

  /** A live actor whose forward already has another actor pending. */
  predicate Overflows(p: Plane, a: ActorId) {
    Forwarded(p, a) && p.actors[a].fid in p.pending && p.pending[p.actors[a].fid] != a
  }

  function Overflow(p: Plane): map<ActorId, Fid> {
    map a | a in p.actors && Overflows(p, a) :: p.actors[a].fid
  }

  function DemotedActors(p: Plane): map<ActorId, Actor> {
    map a | a in p.actors :: if Forwarded(p, a) then p.actors[a].(retired := true) else p.actors[a]
  }

  /** Demotes every forward at once. */
  function DemoteAll(p: Plane): Plane {
    p.(forwards := map[], pending := p.forwards + p.pending,
       extras := p.extras + Overflow(p), actors := DemotedActors(p))
  }

  /** markCapabilityLost, first section */
  function LoseCapability(p: Plane): Plane {
    if !p.capabilityReady then p
    else DemoteAll(p).(capabilityReady := false, gens := p.gens.(capability := p.gens.capability + 1))
  }

  /** markCapabilityRestored */
  function RestoreCapability(p: Plane, fingerprint: string): Plane {
    if p.capabilityReady then p
    else p.(capabilityReady := true,
            gens := Gens(p.gens.composition, p.gens.capability + 1, fingerprint))
  }

  /** The locked part of rebuildTraversal. */
  function Rebuild(p: Plane): Plane {
    p.(gens := p.gens.(composition := p.gens.composition + 1))
  }

  /** backend.Update and the counter: a malformed target is refused and changes nothing. */
  function SetTarget(p: Plane, a: ActorId, target: Target): Plane {
    if a in p.actors && target.Endpoint?
    then p.(actors := p.actors[a := p.actors[a].(target := target, updateSeq := p.actors[a].updateSeq + 1)])
    else p
  }

  /** rollback, locked part: compensates only for the token's own update. */
  function FencedRollback(p: Plane, f: Fid, token: (ActorId, nat), target: Target): Plane {
    if f in p.forwards && p.forwards[f] == token.0 && token.0 in p.actors
       && p.actors[token.0].updateSeq == token.1 && token.1 != 0
    then SetTarget(p, token.0, target)
    else p
  }

  /** The actors that cleanupActorsSnapshot lists. */
  function Listed(p: Plane): set<ActorId> {
    p.pending.Values + p.extras.Keys
  }

  /** cleanupActor, the section that claims the attempt. */
  function StartCleanup(p: Plane, a: ActorId): Plane {
    if a in p.actors && !p.actors[a].complete && !p.actors[a].inProgress
    then p.(actors := p.actors[a := p.actors[a].(inProgress := true, started := p.actors[a].started + 1)])
    else p
  }

  /** cleanupActor, the section that records the attempt's result. */
  function FinishCleanup(p: Plane, a: ActorId, ok: bool): Plane {
    if a in p.actors && p.actors[a].inProgress
    then p.(actors := p.actors[a := p.actors[a].(inProgress := false, failed := !ok, complete := p.actors[a].complete || ok,
                                                 finished := p.actors[a].finished + 1)])
    else p
  }
}
