# AntiNAT, verified

A Dafny model of the parts of AntiNAT whose correctness cannot be read off one
function, with proofs about every run, every crash point or every input.

* **Agent data plane** (`DataPlane*.dfy`). Forward actors own listeners and
  gateway mappings. One step is one section under the data-plane mutex, one
  section under an actor's cleanup mutex, one external action, or one change of
  the durable delete fence, which may grow between any two steps, also while an
  install section holds the mutex. Two reads of the fence inside one install are
  modelled by the last one, because the fence only grows. `Reject` and `Quit` may
  be taken always, which covers every refusal and only adds behaviours.
  `DataPlaneLock.dfy` holds the critical sections as a class.
* **Transactional upgrade** (`Upgrade*.dfy`). Live tree, backups and journals are
  maps. Every file operation consumes one fault: fine, failed without effect, or
  failed after taking effect; when the faults run out the process has crashed and
  nothing has any effect any more. So every fault sequence is every combination of
  errors and one crash, in upgrade, rollback and recovery alike, and a history
  strings any number of them together. `UpgradeInstaller.dfy` holds the loops as a
  class.
* **Hook scripts** (`Script*.dfy`). The precedence-climbing parser as functions,
  as a cursor-moving class, and the round trip with a printer. The evaluator as a
  reference semantics with completions, and as a machine that carries a return on
  the error channel. Numbers are reals in the tree and otherwise opaque; text
  conversion, native functions other than `push`, the deadline and the order in
  which object-literal fields are evaluated are arbitrary parameters.
* **Durable hook queue** (`Queue*.dfy`). Rows, audit log, and the writes that
  MarkFailed has decided on but not made. A transaction is one step; MarkFailed is
  a read step and a write step. The clock may go either way, and a reading made
  before a transaction may be any time.
* **Wire protocol** (`Bytes`, `FieldList`, `SignedFields`, `Enrollment`, `Session`,
  `Envelope`, `ProbeFrames`, `ProbeAgent`, `StrictJson*`). SHA-256 and Ed25519 are
  arbitrary functions; where a proof needs a signer and a verifier to agree, that
  is a hypothesis of the lemma.
* **Exact algorithms** (`Canonical`, `Limiter`, `JsonNumber`, `IntegralNumber`).
  The limiter works over the reals.

Where the code and the expectation part:

* An upgrade journal can read "complete" over a tree that is neither old nor new.
  `UpgradeRuns.UpgradeFromEnds` says exactly when "complete" stands although the
  upgrade did not report success: its own write reported an error after taking
  effect, and the rollback that follows is mute, that is, `transaction.json` cannot
  be read back, or the announcement, every progress report and the conclusion are
  all lost. `UpgradeRuns.CompleteOverOtherTree` says exactly when the tree below it
  is not the upgraded one: the same, and the mute rollback changed some file.
  `UpgradeMixed.dfy` has two families of such runs, one with a crash and one
  without, and a concrete member of each. But for that, an upgrade is all or nothing
  at every crash point (`UpgradeRuns.CrashAtomicity`, `UpgradeRuns.AllOrNothing`).
* The comments in `queue.go` promise an audit row per loss, and that holds. The
  converse does not: two writers that read the same last failure record one dead
  letter twice (`QueueAccounts.RecordedTwice` is such a run).
  `QueueAccounts.LossesAccounted` is the exact account over every run.
* The queue bound is a bound on EnqueueEvent only. A step takes a backlog past the
  bound exactly when it retries a dead letter while the backlog is at the bound
  (`QueueBounds.BoundBreaks`); over a run the excess is at most the number of such
  retries (`QueueBounds.BacklogBound`), and `QueueBounds.BoundPassed` is a run from
  the empty queue that ends above it.
* A row in flight is not handed out again for 300 seconds, unless the clock goes back
  and a decommission stamps the row with the earlier time (`QueueRuns.ClaimedTwice`,
  `QueueClock.ClaimedTwiceAtOnce`).
* A JSON number such as `1e2` has an integer value but is refused by the strict
  walker (`StrictJsonExact.ExponentRefused`); `StrictJsonExact.NumberExact` says
  "written without fraction or exponent". The most negative 64-bit integer is refused
  too, although it would parse (`StrictJsonExact.LeastRefused`).
* A return statement outside any function ends the script with an error
  (`ScriptReturn.TopLevelReturnFails`).

## Model

| member | source | states |
|---|---|---|
| DataPlaneRuns.Reachable | internal/agent/app.go:2155-2531 | every state of every interleaving satisfies the ownership, gate, cleanup and generation invariants |
| DataPlaneRuns.OwnershipConserved | internal/agent/app.go:2999-3263 | in every run an acquired actor that is neither cleanup-complete nor discarded by the closing branch is in exactly one of: its forward's operation in flight, forwards, cleanupPending, cleanupExtras; it is never in two; an actor in forwards never had a cleanup attempt |
| DataPlaneRuns.AttemptsNeverOverlap | internal/agent/app.go:3089-3147 | between two cleanup attempts on one actor the first one ended, and failed |
| DataPlaneRuns.NoAttemptAfterSuccess | internal/agent/app.go:3089-3147 | no cleanup attempt follows a success on the same actor |
| DataPlaneRuns.CloseAllCleansEverything | internal/agent/app.go:3690-3729 | once closeAll has returned nil, every actor ever acquired is cleanup-complete or was discarded by the closing branch of abandonment, nothing is live and nothing is in flight |
| DataPlaneRuns.OneOperationPerForward | internal/agent/app.go:2155-2175 | two operations past the per-forward gate never share a forward, in every run |
| DataPlaneRuns.ApplyMeetsNoActor | internal/agent/app.go:2508-2512 | the existing-actor branch of apply after acquisition is unreachable |
| DataPlaneRuns.NoResurrection | internal/agent/app.go:3229-3263 | once a forward is fenced and a stop section ran afterwards, no later step of any interleaving puts an actor for it back in forwards |
| DataPlaneFences.GenerationFence | internal/agent/app.go:2431-2482 | from the route snapshot to the publication of an actor the generations stand still: no rebuild, no capability loss or restore; for apply the capability was ready throughout |
| DataPlaneFences.RollbackEffect | internal/agent/app.go:2929-2956 | a fenced rollback with a stale or foreign token or a malformed target changes nothing; with the current one it sets the target and advances the sequence |
| DataPlaneFences.RollbackOnlyUndoesTheLatest | internal/agent/app.go:2917-2956 | in every run, a rollback that changes anything comes with the token of the latest mutation of that same actor, targets reused or not |
| DataPlaneRollback.RollbackExactly | internal/agent/app.go:2917-2956 | in every run the compensation for a mutation takes effect exactly when its target is an IPv4 endpoint, nobody set that actor's target since and nothing took the actor out of service; then it sets the target given |
| DataPlaneRollback.SeqAlong | internal/agent/app.go:2414-2421 | between two points of a run the update counter stands still exactly when nobody set the target |
| DataPlaneRollback.SeatAlong | internal/agent/app.go:2999-3014 | a live actor is still live later exactly when no stop, failure of its own, capability loss or close came in between |
| DataPlaneLock.DemoteOneThenAll | internal/agent/app.go:3175-3191 | demoting one forward first and all the rest afterwards is demoting all of them at once, in any order |
| DataPlaneLock.LockedPlane.AddCleanupPending | internal/agent/app.go:2218-2227 | a second pending actor of a forward goes to the extras, and no other actor moves |
| DataPlaneLock.LockedPlane.RemoveCleanupPending | internal/agent/app.go:2229-2237 | only the entries of this very actor are removed |
| DataPlaneLock.LockedPlane.DemoteEverything | internal/agent/app.go:3175-3191 | the loop over live forwards ends in the simultaneous demotion |
| DataPlaneLock.LockedPlane.MarkCapabilityLost | internal/agent/app.go:3175-3191 | a loss demotes everything and advances the generation once; a repeated loss changes nothing |
| DataPlaneLock.LockedPlane.MarkCapabilityRestored | internal/agent/app.go:3214-3224 | a restore advances the generation exactly when the capability was lost |
| DataPlaneLock.LockedPlane.Rollback | internal/agent/app.go:2929-2956 | the section equals the fenced rollback; it answers stale exactly when superseded, invalid when the backend refuses the target |
| DataPlaneLock.LockedPlane.CleanupActorsSnapshot | internal/agent/app.go:2196-2216 | the snapshot lists every actor of both cleanup maps once, under its forward |
| UpgradeRestore.RestoreEffect | internal/install/upgrade.go:175-228 | a restore that succeeds leaves every manifest path as backed up and touches no other path; one that fails touches only manifest paths |
| UpgradeRestore.RollbackEffect | internal/install/upgrade.go:460-524 | a rollback changes only its own journal and the manifest paths, and says "rolled back" only over a restored tree |
| UpgradeRecovery.RecoverOneEffect | internal/install/upgrade.go:623-668 | recovering one directory restores its tree or leaves its journal open; closed journals are not touched |
| UpgradeRecovery.RecoverFromCloses | internal/install/upgrade.go:623-668 | recovery never opens a journal and never rewrites a closed one |
| UpgradeForward.PrepareEffect | internal/install/upgrade.go:373-398 | for every fault sequence the snapshot and first journal describe the tree faithfully, or the upgrade is refused with the tree untouched |
| UpgradeForward.PromoteAndGateEffect | internal/install/upgrade.go:400-452 | promotion, migration and health gate touch only listed files, and passing the gate means the expected tree |
| UpgradeRuns.UpgradeFromEnds | internal/install/upgrade.go:311-524 | for every fault sequence: success means the expected tree and a "complete" journal; an error leaves the whole old tree, an open journal (perhaps saying that the rollback failed) or a "complete" one; the last exactly when its own write failed after taking effect and the rollback was mute |
| UpgradeRuns.CompleteOverOtherTree | internal/install/upgrade.go:452-524 | "complete" stands over a tree other than the upgraded one exactly when, besides, the mute rollback changed a file |
| UpgradeMute.MuteExact | internal/install/upgrade.go:460-524 | a rollback leaves "complete" standing exactly when the journal cannot be read back or every one of its journal writes is lost |
| UpgradeMute.StillExact | internal/install/upgrade.go:175-228 | a rollback leaves the live tree as it is exactly when it does not reach its restoring loop or no entry of the loop changes its file |
| UpgradeRuns.AlwaysOneOpen | internal/install/upgrade.go:578-596 | in every history of upgrades, crashes, recoveries and application writes at most one journal is outside complete, rolled_back and recovered |
| UpgradeRuns.CrashAtomicity | internal/install/upgrade.go:311-668 | crash or fail an upgrade at any point, then any number of recoveries at any point: unless the upgrade left "complete", one more recovery that reports success leaves the whole tree as it was before the upgrade, whatever the journal said by then; if it left "complete", no recovery changes the disk |
| UpgradeRuns.AllOrNothing | internal/install/upgrade.go:311-668 | so the tree is the old or the upgraded one, except after a false "complete" whose mute rollback changed a file |
| UpgradeRuns.OpenIsRestored | internal/install/upgrade.go:623-668 | whatever the application wrote since: while the journal of an upgrade is open, recovery that succeeds restores every listed path exactly, and no recovery touches another path; with no open journal it leaves the disk as it is |
| UpgradeRuns.OlderStayClosed | internal/install/upgrade.go:370-397 | once an upgrade got past recovery, every older journal is closed for good |
| UpgradeRuns.NothingOlderThanComplete | internal/install/upgrade.go:370-397 | recovery never restores a snapshot older than a completed upgrade |
| UpgradeRuns.FailedRollbackBlocks | internal/install/upgrade.go:623-668 | after a failed rollback every later upgrade is refused and every recovery errs, with the disk untouched |
| UpgradeMixed.CompleteOverMixedTree | internal/install/upgrade.go:452-524 | a family of runs with a crash whose journal says "complete" over a tree that is neither old nor new |
| UpgradeMixed.CompleteWithoutCrash | internal/install/upgrade.go:460-478 | a family without a crash, for every later fault: the journal cannot be read back and one file cannot be removed |
| UpgradeMixed.MixedTreeHappens | internal/install/upgrade.go:452-524 | one concrete run with a crash |
| UpgradeMixed.MixedTreeWithoutCrash | internal/install/upgrade.go:460-478 | one concrete run without a crash |
| UpgradeInstaller.Installer.CreateSnapshot | internal/install/upgrade.go:43-101 | the loop equals the recursive snapshot, faults included |
| UpgradeInstaller.Installer.RestoreSnapshotWithProgress | internal/install/upgrade.go:175-228 | the loop, which goes on after an error, equals the recursive restore |
| UpgradeInstaller.Installer.RecoverInterrupted | internal/install/upgrade.go:623-668 | the directory loop equals the recursive recovery |
| UpgradeInstaller.Installer.PromoteFiles | internal/install/upgrade.go:400-429 | the promotion loop equals the recursive one |
| UpgradeInstaller.Installer.RollbackUpgrade | internal/install/upgrade.go:460-524 | the method equals the modelled rollback |
| UpgradeInstaller.Installer.UpgradeTransaction | internal/install/upgrade.go:311-458 | the whole transaction equals the function the histories are made of |
| ScriptRoundTrip.RoundTrip | internal/hook/runner_eval.go:578-788 | any tree of literals, identifiers, unary, binary, member, index, call and array nodes, printed with only the parentheses that precedence and left associativity require, parses back to itself and takes exactly its tokens, when no operator, dot, bracket, parenthesis or assign follows |
| ScriptRoundTrip.BinaryRaw | internal/hook/runner_eval.go:626-647 | the climbing loop reads a printed operand and goes on with it on the left |
| ScriptRoundTrip.ItemsListed | internal/hook/runner_eval.go:696-709 | a printed list of arguments or items is read back in order up to its closer |
| ScriptParser.Expression | internal/hook/runner_eval.go:586-588 | a parsed expression takes at least one token, so every loop of the parser ends |
| ScriptParser.Statement | internal/hook/runner_eval.go:387-493 | a parsed statement takes at least one token |
| ScriptCursor.Parser.BinaryFrom | internal/hook/runner_eval.go:626-647 | the loop that moves the cursor gives the tree and the rest of the recursive definition |
| ScriptCursor.Parser.PostfixFrom | internal/hook/runner_eval.go:669-722 | the same for suffixes and assignment |
| ScriptCursor.Parser.ParseProgram | internal/hook/runner_eval.go:368-385 | the same for a whole script |
| ScriptEval.Eval | internal/hook/runner_eval.go:1065-1141 | evaluation ends for every script under the step budget, uses between one step and one over the budget, and gives the call depth back |
| ScriptEval.CallValue | internal/hook/runner_eval.go:1370-1408 | a call gives a value or fails, gives the call depth back on every exit, and runs its body only at a depth within the limit |
| ScriptEval.ForLoop | internal/hook/runner_eval.go:1021-1045 | a for..of loop ends even when its body appends to the array |
| ScriptEval.ExecuteScript | internal/hook/runner_eval.go:924-950 | a run ends at call depth zero with at most MaxSteps + 1 steps, at most MaxSteps if it succeeds |
| ScriptHeap.EvalKeeps | internal/hook/runner_eval.go:1065-1141 | if operators give scalars and natives do not invent references, evaluation keeps the heap well-formed (every reference allocated, every scope younger than its parent) and gives an allocated value |
| ScriptHeap.CallKeeps | internal/hook/runner_eval.go:1370-1408 | so does a call |
| ScriptHeap.LoopKeeps | internal/hook/runner_eval.go:1021-1045 | so does a for..of loop over a live array |
| ScriptHeap.ScriptKeepsHeap | internal/hook/runner_eval.go:924-950 | so does a whole script |
| ScriptHeap.FindWalksOutwards | internal/hook/runner_eval.go:859-866 | in a well-formed heap the lookup is the plain walk along parents |
| ScriptReturn.SeqSplits | internal/hook/runner_eval.go:1001-1008 | statements after one that did not complete normally do not run |
| ScriptReturn.ReturnReaches | internal/hook/runner_eval.go:967-1063 | a return reached under any blocks, branches and loop turns is what the whole enclosing statement completes with, in the same state |
| ScriptReturn.NestedReturnEndsCall | internal/hook/runner_eval.go:1370-1408 | a nested return ends exactly its own function: the call yields its value and nothing after it runs |
| ScriptReturn.TopLevelReturnFails | internal/hook/runner_eval.go:935-939 | a return reached outside any function, however nested, ends the script with an error |
| ScriptReturnExact.ReturnExactly | internal/hook/runner_eval.go:967-1063 | a statement completes by return exactly when execution arrives at a return statement of its own; returns of called bodies never count |
| ScriptReturnExact.BodyReturnsExactly | internal/hook/runner_eval.go:1001-1008 | the same for a body in a new scope |
| ScriptReturnExact.CallReturnsOwn | internal/hook/runner_eval.go:1370-1408 | a call that yields a value ran its body to the end and yields null, or ended at a return of its own body with that value |
| ScriptMachine.Vm.ExecStmt | internal/hook/runner_eval.go:967-1063 | executing with returns on the error channel is the reference execution, the signal standing for Returned |
| ScriptMachine.Vm.EvalExpr | internal/hook/runner_eval.go:1065-1141 | evaluating is the reference evaluation, and a return signal never comes out of an expression |
| ScriptMachine.Vm.Invoke | internal/hook/runner_eval.go:1370-1408 | calling is the reference call, and a return signal never comes out of a call |
| ScriptMachine.Vm.LoopOver | internal/hook/runner_eval.go:1033-1044 | the loop over the live array ends with the budget and is the reference loop |
| ScriptMachine.Vm.Lookup | internal/hook/runner_eval.go:859-866 | the walk outwards finds the innermost scope that holds the name |
| ScriptMachine.Vm.RunScript | internal/hook/runner_eval.go:924-950 | the whole run is the reference run |
| QueueSafety.StepKeepsInv | internal/hook/queue.go:84-546 | every step keeps: attempts left on live rows, one row per hook and event, bounds carried by pending failure writes, an audit row for every dead letter and drop |
| QueueRuns.TerminalForever | internal/hook/queue.go:434-453 | DELIVERED and DROPPED_DUE_TO_DECOMMISSION are never left, in any run |
| QueueRuns.RowsStaySane | internal/hook/queue.go:458-507 | in any run PENDING, IN_FLIGHT and FAILED rows have attempt_count below max_attempts and no two rows share hook and event, with MarkFailed's read and write apart |
| QueueRuns.EnqueueIsIdempotent | internal/hook/queue.go:105-118 | once an event has its row, enqueueing it again in any later state answers with that row and changes nothing |
| QueueRuns.NothingLostSilently | internal/hook/queue.go:143-253 | over any run each dead-lettering, each drop, each coalesced and each refused event has an audit row of its own |
| QueueAccounts.LossesAccounted | internal/hook/queue.go:143-253 | over any run the audit rows of a loss number exactly its occurrences, plus, for a dead letter only, the failure writes made after the row had left flight |
| QueueAccounts.RecordedTwice | internal/hook/queue.go:458-498 | a run from the empty queue that dead-letters its row once and records it twice |
| QueueRuns.EnqueueBoundsBacklog | internal/hook/queue.go:120-139 | enqueueing leaves a backlog as it is or raises it by one to at most MaxQueue, and never touches another hook's |
| QueueBounds.BoundBreaks | internal/hook/queue.go:515-546 | for every step, hook and bound on its policies: the backlog ends above both its old value and the bound exactly when the step retries a dead letter of that hook while the backlog is at the bound |
| QueueBounds.BacklogBound | internal/hook/queue.go:84-546 | over any run a backlog is at most the bound plus the number of dead letters put back |
| QueueBounds.BoundPassed | internal/hook/queue.go:515-546 | a run from the empty queue, every enqueue bounded by one row, that ends with two |
| QueueRuns.HoldLasts | internal/hook/queue.go:317-507 | after a claim at some time the row is ended, in flight and stamped no earlier, or requeued for more than 300 seconds later, until exactly a recorded failure or a stamp from a clock gone back |
| QueueRuns.ClaimedTwice | internal/hook/queue.go:317-432 | whatever the clock does: a row handed out twice had a failure recorded in between, or the two claims' times are more than 300 seconds apart, or the clock went back and a decommission stamped the row with that |
| QueueRuns.NotClaimedTwiceTooSoon | internal/hook/queue.go:317-432 | so with a clock that stays ahead of the first claim, one of the first two |
| QueueClock.ClaimedTwiceAtOnce | internal/hook/queue.go:603-636 | a run from the empty queue in which the third happens: two claims at one time, no failure |
| Queue.Backoff | internal/hook/queue.go:699-723 | the delay is between 1 and 300 seconds whatever the jitter |
| QueueStore.Store.EnqueueEvent | internal/hook/queue.go:84-140 | the method is one enqueue step, and its answer is the modelled one |
| QueueStore.Store.EnqueueFull | internal/hook/queue.go:143-253 | a full queue coalesces into the oldest waiting row of the hook and kind, refuses, or dead-letters, each with its audit row |
| QueueStore.Store.ClaimDue | internal/hook/queue.go:317-432 | the method is one claim step: stuck rows requeued, expired rows dropped and audited once each, the first due rows taken in order |
| QueueStore.Store.SelectDue | internal/hook/queue.go:383-405 | exactly the first `max` due rows, by time and id |
| QueueStore.Store.FinishDelivery | internal/hook/queue.go:434-453 | only a row in flight is finished |
| QueueStore.Store.ReadFailure | internal/hook/queue.go:458-475 | the read decides what to write and changes no row |
| QueueStore.Store.WriteFailure | internal/hook/queue.go:476-506 | the write changes the row only if it is still in flight |
| QueueStore.Store.RetryDelivery | internal/hook/queue.go:515-546 | only FAILED and DLQED rows are retried |
| QueueStore.Store.MarkDecommissioned | internal/hook/queue.go:603-636 | the deadline is armed on the node's live rows and nowhere else |
| Bytes.NumberOfBigEndian | internal/protocol/envelope.go:180-190 | reading the low k bytes of a number gives it modulo 256^k |
| Bytes.BigEndianOfNumber | internal/protocol/envelope.go:180-190 | writing what was read gives the same bytes |
| FieldList.ReadsEncoded | internal/protocol/enrollment.go:47-59 | reading an encoded field list gives the fields back |
| FieldList.EncodesRead | internal/protocol/enrollment.go:318-337 | whatever is accepted re-encodes to itself |
| FieldList.EncodeInjective | internal/protocol/enrollment.go:47-59 | length-prefixed lists are uniquely decodable, whatever their lengths |
| FieldList.EncodeFields | internal/security/challenge.go:269-278 | the encoding loop writes the field list |
| FieldList.ReadFields | internal/security/challenge.go:474-493 | the reading loop accepts exactly the field lists of that length, with nothing after them |
| Enrollment.ChallengeCodec | internal/protocol/enrollment.go:112-147 | accepted exactly when the bytes are the canonical encoding of an acceptable challenge, within the size bound, with a verifying signature |
| Enrollment.RequestCodec | internal/protocol/enrollment.go:188-229 | the same for requests, bound to the challenge issued |
| Enrollment.BindingCodec | internal/protocol/enrollment.go:265-301 | the same for enrollment results |
| Enrollment.CanonicalUnique | internal/protocol/enrollment.go:94-259 | canonical bytes of two different enrollment messages, of the same kind or not, never coincide |
| Session.HelloCodec | internal/security/challenge.go:318-349 | accepted exactly when the bytes are the canonical encoding of an acceptable hello with a verifying signature |
| Session.WelcomeCodec | internal/security/challenge.go:367-399 | the same for the welcome |
| Session.FinalCodec | internal/security/challenge.go:416-443 | the same for the final |
| Envelope.HeaderCodec | internal/protocol/envelope.go:141-268 | a header decodes from exactly its own encoding |
| Envelope.AcceptedReencodes | internal/protocol/envelope.go:310-369 | an accepted frame is the encoding of what was accepted, consistent and with a verifying signature |
| Envelope.BuildParses | internal/protocol/envelope.go:273-308 | a built frame parses back to its header and payload exactly when the header is consistent, and is refused at the consistency stage otherwise |
| ProbeFrames.ArmCodec | internal/protocol/probe.go:90-160 | ARM1 accepts exactly the canonical bytes of valid arms |
| ProbeFrames.FrameCodec | internal/protocol/probe.go:216-267 | WAN1 accepts exactly the canonical bytes of frames with a valid endpoint, signature appended |
| ProbeAgent.SingleUse | internal/protocol/probe.go:379-466 | with a clock that never goes back, two accepted ingresses of one probe are at least the replay window apart and separated by a new arming strictly after the first operation's deadline |
| ProbeAgent.LiveRearmChangesNothing | internal/protocol/probe.go:406-423 | arming again while the operation is alive, with any material, leaves operation and deadline as they are |
| ProbeAgent.OperationsBounded | internal/protocol/probe.go:422-431 | at most ProbeOpMax operations exist in any state of any run |
| ProbeAgent.Agent.Sweep | internal/protocol/probe.go:379-390 | the two sweeping loops remove exactly what has died |
| ProbeAgent.Agent.ArmProbe | internal/protocol/probe.go:396-431 | the method is one arming step with the modelled answer |
| ProbeAgent.Agent.HandleIngress | internal/protocol/probe.go:448-466 | the method is one ingress step |
| StrictJsonExact.NumberExact | internal/protocol/strictjson.go:373-392 | the digit-string comparison is exact: bounded text is a number written as an integer of magnitude at most 2^63 - 1, and then the 64-bit parse succeeds with that number |
| StrictJsonExact.ExponentRefused | internal/protocol/strictjson.go:373-377 | 1e2 has the value 100 and is refused |
| StrictJsonExact.LeastRefused | internal/protocol/strictjson.go:385-391 | -2^63 would parse and is refused |
| StrictJsonExact.WalkExact | internal/protocol/strictjson.go:212-357 | over the tokens of any value at any depth: accepted exactly when sound and of the right kind, with the value's meaning and exactly its tokens taken |
| StrictJsonExact.DecodeExact | internal/protocol/strictjson.go:125-149 | over the tokens of any tree: accepted exactly when the size is in range, the root is an object, no object repeats a key, numbers are bounded integers, nothing has more than 16 enclosing containers, the fields fit the schema and nothing follows; the fields handed out are the tree's |
| StrictJsonExact.NoSchemaFits | internal/protocol/strictjson.go:196-202 | without a schema every field fits, so the condition above is the structural one |
| StrictJsonStreams.StreamExact | internal/protocol/strictjson.go:125-149 | over every token stream, truncated and unbalanced ones included: accepted exactly when it is the stream of a sound object that fits the schema |
| StrictJsonWalker.Decoder.ReadObject | internal/protocol/strictjson.go:176-210 | the loop that fills the seen set and the output map is the recursive walk |
| StrictJsonWalker.Decoder.ReadItems | internal/protocol/strictjson.go:234-259 | the same for array items |
| StrictJsonWalker.Decoder.ReadPayload | internal/protocol/strictjson.go:125-149 | the whole decode is the modelled one |
| Canonical.DecodesEncoded | internal/hook/broker.go:364-381 | percent-encoding has a left inverse |
| Canonical.EncodedAlphabet | internal/hook/broker.go:364-381 | only unreserved characters and % come out, so never & or = |
| Canonical.SortedUnique | internal/hook/broker.go:388-392 | byte order leaves no choice: two sorted lists of the same names are equal |
| Canonical.CanonicalQueryInjective | internal/hook/broker.go:384-403 | canonical queries are equal only for equal parameter maps |
| Canonical.StringToSignInjective | internal/hook/broker.go:407-409 | the string to sign determines method, path and query when the method contains no & |
| Canonical.ContributionFixesRequest | internal/hook/broker.go:273-290 | for accepted methods, contributions with one string to sign belong to one upper-cased method, path and parameter map |
| Canonical.PercentEncodeLoop | internal/hook/broker.go:364-381 | the loop writes the encoding |
| Canonical.CanonicalQuery | internal/hook/broker.go:384-403 | the loop writes the pairs of the sorted names |
| Limiter.WindowBound | internal/forward/limiter.go:71-98 | over any window of any run, both directions mixed and the clock going back included, the bytes let through in a direction are at most burst plus rate times the elapsed clamped time |
| Limiter.ClampedClock | internal/forward/limiter.go:80-83 | a direction's clock stands at the latest reading made so far |
| Limiter.TokenLimiter.Allow | internal/forward/limiter.go:71-98 | one request: refused when negative, free when unlimited, otherwise decided and charged on its own direction's refilled bucket |
| IntegralNumber.DigitsDecide | scripts/verify-evidence.go:227-238 | the value is a positive integer exactly when it is not negative, some digit is not zero and enough zeros end the digits |
| IntegralNumber.SaturationHarmless | scripts/verify-evidence.go:213-224 | cutting the exponent off at the bound never changes the decision |
| IntegralNumber.RecogniseExact | scripts/verify-evidence.go:177-238 | on every number of RFC 8259 section 6: recognised exactly when its decimal value is a positive integer |
| IntegralNumber.ReadExponent | scripts/verify-evidence.go:206-224 | the loop reads the smaller of the exponent and the bound, and refuses anything that is not a digit |
| IntegralNumber.PositiveIntegral | scripts/verify-evidence.go:177-238 | on any text the method equals the recogniser, so on every JSON number it decides positive integers |

## Left out

- The localstate, reconcile, traversal, control and controller store packages: the core meets them only through the hooks and fences that the steps stand for.
- Goroutine scheduling, timers and context deadlines: any step may come next, and any refusal may happen.
- Aliasing of actors: actors are records in a map keyed by identity; one closeAll runs at a time.
- The closing branch of abandonment ignores release errors in the code; such actors are marked discarded and conservation speaks of the others.
- Descriptor work, secure joins, modes of temporary files, size limits, freezing and unfreezing of the service, and fsync: folded into the faults of the upgrade's file operations; `manifest.json`, `transaction.json` and `rollback.json` are not file-list entries.
- The lexer, and printing of object literals, assignments, function literals and statements: the parser covers them, the round trip does not.
- Native functions other than push, number formatting and string methods: arbitrary parameters. The branch for object properties without a value is not modelled, because no value is ever absent.
- Database errors and rollbacks of failed transactions: a failed transaction changes nothing. The refusal of a full queue and its audit row, two transactions in the code, are one step. Deleting a hook definition, which deletes its rows, is not a step.
- Reading claimed rows again after the claim has committed: the claim stands for what was handed out.
- Error texts and codes of the codecs and of the strict walker: an accepted message is characterised exactly, a refused one only as refused (with its stage for envelopes).
- The JSON tokenizer: the walker is characterised on every token stream whose number tokens are spelled by the grammar.
- Signing of armed responses, receipts and acknowledgements; the join check of the controller; endpoint classification, which is a parameter.
- WaitDuration, which truncates to nanoseconds, and the rounding of floating-point tokens.
- Purge, metrics, connection budget, finite tables, configuration, command line and web interface: easy or system code.
