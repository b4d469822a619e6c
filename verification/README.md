# Verified model of the durable lab and exam lifecycle

The simulator keeps a lab of four virtual machines and at most one exam on them. What it knows about
both is a handful of small files, and every operation on a machine is wrapped in a protocol over those
files: claim first, act, verify, then confirm or compensate. This project models these protocols, with
guests, providers, browsers and process deaths as an environment that may answer anything, and proves
what survives every run.

| component | files |
|---|---|
| Shared vocabulary | `Wrappers`, `Identifiers`, `Sequences`, `Providers` |
| Lab state: record, constructor checks, mutators, runs, store | `LabStates`, `LabRuns`, `LabStore` |
| Exam session: record, transitions, compare-and-swap store | `ExamSessions`, `ExamStore` |
| Sagas over a guest that may fail half-way or die with the process | `Guests`, `ExamEngine`, `ScenarioEngine`, `SpikeClaim` |
| Lab lifecycle: provisioning ladder, join token, destruction | `LabProvision`, `JoinTokens`, `LabDestroy` |
| Name-only provider under interference | `LimaProvider` |
| Concurrent browser requests and the nesting of all locks | `ExamController`, `LockOrder` |
| Checkers and arithmetic | `ArchiveCheck`, `TarStream`, `Rounding`, `LiveGrading`, `ExamAggregate` |

How to read the contracts:

- An operation ends as `Returned`, `Raised` or `Crashed`. A crash may happen at every call into the
  environment and before every store write, so a postcondition that holds for `Crashed` holds for a
  process that dies there.
- Each environment class counts in `faults` every answer that an undisturbed run would not have got. A
  clause under "`faults` unchanged" says that the operation then succeeds, so a body that always refuses
  does not meet its contract.
- A `Safe()` or `Valid()` predicate that every operation both requires and ensures, together with the
  method `AnyRun`, says that the invariant holds after every sequence of operations that succeed, raise
  or crash anywhere.
- Traces of provider commands are checked by reference monitors (`Observe` and `Permits` in
  `LabDestroy`, `Held` and `Permitted` in `LimaProvider`): a command is issued only in front of the
  evidence that the monitor demands.
- `Run` and `Play` are folds of arbitrary sequences of calls or actions; a refused call changes nothing.

Where the code does less than its design suggests, the model follows the code:

- Activating an exam does not ask whether any task is prepared (`ExamSessions.ActivateExact`, with
  `ActivateUnprepared` as the concrete session); only the engine's order of steps does
  (`ExamEngine.Engine.Start`).
- Recording a failure is refused for a blank error text, as an interrupt has. A starting exam is then
  left preparing exactly if every task was restored, and a final grading is left submitting
  (`ExamSessions.FailExact`, `ExamEngine.Engine.Start`, `ExamController.FailureRecorded`). For a
  submitted session the refusal comes from the constructor alone.
- A rounded score of 100.0 does not mean that a task passed (`LiveGrading.FullScoreWithoutPass`); it
  means at least 99.995 percent (`LiveGrading.ScoreExact`). The pass mark is likewise reached from a total
  of 66.995 on (`ExamAggregate.Aggregate`).
- The locks are never re-taken while held, with one exception: an expired snapshot submits inside its
  controller's re-entrant lock (`LockOrder.ReTakenExact`, with `SnapshotReenters` as the concrete run).
- A degraded lab with a recorded attempt can be climbed up to candidate-ready with the attempt still
  recorded (`LabProvision.AttemptStranded`, with `StrandedFromClaim` as the run), from where it is neither
  attested nor restored (`LabRuns.AttestExact`, `LabRuns.RestoreExact`); degrading it again makes it
  restorable (`LabRuns.AttemptRecoverable`).
- A pinned specification that differs from the recorded one is refused before any guest is touched, but
  inside the guarded block, so the refusal still degrades the lab (`LabProvision.Lifecycle.Provision`).

## Model

| member | source | states |
|---|---|---|
| `Providers.DeriveHandle` | cks_simulator/providers/base.py:75-88 | Every derived handle is a canonical one. |
| `Providers.DeriveExact` | cks_simulator/providers/base.py:75-88 | A derived handle names its lab, by the first sixteen of the 32 digits of its UUID, and its role. |
| `Providers.DeriveInjective` | cks_simulator/providers/base.py:75-88 | Within a lab, two roles never derive the same handle, so a handle names one machine. |
| `LabStates.ConstructPermuted` | cks_simulator/state.py:349-423 | Whether a record is accepted, and what is stored of it, does not depend on the order of its observations, and that order is all that the constructor ever changes. |
| `LabStates.ConstructIdempotent` | cks_simulator/state.py:349-423 | Whatever the constructor accepts, it accepts again as it left it: loading a stored state returns it. |
| `LabStates.OrderObservationsExact` | cks_simulator/state.py:613-667 | An observation set is accepted if and only if it is a permutation of four observations in canonical role order, pairwise different in every field and each of its recorded machine; that canonical order is the result. |
| `LabStates.NextConstructed` | cks_simulator/state.py:1278-1695 | What any mutator leaves behind is a record that the constructor accepts. |
| `LabRuns.NextIsProposal` | cks_simulator/state.py:1278-1695 | Passing a mutator's result through the constructor never reorders or drops anything. |
| `LabRuns.ConstructorNeverRefuses` | cks_simulator/state.py:349-423 | From a reachable state and for well-formed arguments, every refusal is one that the mutator itself makes: the constructor never refuses what its checks let through. |
| `LabRuns.ClaimInv` | cks_simulator/state.py:1214-1234 | Every accepted claim satisfies the invariant of all later states. |
| `LabRuns.ClaimExact` | cks_simulator/state.py:1214-1234 | A claim is accepted if and only if its four names are well formed; it holds just these and one declared entry. |
| `LabRuns.StepInv` | cks_simulator/state.py:1278-1695 | Every mutator keeps the invariant that ties journal, attempt, baseline and observations together. |
| `LabRuns.RunInv` | cks_simulator/state.py:1214-1695 | The invariant holds in every state that any sequence of mutator calls reaches. |
| `LabRuns.JournalDeterminesAttempt` | cks_simulator/state.py:349-423 | From a claim on, an attempt is recorded if and only if a scenario-prepared entry stands after the last validated one; it carries the lab's health baseline, and a validated lab has none. |
| `LabRuns.EvidenceLadder` | cks_simulator/state.py:1384-1475 | From a claim on, a lab whose journal ever shows a verified, candidate-ready, validated or scenario-prepared phase holds the four canonical observations of its inventory. |
| `LabRuns.StepLater` | cks_simulator/state.py:1278-1695 | Each mutator keeps identity and every fact once set, and only appends to the journal. |
| `LabRuns.StepAchieves` | cks_simulator/state.py:1278-1695 | What each accepted call achieved: which facts, which single journal entry, and nothing else. |
| `LabRuns.RunLater` | cks_simulator/state.py:1278-1695 | Over any run, the journal only grows, identity never changes, and inventory, observations, profile and specification never change once set. |
| `LabRuns.AttemptFrozen` | cks_simulator/state.py:1477-1595 | While an attempt is recorded, neither it nor the baseline changes, until the restore that clears it. |
| `LabRuns.AttemptRecoverable` | cks_simulator/state.py:1538-1595 | From every reachable state outside cleanup, degrading and restoring with the recorded fingerprints validates the lab again. |
| `LabRuns.PrepareExact` | cks_simulator/state.py:1477-1536 | An attempt is recorded if and only if the identity matches, the lab is validated, and the attempt is well formed on its baseline. |
| `LabRuns.PrepareThenRestore` | cks_simulator/state.py:1477-1595 | Recording an attempt and restoring it with its own fingerprints leaves nothing but two journal entries. |
| `LabRuns.RestoreExact` | cks_simulator/state.py:1538-1595 | A restore is accepted if and only if the lab is prepared or degraded and every argument is that of its recorded attempt; it then clears it and validates the lab. |
| `LabRuns.AttestExact` | cks_simulator/state.py:1423-1475 | A canonical baseline is attested if and only if the lab is candidate-ready without a recorded attempt, or validated with that very baseline. |
| `LabRuns.DegradeAccepted` | cks_simulator/state.py:1597-1644 | Every live phase accepts degradation. |
| `LabRuns.CleanupAccepted` | cks_simulator/state.py:1597-1644 | Cleanup is never refused: every live phase may enter it, and once entered it may end. |
| `LabRuns.ForeignRefused` | cks_simulator/state.py:1269-1276 | No request that names another lab is ever accepted. |
| `LabRuns.FactsExact` | cks_simulator/state.py:1278-1421 | Machines, specification, profile and observations are each accepted if and only if nothing that depends on them is recorded yet, or they repeat what is recorded. |
| `LabRuns.AdvanceExact` | cks_simulator/state.py:1597-1644 | A phase is journaled if and only if the lab stands on the rung directly below it, or the phase degrades, cleans up or ends a lab that may be; observations come before the first rung. |
| `LabRuns.RecoverExact` | cks_simulator/state.py:1646-1695 | An infrastructure rung is recovered if and only if the lab is degraded and is observed as it was recorded. |
| `LabStore.LabStateStore.Claim` | cks_simulator/state.py:1214-1234 | A name is claimed once; otherwise the store is as before. |
| `LabStore.LabStateStore.Mutate` | cks_simulator/state.py:1270-1695 | A mutator replaces exactly its own lab by the specified successor, or changes nothing; under the write guard nothing changes. |
| `LabStore.LabStateStore.WithoutWrites` | cks_simulator/state.py:158-173 | Code under the read-only guard cannot change any stored lab, whatever it calls. |
| `ExamSessions.RunInv` | cks_simulator/exam.py:268-323 | Over any transitions, claimed and prepared tasks are canonical prefixes whose lengths differ by at most one. |
| `ExamSessions.RunLater` | cks_simulator/exam.py:358-493 | Over any transitions, identities, attempts and duration never change, the timer and end reason are set once, each change raises the revision, the status only advances, and a submitted session is final. |
| `ExamSessions.UpdateExact` | cks_simulator/exam.py:406-443 | Progress is accepted if and only if the session is active, the deadline lies ahead and the task exists; then exactly the given flags of this one task are set, and the selection if asked for. |
| `ExamSessions.BeginSubmitExact` | cks_simulator/exam.py:445-465 | An active session ends as expired exactly when asked to or at or past its deadline, with its progress as it was. |
| `ExamSessions.FailExact` | cks_simulator/exam.py:485-493 | A failure is recorded if and only if its text is not blank and the session is not submitted; the text is kept up to its bound and nothing else changes. |
| `ExamSessions.ActivateExact` | cks_simulator/exam.py:387-397 | Activation is accepted exactly while preparing, whatever has been prepared, and sets the deadline to the start plus the duration. |
| `ExamSessions.ActivateUnprepared` | cks_simulator/exam.py:387-397 | A concrete session that becomes active with no task prepared. |
| `ExamSessions.CreateInv` | cks_simulator/exam.py:326-356 | Every created session satisfies the invariant, with nothing claimed. |
| `ExamSessions.CreateExact` | cks_simulator/exam.py:326-356 | A session is created if and only if identifiers, digests and duration are well formed; lab, session, mode, digests, duration and attempts each stand in their own field, with no progress made. |
| `ExamSessions.PreparationExact` | cks_simulator/exam.py:358-385 | Exactly the next task in canonical order can be claimed once the last claim is confirmed, and exactly the claimed task can be confirmed; nothing else changes. |
| `ExamSessions.CompleteSubmitExact` | cks_simulator/exam.py:467-483 | A receipt is stored if and only if the session is submitting, and ends it. |
| `ExamStore.CompareAndSwap` | cks_simulator/exam.py:709-718 | Of two writers that loaded the same revision, the second is refused. |
| `ExamStore.NoLostUpdate` | cks_simulator/exam.py:709-718 | Whatever writers attempt, each accepted session was computed from the revision stored just before it. |
| `ExamStore.ExamSessionStore.SaveSession` | cks_simulator/exam.py:709-718 | The cell is replaced exactly when the compare-and-swap succeeds. |
| `ExamStore.ExamSessionStore.Delete` | cks_simulator/exam.py:720-734 | Only the session with the expected identity is deleted. |
| `ExamEngine.Engine.TaskViewIsPrepared` | cks_simulator/exam_engine.py:110-137 | The synthetic view a task's handler gets is exactly the state that preparing the task serially would store. |
| `ExamEngine.Engine.ValidatedLab` | cks_simulator/exam_engine.py:88-108 | What is returned is the stored lab, validated with a baseline and no attempt; an undisturbed ready lab is always returned, and one already attested is not written. |
| `ExamEngine.Engine.RestoreClaimed` | cks_simulator/exam_engine.py:320-341 | Every claimed task is tried once, last claim first, even when some restores fail; success means that all of them are restored, and no other task is touched. |
| `ExamEngine.Engine.PrepareGuest` | cks_simulator/exam_engine.py:201-214 | A task counts as prepared only if its guest reached its contract and what was then collected of the untouched task grades FAIL with 0. |
| `ExamEngine.Engine.PrepareTask` | cks_simulator/exam_engine.py:187-218 | A task is dirty only after its claim is stored; success extends the prepared prefix by exactly this task, once it was seen failing. |
| `ExamEngine.Engine.PrepareAll` | cks_simulator/exam_engine.py:186-234 | The session stored as active is the created exam, with all seventeen tasks claimed, prepared, in their prepared guest state and each seen failing, on a lab whose health was found unchanged. |
| `ExamEngine.Engine.Compensate` | cks_simulator/exam_engine.py:235-242 | A failed start tries every claimed task once in reverse; the session becomes failed if and only if the error text is not blank or a restore failed, and is otherwise unchanged with every task restored. |
| `ExamEngine.Engine.Start` | cks_simulator/exam_engine.py:167-242 | After success, failure or crash at any step, every task that is not restored is claimed by the stored session, and that session is the exam asked for, field by field; an active one has every task prepared and seen failing and its deadline at the start plus the duration; a failed start ends failed or preparing exactly as the compensation says; an existing session is untouched; an undisturbed start on a ready lab succeeds. |
| `ExamEngine.Engine.RestoreForTeardown` | cks_simulator/exam_engine.py:349-354 | All claimed tasks are tried in reverse even when some fail; a failure marks an open session failed, keeps a failed or submitted one as it was, and is raised. |
| `ExamEngine.Engine.Teardown` | cks_simulator/exam_engine.py:343-358 | The session is deleted only with every task restored and the recorded health found again. In any other case it is kept with its claims: every claimed task was tried once in reverse or none was, and it is marked failed exactly if a restore failed and it was neither failed nor submitted before; the exam of another lab is refused untried. |
| `ExamEngine.Engine.GradeAll` | cks_simulator/exam_engine.py:267-282 | Final grading of a submitting session returns for each task the grade that what was collected of this very task deserves, or nothing; two attestations around it agreed, and sessions, guests and an attested lab are as they were; undisturbed, it returns. |
| `ExamEngine.Engine.FinalReceipt` | cks_simulator/exam_engine.py:284-286 | The receipt is that of the grades just collected under the weights of the manifest; undisturbed, it is always built for a submitting session with the digests of this manifest. |
| `ExamEngine.Engine.AnyRun` | cks_simulator/exam_engine.py:167-358 | Over any runs, crashes and candidate work on claimed tasks: dirty tasks are claimed, no session means none is dirty, and every opened session has all tasks prepared. |
| `ScenarioEngine.CoveredFacts` | cks_simulator/scenarios.py:740-874 | At most one scenario is dirty, the journal then shows an open attempt that names it, and a validated lab has none. |
| `ScenarioEngine.Engine.Prepare` | cks_simulator/scenarios.py:740-810 | The scenario is dirty only once the attempt naming it is durable, and a prepared one was seen failing; the attempt records its definition and each contract of the handler in its place; a failure after the claim leaves a degraded lab that still names it; an unsupported scenario is refused untouched, and an undisturbed supported one is prepared. |
| `ScenarioEngine.Engine.Grade` | cks_simulator/scenarios.py:812-838 | The grade is the one that what was collected of this very scenario deserves, between two attestations that agreed; nothing durable changes except that an error of an admitted grading degrades the lab; an undisturbed grading of the prepared attempt always returns. |
| `ScenarioEngine.Engine.Restore` | cks_simulator/scenarios.py:840-874 | Success validates the lab with every scenario restored and the baseline found again; any failure keeps the attempt; any scenario but the recorded attempt of a prepared or degraded lab is refused untouched, and that attempt is, undisturbed, restored. |
| `ScenarioEngine.Engine.CollectGrade` | cks_simulator/scenarios.py:685-738 | No grader, whatever it tries, changes a stored lab, and nothing is returned from a lab whose health moved. |
| `ScenarioEngine.Engine.Degrade` | cks_simulator/scenarios.py:654-665 | Exactly one degraded entry is journaled unless the lab is degraded already. |
| `ScenarioEngine.Engine.AnyRun` | cks_simulator/scenarios.py:685-874 | Over any operations, other store mutations, crashes and candidate work, a dirty scenario is always named by the durable attempt. |
| `LabDestroy.DeletionOrdered` | cks_simulator/state.py:1796-1800 | Deletion visits a permutation of the machines in ascending destroy rank. |
| `LabDestroy.FullLabOrder` | cks_simulator/state.py:1796-1800 | The full lab is deleted worker2, worker1, control-plane, candidate. |
| `LabDestroy.AuthorityGranted` | cks_simulator/state.py:1697-1751 | Proved guests of exactly the recorded machines always authorize the mutation. |
| `LabDestroy.ProveAll` | cks_simulator/state.py:1770-1792 | Proving deletes nothing; it succeeds only with every discovered handle recorded and proved. |
| `LabDestroy.DeleteAll` | cks_simulator/state.py:1796-1800 | Deletions are issued one per machine in destroy order, each permitted by what was discovered and proved, and a completed one covers exactly the discovered machines. |
| `LabDestroy.DestroyOwned` | cks_simulator/state.py:1753-1800 | Ordinary cleanup deletes only when the discovered handles equal the recorded ones and all are proved, and a completed one has then deleted all of them in destroy order, or found none; undisturbed, an intact or absent lab is gone. |
| `LabDestroy.BreakGlassDestroyOwned` | cks_simulator/state.py:1802-1852 | Break-glass cleanup asks the provider for nothing unless lab, phase and provider are the exact ones; it deletes only discovered recorded machines, all of them proved; a completed one has deleted each discovered machine once, in destroy order. |
| `LabDestroy.Lifecycle.CleanUp` | cks_simulator/lab.py:1722-1759 | Success means that everything discovered was deleted in destroy order, that no deletion failed, and that the last look at the provider found none of the machines. |
| `LabDestroy.Lifecycle.BreakGlassAllowed` | cks_simulator/lab.py:1658-1672 | Break-glass goes on only with a non-empty part of the recorded machines in sight. |
| `LabDestroy.Lifecycle.Proceed` | cks_simulator/lab.py:1714-1765 | The cleanup entry is journaled before anything is deleted, and destroyed only after a completed deletion and an absence seen after it. |
| `LabDestroy.Lifecycle.Destroy` | cks_simulator/lab.py:1677-1765 | Break-glass that does not name this very lab, and ordinary cleanup that names any, are refused with nothing touched. Every deletion is permitted, and success means that all discovered machines were deleted in order and none is left; a tombstone is only looked at again, with nothing deleted and the journal unchanged; without success the journal gains the cleanup entry at most; an undisturbed permitted cleanup succeeds. |
| `LabProvision.TruthAccepted` | cks_simulator/lab.py:640-656 | What separate machines truthfully report is always an acceptable observation set. |
| `LabProvision.NewInventoryLegal` | cks_simulator/lab.py:470-481 | The four machines that provisioning declares, one per role with its own fresh identifier, always make a legal full inventory. |
| `LabProvision.RungAccepted` | cks_simulator/lab.py:658-687 | A verified lab is never refused its next rung, nor a degraded one any infrastructure rung. |
| `LabProvision.Lifecycle.BindFacts` | cks_simulator/lab.py:447-469 | Binding only adds the missing pinned facts and journals nothing; a lab of another profile is refused unchanged, a lab that a clean run can climb is never refused, and a completely declared one is left as it is. |
| `LabProvision.Lifecycle.Declare` | cks_simulator/lab.py:470-487 | Declaring only adds the four machines, and leaves a full inventory; a full one is left as it is. |
| `LabProvision.Lifecycle.ObserveAll` | cks_simulator/lab.py:640-656 | Every observation is made with the pinned inputs; without drift, each reports its own machine and the true address, MAC and product identifier. |
| `LabProvision.Lifecycle.Rung` | cks_simulator/lab.py:658-687 | A verified phase is journaled only after its work, only once, and only directly above the phases below it. |
| `LabProvision.Lifecycle.Climb` | cks_simulator/lab.py:1503-1591 | Success records every rung up to the top; a failure leaves the rungs recorded so far. |
| `LabProvision.Lifecycle.Reconcile` | cks_simulator/lab.py:1464-1600 | Over any drift, failure or crash, the journal grows by a contiguous part of the ladder only; a lab of another bundle or specification is refused before any guest is touched; success records nothing but what was made with the pinned inputs; a clean run of an agreeing lab succeeds. |
| `LabProvision.Lifecycle.MarkDegraded` | cks_simulator/lab.py:1430-1447 | A live lab is degraded by one entry, any other is left alone. |
| `LabProvision.Lifecycle.Provision` | cks_simulator/lab.py:1449-1607 | From every accepted phase a clean run is never refused and appends exactly the missing contiguous phases, and success leaves only the pinned profile, specification and bundle recorded; a failed reconciliation leaves the lab degraded, whatever its specification, and climbable if it was; a cleaned-up lab, one with a scenario, or one of another profile, bundle or specification is refused with no guest touched. |
| `LabProvision.Lifecycle.ClaimClimbs` | cks_simulator/lab.py:442-446 | Every newly claimed lab is one that a clean run climbs. |
| `LabProvision.Lifecycle.SecondRunUnchanged` | cks_simulator/lab.py:1449-1600 | A successful run ends at the top of the ladder or above it, and a second one leaves the journal as it is. |
| `LabProvision.Lifecycle.Retry` | cks_simulator/lab.py:1449-1607 | After a run that failed in any way without drift, a clean one reaches the top all the same. |
| `LabProvision.AttemptStranded` | cks_simulator/state.py:1423-1644 | Every degraded lab with a recorded attempt can be climbed to candidate-ready with the attempt still recorded, where every restore and every canonical attestation is refused. |
| `LabProvision.StrandedFromClaim` | cks_simulator/state.py:1214-1695 | From a claim, for any attempt and any four separate machines, a run of mutator calls that ends in such a stranded attempt. |
| `JoinTokens.SplitTerminated` | cks_simulator/lab.py:850-853 | Splitting terminated lines gives back the lines and one empty piece. |
| `JoinTokens.TerminatedSplit` | cks_simulator/lab.py:850-876 | A text whose last piece is empty is the termination of its other pieces. |
| `JoinTokens.SplitLinesExact` | cks_simulator/lab.py:829-836 | Splitting a text at line breaks loses nothing, leaves no break inside a line, and never takes a CR LF pair apart. |
| `JoinTokens.FirstToken` | cks_simulator/lab.py:829-836 | A token is found if and only if some line names a well-formed one. |
| `JoinTokens.FirstTokenIsFirst` | cks_simulator/lab.py:829-836 | No line before the one with the found token names a well-formed one. |
| `JoinTokens.ParseExact` | cks_simulator/lab.py:838-881 | A record is accepted if and only if it is the rendering of some token and certificate hash for this control plane, and its canonical payload is the record itself. |
| `JoinTokens.ParsedTokenIsRevocable` | cks_simulator/lab.py:829-881 | The token that is revoked after a failed parse is the one that a successful parse uses. |
| `JoinTokens.JoinAll` | cks_simulator/lab.py:895-918 | Workers join with the exact record, in order, until one fails. |
| `JoinTokens.JoinWorkers` | cks_simulator/lab.py:883-950 | Unless the process dies, a named token is revoked exactly once, after the last join; success means a valid record and no failed join or revocation. |
| `LimaProvider.DeletesBounded` | cks_simulator/providers/lima.py:1057-1111 | In every guarded trace, deletions of a handle never outnumber its successful proofs. |
| `LimaProvider.HeldIsProved` | cks_simulator/providers/lima.py:561-609 | A kept fingerprint carries the digest of an identity proved for that very handle. |
| `LimaProvider.DeleteFollowsProof` | cks_simulator/providers/lima.py:1057-1111 | Each deletion directly follows a listing that shows the handle stopped, with the proven fingerprint that no earlier deletion used. |
| `LimaProvider.Provider.ProveOwnership` | cks_simulator/providers/lima.py:561-609 | A fingerprint is kept exactly when the proof succeeds; undisturbed, that is exactly for a machine with the identity's digest that is stopped or carries its marker, or none under break-glass. |
| `LimaProvider.Provider.DeleteExact` | cks_simulator/providers/lima.py:1057-1111 | A proof is used up in any case; without one nothing is done; undisturbed, exactly the proven instance is deleted, and any other is left alone. |
| `LimaProvider.Provider.CreateAbsent` | cks_simulator/providers/lima.py:734-799 | Only an instance seen absent is created; success means that it was seen running with the digest and its marker was read. |
| `LimaProvider.Provider.ReuseRunning` | cks_simulator/providers/lima.py:886-897 | A running instance is reused exactly when digest and marker are those of the identity. |
| `LimaProvider.Provider.RestartStopped` | cks_simulator/providers/lima.py:801-871 | Success means marker and fingerprint verified on the running instance; undisturbed, a failed restart leaves the world as it was. |
| `LimaProvider.Provider.RollbackRestart` | cks_simulator/providers/lima.py:686-732 | Only an instance whose fingerprint equals the started one is stopped. |
| `LimaProvider.Provider.Ensure` | cks_simulator/providers/lima.py:873-900 | On all three paths success implies the running instance with the identity's digest and marker; undisturbed, it succeeds exactly on an absent machine or one of this identity, and changes no other. |
| `LimaProvider.Provider.Remove` | cks_simulator/providers/lima.py:561-609 | Undisturbed, proving and deleting removes exactly an owned machine. |
| `LimaProvider.Provider.AnyRun` | cks_simulator/providers/lima.py:561-1111 | Over any operations and interference every command stays guarded, and deletions never outnumber proofs. |
| `ExamController.Committing` | cks_simulator/exam_server.py:99-163 | Under the lock, a computed transition is always saved: the compare-and-swap never conflicts. |
| `ExamController.PlayInv` | cks_simulator/exam_server.py:81-164 | Every interleaving of requests, crashes and clock ticks keeps the invariant. |
| `ExamController.Linearization` | cks_simulator/exam_server.py:81-164 | The stored session is the serial run of the committed transitions; the submission-start callback runs at most once and never after a grading began; one receipt at most; the end reason is expired exactly when the clock at the commit is at or past the deadline. |
| `ExamController.ProgressIsFold` | cks_simulator/exam_server.py:89-110 | The stored progress is the fold of the committed updates in lock order, with none lost. |
| `ExamController.UpdateStored` | cks_simulator/exam_server.py:99-110 | A progress request under the lock is stored, flag by flag and for this task alone, if and only if the session is active, the deadline lies ahead and the task exists; either way the lock is given back. |
| `ExamController.UpdateServed` | cks_simulator/exam_server.py:89-110 | On a free lock, a progress request in time is served in four steps, from its beginning to its stored flags. |
| `ExamController.SubmitStored` | cks_simulator/exam_server.py:133-148 | Submitting stores an active session as submitting with its end reason and progress, grades a submitting one again, and leaves any other alone. |
| `ExamController.SubmitNotified` | cks_simulator/exam_server.py:142-149 | Between the stored submission and the grading the callback runs once; if it raises, the lock is given back and nothing is graded. |
| `ExamController.GradingStored` | cks_simulator/exam_server.py:149-164 | A grading that returns a receipt stores exactly this receipt and ends the session; any other becomes a failure. |
| `ExamController.SnapshotExpires` | cks_simulator/exam_server.py:81-87 | Looking at an active session submits it as expired if and only if its deadline has passed. |
| `ExamController.Undisturbed` | cks_simulator/exam_server.py:81-164 | Whatever other requests, deaths and the clock do, nothing gets between the steps of the controller that holds the lock. |
| `ExamController.UpdatesInTime` | cks_simulator/exam_server.py:99-110 | Every committed update was made before the deadline. |
| `ExamController.PreparingUntouched` | cks_simulator/exam_server.py:81-148 | No request changes a session that is still being prepared, which the engine saves without the session lock. |
| `ExamController.FailureRecorded` | cks_simulator/exam_server.py:159-164 | A failed final grading is recorded exactly when its error text is not blank; otherwise the session stays submitting. |
| `LockOrder.ProgramBalanced` | cks_simulator/exam_server.py:81-164 | Every operation takes its locks in rising rank and gives all of them back. |
| `LockOrder.WithLabBalanced` | cks_simulator/state.py:1022-1118 | A mutator lock takes the root lock before its own file lock, and releases both. |
| `LockOrder.CallsBalanced` | cks_simulator/providers/lima.py:428-434 | Provider calls nest the provider's two locks inside everything held. |
| `LockOrder.PlayInv` | cks_simulator/state.py:1022-1175 | With any number of threads, exceptions and kills, each lock has one holder. |
| `LockOrder.TakesInOrder` | cks_simulator/exam_engine.py:293-294 | Locks are taken only above everything held, and a file lock never while it is held. |
| `LockOrder.NoDeadlock` | cks_simulator/exam_engine.py:343-345 | In every reachable state, if some thread is unfinished then some thread can step. |
| `LockOrder.ReTakenExact` | cks_simulator/exam_server.py:81-164 | Of all operations, whatever they grade, only an expired snapshot re-takes a lock that it holds, and that lock is its controller's own. |
| `LockOrder.SnapshotReenters` | cks_simulator/exam_server.py:81-87 | The concrete re-entrance: an expired snapshot, with any gradings, takes its controller's lock while holding it. |
| `ArchiveCheck.PartsOfJoin` | infra/provision/verify_u5_artifacts.py:186-190 | Canonical paths are unambiguous: joining components and taking them apart gives them back. |
| `ArchiveCheck.JoinOfPieces` | infra/provision/verify_u5_artifacts.py:186-190 | Taking any name apart at its slashes loses nothing. |
| `ArchiveCheck.SoundStaysBelow` | infra/provision/verify_u5_artifacts.py:186-190 | No sound name is absolute or leads to or above the extraction directory at any of its pieces. |
| `ArchiveCheck.CheckSizes` | infra/provision/verify_u5_artifacts.py:250-262 | The counting loop accepts exactly the non-empty streams within the member and payload limits. |
| `ArchiveCheck.CheckPrefixes` | infra/provision/verify_u5_artifacts.py:283-289 | The dictionary check accepts exactly when no two distinct prefixes seen so far have the same folded form. |
| `ArchiveCheck.CheckPaths` | infra/provision/verify_u5_artifacts.py:263-290 | The second loop accepts exactly sound, pairwise distinct, alias-free paths. |
| `ArchiveCheck.CheckAncestors` | infra/provision/verify_u5_artifacts.py:291-296 | The third loop accepts exactly when no regular file is above any member. |
| `ArchiveCheck.ValidateArchive` | infra/provision/verify_u5_artifacts.py:249-296 | The one-pass check accepts if and only if the all-pairs definition holds; following the pieces of an accepted name from the extraction directory never goes above it and ends at the place that the name spells. |
| `ArchiveCheck.ExtractInAnyOrder` | infra/provision/verify_u5_artifacts.py:263-296 | Extracting an accepted archive in any order into a case-folding tree never goes through a file or replaces an entry, and every member ends up under its own name and kind. |
| `TarStream.ArchiveFits` | infra/provision/verify_u5_artifacts.py:25-45 | Every archive within the limits, with bounded extensions and padding, fits the stream bound. |
| `TarStream.BoundIsTight` | infra/provision/verify_u5_artifacts.py:33-45 | The structural allowance is exactly used by a full archive of one-byte members. |
| `TarStream.BoundedTarStream.Read` | infra/provision/verify_u5_artifacts.py:203-211 | A read is accepted if and only if it is bounded by phase and position; a refused one reads nothing. |
| `TarStream.BoundedTarStream.Seek` | infra/provision/verify_u5_artifacts.py:213-225 | From the start or the current position, a seek succeeds if and only if its target lies within the bound and the stream; a target past the end is refused with the position at the end, any other refusal leaves it alone. |
| `TarStream.BoundedTarStream.AnyRun` | infra/provision/verify_u5_artifacts.py:193-234 | Over any reads and seeks the position never exceeds the bound. |
| `TarStream.BoundedTarStream.Scan` | infra/provision/verify_u5_artifacts.py:28-45 | Reading the headers of any archive within the limits, block by block, is never refused. |
| `Rounding.RoundingFacts` | cks_simulator/live_grading.py:247-247 | Rounding keeps order, moves a number by half a hundredth at most, and is stable. |
| `Rounding.RoundingExact` | cks_simulator/live_grading.py:247-247 | Rounding yields the nearest hundredth, the even one of two nearest, and nothing else is that. |
| `Rounding.RoundReaches` | cks_simulator/exam.py:813-821 | A rounded number reaches an integer bound exactly from half a hundredth below it. |
| `LiveGrading.AscendingUnique` | cks_simulator/live_grading.py:212-212 | The sorted order of identifiers is determined by their set. |
| `LiveGrading.LessExact` | cks_simulator/live_grading.py:212-212 | Identifiers are ordered by code points where they first differ, a proper prefix first. |
| `LiveGrading.IndexExpected` | cks_simulator/live_grading.py:189-196 | Criteria are indexed exactly when none is declared twice. |
| `LiveGrading.IndexEvidence` | cks_simulator/live_grading.py:198-208 | Evidence is indexed exactly when no piece is repeated, undeclared or at odds with its criterion. |
| `LiveGrading.EvaluateLiveGrade` | cks_simulator/live_grading.py:169-271 | The loops over two dictionaries compute the order-free grade, and refuse exactly inadmissible inputs; what is possible is the sum of the declared weights, what is earned the sum of the weights that are met, and the score the percentage to the nearest hundredth. |
| `LiveGrading.GradeWeighed` | cks_simulator/live_grading.py:245-247 | The possible weight is the sum over the declared criteria, the earned weight that over the met ones or nothing under a signal, and the score their percentage to the nearest hundredth. |
| `LiveGrading.GradeListed` | cks_simulator/live_grading.py:210-243 | One line per declared criterion in the order of the identifiers, passed exactly if met on a trusted lab, with the source and detail of its own evidence. |
| `LiveGrading.SumSort` | cks_simulator/live_grading.py:212-246 | Sorting the identifiers keeps every sum over them. |
| `LiveGrading.StatusExact` | cks_simulator/live_grading.py:244-258 | A task passes if and only if every criterion has passing operator or cross-source evidence and no signal is set, and fails if and only if none has and no signal is set; with a signal nothing is earned. |
| `LiveGrading.EvaluatePermuted` | cks_simulator/live_grading.py:169-271 | The grade does not depend on the order of criteria or evidence. |
| `LiveGrading.GuestVerdictsIgnored` | cks_simulator/live_grading.py:228-241 | What guest-only evidence claims changes nothing in the grade. |
| `LiveGrading.GradeMonotone` | cks_simulator/live_grading.py:228-258 | Meeting more criteria never lowers what is earned, the score or the status. |
| `LiveGrading.ScoreExact` | cks_simulator/live_grading.py:245-247 | The score lies from 0 to 100 and reads 100 exactly from 99.995 percent on. |
| `LiveGrading.FullScoreWithoutPass` | cks_simulator/live_grading.py:245-258 | A concrete task that scores 100.0 and is only partial. |
| `ExamAggregate.TaskWeightsValid` | cks_simulator/exam.py:34-34 | The frozen weights are a valid manifest's. |
| `ExamAggregate.Aggregate` | cks_simulator/exam.py:764-841 | A receipt is built exactly for a submitting session, its own manifest and one grade per task; its score is the total to the nearest hundredth, and it passes if and only if no task is tampered or broken and the unrounded total is at least 66.995. |
| `ExamAggregate.AggregateStarted` | cks_simulator/exam.py:764-841 | Whatever happens to an exam started under a manifest until it is submitting, one grade per task always makes its receipt under that manifest. |
| `ExamAggregate.TotalExact` | cks_simulator/exam.py:776-786 | Each task adds its weight times its score in hundredths to the total, starting from nothing. |
| `ExamAggregate.AggregateExact` | cks_simulator/exam.py:780-813 | The unrounded total lies from 0 to 100 and is 100 exactly when every task scores 100. |
| `ExamAggregate.FullMarksExact` | cks_simulator/exam.py:776-786 | Over exact percentages, the total is 100 exactly when every task earned all it declared. |
| `ExamAggregate.AggregateMonotone` | cks_simulator/exam.py:776-821 | Of two receipts, the one for better scores on a lab no less intact has no lower score or status, and keeps the pass. |
| `SpikeClaim.Host.StartAll` | infra/spike/host.py:497-518 | Each machine is named by the stored claim before it is started, and success has started exactly the claimed ones. |
| `SpikeClaim.Host.ProvisionVms` | infra/spike/host.py:489-526 | Whatever fails or dies, every machine that may exist is in the stored created-or-pending set; an existing claim is untouched. |
| `SpikeClaim.Host.DestroyInstances` | infra/spike/host.py:1081-1095 | Cleanup visits the claimed machines once each, in reverse. |
| `SpikeClaim.Host.DestroyLab` | infra/spike/host.py:1098-1117 | The claim keeps its machines and becomes destroyed only when the inventory shows none of them; after success or failure it is written once more (infra/spike/host.py:627-643), and a failed secret cleanup or write fails an otherwise successful run. |
| `SpikeClaim.Host.AnyRun` | infra/spike/host.py:489-1117 | Over any runs of both operations, no machine escapes the claim. |

## Left out

- Files, descriptors, permissions, symbolic links and fsync: a store is a map of atomic cells, and a write
  either happens or the process ended before it. The claim file of the spike is the exception: its
  write may fail with either content in place.
- Timestamps and details of journal entries, and re-redaction on load: an entry is its sequence number
  and phase. Exam clocks are integers of microseconds.
- The grammars of observed addresses, MACs and product identifiers: observations compare as text.
- Identifier generation: fresh UUIDs are parameters of the call that draws them.
- SHA-256: lab and session digests are opaque canonical text, and the provider's identity digest is an
  injective constructor. `scenario_state_fingerprint` and `preparation_claim_fingerprint` are then equal
  exactly for equal payloads, which would say nothing further.
- Handlers, probes and scripts in guests: nondeterministic success, failure, partial effect or death. A
  handler that returns the expected fingerprint is taken to have reached that state. A grader collects any
  criteria and evidence, and what is collected and attested is logged.
- An interrupt between a save and the assignment after it: after the save of the active session
  (cks_simulator/exam_engine.py:222-242) it compensates with the old revision, so its own save conflicts
  and the stored session stays active over restored tasks. The model raises only before a write.
- One engine at a time acts on a lab: the exam engine and the serial scenario engine do not exclude each
  other, and their combination is not modelled.
- The reference path of the release gate, `select_recovery_mode` and the handler registries: single
  branches without state of their own.
- Parsing of the provider's inventory: a listing is one observation of the world at that moment, or unknown.
- The entries for single tasks inside the receipt, which copy the grades, and the receipt's own digest.
- Binary floating point: weights, scores and totals are exact numbers, and rounding to two decimals is a
  separate function with ties to even.
- Surrogate escapes in archive names, and the layout of sparse members.
- Subprocess running, redaction, tunnels, the HTTP handler, the browser code, progress display and command
  line: input and output only. The progress callback is taken never to raise.
- The Quick tier's in-process grader, the prerequisite installer, the manifest renderers and the grading of
  submitted artifact texts: comparisons of texts and process output without durable state.
- The end-to-end release gate: it composes the modelled parts and saves sessions without the exam lock.
- State files written before the provisioning profile was recorded: every lab run starts from a claim.
- The answers of interim checks and snapshots: they change no session, so the concurrent model keeps only
  their locking. A teardown that deletes the session while requests wait for it is not modelled.
- `execute_verified` and the file installation of the provider: they read the same evidence as reuse does
  and change no instance; only their locks are modelled.
- ExamController.Linearization: a callback that raises leaves the session submitting and is not repeated,
  so a grading may start without the callback having returned; the statement orders the two only when
  both happen.
- LimaProvider.DeleteFollowsProof: an instance replaced between the last listing and the delete command is
  beyond any check by name, so the statement is about what was observed.
