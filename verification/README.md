# Verified model of the installer's transaction protocols

The repository installs, upgrades, repairs, reinstalls, uninstalls and
promotes one product. Each of those is a crash-safe protocol over durable
files. This project models the protocols in Dafny and proves what they keep
over every run: any order of commands, any adapter answers, any failing call,
and a crash at any durable step.

## How the model is built

| module | what it models |
|---|---|
| `LifecycleRecords`, `LifecycleState` | the active record, the generation watermark, the append-only journals and the locked store that writes them (`scripts/lifecycle_state.py`) |
| `LifecycleProtocol` | the durable invariant that all drivers over one journal directory keep |
| `Activation`, `LifecycleMachine` | the activation machine: attempt, commit, roll back, recover (`scripts/lifecycle_machine.py`) |
| `ReleaseLifecycle` | the bootstrap's own run, which a waiting reinstall may authorize (`scripts/release_lifecycle.py`) |
| `UninstallDriver` | the phase-by-phase uninstaller (`scripts/uninstall_driver.py`) |
| `Files`, `ReinstallDriver` | the reinstall driver with its data move, restore and cleanup (`scripts/release_commands.py`) |
| `Installation` | all drivers over one directory, in any order, any number of times |
| `OwnedRemoval` | exact removal of one owned release tree (`scripts/uninstall_driver.py`) |
| `Infrastructure` | replacing the stable files under a backup (`scripts/release_lifecycle.py`) |
| `Assurance` | the assurance planner (`src/dev_flow_orchestrator/assurance.py`) |
| `Ustar`, `ArtifactVerifier` | the physical archive scan, the release manifest, the extracted tree (`scripts/release_artifact.py`) |
| `Promotion` | the draft-first release promotion (`scripts/promote_release.py`) |

**Crashes.** Every durable write is one step. A fault script, universally
quantified, decides for each step whether it works, raises, or kills the
process, before or after taking effect. A dead process changes nothing more,
so whatever a contract says of every return holds at every crash point. The
compare-and-set on the active record is two steps (record, watermark); the
compare-and-delete is two steps in the other order.

**Adapters.** Codex, uv, git, GitHub, the verifier child and smoke tests are
oracles: a script holds an arbitrary answer for every call. One assumption is
made of them, `Script.Tame`: only the marketplace and plugin provisioning
steps report applied effects. Without it the machine could ask for the phase
change created to restoring, which is outside the phase graph.

**Digests** are injective: a digest is represented by what it is a digest of.

**The lock** makes each driver section atomic towards the other drivers; a
crash ends it. A reinstall releases it around its bootstrap, and the model
lets any other processes run there.

**Contracts.** Each driver method promises the invariant on every return, and,
under `!stumbled` (no store or file call raised) or `Calm`, exactly which
outcome the answers lead to. The decision is stated twice: once as the
function the method follows (`RunOutcome`, `Removable`, `Claim.Agrees`, …),
once as a table over the raw answers, files and bytes (`Deserved`,
`RecoveryDeserved`, `Unowned`, `Belongs`, `Named`, `Earned`, `Conforms`,
`Acceptable`, `OwesWhatIsDue`), with a lemma that connects the two. Ghost
fields record what was known when a terminal outcome was written: `Verdict`,
`Ending` with its `HostRemoval`, `Closing` with its `Warrant`, and for
promotions each `Visit`; `sealed` notes closed journals, which never change
again.

## What was found

- `RolledBack` restores the data root exactly whenever it existed when the
  reinstall began (`ReinstallDriver.RolledBackIsExact`). If it was absent and
  a crash fell after the driver had created its marker-only root, the retry
  moves that root into the backup and a later rollback puts it back, so the
  data root exists where there was none
  (`ReinstallDriver.ARebuiltRootOutlivesItsRollback`,
  `ReinstallDriver.ReinstallDriver.RebuildAndRollBack`).
- A restoration interrupted while the fresh marker is in quarantine, then
  retried, leaves marker and quarantine side by side; every later restoration
  then raises and the reinstall stays open, unless a later bootstrap commits
  (`ReinstallDriver.ReinstallDriver.RemovedRestores`,
  `ReinstallDriver.AMarkerInTwoPlaces`,
  `ReinstallDriver.ReinstallDriver.LeaveTwoMarkers`,
  `ReinstallDriver.ReinstallDriver.Retry`). The handler that should
  have reported this raises itself (`scripts/release_commands.py:1486` passes
  one observation where a tuple is meant); the model follows the code.
- An empty backup directory, left by a crash before the inventory is written
  or before the directory is removed, is never cleared by a retry
  (`ReinstallDriver.AnEmptyBackup`,
  `ReinstallDriver.ReinstallDriver.DieAfterMkdir`,
  `ReinstallDriver.ReinstallDriver.Retry`).
- A host preflight that raises, or is inexact without naming a path, does not
  stop an uninstall (`UninstallDriver.PreflightStopsExactly`).
- An uninstall interrupted between the watermark and the record of its
  deletion always ends partial (`UninstallDriver.DurableUninstaller.RemoveActive`).
- A release removal interrupted between quarantining and unlinking the
  ownership manifest is retained for good, and that is the only such point
  (`OwnedRemoval.OwnedRelease.Restart`,
  `OwnedRemoval.OwnedRelease.DieAtTheManifest`, `OwnedRemoval.AStuckRelease`).
- The planner can refuse its own first plan, exactly when the affected edges
  of some evidence contract join fewer repositories than all of its edges do
  (`Assurance.FreshCoverageIsExact`, `Assurance.FirstPlanMayBeRefused`).
- The expanded-stream bound fits every archive with a directory header, but
  not every archive within the limits (`Ustar.TightBound`,
  `Ustar.ThreeFilesDoNotFit`).
- Infrastructure rollback does not put back a file whose old mode had bits
  above 0o777: such a file keeps its new bytes and mode
  (`Infrastructure.InfrastructureManager.CrashAndRollBack`,
  `Infrastructure.AStickyFileIsNotPutBack`). After a crash halfway through the
  writes it reports files that are in fact as they were
  (`Infrastructure.AnUntouchedFileIsReported`).
- A promotion can accept published assets that never matched. A journal that
  is already remotely verified records the ids of whatever complete draft it
  meets next, keeps its phase when their download does not match, and accepts
  them once they are published (`Promotion.ReplacedAssetsAreAccepted`;
  exactly when: `Promotion.BackedExactly`, `Promotion.TheLastDraftDecides`,
  `Promotion.AcceptedAssetsWereChecked`).

## Model

| member | source | states |
|---|---|---|
| LifecycleRecords.AppendUniqueIsAnAppendOnlyUnion | scripts/lifecycle_state.py:719-733 | appending retained paths keeps the durable prefix, adds no duplicate, loses none and invents none |
| LifecycleRecords.HistoryEvolves | scripts/lifecycle_state.py:935-1071 | any two durable states of any run, crashes included, are ordered: watermark, generation with absence after presence, and every journal |
| LifecycleRecords.NoAba | scripts/lifecycle_state.py:977-1071 | an expectation captured once matches later only if the observation never changed in between |
| LifecycleRecords.AnExpectationIsExact | scripts/lifecycle_state.py:977-1020 | an expectation matches an observation exactly if record and generation are those captured |
| LifecycleRecords.GenerationNeverFalls | scripts/lifecycle_state.py:935-971 | neither the observed generation nor the watermark ever decreases |
| LifecycleRecords.JournalHistory | scripts/lifecycle_state.py:1106-1204 | two versions of one journal: same identity, evidence sequences are prefixes, phases only move forward, a terminal version is final |
| LifecycleRecords.StepsOfTheGraph | scripts/lifecycle_state.py:76-126 | the phase graph without listing it: stay, end, turn to recovery or restoration where allowed, or the next phase of the own course |
| LifecycleState.LifecycleState.WriteWatermark | scripts/lifecycle_state.py:950-960 | the watermark is never lowered |
| LifecycleState.LifecycleState.CompareAndSetActive | scripts/lifecycle_state.py:984-1020 | only a matching expectation is replaced, by a strictly newer record; the crash states are none, record only, record and watermark |
| LifecycleState.LifecycleState.RestoreActive | scripts/lifecycle_state.py:1022-1049 | the previous identity returns at a new generation |
| LifecycleState.LifecycleState.CompareAndDeleteActive | scripts/lifecycle_state.py:1051-1071 | deletion strictly raises the generation; the crash states are none, watermark only, watermark and absence |
| LifecycleState.LifecycleState.CreateTransaction | scripts/lifecycle_state.py:1073-1087 | succeeds exactly for a well-formed journal of a new id below the journal cap |
| LifecycleState.LifecycleState.WriteTransaction | scripts/lifecycle_state.py:1106-1153 | replaces exactly the observed version by a legal well-formed successor, or leaves no trace; a legal phase request never counts as illegal |
| LifecycleState.LifecycleState.AdvanceTransaction | scripts/lifecycle_state.py:1155-1179 | the write is the appended evidence and the phase, nothing else |
| LifecycleState.LifecycleState.FinishTransaction | scripts/lifecycle_state.py:1181-1204 | the terminal write with its outcome |
| LifecycleState.LifecycleState.NonTerminalTransactions | scripts/lifecycle_state.py:1206-1228 | enumerates exactly the open journals, each once |
| LifecycleState.LifecycleState.RequireNoNonTerminal | scripts/lifecycle_state.py:1230-1245 | passes exactly when nothing but the excepted journal is open |
| LifecycleProtocol.PendingShapes | scripts/lifecycle_machine.py:187-219 | open journals are none, one activation, one uninstall, one reinstall, or a data-removing reinstall with one activation; never three |
| LifecycleProtocol.RecoveryIsComplete | scripts/lifecycle_machine.py:794-925 | under any open activation the active record is exactly one of its target and its previous authority |
| LifecycleProtocol.OnlyAReinstallWaits | scripts/release_lifecycle.py:1948-1990 | beside an open activation only the waiting reinstall may be open |
| LifecycleProtocol.AnUninstallIsAlone | scripts/uninstall_driver.py:1441-1487 | an open uninstall is the only open journal |
| LifecycleProtocol.WriteKeepsInv | scripts/lifecycle_state.py:1106-1126 | rewriting one open journal within its stage keeps the durable invariant |
| LifecycleProtocol.CreateKeepsInv | scripts/lifecycle_state.py:1073-1087 | opening a journal at the present observation keeps it |
| LifecycleProtocol.ActiveKeepsInv | scripts/lifecycle_machine.py:715-766 | moving the active record within one activation keeps it |
| LifecycleProtocol.RemovalKeepsInv | scripts/uninstall_driver.py:2030-2052 | removing it within one uninstall keeps it |
| Activation.ConcludeKeepsGood | scripts/lifecycle_machine.py:662-792 | a terminal write whose verdict is sound keeps every verdict sound |
| Activation.JudgedIgnoresOthers | scripts/lifecycle_machine.py:181-186 | other drivers' writes leave the verdicts alone |
| Activation.AdvancedFits | scripts/lifecycle_state.py:1140-1179 | evidence that fits the caps makes a journal version that the store accepts |
| Activation.NewOwnedAddsNoDuplicate | scripts/lifecycle_machine.py:300-311 | owned paths are appended without duplicates |
| Activation.NothingElseIsOpen | scripts/lifecycle_machine.py:220-235 | once the one open activation is closed, nothing stands in the way of the run |
| Activation.AttemptsDeserve | scripts/lifecycle_machine.py:274-413 | answer by answer: all answers exact commits; a failure before any host effect is rolled back exactly if it is certain and cleanup and proof are exact, one after a host effect exactly if restoration and proof are; else partial |
| Activation.RunsDeserve | scripts/lifecycle_machine.py:237-413 | the same for a whole run; it commits exactly if it reuses the proven release or its attempt installs |
| Activation.CommittedIsAsked | scripts/lifecycle_machine.py:356-394 | a record that a run selects is the requested release, of this transaction, at the next generation |
| Activation.RecoveriesDeserve | scripts/lifecycle_machine.py:818-881 | a selected target stands exactly if it is read back and proven; undone or never selected, the previous authority must be restored, where the host was touched, and proven |
| LifecycleMachine.LifecycleMachine.Advance | scripts/lifecycle_machine.py:611-640 | every non-terminal write stays in the phase graph and keeps the invariant |
| LifecycleMachine.LifecycleMachine.Conclude | scripts/lifecycle_machine.py:662-687 | a terminal outcome is written only when it is justified by what is known at that moment |
| LifecycleMachine.LifecycleMachine.Prove | scripts/lifecycle_machine.py:928-957 | a journaled public proof is exact only for the record proven, at the authority then in place |
| LifecycleMachine.LifecycleMachine.FinishPartial | scripts/lifecycle_machine.py:768-792 | partial needs no justification and moves nothing |
| LifecycleMachine.LifecycleMachine.FinishWithoutHostEffect | scripts/lifecycle_machine.py:662-687 | rolled back exactly when the failure was certain and cleanup and proof were exact |
| LifecycleMachine.LifecycleMachine.RollbackBeforeActive | scripts/lifecycle_machine.py:689-713 | rolled back exactly when restoration and proof of the previous authority were exact |
| LifecycleMachine.LifecycleMachine.Compensate | scripts/lifecycle_machine.py:729-740 | the compensating write succeeds only with the previous authority back in place |
| LifecycleMachine.LifecycleMachine.RollbackAfterActive | scripts/lifecycle_machine.py:715-766 | the same after a commit; the unexpected-authority exit is unreachable |
| LifecycleMachine.LifecycleMachine.ProveCompensated | scripts/lifecycle_machine.py:742-766 | once the previous authority is back: rolled back exactly when restoration and proof were exact |
| LifecycleMachine.LifecycleMachine.RecoverOne | scripts/lifecycle_machine.py:818-881 | recovery of any open activation is committed, rolled back or partial exactly as target, effects and answers decide: undisturbed, a target that is read back and proven is committed and left in place; the matches-neither exit is unreachable |
| LifecycleMachine.LifecycleMachine.RecoverTarget | scripts/lifecycle_machine.py:831-849 | an interrupted target is committed in place exactly on read-back and proof, else rolled back |
| LifecycleMachine.LifecycleMachine.ConfirmTarget | scripts/lifecycle_machine.py:831-838 | the interrupted target is confirmed exactly if it is read back and proven, and confirming it moves nothing |
| LifecycleMachine.LifecycleMachine.RecoverPrevious | scripts/lifecycle_machine.py:851-876 | the previous authority is proven, after restoring the host if any effect was journaled as applied |
| LifecycleMachine.LifecycleMachine.Precondition | scripts/lifecycle_machine.py:415-446 | refuses exactly the operations that do not fit the presence of an authority |
| LifecycleMachine.LifecycleMachine.RepairDecision | scripts/lifecycle_machine.py:448-524 | what an attestation decides: refuse, roll back, reuse the unchanged record, or go on |
| LifecycleMachine.LifecycleMachine.Reuse | scripts/lifecycle_machine.py:509-524 | reuse commits exactly on read-back and proof of the unchanged record |
| LifecycleMachine.LifecycleMachine.RefuseChangedBytes | scripts/lifecycle_machine.py:477-494 | same version, other bytes: rolled back or partial, never replaced |
| LifecycleMachine.LifecycleMachine.ClassifyMigration | scripts/lifecycle_machine.py:526-574 | only an exact predecessor is migrated |
| LifecycleMachine.LifecycleMachine.Stage | scripts/lifecycle_machine.py:275-310 | a candidate is staged with no effect applied |
| LifecycleMachine.LifecycleMachine.Provision | scripts/lifecycle_machine.py:312-354 | host effects start only here, and are known to have started |
| LifecycleMachine.LifecycleMachine.Activate | scripts/lifecycle_machine.py:356-364 | the candidate becomes active only over the observed authority |
| LifecycleMachine.LifecycleMachine.Commit | scripts/lifecycle_machine.py:356-394 | committed only with exact read-back and proof of the selected record |
| LifecycleMachine.LifecycleMachine.Seal | scripts/lifecycle_machine.py:376-394 | from an exact proof on, only a failing write can keep the commit back, and it stays compensable |
| LifecycleMachine.LifecycleMachine.Handle | scripts/lifecycle_machine.py:395-413 | every failure is compensated from where it happened; untouched authorities skip the host restore |
| LifecycleMachine.LifecycleMachine.Attempt | scripts/lifecycle_machine.py:274-413 | the outcome is that of the first hurdle met |
| LifecycleMachine.LifecycleMachine.AttemptHost | scripts/lifecycle_machine.py:312-413 | from a staged candidate on, the outcome is that of the first host hurdle |
| LifecycleMachine.LifecycleMachine.RunLocked | scripts/lifecycle_machine.py:237-413 | a run that no store call disturbs closes its journal, which records the request and the previous authority, as its answers deserve, with the requested release active at the next generation if it commits a new one and with the authority of before otherwise; where no fault strikes and no answer exceeds its share of the caps, no store call raises |
| LifecycleMachine.LifecycleMachine.Decide | scripts/lifecycle_machine.py:262-413 | the same from the opened journal on |
| LifecycleMachine.LifecycleMachine.Run | scripts/lifecycle_machine.py:175-235 | another driver's journal is preserved; the many-journals branch is unreachable; an open activation is recovered as its answers deserve and, unless that ends partial, the request runs over the authority it leaves; otherwise as RunLocked; no store call raises where no fault strikes and the evidence fits |
| LifecycleMachine.LifecycleMachine.RecoverThenRun | scripts/lifecycle_machine.py:220-235 | recovery and run composed: the recovered journal and the outcome are those the answers deserve, and a proven target is where the run starts |
| LifecycleMachine.LifecycleMachine.Sole | scripts/lifecycle_machine.py:187-219 | at most one activation is open, or another driver stops the run |
| ReleaseLifecycle.ChosenOperationFits | scripts/release_lifecycle.py:1922-1931 | the chosen operation always fits the presence of an authority |
| ReleaseLifecycle.ChosenIsCalledFor | scripts/release_lifecycle.py:1922-1931 | which operation each observation of the machine calls for |
| ReleaseLifecycle.ReleasesAreNamedApart | scripts/release_lifecycle.py:1934-1945 | the request describes the index, and different transactions never share a release identity or path |
| ReleaseLifecycle.GateIsExact | scripts/release_lifecycle.py:1953-1992 | a bootstrap runs exactly when nothing of another driver's is open except the waiting reinstall that authorized it |
| ReleaseLifecycle.Admit | scripts/release_lifecycle.py:1948-1992 | the journals to recover are exactly the open ones that did not authorize the run |
| ReleaseLifecycle.RunLockedAuto | scripts/release_lifecycle.py:1948-2041 | a blocked bootstrap writes nothing; an unblocked one recovers the one activation that may be open and, unless that ends partial, journals and runs the operation that what it leaves calls for |
| ReleaseLifecycle.RecoverThenRun | scripts/release_lifecycle.py:2015-2041 | the outcome of recovery followed by the chosen operation; a partial recovery ends the bootstrap and opens no journal; the authorizing reinstall is untouched by both |
| ReleaseLifecycle.RunChosen | scripts/release_lifecycle.py:2027-2041 | the journal opened is of the operation called for, and closes with its outcome |
| UninstallDriver.PreflightStopsExactly | scripts/uninstall_driver.py:1574-1600 | when a new uninstall stops before its first effect |
| UninstallDriver.RetainedBeforeTheFirstEffect | scripts/uninstall_driver.py:1574-1601 | the paths it retains then: the releases root, the unproven releases or what the preflight keeps |
| UninstallDriver.OwnedPathsAreNamed | scripts/uninstall_driver.py:1602-1619 | a new uninstall owns the inventoried releases, both dispatchers and the support files, and nothing else |
| UninstallDriver.AchievableIsExact | scripts/uninstall_driver.py:1539-1860 | a new uninstall commits exactly if the inventory is provable and covers every present release, and all answers are exact |
| UninstallDriver.WhatIsLeft | scripts/uninstall_driver.py:1700-1860 | what is still to be answered exactly in each phase |
| UninstallDriver.WriteKeepsAccount | scripts/uninstall_driver.py:1904-1945 | each journal write carries what its phase certifies; a terminal one what its outcome certifies |
| UninstallDriver.RemovalKeepsAccount | scripts/uninstall_driver.py:1733-1747 | noting the host removal of an uninstall that is still at the host leaves every certificate true |
| UninstallDriver.AccountIgnoresOthers | scripts/uninstall_driver.py:1468-1487 | other drivers' runs leave the uninstall journals' certificates true |
| UninstallDriver.DurableUninstaller.Advance | scripts/uninstall_driver.py:1904-1913 | a phase is entered only with the authority and the certificate it needs |
| UninstallDriver.DurableUninstaller.Finish | scripts/uninstall_driver.py:1849-1860 | committed needs the exact plugin and marketplace answers the journal carries, no release, the active record gone at exactly the next generation, no CLI or MCP dispatcher, no lifecycle directory |
| UninstallDriver.DurableUninstaller.RemoveHost | scripts/uninstall_driver.py:1718-1748 | goes on exactly when plugin and marketplace removal were exact |
| UninstallDriver.DurableUninstaller.HostRemoved | scripts/uninstall_driver.py:1733-1747 | the release phase is entered only with two exact answers, both of this process and both in the journal |
| UninstallDriver.DurableUninstaller.SweepRelease | scripts/uninstall_driver.py:1999-2028 | evidence is exact only if the path is seen to be gone |
| UninstallDriver.DurableUninstaller.SweepAll | scripts/uninstall_driver.py:1793-1805 | goes on exactly when every claimed release is gone, and removes no other |
| UninstallDriver.DurableUninstaller.RemoveActive | scripts/uninstall_driver.py:2030-2085 | exact exactly if the record is as expected or gone at the one generation its deletion leads to; everything else is retained, a half-done deletion in particular |
| UninstallDriver.DurableUninstaller.DropActive | scripts/uninstall_driver.py:1807-1815 | the next phase exactly when the active record could be removed |
| UninstallDriver.DurableUninstaller.RemoveReleases | scripts/uninstall_driver.py:1750-1817 | active removal only after every release, declared or not, is gone |
| UninstallDriver.DurableUninstaller.RemoveNamed | scripts/uninstall_driver.py:2228-2303 | nothing is erased while any named file is altered; exact means all are gone |
| UninstallDriver.DurableUninstaller.RemoveDispatchers | scripts/uninstall_driver.py:1820-1835 | the last phase is entered exactly when both dispatchers could be erased |
| UninstallDriver.DurableUninstaller.Complete | scripts/uninstall_driver.py:1838-1860 | committed exactly when the lifecycle directory could be emptied |
| UninstallDriver.DurableUninstaller.Resume | scripts/uninstall_driver.py:1700-1860 | from any phase, committed exactly when everything still to do can be done exactly |
| UninstallDriver.DurableUninstaller.CreateTransaction | scripts/uninstall_driver.py:1574-1641 | the new journal owns every inventoried release, both dispatchers and the support files, and nothing else |
| UninstallDriver.DurableUninstaller.Carry | scripts/uninstall_driver.py:1539-1572 | retained evidence ends the run before any effect; otherwise it resumes |
| UninstallDriver.DurableUninstaller.First | scripts/uninstall_driver.py:1441-1487 | the open uninstall is alone; where another driver is open no uninstall is |
| UninstallDriver.DurableUninstaller.Run | scripts/uninstall_driver.py:1440-1572 | foreign journals and files are preserved; a new or interrupted uninstall ends as its answers decide |
| Files.VerifyPayload | scripts/release_commands.py:769-819 | the worklist accepts a payload exactly when it equals the recorded inventory: paths, kinds, modes, contents |
| Files.WalkIsComplete | scripts/release_commands.py:769-819 | a walk with nothing left to visit has seen every entry |
| ReinstallDriver.RolledBackIsExact | scripts/release_commands.py:1337-1512 | after rolled back the data root is the original exactly if there was one or nothing was ever bound |
| ReinstallDriver.ARebuiltRootOutlivesItsRollback | scripts/release_commands.py:1211-1231 | concrete file states in which that fails |
| ReinstallDriver.EveryPrefixOfAMove | scripts/release_commands.py:1236-1297 | what a retry makes of each state in which a move may have been cut off: before the rename it is completed exactly if the tree is owned, after it always, and never after the directory alone |
| ReinstallDriver.AlteredMovesAreRefused | scripts/release_commands.py:1080-1133 | no retry completes a move whose tree, payload or journal differs from the inventory |
| ReinstallDriver.EveryPrefixOfARestoration | scripts/release_commands.py:1337-1512 | what a retry makes of each state in which a restoration may have been cut off |
| ReinstallDriver.AlteredPayloadsStay | scripts/release_commands.py:1433-1481 | no restoration puts back an altered or unbound payload, or removes a data root with further content |
| ReinstallDriver.ForeignMarkersStay | scripts/release_commands.py:822-863 | no restoration removes a marker that is not the product's |
| ReinstallDriver.AMarkerInTwoPlaces | scripts/release_commands.py:1443-1470 | a state in which removal is complete and restoration cannot succeed |
| ReinstallDriver.AnEmptyBackup | scripts/release_commands.py:1134-1141 | an empty backup directory, with or without the tree bound, that removal cannot get past |
| ReinstallDriver.ReinstallDriver.Retry | scripts/release_commands.py:1629-1812 | neither state changes under any number of retries, faults and bootstraps, short of a committed bootstrap for the second marker; the journal stays open |
| ReinstallDriver.ReinstallDriver.DieAfterMkdir | scripts/release_commands.py:1258-1262 | a new reinstall that dies after making its backup directory leaves such a state |
| ReinstallDriver.ReinstallDriver.LeaveTwoMarkers | scripts/release_commands.py:1180-1206 | a restoration that dies with the marker in quarantine and is retried leaves two markers |
| ReinstallDriver.ReinstallDriver.RebuildAndRollBack | scripts/release_commands.py:1211-1231 | a whole run, with one crash, that starts without a data root and ends rolled back with one |
| ReinstallDriver.StepKeepsAccounts | scripts/release_commands.py:1039-1297 | one file step of the open reinstall keeps all certificates |
| ReinstallDriver.WriteKeepsAccounts | scripts/release_commands.py:1714-1812 | one journal write of it keeps them; a terminal one brings its own |
| ReinstallDriver.AccountsIgnoreOthers | scripts/release_commands.py:1608-1640 | other drivers leave the reinstall journals' certificates true |
| ReinstallDriver.ReinstallDriver.NoDataIsLost | scripts/release_commands.py:1039-1512 | the original tree is complete in the data root or the payload, in one of them only, and the journal binds no other, until a committed report has named the durable active record |
| ReinstallDriver.ReinstallDriver.Touch | scripts/release_commands.py:1275-1297 | no step of the move or restore leaves the guard |
| ReinstallDriver.ReinstallDriver.Create | scripts/release_commands.py:1672-1693 | a new journal speaks of the data root as it is and of no backup |
| ReinstallDriver.ReinstallDriver.Bind | scripts/release_commands.py:1279-1296 | the moved tree is added to what the journal binds |
| ReinstallDriver.ReinstallDriver.Relocate | scripts/release_commands.py:1258-1276 | directory, inventory, rename: every prefix is recoverable |
| ReinstallDriver.ReinstallDriver.CreateFreshRoot | scripts/release_commands.py:1277-1278 | directory first, marker second |
| ReinstallDriver.ReinstallDriver.RemoveBackup | scripts/release_commands.py:1127-1140 | inventory through its quarantine, then the emptied directory |
| ReinstallDriver.ReinstallDriver.RemoveMarker | scripts/release_commands.py:822-863 | isolate, verify, unlink or put back; succeeds exactly for a canonical marker in one place |
| ReinstallDriver.ReinstallDriver.Confirm | scripts/release_commands.py:1080-1133 | a resumed removal is complete exactly when payload, manifest and bound inventory agree |
| ReinstallDriver.ReinstallDriver.Move | scripts/release_commands.py:1236-1297 | the tree is moved exactly when it may be, with its inventory durable first and then bound; under every fault script a tree that is not acceptable, or whose marker is not the product's, stays where it is |
| ReinstallDriver.ReinstallDriver.Dismantle | scripts/release_commands.py:1134-1176 | a shell left before the rename is taken down exactly when the data root still equals it; any other backup directory without a payload is left as it is |
| ReinstallDriver.ReinstallDriver.Remark | scripts/release_commands.py:1180-1206 | a fresh root that lost its marker is marked again only over a proven payload |
| ReinstallDriver.ReinstallDriver.EnsureDataRemoved | scripts/release_commands.py:1039-1297 | from whatever an interrupted run left: completes exactly in the listed file states, and leaves the hopeless ones as they are |
| ReinstallDriver.ReinstallDriver.PutBack | scripts/release_commands.py:1433-1481 | the payload returns only if it equals the bound inventory; an altered or partly deleted one never does |
| ReinstallDriver.ReinstallDriver.RestoreAbsence | scripts/release_commands.py:1356-1379 | a data root created for an absent one is removed exactly when it holds nothing but its marker |
| ReinstallDriver.ReinstallDriver.RestoreData | scripts/release_commands.py:1337-1512 | rolled back exactly in the listed file states; a payload that cannot be restored raises; two markers are left as they are |
| ReinstallDriver.ReinstallDriver.RemovedRestores | scripts/release_commands.py:1433-1481 | after a completed removal restoration succeeds exactly if no marker is left in quarantine |
| ReinstallDriver.ReinstallDriver.CloseCommitted | scripts/release_commands.py:1714-1754 | the old tree is given up on a committed report that names the durable record, and that warrant is kept with the closed journal |
| ReinstallDriver.ReinstallDriver.RemoveBackupAfterCommit | scripts/release_commands.py:1515-1573 | deletes only after release and only a payload whose bound inventory is its manifest, and never touches the data root |
| ReinstallDriver.ReinstallDriver.Conclude | scripts/release_commands.py:1714-1812 | committed exactly when the bootstrap committed and its active record is the durable one; otherwise partial or restoration; the old tree is given up in the first case only |
| ReinstallDriver.ReinstallDriver.Survey | scripts/release_commands.py:1608-1628 | a first bootstrap runs exactly when another driver's journal is open |
| ReinstallDriver.ReinstallDriver.ResumeOrCreate | scripts/release_commands.py:1629-1693 | takes up the one open reinstall as it is, or opens a new one that has no files yet |
| ReinstallDriver.ReinstallDriver.Clear | scripts/release_commands.py:1694-1705 | undisturbed, cleared exactly in the removable file states; an unowned tree never becomes a payload |
| ReinstallDriver.ReinstallDriver.Prepare | scripts/release_commands.py:1629-1705 | foreign journals and files are preserved; undisturbed, a new reinstall moves an owned root away and leaves an unowned one with no trace; an unowned tree never becomes a payload; an interrupted one stays the only open one; the many-reinstalls branch is unreachable |
| Installation.Installation.constructor | scripts/lifecycle_state.py:905-918 | an empty directory satisfies every invariant |
| Installation.Installation.Activate | scripts/lifecycle_machine.py:175-235 | one activation process keeps every driver's invariants |
| Installation.Installation.Bootstrap | scripts/release_lifecycle.py:1948-2041 | so does one bootstrap process, and it leaves reinstall journals alone |
| Installation.Installation.Uninstall | scripts/uninstall_driver.py:1440-1572 | so does one uninstall process |
| Installation.Installation.Reinstall | scripts/release_commands.py:1591-1810 | so does one reinstall, with any other processes running while it waits |
| Installation.Installation.Play | scripts/lifecycle_state.py:902-933 | so does every sequence of commands under every fault script |
| Installation.Installation.WhatSoundMeans | scripts/lifecycle_state.py:1206-1245 | in every reachable state: at most two open journals, and two only if one is a reinstall that waits and the other an activation; every closed journal's certificate true; unreleased data conserved |
| Installation.Installation.EveryJournal | scripts/lifecycle_state.py:698-780 | in every reachable state every journal is within the caps, lists no path twice, is closed exactly if it has an outcome, and expects exactly the authority it recorded as previous |
| Installation.Installation.AClosedActivation | scripts/lifecycle_machine.py:662-792 | what a closed activation certifies: a committed record was selected or kept, run by the host and proven; a rolled back one left the authority of before, proven, the host restored if touched |
| Installation.Installation.ACommittedUninstall | scripts/uninstall_driver.py:1849-1860 | what a committed uninstall certifies: exact host answers held by the journal, no release, no dispatcher, no lifecycle directory, the record gone at exactly the next generation |
| Installation.Installation.AReinstall | scripts/release_commands.py:1714-1812 | what a reinstall certifies: until a report of the durable record the tree of before is complete; committed needs such a report, rolled back the tree of before in place |
| OwnedRemoval.OwnedRelease.RemoveFile | scripts/uninstall_driver.py:676-784 | only content equal to the declared is unlinked, nothing else changes; altered files keep their place and report inexact; succeeds exactly when the file is erasable |
| OwnedRemoval.OwnedRelease.RemoveDirectory | scripts/uninstall_driver.py:707-716 | only an agreeing empty directory goes |
| OwnedRemoval.FramedMeans | scripts/uninstall_driver.py:676-784 | what disappeared held exactly what the claim declares for its place, or is a quarantine name with the exact bytes of the file it stands for; what was altered is still there |
| OwnedRemoval.AlteredEntries | scripts/uninstall_driver.py:709-721 | an entry of other content, kind or mode is not the one declared |
| OwnedRemoval.OwnedRelease.EraseFiles | scripts/uninstall_driver.py:958-979 | nothing retained means every owned file and its quarantine are gone |
| OwnedRemoval.OwnedRelease.EraseDirectories | scripts/uninstall_driver.py:960-979 | nothing retained means every entry is gone |
| OwnedRemoval.EmptyByNow | scripts/uninstall_driver.py:960-979 | deepest first: an owned directory is empty when its turn comes |
| OwnedRemoval.OwnedRelease.EraseControl | scripts/uninstall_driver.py:980-1003 | a control file goes only after what it vouches for |
| OwnedRemoval.OwnedRelease.Remove | scripts/uninstall_driver.py:911-1014 | at every crash point altered entries, receipts and manifests keep their place and only declared content is gone; altered content is never reported exact; from provable residue, complete exactly unless stuck; cut off at the unlink of the manifest, it ends stuck |
| OwnedRemoval.OwnedRelease.Restart | scripts/uninstall_driver.py:911-1014 | after any crashes an undisturbed re-run removes an installed release, or finds it stuck |
| OwnedRemoval.StuckIsTheQuarantinedManifest | scripts/uninstall_driver.py:934-942 | stuck is exactly one file: the quarantined ownership manifest |
| OwnedRemoval.OwnedRelease.DieAtTheManifest | scripts/uninstall_driver.py:911-1014 | removal of any installed release by a process that dies between quarantining and unlinking the manifest ends in the stuck state |
| OwnedRemoval.AStuckRelease | scripts/uninstall_driver.py:934-942 | one concrete release, that run, and a retry that leaves it |
| Infrastructure.InfrastructureManager.SaveBackup | scripts/release_lifecycle.py:778-803 | the manifest becomes durable only over complete saved contents |
| Infrastructure.InfrastructureManager.WriteAll | scripts/release_lifecycle.py:804-812 | every managed file is old or new at each step, and all are new at the end |
| Infrastructure.InfrastructureManager.Ensure | scripts/release_lifecycle.py:729-812 | either nothing happened or it can be undone; success installs everything; refusal exactly as permitted; an existing file not proven to be the product's never changes, and an unproven one stops the run with the disk unchanged |
| Infrastructure.InfrastructureManager.OthersUntouched | scripts/release_lifecycle.py:748-812 | at every crash point, files that may not be replaced and files that are not wanted are as before |
| Infrastructure.InfrastructureManager.RollbackEntry | scripts/release_lifecycle.py:843-877 | never over bytes that are not the recorded new ones |
| Infrastructure.InfrastructureManager.RollbackAll | scripts/release_lifecycle.py:834-877 | last to first; only files that held the recorded new bytes are touched |
| Infrastructure.InfrastructureManager.Rollback | scripts/release_lifecycle.py:828-884 | undisturbed, it restores every managed file whose old mode is at most 0o777 and leaves the others; the disk is the old one exactly if none of those had changed; it reports exactly the files without their new bytes or with such a mode |
| Infrastructure.InfrastructureManager.CrashAndRollBack | scripts/release_lifecycle.py:729-884 | crash anywhere, interrupt rollback any number of times: one undisturbed rollback gives back bytes, modes and absences; after a success the disk is the old one exactly if every old mode is at most 0o777 |
| Infrastructure.AStickyFileIsNotPutBack | scripts/release_lifecycle.py:866-877 | a file of mode 0o1755 keeps the new bytes and mode, and is reported |
| Infrastructure.AnUntouchedFileIsReported | scripts/release_lifecycle.py:852-854 | a run that dies between two writes: the file nobody wrote is reported |
| Assurance.PrerequisitesPrecede | src/dev_flow_orchestrator/assurance.py:653-660 | in the canonical order every prerequisite precedes its dependent |
| Assurance.SortKeeps | src/dev_flow_orchestrator/assurance.py:653-660 | ordering keeps the obligations and their distinctness, and puts them in order of kind and rank |
| Assurance.OwedIsDistinct | src/dev_flow_orchestrator/assurance.py:480-652 | distinct repositories owe distinct obligations |
| Assurance.DerivedPlansValidate | src/dev_flow_orchestrator/assurance.py:851-884 | every derived plan passes validation |
| Assurance.PlansAreInOrder | src/dev_flow_orchestrator/assurance.py:806-884 | what every plan satisfies, and what the plan it replaces must: at most 64 distinct obligations in canonical order, all criteria covered, at most 256 actions, an honest remainder |
| Assurance.WhatAPlanOwes | src/dev_flow_orchestrator/assurance.py:425-652 | by the request's fields: which repositories, edges, review, documentation check and manual evidence a plan must hold, with which bodies and prerequisites, and that it holds nothing else |
| Assurance.DerivedPlansAreSecured | src/dev_flow_orchestrator/assurance.py:746-817 | in a plan every obligation is reserved with its allowance, its prerequisites are in it, and the budgets cover what is required |
| Assurance.BudgetsInClosedForm | src/dev_flow_orchestrator/assurance.py:679-714 | a fresh budget as a formula of profile, repositories, contracts and criteria |
| Assurance.WhatABudgetReserves | src/dev_flow_orchestrator/assurance.py:282-356 | the reservations of a fresh budget, by the fields of the request: one per repository, per evidence contract with all its repositories, documentation, manual evidence, review |
| Assurance.WhatAReservationMayDependOn | src/dev_flow_orchestrator/assurance.py:378-402 | a review may depend on every other reservation, and nothing else on any |
| Assurance.CountsFitFreshCeilings | src/dev_flow_orchestrator/assurance.py:679-698 | a fresh budget has room for every required execution once |
| Assurance.IntegrationCoveredExactly | src/dev_flow_orchestrator/assurance.py:359-375 | an integration obligation is reserved exactly when its edges span the contract |
| Assurance.FreshCoverageIsExact | src/dev_flow_orchestrator/assurance.py:746-817 | a fresh plan's reservations suffice exactly when every contract with a required edge is spanned |
| Assurance.ConservativePlansSpan | src/dev_flow_orchestrator/assurance.py:437-448 | always so for full and for unconfirmed impact |
| Assurance.FirstPlanMayBeRefused | src/dev_flow_orchestrator/assurance.py:806-817 | a concrete request whose first plan is refused |
| Assurance.FirstPlanExists | src/dev_flow_orchestrator/assurance.py:405-848 | exactly when a first plan is returned |
| Assurance.ReplansKeepBudgets | src/dev_flow_orchestrator/assurance.py:715-745 | along a chain of replans for one contract the budgets stay those of the first plan |
| Assurance.OweObligations | src/dev_flow_orchestrator/assurance.py:480-652 | the loops compute exactly the obligations of the policy |
| Assurance.RequireMembers | src/dev_flow_orchestrator/assurance.py:425-442 | the repositories that must be checked |
| Assurance.RequireEdges | src/dev_flow_orchestrator/assurance.py:443-448 | the edges that must be checked |
| Assurance.GroupEdges | src/dev_flow_orchestrator/assurance.py:513-530 | each evidence contract once, with the repositories and criteria of all its edges |
| Assurance.DeriveAssurancePlan | src/dev_flow_orchestrator/assurance.py:405-848 | the planner refines its specification, refusals included, and every plan owes what is due and secures it |
| Assurance.IsAdequate | src/dev_flow_orchestrator/assurance.py:746-817 | the loops decide exactly whether reservations, dependencies and counts suffice |
| Assurance.ObligationStates | src/dev_flow_orchestrator/assurance.py:948-994 | one pass over an ordered plan equals the recursive definition |
| Assurance.NothingOutstanding | src/dev_flow_orchestrator/assurance.py:966-982 | with nothing outstanding each obligation is done, exhausted, or blocked through a chain ending in an exhausted one |
| Assurance.StatesMean | src/dev_flow_orchestrator/assurance.py:959-982 | the state of an obligation read off waivers, reuse, executions and the states of its prerequisites |
| Assurance.NextObligation | src/dev_flow_orchestrator/assurance.py:997-1018 | returns the first outstanding obligation, or none only when all are at rest |
| Assurance.ExecutionUsesAUnit | src/dev_flow_orchestrator/assurance.py:959-971 | executing an obligation with allowance left uses exactly one unit |
| Assurance.Drive | src/dev_flow_orchestrator/assurance.py:948-1018 | executing what is returned ends within the units left, whatever the verdicts |
| Assurance.UnitsAtTheStart | src/dev_flow_orchestrator/assurance.py:959-971 | at the start the units are the sum of the allowances |
| Ustar.OctalRoundTrip | scripts/release_artifact.py:444-454 | a padded octal field reads back as the number written |
| Ustar.HeaderRoundTrip | scripts/release_artifact.py:509-545 | an encoded header is read as the member it encodes, checksum included |
| Ustar.HeaderMeans | scripts/release_artifact.py:509-545 | a header that is read has the magic, version, type flag, octal size, text fields and checksum at their offsets |
| Ustar.AcceptedStreamsConform | scripts/release_artifact.py:472-559 | every member of an accepted stream has such a header and its padded content, and the stream ends in zero blocks |
| Ustar.ReadExactBounded | scripts/release_artifact.py:457-469 | succeeds exactly when the bytes are there and within the bound |
| Ustar.InspectHeaders | scripts/release_artifact.py:472-559 | the scan terminates on every stream and decides exactly the acceptance predicate; what it accepts conforms to the format and the bound |
| Ustar.ReadTrailer | scripts/release_artifact.py:546-556 | what follows the end marker is zeros within the bound |
| Ustar.EncodingIsAccepted | scripts/release_artifact.py:472-559 | a well-formed encoding within the limits is accepted exactly when it fits the stream bound |
| Ustar.TightBound | scripts/release_artifact.py:480-484 | every record-padded archive within the limits fits, unless all of fewer than 512 allowed headers are files |
| Ustar.ArchivesWithADirectoryAreAccepted | scripts/release_artifact.py:472-559 | every archive with a directory header is accepted |
| Ustar.ThreeFilesDoNotFit | scripts/release_artifact.py:480-484 | three files within the limits that are refused |
| ArtifactVerifier.AcceptedDenotesATree | scripts/release_artifact.py:355-417 | ancestors are declared directories, files have no descendants, no case-folded collisions, parents come first |
| ArtifactVerifier.AcceptedIsAcceptable | scripts/release_artifact.py:355-417 | accepted exactly if every entry is within the limits, no two paths differ in letter case only, the texts ascend, and every ancestor is a declared directory |
| ArtifactVerifier.KeysFoldCase | scripts/release_artifact.py:378-380 | two paths collide exactly if they agree but for the case of letters |
| ArtifactVerifier.LessIsBefore | scripts/release_artifact.py:409-410 | the order is that of the first differing character |
| ArtifactVerifier.EqualEntryByEntry | scripts/release_artifact.py:762-844 | a tree is the denoted one exactly if it holds each entry as declared and nothing else |
| ArtifactVerifier.AncestorIsLess | scripts/release_artifact.py:409-410 | an ancestor's text sorts before its descendants' |
| ArtifactVerifier.Validate | scripts/release_artifact.py:355-417 | the loop accepts exactly the acceptable manifests |
| ArtifactVerifier.InOrder | scripts/release_artifact.py:409-410 | adjacent comparison decides the canonical order |
| ArtifactVerifier.HasAncestors | scripts/release_artifact.py:411-416 | every proper prefix is a declared directory |
| ArtifactVerifier.ReadDirectory | scripts/release_artifact.py:766-821 | one directory: refuses only what the manifest does not denote |
| ArtifactVerifier.VerifyExtracted | scripts/release_artifact.py:762-841 | the worklist accepts exactly the tree that holds each manifest entry as declared and nothing else |
| Promotion.Promoter.FindDraft | scripts/promote_release.py:610-661 | finds exactly its own draft, or creates one only when there is none; what it asks of the remote is at most that |
| Promotion.Promoter.Refill | scripts/promote_release.py:682-703 | asks for one upload of exactly the names the shown draft lacks, and for none if it lacks none |
| Promotion.Promoter.FillDraft | scripts/promote_release.py:682-710 | the recorded assets are exactly the complete draft seen last |
| Promotion.Promoter.VerifyAndPublish | scripts/promote_release.py:712-761 | publishes the very ids it downloaded, after all of them matched, and accepts the read-back of these ids only |
| Promotion.Promoter.Attempt | scripts/promote_release.py:609-761 | completes exactly when the answers allow, with exactly the prescribed calls and journal |
| Promotion.Promoter.Promote | scripts/promote_release.py:585-773 | undisturbed, the answers alone decide outcome, journal and calls; success and any call need the tag of the local commit and tree; cut off anywhere, the calls are a prefix and the journal a justified step forward; foreign journals are refused |
| Promotion.Promoter.PromoteAll | scripts/promote_release.py:585-773 | over any sequence of interrupted and resumed runs: identity, draft and publication stay, phases never fall unless the remote takes a publication back, and the accepted ids were downloaded and matched in one of the runs unless one met a draft of unchecked ids |
| Promotion.NothingIsSentAgain | scripts/promote_release.py:682-703 | however far a run gets, it sends exactly the assets the draft lacks, if any, and every asset the remote showed keeps its id |
| Promotion.EarnedMeansCompletes | scripts/promote_release.py:609-761 | completion by the remote's answers alone: the local tag, a proven identity, the recorded or just created draft, and, if already published, the assets recorded at the start |
| Promotion.AForeignTagStops | scripts/promote_release.py:610-621 | no call is made unless the tag names the local commit and tree |
| Promotion.PublishesOnlyWhatItChecked | scripts/promote_release.py:712-742 | a publication directly follows the matching download of the same ids; a draft is created only where there is no release |
| Promotion.BackedExactly | scripts/promote_release.py:704-710 | from any journal: a run without a complete draft changes nothing; with one, the recorded ids are downloaded ones afterwards exactly unless they replace a verification, were never checked and do not match |
| Promotion.TheLastDraftDecides | scripts/promote_release.py:704-740 | over any sequence of undisturbed runs, the last one that saw a complete draft decides whether the recorded ids were ever checked |
| Promotion.BackingSurvives | scripts/promote_release.py:704-710 | wherever a run is cut off, they stay downloaded ones if it met no such draft |
| Promotion.AcceptedAssetsWereChecked | scripts/promote_release.py:663-677 | the ids a completing run accepts were downloaded and matched exactly if the release was still a draft or the recorded ids were |
| Promotion.ReplacedAssetsAreAccepted | scripts/promote_release.py:663-710 | three concrete runs after which ids that never matched are accepted |
| Promotion.Promoter.Verify | scripts/promote_release.py:712-734 | every id is downloaded, and the result is the local set exactly when all bytes and the source match |
| Promotion.Promoter.Fetch | scripts/promote_release.py:717-723 | one download per asset, by its id |

## Left out

- Real locks, threads, fsync, symbolic links, reparse points, permissions and Windows branches: the lock is mutual exclusion that a crash releases, the file system a map from path to node.
- JSON text, byte and text-length caps, duplicate-key rejection, identifier grammar, lexical path syntax (separators, drives, component grammar): records are structured, paths are component lists or opaque.
- Temporary files of atomic writes: an atomic write is one step, so residue that only a crash inside it would leave is not modelled.
- Terminal output, argument parsing, dispatch scripts, downloads, virtual environments, subprocess and network work: oracles or absent.
- Recovery guidance, observation details and diagnostics are keywords; only their presence and their append-only growth are modelled.
- `_recover_one` on a journal of another driver: its callers never pass one, so the model requires an activation.
- Order of directory listings: the scans pick entries in any order.
- UninstallDriver.DurableUninstaller.Run: its outcomes are stated for runs in which no store or file call raised; that a calm store with room raises none is proved for whole runs of the activation machine only.
- ReinstallDriver.ReinstallDriver.Conclude: as for the uninstaller, its outcomes are stated for runs in which no store or file call raised; and the product does not write to the data root between removal and conclusion.
- ReleaseLifecycle.RunLockedAuto: as for the uninstaller, its outcomes are stated for runs in which no store call raised.
- LifecycleMachine.LifecycleMachine.Run: the results' detail texts and recovered-transaction lists are not modelled.
- UninstallDriver.DurableUninstaller.SweepAll: removal of one release is an oracle here, because OwnedRemoval models it; receipt and manifest digests of claims are not carried.
- UninstallDriver.DurableUninstaller.RemoveNamed: the quarantine inside one dispatcher removal is an oracle; the six lifecycle support files are one directory with one answer, and the recovery-support copy one answer.
- UninstallDriver.DurableUninstaller.Complete: removal of the final uninstall dispatcher and of the recovery support after the terminal write is not modelled.
- ReinstallDriver.ReinstallDriver.RemoveBackupAfterCommit: deletion of the payload is one step with an arbitrary remainder; file-by-file exact removal is modelled in OwnedRemoval for releases.
- ReinstallDriver.ReinstallDriver.Move: the data-root inventory's caps and ownership checks are one predicate, and the inventory file's own encoding (which refuses backslashes and over-long paths on reading) is not modelled.
- OwnedRemoval.OwnedRelease.Remove: the root directory's own mode and the shape checks of receipt and manifest are not modelled; entries are assumed to form a tree.
- Infrastructure.InfrastructureManager.Ensure: the ownership proofs of repair, upgrade and migration are one predicate, and the backup directory is removed in one step.
- Assurance.DeriveAssurancePlan: change slices, impact closures and rule texts of obligations are not part of their bodies, reservations are in order of first appearance, and the order within one kind is a parameter.
- `normalize_impact_report`, `validate_assurance_execution` and `budget_view`: the plan properties take a normalized report and count executions themselves, so none of them speaks of these functions.
- Ustar.InspectHeaders: the stream is the decompressed one; gzip is not modelled.
- ArtifactVerifier.VerifyExtracted: the tree is the one below the root without the embedded manifest, whose own identity check is not modelled.
- Promotion.Promoter.Promote: what validation of a downloaded directory finds beside the assets' digests, and the identity fields of a release, are single answers.
- `scripts/runtime_integrity.py`, `scripts/build_release.py`, version bumping, legacy classification, the Controller and product modules: not part of this model.
