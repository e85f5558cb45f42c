# azk controllers, verified

A Dafny model of the engine.azk.io controllers and of the code they lean on, with proofs of what they guarantee.
`dafny verify dfyconfig.toml` checks everything.

## What is modelled

**Node pools, node sets, scale sets.** A `NodePool` names a Kubernetes version and a machine count. Its controller
derives a `NodeSet` name from the version, creates or updates that node set, deletes every other node set of the
namespace once the new one lists enough machines, and mirrors its status. The `NodeSet` controller keeps a finalizer,
creates, lists, scales and drops a cloud scale set, waits for nodes and records success.

- `Protocol` is the state machine: one state holds the API objects, the cloud, and where every running pass stands;
  one action is one call of a reconciler or one move of a user or the cloud. Runs interleave them freely, and a pass
  may fail, panic or crash at any call.
- `Coherence`, `Orphans`, `Success`, `Mirrored`, `Rollout`, `RolloutExactly`, `ScaleLoop`, `Stages`, `Convergence`, `Cleanup`,
  `Rounds`, `Fairness` and `History` prove properties of its runs.
- `Services`, `NodeSetController` and `NodePoolController` are the reconcilers as imperative code on an API server and
  a cloud that others change between any two calls. Every call is recorded, and every method proves that the record is
  a run of the protocol; a pass may give up only when something held it up or panicked. So the theorems about runs hold of the
  code; `Guarantees` says so for the main ones. `World.calm` is a world in which every call is answered and nobody else
  acts: what a pass does there is determined, and its contract says what it is.

**The control plane.** `ControlPlane` is the resumable rolling upgrade of the masters between two status writes, with
`ControlPlaneExactly` for the exact condition of its honesty; `ControlPlaneController` is its code, tied to the machine in the same way.

**Embedded files.** `CompressedFiles` is the lazy, rewinding cursor over a gzip stream, compared with a plain file;
`Directories` is directory paging.

**Names, texts, helpers, copies.** `Naming` and `KnownNames` (FNV-1a of draft-eastlake-fnv, section 2, and hexadecimal), `Base64`
(section 4 of RFC 4648), `CloudInit` and `CloudInitUnique` (the cloud-config printer, a reader for it, and which of its
texts can be read in one way only), `Helpers` (finalizers and polling loops), `DeepCopies` (the generated copy methods, on references).

## Assumptions, where they stand

- Reads are current and a write with an old resource version is refused: `Protocol.Fresh`. A write that changes nothing
  keeps the resource version.
- The same object is never reconciled twice at once: `passes` is a map, `poolPass` a single value, `pass` an option.
- There is one pool per namespace, because garbage collection does not look at owners.
- The cloud is indexed by node set; `Naming.ScaleSetNameInjective` is why that loses nothing.
- A panic is not assumed away: on a nil replica count, on an empty list of discovery hashes, or on a nil field in an
  answer of the cloud, the pass ends as the code's recovery makes it end, without an error and without another try.
- A listing returns every machine of a scale set; the code reads the first page of the answer.
- Users and other controllers put on and take off finalizers of their own, not this controller's
  (`Protocol.ForeignFinalizers`).
- The read of the capacity and the update behind it (azure/vmss.go:291-299) are one step.
- Convergence is about runs in which calls work (`Convergence.Calm`) and every reconciler keeps completing passes
  (`Rounds.Round`). It starts from `Convergence.Fit`: scale sets have as many machines as their capacity says, no
  foreign finalizers are around, and counts are possible. Passes of every kind may be in flight there, the pool's own
  too, with specs and copies of any age. `History.HistoryIsFit` gives the histories that lead to such a state.

## Where the code does less than one would hope

- **A pass of the pool that read the previous spec goes on deleting.** The step that changes the spec does not stop
  it, and nothing makes it read again before it deletes: every node set but its own target, the previous version, can
  go before the new one is ready, in a run from the start (`StaleCollectionIsReached`). `RolloutExactly.RolloutSafeExactly`
  says for every phase of the running pass whether the rollout is safe.
- **A rollout to zero machines deletes the old node sets at once** (`RolloutSafeExactly`). The same happens when the
  target exists already and lists the wanted count, ready or not (`ListedTargetIsTrusted`), or when the count is
  changed to what the half-made target lists (`CountChangeBreaksRollout`); `ResumedRolloutSafeExactly` is the exact
  condition for a target that may exist.
- **A failed deletion of a scale set leaves an orphan**: the error is dropped and the finalizer comes off
  (`OrphanExactlyWhenDropFails`).
- **Ready is not looked at**: a node counts when it carries a Ready condition of any status, so the count is one of
  ready nodes if and only if every matching node with a Ready condition has one that reads "True"
  (`CountIsReadinessExactly`, `WaitMeansReadyExactly`); and the wait for a version ignores readiness altogether,
  although its error text says otherwise.
- **A panic ends a pass silently**: a cluster reads "Succeeded" whatever its discovery hashes are
  (controllers/cluster_controller.go:93), and a pass that finds none panics after "Updating" or "Scaling" was stored,
  without an error, and asking for no further try.
- **Late deletions lose machines that were to stay**: the closing resize of a scale-down is idle if and only if the
  capacity has followed every deletion (`ResizeIdleExactlyWhenPrompt`); otherwise the cloud chooses, and may take one of
  the first Replicas (`LateDeletionsLoseTheFirst`).
- **A late upgrade command makes "Succeeded" untrue**: a pass does not look for commands that an earlier pass gave for
  another version and that may still land (`LateCommandBreaksHonesty` is a run from the bootstrap). Before a pass it can
  be told exactly: until the version is changed next, success is reported only truthfully if and only if no such command
  is outstanding, what is reported now is true for good, and a first start has all masters at its version
  (`HonestUntilChangeExactly`). Commands for the version itself may be outstanding over any number of retries. The last
  part fails too when the version is changed before the first success, or was once emptied.
- **A version changed back in the middle of an upgrade** leaves the state at "Updating" (`ChangedBackStaysUpdating`):
  a pass in flight can no longer write, and the comparison of versions at the start of a later pass returns before
  anything is recorded. For the same reason the second such test
  (controllers/controlplane_controller.go:147-150) can never hold.
- **A Read past the end of an embedded file** makes later Reads of existing bytes answer with none, until one goes
  strictly below the believed position (`AgreesExactly`, `OverReadLosesBytes`, `NothingUntilBelow`).
- **A line break in a path** lets one cloud-config entry pass for two. So a text is ambiguous as soon as it writes two
  files of data (`TwoFilesHide`), and only then, when its own paths have no line break (`UniqueExactly`); the line reader recovers the
  maps if and only if no path has one (`ToldExactly`).
- **A garbage-collecting pass stops at the first failing delete**, also when another actor removed the object after the
  listing. That is why the bound of `ConvergesWithinRounds` depends on the number of older node sets.
- **A cluster's copy shares its discovery hashes** (`ClusterCopyShares`).

## Model

| member | source | states |
|---|---|---|
| Helpers.ContainsFinalizer | helpers/helpers.go:34-41 | true exactly when the entry is in the list |
| Helpers.RemoveFinalizer | helpers/helpers.go:43-51 | the loop computes `Removed`, whose laws are the next four rows |
| Helpers.RemovedDropsOnlyTheNamedEntry | helpers/helpers.go:43-51 | at every place of the list, an entry is dropped exactly when it is the named one, and the parts before and behind it keep their order |
| Helpers.RemovedMembers | helpers/helpers.go:43-51 | afterwards the list has exactly the entries it had, less the named one |
| Helpers.RemovedUndoesAppend | controllers/nodeset_controller.go:119-138 | removing the finalizer undoes appending it |
| Helpers.RemovedAbsent | helpers/helpers.go:43-51 | removal of an absent entry changes nothing |
| Helpers.CountReadyIsCardinality | helpers/helpers.go:122-132 | the count of the polling loop is the number of distinct list positions with a matching node, each counted once |
| Helpers.CountsMeans | helpers/helpers.go:124-131 | a node matches exactly when its name has the given part and one of its conditions is of type "Ready" |
| Helpers.WaitForNodesReady | helpers/helpers.go:114-144 | returns nil if and only if one single list among the first 100 held enough matching nodes, every earlier one too few, and no call up to it failed; and that list then shows as many ready nodes where its counted nodes are ready |
| Helpers.CountIsReadinessExactly | helpers/helpers.go:122-132 | for every list, the count is that of the ready matching nodes if and only if each matching node with a Ready condition has one that reads True; otherwise it is higher |
| Helpers.WaitMeansReadyExactly | helpers/helpers.go:123-141 | the list that ends the wait shows that many ready nodes, for every count it passes, if and only if the same holds of it |
| Helpers.UnreadyNodeCounts | helpers/helpers.go:125-130 | a node on its own whose Ready condition reads False is counted and is not ready |
| Helpers.WaitForNodeVersionReady | helpers/helpers.go:166-192 | returns nil if and only if one of the first 100 observations shows the version and every earlier one was read and shows another |
| Helpers.IsNodeUpdated | helpers/helpers.go:194-205 | true exactly when the observed kubelet version is the wanted one; a failing read is passed on |
| Naming.TimesPrimeUndone | controllers/nodepool_controller.go:51-53 | the multiplication of an FNV-1a step modulo 2^64 is undone by an inverse of the prime |
| Naming.AbsorbInjective | controllers/nodepool_controller.go:51-53 | an FNV-1a step is a bijection of the 64-bit state for each byte and separates bytes for each state |
| Naming.StepReadBackwards | controllers/nodepool_controller.go:51-53 | for every state and byte: undoing the multiplication leaves the old state with the byte put into its low eight bits by exclusive or, so the byte goes in before the multiplication |
| KnownNames.KnownHashes | controllers/nodepool_controller.go:51-53 | the hashes of the empty text, "a" and "foobar" are those that draft-eastlake-fnv lists |
| Naming.FnvSeparatesOneByte | controllers/nodepool_controller.go:51-53 | texts that differ in exactly one byte never get the same hash, from any state |
| Naming.HexRoundTrip | controllers/nodepool_controller.go:53 | hexadecimal printing reads back and has no hyphen |
| KnownNames.HexIsPositional | controllers/nodepool_controller.go:53 | hexadecimal text is the lower-case digits 0-9a-f in base sixteen, highest first, without leading zeros |
| Naming.NodeSetNameDecodes | controllers/nodepool_controller.go:51-54 | pool name and 64-bit hash are recovered by splitting the name at its last hyphen |
| KnownNames.NameInFull | controllers/nodepool_controller.go:51-54 | one name in full: pool, hyphen, and the hash of pool, slash and version; and every scale set is named by its node set and "-agentvmss" |
| Naming.ScaleSetNameInjective | controllers/nodeset_controller.go:170 | node sets share a scale-set name only when they are the same |
| Naming.NamesCollideExactly | controllers/nodepool_controller.go:51-54 | two names agree if and only if pool names and hashes agree, so pools of different names never share a node set or scale set |
| Naming.NearVersionsSeparate | controllers/nodepool_controller.go:51-54 | versions of equal length that differ in exactly one byte get different node sets |
| Coherence.CoherentRun | controllers/nodeset_controller.go:80-208 | in every run, a pass's copy that still has the stored resource version agrees with the stored object and with what the pass has established so far |
| Orphans.NoOrphanScaleSets | controllers/nodeset_controller.go:115-145 | in every run from the start in which no deletion of a scale set fails, every scale set has its node set, still holding the finalizer |
| Orphans.OrphanExactlyWhenDropFails | controllers/nodeset_controller.go:128-142 | from a state without orphans, taking the finalizer off leaves one if and only if the deletion failed |
| Success.ReportedSuccessHappened | controllers/nodepool_controller.go:100-107 | a pool status that reads Succeeded has equal counts, and the very node set that it names, on its version, listed that many machines and then saw as many of its nodes in one list |
| Success.CommandLineSuccessHappened | cmd/nodepool/nodepool.go:295-303 | the success conditions of the scale and upgrade commands hold only for a pool whose named node set got there |
| Mirrored.ShownWasStored | controllers/nodepool_controller.go:100-107 | in every run from the start and whatever the state of the rollout, what a pool shows was at one time stored by the node set that it names: machines are the length of that list, replicas, version and state are its own |
| Rollout.NoEarlyDeletion | controllers/nodepool_controller.go:94-98 | from every state in which nothing about the target is ahead of its nodes and the pool's running pass is harmless, and with a count other than zero: in every run that leaves spec and target alone, a delete call for another node set comes only after the wait for nodes ended well for the target at that version and count |
| Rollout.BeginsQuietly | controllers/nodepool_controller.go:34-107 | a rollout to a version without a node set starts in such a state if and only if the running pass is harmless, as no pass at all is |
| RolloutExactly.RolloutSafeExactly | controllers/nodepool_controller.go:71-132 | a rollout to a version without a node set, with a pass of the pool in any phase and on any older spec, is safe in every run if and only if the count is not zero and that pass is harmless, which its phase, list and copies decide |
| RolloutExactly.ResumedRolloutSafeExactly | controllers/nodepool_controller.go:84-98 | without a running pass of the pool, the rollout to any version is safe in every run if and only if the count is not zero, and the target does not list it, is not about to, and, unless marked for deletion, cannot come to it on its spec |
| RolloutExactly.StaleCollectionBreaks | controllers/nodepool_controller.go:120-129 | a pass that is about to delete when the rollout begins deletes, ready or not, anything but its own target |
| RolloutExactly.StaleCollectionIsReached | controllers/nodepool_controller.go:94-98 | a run from the start in which the change of the spec meets such a pass |
| Rollout.ListedTargetIsTrusted | controllers/nodepool_controller.go:94-98 | a target that already lists the wanted count makes the next pass delete the others without any wait for nodes |
| Rollout.CountChangeBreaksRollout | controllers/nodepool_controller.go:84-98 | changing the count to what the target lists makes the next pass delete the others |
| ScaleLoop.ScaleLoopIsExact | controllers/nodeset_controller.go:271-304 | wherever a pass stops, it has drained and then deleted, one after the other and in list order, exactly a prefix of the machines behind the first Replicas; it resizes only after all of them |
| ScaleLoop.ShrinksToPrefix | controllers/nodeset_controller.go:274-298 | while the cloud answers deletions at once, the scale set is the kept prefix and the part not yet deleted, with the capacity lowered by one for each deletion |
| ScaleLoop.ResizeIsNoOpExactly | azure/vmss.go:285-298 | the closing resize leaves the cloud alone, whatever it would make, if and only if the capacity is the count already |
| ScaleLoop.ScaleDownKeepsTheFirst | controllers/nodeset_controller.go:271-304 | a scale-down whose deletions lower the capacity leaves exactly the first Replicas machines, and the resize changes nothing |
| ScaleLoop.ResizeIdleExactlyWhenPrompt | controllers/nodeset_controller.go:271-304 | when deletions are answered at once or late, the capacity at the end of the loop exceeds the count by the number of late ones, so the closing resize leaves the cloud alone if and only if there is none |
| ScaleLoop.LateDeletionsLoseTheFirst | controllers/nodeset_controller.go:271-304 | every proper scale-down to at least one machine has a run in which all deletions are late, exactly the right machines are drained and deleted, and the resize takes the first machine and keeps one whose deletion was accepted; once the deletions have landed, one machine fewer than wanted is left |
| Stages.PassAdvances | controllers/nodeset_controller.go:115-207 | a complete fault-free pass takes a node set that is left alone one stage further, from present over finalizer and machines to recorded success, and no call takes it back |
| Stages.SettlesInThreePasses | controllers/nodeset_controller.go:115-207 | with calls that work and an unchanged spec, three passes bring any node set that is not deleted to recorded success, after which no calm call creates, deletes or scales |
| Stages.RecordedCallsNothing | controllers/nodeset_controller.go:152-205 | in that state a pass only lists, waits and records, and none of it changes anything stored |
| Rounds.ConvergesWithinRounds | controllers/nodepool_controller.go:51-132 | from every fit state, with any passes in flight and a pool pass on any older spec: 14 rounds of any calm run, one more while such a pool pass is running, and one for each other node set that is there or that it may still make, lead to the converged state |
| Rounds.ConvergedMeans | controllers/nodepool_controller.go:94-107 | converged: exactly the target node set with the pool's spec, exactly its scale set with the wanted machines, and a pool status that mirrors success |
| Rounds.ConvergedIsAFixpoint | controllers/nodeset_controller.go:115-207 | no calm call changes anything in a converged state, and it stays converged |
| History.HistoryIsFit | controllers/nodepool_controller.go:34-132 | every run from the start, with failing calls, crashes and user changes, is in a fit state as long as counts are possible, finalizers are this controller's, the cloud counts its machines and no deletion of a scale set fails |
| History.LastChangeConverges | controllers/nodepool_controller.go:34-132 | so whatever the last change of the spec finds in flight, the rounds behind it converge to that spec |
| Fairness.PassCompletes | controllers/nodeset_controller.go:80-208 | from every fit state, whatever is in flight or stale, every reconciler can complete a pass with calls that work |
| Fairness.RoundsExist | controllers/nodepool_controller.go:34-110 | rounds never run out: any number of them can follow any fit state |
| Fairness.ConvergenceIsReachable | controllers/nodepool_controller.go:34-132 | from every fit state some calm run converges |
| Fairness.InitialIsSound | controllers/nodepool_controller.go:34-49 | runs begin in a fit state |
| Services.World.Update | controllers/nodeset_controller.go:120-138 | the object update: refused when stale, possibly failing with or without effect, each time a step of the protocol; when it works, spec and finalizers are stored, or with the last finalizer the object is gone |
| Services.World.UpdateStatus | controllers/nodeset_controller.go:154-203 | the status write returns the object as stored, with the written status and the spec the pass read |
| Services.World.Render | controllers/nodeset_controller.go:306-326 | rendering fails without a token, and panics exactly where it gets to an empty list of discovery hashes |
| Services.World.ListMachines | controllers/nodeset_controller.go:253-268 | on success the list is the cloud's; a failing listing leads to creation, a nil field or a nil count ends the pass in a panic |
| Services.World.ScaleVMSS | azure/vmss.go:285-300 | on success the capacity is the count, and a scale set that has it already is left as it is; a missing capacity ends the pass in a panic |
| NodeSetController.UpdateNodeSet | controllers/nodeset_controller.go:243-269 | on success the status lists exactly the machines the cloud has, in order, and nothing else changes; only a failing listing leads to creation |
| NodeSetController.RemoveMachine | controllers/nodeset_controller.go:282-297 | one machine is drained and then deleted; a failure of either ends the pass |
| NodeSetController.ScaleNodeSet | controllers/nodeset_controller.go:271-304 | drains exactly the machines behind the first Replicas, in order, deletes each, and on success leaves the capacity at the count |
| NodeSetController.DeleteNodeSet | controllers/nodeset_controller.go:226-241 | with usable credentials every listed machine has its drain call, worked or not, in order, and then the scale set is found gone or a delete call for it failed; it is left alone only without them; and the pass goes on to take exactly the finalizer off |
| NodeSetController.FinishDeletion | controllers/nodeset_controller.go:127-145 | the same for the whole pass, which asks for another try exactly when the update fails, and otherwise leaves no object that holds the finalizer |
| NodeSetController.Maintain | controllers/nodeset_controller.go:152-205 | a pass that fares well created the scale set at the count, or scaled it after draining exactly the machines behind the first Replicas, or waited and stored success with the listed machines; in a calm world the cloud decides which, and only the wait can hold the pass up |
| NodeSetController.Reconcile | controllers/nodeset_controller.go:77-208 | a pass is a legal run and is over at the end; without the object, or without just one cluster that succeeded, nothing is called; with both, deletion, finalizer, creation, scaling and success are as in the rows above, with the exact answer to the queue for each: an error when a call held it up, silence after a panic, another try unless success was recorded or a deletion finished |
| NodePoolController.PerformGarbageCollection | controllers/nodepool_controller.go:112-132 | deletes each listed node set but the pass's own, stopping at the first failure; in a calm world every other one is then gone or marked, and the own one is untouched |
| NodePoolController.Settle | controllers/nodepool_controller.go:94-107 | stores the name, the number of listed machines as machine count, and replicas, version and state of the status it read; in a calm world the others are deleted when the target lists the wanted count, and otherwise nothing else changes |
| NodePoolController.Reconcile | controllers/nodepool_controller.go:34-110 | a pass is a legal run and ends idle; unless a call fails it created the target on the pool's spec and wants another try, or stored the status under the target's name; a calm world determines which, and what becomes of every node set |
| ControlPlane.SucceededIsHonest | controllers/controlplane_controller.go:129-159 | in every run with failures and retries anywhere, commands outstanding over retries included, and versions changed at any time after the first success: a stored Succeeded means that every listed master is at the stored version, where no pass goes to work while a command for another version is outstanding |
| ControlPlaneExactly.HonestUntilChangeExactly | controllers/controlplane_controller.go:129-249 | with no pass running, every run without a change of the version is honest if and only if a stored success is true for good, and, when there is work to do, no command for another version is outstanding, or, before the first success, all masters are at the wanted version for good |
| ControlPlane.SuccessLastsExactly | controllers/controlplane_controller.go:235-249 | a stored success stays true, whatever commands land later, if and only if every listed master is at the version and no other command is outstanding for it |
| ControlPlane.LateCommandBreaksHonesty | controllers/controlplane_controller.go:300-352 | a reachable run in which a command of a failed pass lands after a later success and makes it untrue |
| ControlPlane.ChangedBackStaysUpdating | controllers/controlplane_controller.go:129-159 | when the version is changed back while the state reads Updating, with any pass in flight, no continuation that leaves the version alone changes the status any more |
| ControlPlane.FrontierKept | controllers/controlplane_controller.go:320-350 | with a fixed target, over failed and retried passes: in list order, masters at the target, then at most one that was commanded, then none that were |
| ControlPlane.SeenIsNotCommandedAgain | controllers/controlplane_controller.go:321-327 | a master once seen at the target is never commanded again |
| ControlPlaneController.Plane.WaitForVersion | helpers/helpers.go:166-192 | succeeds only when a poll among 100 showed the master at the version; in a calm world it gives up only after all 100, for a master that is not at it |
| ControlPlaneController.UpgradeMaster | controllers/controlplane_controller.go:320-350 | one master is stepped over at the version, otherwise commanded and waited for; in a calm world it fails only for a master that does not come to the version |
| ControlPlaneController.UpgradeVMSS | controllers/controlplane_controller.go:300-353 | the loop reaches the end of the list or ends the pass at the first failure, as a run of the machine |
| ControlPlaneController.Reconcile | controllers/controlplane_controller.go:111-254 | a pass is a legal run; at the wanted version, or without just one cluster that succeeded, nothing is called; otherwise it ends in a stored Succeeded with the version it read after a list with three masters, in an error after a failing call, or in silence after a panic on missing discovery hashes or a nil field |
| Guarantees.NoOrphansInTheCloud | controllers/nodeset_controller.go:115-145 | the reconcilers' code leaves no scale set without its node set, unless a call that deletes a scale set failed or was left out for unusable credentials |
| Guarantees.ShownStatusWasStored | controllers/nodepool_controller.go:100-107 | what the code shows of a pool was at one time stored by the node set that it names |
| Guarantees.ShownSuccessHappened | controllers/nodepool_controller.go:100-107 | the node set that a pool shown as Succeeded names got there |
| Guarantees.ShownControlPlaneIsUpgraded | controllers/controlplane_controller.go:245-249 | a control plane that the code shows as Succeeded has its listed masters at the shown version, where no pass went to work while a command for another version was outstanding and the version was left alone until the first success |
| Guarantees.HonestUntilChangeByTheCode | controllers/controlplane_controller.go:245-249 | from a trustworthy start the code shows success only truthfully, whatever fails and is retried, until the version is changed |
| Guarantees.NoEarlyDeletionByTheCode | controllers/nodepool_controller.go:94-98 | in a safe rollout the code is about to delete another node set only when the target was seen ready |
| Guarantees.ScaleDownByTheCode | controllers/nodeset_controller.go:271-304 | the code's scale-down has drained and deleted a prefix of what it has to, in order |
| Guarantees.UpgradeFrontierByTheCode | controllers/controlplane_controller.go:320-350 | the masters that the code upgrades with a fixed target stand in a frontier |
| CompressedFiles.CompressedFile.Read | assets/assets_vfsdata.go:485-506 | the answer is one that the cursor's rules allow, the buffer behind it is untouched, and the new cursor is the specified one |
| CompressedFiles.CompressedFile.Seek | assets/assets_vfsdata.go:507-519 | the position is the offset from the start (0), from the position (1) or from the end (2), as a 64-bit sum, wrapped only when it overflows; any other whence panics and moves nothing |
| CompressedFiles.Discard | assets/assets_vfsdata.go:494-501 | skipping works exactly when the stream has enough left, and otherwise leaves it at its end |
| CompressedFiles.RunIsSound | assets/assets_vfsdata.go:485-519 | after every sequence of Reads and Seeks the believed and the real stream position agree, or the stream is at its end and the believed one is smaller; the position is a plain file's |
| CompressedFiles.NeverWrongBytes | assets/assets_vfsdata.go:485-519 | in every sequence of Reads and Seeks, a Read that yields bytes yields those at the position, clamped at 0 |
| CompressedFiles.AgreesExactly | assets/assets_vfsdata.go:485-506 | the possible answers are a plain file's if and only if the cursor has not lost track, or is made to start over, or there is nothing to read |
| CompressedFiles.RunIsPlainExactly | assets/assets_vfsdata.go:485-519 | a whole run is one of a plain file if and only if each of its Reads was of that kind |
| CompressedFiles.InsideIsPlain | assets/assets_vfsdata.go:485-519 | every run without a Read past the end is a run of a plain file |
| CompressedFiles.OverReadMisleads | assets/assets_vfsdata.go:494-499 | after a Read past the end the stream is at its end, and the believed position stays |
| CompressedFiles.NothingUntilBelow | assets/assets_vfsdata.go:486-506 | from then on Reads yield nothing as long as none goes strictly below the believed position |
| CompressedFiles.BelowRestores | assets/assets_vfsdata.go:486-493 | a Read strictly below it answers as a plain file does and restores agreement |
| CompressedFiles.OverReadLosesBytes | assets/assets_vfsdata.go:485-519 | for every file with content there is a run whose answers no plain file gives |
| CompressedFiles.ReadAll | assets/assets_vfsdata.go:485-506 | reading until end-of-file gives all that is behind the position |
| Directories.PagesAreContiguous | assets/assets_vfsdata.go:589-599 | for any sequence of counts the pages add up to the entries from the first position to the last, none skipped or repeated |
| Directories.OnePage | assets/assets_vfsdata.go:589-599 | one call, as a page and as a position: everything left, end-of-file, or as many entries as asked for and there |
| Directories.AnyRestEnds | assets/assets_vfsdata.go:593-595 | one count at or below zero brings the position to the end, whatever comes before and behind it |
| Directories.PositiveCountsAdd | assets/assets_vfsdata.go:589-599 | with positive counts the position is their sum, cut off at the end |
| Directories.EndExactlyAfterAll | assets/assets_vfsdata.go:590-592 | a call with a positive count reports end-of-file if and only if all entries were listed, and otherwise lists at least one |
| Directories.Dir.Readdir | assets/assets_vfsdata.go:589-599 | a count at or below zero gives all that is left; a positive one gives that many entries or all that are left, and end-of-file when none is |
| Directories.Dir.Seek | assets/assets_vfsdata.go:581-587 | only a rewind works; everything else is an error and moves nothing |
| Directories.ReadAll | assets/assets_vfsdata.go:589-599 | a loop with a positive count lists every entry once and ends |
| Base64.RoundTrip | azure/vmss.go:31-32 | decoding undoes encoding, for all bytes |
| Base64.EncodedCharacters | azure/vmss.go:31-32 | the encoded text has only digits of the alphabet and padding, so no line break |
| Base64.DigitIsInTable | azure/vmss.go:31-32 | the digits are those of the alphabet of RFC 4648, in its order |
| Base64.GroupsOfSix | azure/vmss.go:31-32 | three bytes make four digits whose six-bit values are the bits of the bytes, highest first, and one or two bytes are padded |
| CloudInit.GetCustomData | azure/vmss.go:17-56 | the text prints both maps, each in some order that lists every key once, the commands in an order of their own |
| CloudInit.FileText | azure/vmss.go:22-46 | the printed text of a file, character by character |
| CloudInit.FrameText | azure/vmss.go:18-54 | the printed head and the printed text of a command, character by character |
| CloudInit.PrintsInFull | azure/vmss.go:17-56 | the printed text is the head, the files of data with mode 0644, the files that are run with mode 0755, "runcmd:", and the commands |
| CloudInit.ReadsBack | azure/vmss.go:17-56 | a line-by-line reader recovers paths, permissions, contents and commands in the printed order |
| CloudInit.ToldExactly | azure/vmss.go:17-56 | for all maps and iteration orders, a line-by-line reader recovers both maps, with the keys of the second as commands, if and only if no key has a line break |
| CloudInit.PrintedIsToldExactly | azure/vmss.go:17-56 | so that reader recovers the maps from whatever the printer returns if and only if no key has a line break |
| CloudInit.SameTextSameMaps | azure/vmss.go:17-56 | maps without line breaks that print the same text are the same |
| CloudInit.LineBreakHidesAFile | azure/vmss.go:22-32 | behind every two files there is a single one, with line breaks in its path, that prints the same text |
| CloudInitUnique.TwoFilesHide | azure/vmss.go:22-33 | a text with at least two files of data, whatever its keys, is also printed from another map |
| CloudInitUnique.UniqueExactly | azure/vmss.go:17-56 | a text printed from maps with one-line keys comes from no other pair of maps at all, keys with line breaks included, if and only if it writes at most one file of data |
| DeepCopies.CopyInto | api/v1alpha1/zz_generated.deepcopy.go:102-293 | the copy of a NodeSet, NodePool or ControlPlane has every field of the source, and behind each reference, nil exactly where the source's is, new memory with the same contents |
| DeepCopies.DeepCopy | api/v1alpha1/zz_generated.deepcopy.go:111-303 | nil for nil, otherwise a new object that says the same in new memory |
| DeepCopies.CopyItems | api/v1alpha1/zz_generated.deepcopy.go:129-325 | the items of a copied list say the same and no two share memory, whatever those of the source do |
| DeepCopies.DeepCopyList | api/v1alpha1/zz_generated.deepcopy.go:129-337 | a list's copy has nil items for nil, otherwise a new slice of separate copies in the same order |
| DeepCopies.WriteItem | api/v1alpha1/zz_generated.deepcopy.go:317-324 | any write to the memory behind one item of the copy leaves every other item alone |
| DeepCopies.CopyThenWrite | api/v1alpha1/zz_generated.deepcopy.go:287-303 | after any write to the memory behind one side, the other still says what it said |
| DeepCopies.ClusterCopyShares | bootstrap/spec.go:51-54 | the copy of a cluster is separate if and only if it has no slice of discovery hashes |
| DeepCopies.WriteThroughCopy | bootstrap/spec.go:51-54 | a hash written to the copy is written to the source |

## Left out

- Azure SDK calls, authorizers, networks, load balancers: calls may fail with or without effect, and scale sets may change at any time.
- Shell scripts, kubeadm configuration, certificates and kubeconfig generation: rendering is a call that may fail; drains and upgrades are single steps.
- The command line, the dashboard and the cluster controller, whose finalizer branch is a smaller copy of the NodeSet one.
- Real time and sleeps: only numbers of polls are kept.
- The machine size that is passed on to the cloud, and its default.
- Owner references, labels and events, and several pools in one namespace.
- The upgrade by reimaging and the search for zones, which nothing calls or which loop over a library's iterator.
- gzip itself: a compressed file is its content behind a stream with short reads, which can be restarted; the generated bytes are always valid, so a restart does not fail.
- Opening a path: cleaning it is the library's work, and the rest is one lookup.
- 32-bit counts: machine counts are unbounded integers; they are far below 2^31 in any cloud.
- Helpers.WaitForNodeVersionReady: the sleeps and the text of its errors are not modelled.
- ControlPlane.SucceededIsHonest: assumes that no pass goes to work while a command for another version is outstanding, that versions are not empty, and that the version stays until the first success; `HonestUntilChangeExactly` says what each of them is for.
- CloudInitUnique.UniqueExactly: which texts with at most one file of data are ambiguous when a key of their own has a line break is not said.
- ControlPlane.FrontierKept: assumes that listings return the same masters in the same order.
- Rounds.ConvergesWithinRounds: says nothing about rounds with failing calls, since nothing can be promised there.
- DeepCopies.CopyInto: of the metadata only the name and the finalizers are modelled; the rest is copied by the library.
