# Ferrobox, verified

A Dafny model of Ferrobox's sandbox and snapshot lifecycle, of the guest agent and the snapshot store it
rests on, and of the smaller algorithms beside them. `dafny verify dfyconfig.toml` checks everything.

## What is modelled

**The lifecycle protocol** (`Lifecycle*.dfy`, `Guest.dfy`). The Firecracker runtime is a step system: every
operation in flight is a program counter, one action lets one operation run to its next await point, and a
choice decides how each outside call ends: it works, it fails without effect, or it takes effect and its answer
is lost. The state holds the `sandboxes` and `snapshots` maps, one lock per record and per artifact, the
records, the virtual machines with the guest inside, and the artifacts. The steps are in `Lifecycle.dfy`:

| step function | source |
|---|---|
| `LaunchStep` | `crates/ferrobox-node/src/firecracker_runtime.rs:1017-1330` |
| `DeleteStep` | `crates/ferrobox-node/src/firecracker_runtime.rs:420-453`, `1838-1847` |
| `CloneStep` | `crates/ferrobox-node/src/firecracker_runtime.rs:1675-1725` |
| `RollbackPrepare`, `RollbackFinish` | `crates/ferrobox-node/src/firecracker_runtime.rs:1727-1825` |
| `ControlStep` | `crates/ferrobox-node/src/firecracker_runtime.rs:805-831`, `1467-1512` |
| `CaptureStep` | `crates/ferrobox-node/src/firecracker_runtime.rs:1514-1623` |
| `InspectStep`, `ListStep`, `DropStep` | `crates/ferrobox-node/src/firecracker_runtime.rs:1650-1663`, `1625-1648`, `1827-1836` |

`LifecycleInvariant.dfy` states what every operation may rely on, `LifecyclePreservation.dfy` proves that every
step of every operation keeps it. `LifecycleTheorems.dfy` and `LifecycleHistory.dfy` draw the conclusions about all reachable states
and all runs; `LifecycleWitness.dfy` holds two concrete runs. `ApiTable.dfy` puts the API's record table on top
of the same step system: each API call is the sequence of its accesses to the table around one runtime call.

**One call at a time.** Where the interest is in which of many fallible steps failed, the code is modelled as
classes whose methods update their fields: the host's resources during a launch and a termination
(`Launch.dfy`), the artifact directories (`SnapshotStore.dfy`), one `create_snapshot` call (`CreateSnapshot.dfy`),
the guest's identity (`Guest.dfy`), the template catalog and its resolver (`Catalog.dfy`). The set of failing
steps is a parameter, and every contract holds for every such set.

**The algorithms**: the shared output budget (`OutputBudget.dfy`, again a step system, over all interleavings of
the two readers), chunked file reads (`ChunkedRead.dfy`), snapshot listing and paging (`Paging.dfy`), link
rewriting of the tar extractor (`PosixPaths.dfy`, `TarLinks.dfy`), JSON merge patch as in section 2 of RFC 7396
and the code-generation projection (`MergePatch.dfy`, `Projection.dfy`).

## What turned out false, and when exactly it holds

- The guest of an unlocked entry can carry another identity than the entry: a rollback whose swap is refused, or
  whose second rekey took effect without an answer, releases the replacement's record before it deletes it.
  `IdentityAgreement` says this is the only case, `DisagreementWitness` is a run that reaches it, `IssuedAgree`
  and `RecordedAgree` show that no id known to a caller is ever affected.
- The lock order alone does not exclude deadlock. A failing clone batch holds the snapshot's lock while it deletes
  its clones; a rollback of one of those clones on the same snapshot holds that record while it waits for the
  snapshot. `DeadlockWitness` reaches this state and `EmbraceIsForever` shows that it is final. For `DeadlockFree`
  it suffices that rollbacks target ids which some call has returned (it is not necessary: not every other rollback
  meets a failing batch); `ApiDeadlockFree` shows that the API's record
  table enforces this.
- A record can stay in the API's table forever. `runtime.delete` removes the sandbox before it cleans up; if the
  clean-up fails the API record becomes `Failed`, and every later deletion is told that the sandbox does not
  exist. `CleanupDecides` and `MarkingDecides` give the exact conditions, `HopelessForever` the permanence and
  `HopelessWitness` a run.
- `docs/snapshots.md` promises that a failure before publication removes the partial directory. A chmod that
  fails right after the directory was created leaves it behind, empty (`crates/ferrobox-node/src/snapshot.rs:172`);
  `Stage` and `Create` state this exactly.
- If the reply to the pause of a running sandbox is lost, `create_snapshot` leaves a `Running` record on a
  machine that stands still; `Create` says that this is the only case.
- A guest read of zero bytes reports the end of the file wherever it is; `BackendsAgree` of `ChunkedRead` is the
  exact condition.
- Beyond the output limit the two backends need not agree on which bytes are kept: they do in every run if and only
  if the limit is not exceeded, one of the streams is empty, or the limit is zero (`BytesAgree`). They agree on which
  streams are marked as cut if and only if the limit is not exceeded, or standard output alone exceeds it and there
  is standard error to lose (`MarksAgree`). They always agree on how many bytes there are and on whether the limit
  was exceeded (`BackendsAgree` of `OutputBudget`).
- A failing launch gives back what it acquired, but not only that: network names are made of eight digits of the
  sandbox id, so the set-up of a lease whose names are in use fails and takes down the other sandbox's lease.
  `LaunchBalances` says that this is the only case in which a failing launch harms what others own.
- A second pass of the tar inspection changes nothing, but may refuse a link that the first pass made longer than
  4096 bytes: `SecondPass` is the exact condition and `SecondPassMayRefuse` gives such an archive.
- An alias that spells another template's identity hides that template from lookups by identity.
  `AliasAndIdentityAgree` is the exact condition; the runtime resolver then refuses instead of starting the wrong
  template.

## Model

| member | source | states |
|---|---|---|
| GuestServer.GuestService.Authorized | crates/ferrobox-guest/src/service.rs:67-82 | only the token whose digest the guest holds is let in; an uninitialised guest lets nobody in |
| GuestServer.GuestService.Init | crates/ferrobox-guest/src/service.rs:153-199 | the first init fixes the identity, an identical replay changes nothing, any other is refused |
| GuestServer.GuestService.Rekey | crates/ferrobox-guest/src/service.rs:201-239 | who held the current token when the call began replaces the whole identity, whatever another call did in between; a failing rekey writes nothing |
| GuestServer.RekeyRotates | crates/ferrobox-guest/src/service.rs:201-239 | after a rotation exactly the new token is accepted |
| LifecyclePreservation.ActionInv | crates/ferrobox-node/src/firecracker_runtime.rs:1017-1847 | every step of every operation, whatever its outside calls do, keeps the invariant of locks, maps, machines, tokens and artifacts |
| LifecyclePreservation.RunInv | crates/ferrobox-node/src/firecracker_runtime.rs:1017-1847 | the invariant holds in every state of every run |
| LifecycleTheorems.VmOwnership | crates/ferrobox-node/src/firecracker_runtime.rs:420-453 | no machine is terminated twice, and one that is not terminated belongs to exactly one launch, map entry or remover |
| LifecycleTheorems.NothingLeftBehind | crates/ferrobox-node/src/firecracker_runtime.rs:1838-1847 | when all operations are over, the machines not terminated are exactly the mapped ones |
| LifecycleTheorems.IdentityAgreement | crates/ferrobox-node/src/firecracker_runtime.rs:1764-1812 | the guest of an unlocked entry holds the entry's id and the record's token, except in the window of a failing rollback |
| LifecycleTheorems.IssuedAgree | crates/ferrobox-node/src/firecracker_runtime.rs:1284-1324 | for every id returned to a caller the agreement has no exception |
| LifecycleTheorems.ArtifactAuthenticates | crates/ferrobox-node/src/firecracker_runtime.rs:1561-1578 | a published artifact's token authenticates against the guest memory captured with it, always if its source is known to a caller |
| LifecycleTheorems.StepsOrWaits | crates/ferrobox-node/src/firecracker_runtime.rs:796-831 | an unfinished operation can step unless another one holds the lock it needs |
| LifecycleTheorems.SnapshotHolderSteps | crates/ferrobox-node/src/firecracker_runtime.rs:1687-1724 | who holds a snapshot's lock is at most one wait away from a step |
| LifecycleTheorems.RecordHolderSteps | crates/ferrobox-node/src/firecracker_runtime.rs:1732-1766 | who holds a record's lock is at most two waits away from a step |
| LifecycleTheorems.DeadlockFree | crates/ferrobox-node/src/firecracker_runtime.rs:1625-1847 | it suffices that rollbacks target returned ids: then every unfinished operation is at most three waits away from one that can step |
| LifecycleTheorems.EmbraceIsForever | crates/ferrobox-node/src/firecracker_runtime.rs:1716-1742 | a clone's undo and a rollback that wait for each other never move again |
| LifecycleTheorems.EmbraceBlocks | crates/ferrobox-node/src/firecracker_runtime.rs:1716-1742 | such a pair exists only if a rollback targets an id that no call returned |
| LifecycleWitness.DeadlockWitness | crates/ferrobox-node/src/firecracker_runtime.rs:1716-1742 | a run from the empty runtime that reaches such a pair |
| LifecycleWitness.DisagreementWitness | crates/ferrobox-node/src/firecracker_runtime.rs:1770-1783 | a run that reaches an unlocked entry whose guest carries another identity |
| LifecycleHistory.EntryChange | crates/ferrobox-node/src/firecracker_runtime.rs:1786-1844 | an entry of the sandbox map changes only by an insert, a delete or a committing rollback |
| LifecycleHistory.RollbackTouches | crates/ferrobox-node/src/firecracker_runtime.rs:1732-1812 | a rollback changes no entry but its replacement's until it commits, and then only which record the public id maps to |
| LifecycleHistory.CommitIsFinal | crates/ferrobox-node/src/firecracker_runtime.rs:1813-1824 | a rollback that swapped can only end in success |
| LifecycleHistory.FailedRollback | crates/ferrobox-node/src/firecracker_runtime.rs:1770-1810 | a rollback that fails never swapped, and its replacement is not mapped when it ends |
| LifecycleHistory.FailedRollbackLeavesNothing | crates/ferrobox-node/src/firecracker_runtime.rs:1759-1810 | a failed rollback leaves no id mapped that it launched, wherever it failed |
| LifecycleHistory.PublicIdStaysMapped | crates/ferrobox-node/src/firecracker_runtime.rs:1786-1804 | an id known to callers stays mapped through every run, rollbacks included, until somebody deletes it |
| LifecycleHistory.PublicIdKeepsRecord | crates/ferrobox-node/src/firecracker_runtime.rs:1786-1804 | and maps to the same record until a rollback of it commits |
| LifecycleHistory.NeverMappedAgain | crates/ferrobox-node/src/firecracker_runtime.rs:1786-1804 | an id that was mapped and no longer is will never be mapped again, not even by a rollback under way |
| LifecycleHistory.RetiredForever | crates/ferrobox-node/src/firecracker_runtime.rs:1838-1844 | a removed id stays unmapped in every later state |
| LifecycleHistory.DeadForever | crates/ferrobox-node/src/firecracker_runtime.rs:420-448 | a record in Deleting, Deleted or Failed never leaves these states |
| LifecycleHistory.CommandsReachLiveVms | crates/ferrobox-node/src/firecracker_runtime.rs:1467-1606 | no pause, resume or capture commands a machine whose termination has begun |
| LifecycleHistory.StaleRecordsAreInert | crates/ferrobox-node/src/firecracker_runtime.rs:824-829 | an operation that fetched a record before it died and locks it afterwards is refused and changes nothing |
| LifecycleHistory.LeaseProtects | crates/ferrobox-node/src/firecracker_runtime.rs:1827-1836 | nobody changes or deletes an artifact while another operation holds its lock |
| LifecycleHistory.LaunchesFromVerified | crates/ferrobox-node/src/firecracker_runtime.rs:1687-1704 | clones and rollbacks launch from an artifact they hold and have verified |
| LifecycleHistory.NoOrphan | crates/ferrobox-node/src/firecracker_runtime.rs:1311-1330 | a mapped id was returned by the operation that launched it, or that operation still runs |
| LifecycleHistory.FailedCloneLeavesNothing | crates/ferrobox-node/src/firecracker_runtime.rs:1700-1722 | a failed clone leaves no id of its batch mapped, at whatever position it failed |
| LifecycleHistory.SuccessfulClone | crates/ferrobox-node/src/firecracker_runtime.rs:1699-1725 | a successful clone returns exactly the requested number of distinct ids of its own, mapped unless removed since |
| ApiTable.ApiRunInv | crates/ferrobox-api/src/lib.rs:170-841 | every run of API calls over the runtime keeps the invariant between the record table and the runtime's map |
| ApiTable.NoOrphanBetweenLayers | crates/ferrobox-api/src/lib.rs:170-230 | whatever the runtime maps has a record, is in the ready pool, or belongs to a call under way; records are only of issued ids |
| ApiTable.RecordsOutliveSandboxes | crates/ferrobox-api/src/lib.rs:791-798 | a record leaves the table only when the runtime has removed the sandbox for good |
| ApiTable.ApiDeadlockFree | crates/ferrobox-api/src/lib.rs:701-725 | behind the API every unfinished runtime operation is at most three waits away from one that can step |
| ApiTable.ApiProgress | crates/ferrobox-api/src/lib.rs:791-841 | while a call is open, something can move without a new request |
| ApiTable.RecordedAgree | crates/ferrobox-api/src/lib.rs:843-857 | every sandbox with a record has a guest of its own id and token whenever its runtime record is unlocked |
| ApiTable.CleanupDecides | crates/ferrobox-api/src/lib.rs:791-798 | a deletion leaves its record in the table forever exactly when the runtime's clean-up fails |
| ApiTable.MarkingDecides | crates/ferrobox-api/src/lib.rs:797-798 | after a successful deletion the record goes exactly if its state is still Deleting |
| ApiTable.HopelessForever | crates/ferrobox-api/src/lib.rs:791-841 | such a record stays whatever calls follow |
| ApiTable.HopelessWitness | crates/ferrobox-api/src/lib.rs:791-796 | one creation and one deletion with a failing clean-up reach such a record |
| SnapshotStore.Store.Stage | crates/ferrobox-node/src/snapshot.rs:157-180 | success stages exactly the request's files and manifest; failure leaves the store as it was, but for the failing chmod |
| SnapshotStore.Store.StageInner | crates/ferrobox-node/src/snapshot.rs:182-236 | copies the artifacts and the token, and works exactly when no copy, chmod or sync fails |
| SnapshotStore.Store.FinalizeInner | crates/ferrobox-node/src/snapshot.rs:253-302 | publishes the staged files with the filled manifest; after a failure at most the partial directory is left |
| SnapshotStore.Store.Finalize | crates/ferrobox-node/src/snapshot.rs:238-247 | publication is all or nothing: an error leaves neither the partial nor the final directory |
| SnapshotStore.Store.Discard | crates/ferrobox-node/src/snapshot.rs:249-251 | removes the partial directory and nothing else |
| SnapshotStore.Store.VerifiedManifest | crates/ferrobox-node/src/snapshot.rs:321-368 | the verdict is positive exactly for a directory that is intact against the expected manifest |
| SnapshotStore.Store.ReadRestoreToken | crates/ferrobox-node/src/snapshot.rs:370-384 | a token is handed out only if it is the one the manifest digests |
| SnapshotStore.Store.Delete | crates/ferrobox-node/src/snapshot.rs:386-394 | removes the one directory, or nothing if the removal fails |
| SnapshotStore.Store.FilledFacts | crates/ferrobox-node/src/snapshot.rs:257-271 | finalizing enters exactly the sizes and digests of the artifacts and their saturated sum, and changes nothing else of the manifest |
| SnapshotStore.Store.PublishedFacts | crates/ferrobox-node/src/snapshot.rs:257-273 | the published manifest matches its files, its own digest and this node |
| SnapshotStore.Store.VerdictIsIdentity | crates/ferrobox-node/src/snapshot.rs:321-368 | for a finalized artifact a directory verifies if and only if manifest, vmstate, memory, rootfs and token are the finalized ones |
| CreateSnapshot.SnapshotRuntime.Capture | crates/ferrobox-node/src/firecracker_runtime.rs:1539-1581 | what is staged shows one instant of the machine, the jail is left without capture files |
| CreateSnapshot.SnapshotRuntime.Restore | crates/ferrobox-node/src/firecracker_runtime.rs:1582-1606 | the record gets its initial state back, or Failed exactly if its own resume or reconnect failed |
| CreateSnapshot.SnapshotRuntime.Locked | crates/ferrobox-node/src/firecracker_runtime.rs:1524-1607 | the same for everything done under the record's lock, with the exact condition under which record and machine agree |
| CreateSnapshot.SnapshotRuntime.Publish | crates/ferrobox-node/src/firecracker_runtime.rs:1616-1622 | the snapshot is listed if and only if it was published, with the files that were staged |
| CreateSnapshot.SnapshotRuntime.PublishedIntact | crates/ferrobox-node/src/firecracker_runtime.rs:1616-1622 | what is published verifies |
| CreateSnapshot.SnapshotRuntime.Conclude | crates/ferrobox-node/src/firecracker_runtime.rs:1608-1622 | a staged snapshot is published or discarded, and an error leaves nothing of it |
| CreateSnapshot.SnapshotRuntime.Create | crates/ferrobox-node/src/firecracker_runtime.rs:1514-1623 | for every pattern of failures: the record's final state, the exact condition of success, an unchanged store on error, a verifying artifact of one instant on success |
| LaunchLedger.Host.AcquireNetwork | crates/ferrobox-node/src/network.rs:44-188 | a lease is acquired exactly if networking is enabled, its names are free and every command works; a failing set-up takes down whatever has those names |
| LaunchLedger.Host.LaunchInner | crates/ferrobox-node/src/firecracker_runtime.rs:1111-1330 | succeeds exactly if no step it takes fails; on error the child is dead, the lease given back and nothing inserted |
| LaunchLedger.Host.Launch | crates/ferrobox-node/src/firecracker_runtime.rs:1079-1109 | on success exactly one record owns child, jail, cgroup and, if networked, lease; on error nothing of the launch is left but what could not be removed, and a lease of the same network names is gone |
| LaunchLedger.Host.Terminate | crates/ferrobox-node/src/firecracker_runtime.rs:420-453 | releases everything the record owns; its last state is Deleted exactly when jail and cgroup are gone |
| LaunchLedger.Host.Delete | crates/ferrobox-node/src/firecracker_runtime.rs:1838-1847 | removes and terminates the one record and tells its last state, or reports that there is none |
| LaunchLedger.LaunchBalances | crates/ferrobox-node/src/firecracker_runtime.rs:1079-1330 | a working launch leaves each child, lease, jail and cgroup with one owner; a failing one leaves them so, its own leftovers counted, if and only if it did not take down a lease whose names it shares |
| LaunchLedger.DeleteBalances | crates/ferrobox-node/src/firecracker_runtime.rs:420-453 | so it is after any deletion, under whatever id the record is mapped |
| LaunchLedger.SwapBalances | crates/ferrobox-node/src/firecracker_runtime.rs:1799-1819 | and after a rollback's swap with the termination of the old record, whatever of it cannot be removed |
| LaunchLedger.DeleteUndoesLaunch | crates/ferrobox-node/src/firecracker_runtime.rs:1838-1847 | deleting what a launch created gives back the host as it was |
| OutputBudget.RunInv | crates/ferrobox-guest/src/service.rs:519-571 | every interleaving of the two readers keeps the budget's invariant |
| OutputBudget.PrefixAndBound | crates/ferrobox-guest/src/service.rs:532-570 | each delivered stream is a prefix of what was read, the total is within the maximum and the counter within two buffers of it |
| OutputBudget.JoinedTotals | crates/ferrobox-guest/src/service.rs:536-545 | once joined, exactly the smaller of bytes read and maximum was delivered, less what failed sends lost, and the limit was hit exactly if more was read |
| OutputBudget.ExitIsLast | crates/ferrobox-guest/src/service.rs:325-349 | the exit event is sent once, after all output, with the final flag |
| OutputBudget.ExitIsFinal | crates/ferrobox-guest/src/service.rs:325-349 | nothing changes after the exit event |
| OutputBudget.TruncateOutput | crates/ferrobox-node/src/process_runtime.rs:216-227 | standard output first, standard error in the rest, each flag exactly if its stream lost bytes |
| OutputBudget.BackendsAgree | crates/ferrobox-node/src/process_runtime.rs:216-246 | on a process's whole output both backends keep equally many bytes, and the guest reports the limit exactly if the process backend cuts something |
| OutputBudget.BytesAgree | crates/ferrobox-node/src/process_runtime.rs:216-227 | every run of the guest keeps the bytes the process backend keeps if and only if the limit is not exceeded, one stream is empty, or the limit is zero |
| OutputBudget.MarksAgree | crates/ferrobox-guest/src/service.rs:335-342 | the guest marks both streams alike; its marks are those of the process backend if and only if the limit is not exceeded, or standard output alone exceeds it and there is standard error |
| OutputBudget.ErrorFirst | crates/ferrobox-guest/src/service.rs:532-570 | whenever two non-empty streams exceed a positive limit, reading standard error first delivers less standard output than the process backend keeps |
| OutputBudget.Collect | crates/ferrobox-node/src/firecracker_runtime.rs:952-990 | the host's result is each stream's events in order, and needs an exit and no error |
| OutputBudget.HostSees | crates/ferrobox-node/src/firecracker_runtime.rs:952-998 | what the host collects from a finished run is what the readers read, cut to the maximum |
| ChunkedRead.ReadCall | crates/ferrobox-guest/src/service.rs:439-444 | a read call returns some of what is there, and nothing only at the end |
| ChunkedRead.ReadChunks | crates/ferrobox-guest/src/service.rs:434-450 | whatever the read calls return, the chunks join to the file's bytes up to the maximum or its end |
| ChunkedRead.ReadFile | crates/ferrobox-guest/src/service.rs:414-462 | a request gets at least one chunk, only the last may end the file, none exceeds the chunk size |
| ChunkedRead.Read | crates/ferrobox-node/src/firecracker_runtime.rs:1403-1427 | guest chunking and host concatenation give the requested bytes and one flag |
| ChunkedRead.BackendsAgree | crates/ferrobox-node/src/process_runtime.rs:335-348 | both backends answer alike exactly if a byte is asked for or there is none to read |
| ChunkedRead.Download | crates/ferrobox-guest/src/service.rs:422-458 | a client that moves on by what it received ends with the file, exactly |
| SnapshotPaging.ListSnapshots | crates/ferrobox-node/src/firecracker_runtime.rs:1625-1648 | all snapshots of the source, once each, by creation time and id |
| SnapshotPaging.ListingUnique | crates/ferrobox-node/src/firecracker_runtime.rs:1638-1646 | the listing does not depend on the order in which the map is read |
| SnapshotPaging.ServePage | crates/ferrobox-api/src/lib.rs:554-578 | a page is refused exactly for a limit outside 1 to 100 or a cursor that is not listed; no index is out of range |
| SnapshotPaging.FetchAll | crates/ferrobox-api/src/lib.rs:557-578 | following the cursors ends and gives exactly the listing, for any limits |
| SnapshotPaging.PagePassesNothing | crates/ferrobox-api/src/lib.rs:563-578 | up to its own cursor a page passes no snapshot over |
| SnapshotPaging.NothingTwiceNothingMissed | crates/ferrobox-api/src/lib.rs:546-579 | even if snapshots come and go between the pages, none is shown twice and none that stays is missed |
| PosixPaths.JoinSplit | scripts/safe-extract-tar.py:35-41 | a path is its segments joined |
| PosixPaths.PartsJoin | scripts/safe-extract-tar.py:35-41 | joining proper components and taking them apart is the identity |
| PosixPaths.RelativeLeadsThere | scripts/safe-extract-tar.py:100-105 | the relative path leads from its start to its target without leaving the root |
| PosixPaths.RelativeIgnoresCwd | scripts/safe-extract-tar.py:102-105 | the working directory that `relpath` goes through does not show in its result |
| TarLinks.EscapedMeans | scripts/safe-extract-tar.py:20-24 | a backslash is safe exactly if it starts a two-digit hex escape |
| TarLinks.NameShape | scripts/safe-extract-tar.py:27-41 | accepted names are relative, free of `..` and normalised |
| TarLinks.SymLinkStaysRooted | scripts/safe-extract-tar.py:99-111 | a rewritten symbolic link leads from the member's directory exactly to the normalised target, never above the root |
| TarLinks.HardLinkStaysRooted | scripts/safe-extract-tar.py:107-109 | a rewritten hard link leads there from the root |
| TarLinks.InspectMember | scripts/safe-extract-tar.py:64-111 | a member is admitted exactly if its name, type, size and link are in order, and is counted and rewritten |
| TarLinks.InspectMembers | scripts/safe-extract-tar.py:44-122 | accepts exactly the acceptable archives, rewrites in place exactly the absolute links, and measures the archive |
| TarLinks.KindsAddUp | scripts/safe-extract-tar.py:79-89 | the four kinds add up to the number of members |
| TarLinks.RewrittenText | scripts/safe-extract-tar.py:91-111 | a rewritten link passes every check again but possibly that of its length |
| TarLinks.SecondPass | scripts/safe-extract-tar.py:63-111 | a second pass rewrites nothing, accepts exactly if no link grew too long, and measures the same |
| TarLinks.SecondPassMayRefuse | scripts/safe-extract-tar.py:95-109 | there are archives that are accepted and, once rewritten, refused |
| JsonMergePatch.MergePatch | scripts/openapi_codegen_projection.py:75-85 | the loop over the patch's members, in any order, gives the result that section 2 of RFC 7396 defines |
| JsonMergePatch.MergeIdempotent | scripts/openapi_codegen_projection.py:75-85 | applying a patch twice is applying it once |
| JsonMergePatch.MergeFrame | scripts/openapi_codegen_projection.py:79-85 | what the patch does not name stays as it was, at every depth |
| JsonMergePatch.MergeSets | scripts/openapi_codegen_projection.py:80-84 | what it names is set, or removed if named with null, at every depth |
| JsonMergePatch.MergeAddsNoNulls | scripts/openapi_codegen_projection.py:80-84 | a patch never brings a null member in |
| JsonMergePatch.MergeIntoNothing | scripts/openapi_codegen_projection.py:79-84 | a null-free patch of something that is no object is its own result |
| CodegenProjection.ValidateStrictContract | scripts/openapi_codegen_projection.py:88-135 | passes exactly the documents with the strict union and its four variants |
| CodegenProjection.OverlayMerged | scripts/openapi_codegen_projection.py:58-68 | the overlay changes a strict document at ExecTermination and nowhere else |
| CodegenProjection.ProjectDocument | scripts/openapi_codegen_projection.py:138-150 | accepts exactly strict documents with the reviewed overlay, returns the document with the projected schema, and its final check never fires |
| CodegenProjection.ProjectionFrame | scripts/openapi_codegen_projection.py:138-150 | every other value in the document reads as before |
| CodegenProjection.StrictMeans | scripts/openapi_codegen_projection.py:26-38 | the strict union accepts exactly the four kinds of termination objects |
| CodegenProjection.ProjectedMeans | scripts/openapi_codegen_projection.py:39-57 | the projected schema accepts a kind with any of the two details |
| CodegenProjection.ProjectionWidens | scripts/openapi_codegen_projection.py:26-57 | every termination valid under the strict union is valid under the projection, which adds just those with a missing or foreign detail |
| Catalog.TemplateCatalog.AllRecords | crates/ferrobox-template/src/lib.rs:314-335 | all records, or an error if one does not pass validation |
| Catalog.TemplateCatalog.Resolve | crates/ferrobox-template/src/lib.rs:337-350 | a reference means the record of that alias, or else the one of that identity; by alias exactly that record has to load, by identity all have to |
| Catalog.TemplateCatalog.Inspect | crates/ferrobox-template/src/lib.rs:275-294 | the record and whether its files still are what it describes |
| Catalog.TemplateCatalog.Persist | crates/ferrobox-template/src/lib.rs:352-388 | adds the record, never over another one |
| Catalog.TemplateCatalog.Build | crates/ferrobox-template/src/lib.rs:173-251 | succeeds exactly if the request is well formed and the template is there already or clashes with nothing and can be written; an identical rebuild changes nothing, a new template adds one record with verified files, every error changes nothing, and the catalog stays consistent |
| Catalog.TemplateCatalog.Delete | crates/ferrobox-template/src/lib.rs:296-308 | succeeds exactly if the reference can be resolved and the file removed, and removes the one record the reference means |
| Catalog.IdentityIsReference | crates/ferrobox-template/src/lib.rs:505-510 | an identity is a valid reference of exactly the greatest length |
| Catalog.LookupsSucceed | crates/ferrobox-template/src/lib.rs:337-350 | whatever is in the catalog can be looked up by its alias and by its identity |
| Catalog.BuiltConsistent | crates/ferrobox-template/src/lib.rs:231-251 | a build keeps aliases and identities one to one |
| Catalog.RunConsistent | crates/ferrobox-template/src/lib.rs:566-600 | in every run of build requests and deletions, failing ones included, all records are valid and aliases and identities correspond one to one |
| Catalog.AliasAndIdentityAgree | crates/ferrobox-template/src/lib.rs:337-350 | alias and identity mean the same record exactly if no other template has that identity as its alias |
| Catalog.RebuildUnchanged | crates/ferrobox-template/src/lib.rs:231-235 | a second request for the same template under the same alias, wherever its files are, leaves the catalog unchanged |
| Catalog.IdentityIgnoresLocations | crates/ferrobox-template/src/lib.rs:189-217 | the identity depends on the described fields and the files' contents, not on where the files are |
| Catalog.DigestsDiffer | crates/ferrobox-template/src/lib.rs:500-503 | two templates have the same descriptor digest exactly if fields and contents are the same |
| Catalog.DeleteAndRebuild | crates/ferrobox-template/src/lib.rs:296-308 | a template built, deleted and built again from equal fields and contents has the same identity wherever its files are, and nothing else has changed |
| Catalog.TemplateRuntimeResolver.Resolve | crates/ferrobox-node/src/template_runtime.rs:36-90 | what is resolved is the meaning of the reference, compatible and with verified files; a `tpl-` reference resolves to precisely that identity or not at all |

## Left out

- Firecracker and jailer HTTP, vsock, gRPC, process spawning, `ip`, `nft` and `iptables` commands, chmod and chown: each is a step that may fail.
- SHA-256 is a free constructor, so equal digests mean equal contents; token comparison in constant time, UUIDs and JSON text are abstract as well.
- Dropped client connections and cancelled futures: operations run to completion.
- A kill is always effective, and clean-up by `remove_dir_all` in the snapshot store always works.
- OutputBudget.Collect: does not model the process id, the exit status and the timeout flag, which the host passes through from the exit event.
- Changes to artifact files by others while their lock is held; without the lock anybody may damage them at any time.
- The failure path of `prewarm`, which drops sandboxes that it launched (`crates/ferrobox-node/src/firecracker_runtime.rs:225-237`), and the capture of the template snapshot within the lifecycle. The lifecycle boots a created sandbox cold; `Launch.dfy` has the restoring and the capturing variant.
- The lifecycle, the output readers and the API table are step systems over values, so that all interleavings are covered; updates in place and aliasing of records are expressed by record numbers there.
- Expiry and bearer tokens of the API, its snapshot table, its audit log and its HTTP routing. A rollback is let in for any recorded sandbox and any snapshot; the runtime's own check of the source is modelled.
- Equality of the API's and the runtime's state of a sandbox, which the code does not maintain.
- Wrap-around of the 64-bit output counter: it stays within two buffers of the maximum, so it cannot occur below 2^64 - 32768.
- Path resolution inside the guest (`relative_path`, `verify_components`) and in the process backend (`safe_path`).
- Validation of specifications, names, versions and digests in requests: requests carry the outcome.
- Order of members in JSON objects, JSON numbers that are not integers, and Python's `0 == False` when the overlay or the contract is compared.
- What `tarfile` itself filters at extraction, and names that are not valid Unicode.
- Two concurrent writers of the template catalog.
- The order of ids is that of numbers; the code compares their text, which is another total order.
