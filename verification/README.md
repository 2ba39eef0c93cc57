# A verified model of runwasi's shim

runwasi lets containerd run WebAssembly modules. This project models the parts of it whose correctness
depends on interleaving, lost messages and data kept elsewhere, and proves what they promise.

**The precompile cache.** `load_modules` keeps compiled layers in containerd's content store. A label on
the original layer names the compiled blob, a flag on the image says that it was compiled, gc-reference
labels keep blobs alive, and a lease named after the engine key is both pin and mutex.

- `PrecompileCache` is a state machine whose steps are single requests of any number of clients.
  Collections, deletions, pulls and removals of images happen in between, clients may die at any point,
  and each request is served, refused, never seen, or served with its reply lost; an upload may also be
  cut off anywhere. A run is any finite sequence of such actions from the empty store, and the theorems
  hold for every run (`Content`, `LabelKeys`, `Strings` and `Uploads` have its values, keys and uploads).
- `CacheCoherence` says what holds for any mix of engines, `CacheRetention` and `CacheWarmth` what one
  engine key adds, `LoadOutcome` and `LoneLoads` what a load leaves behind, `WarmLoads` what later loads
  do, `LoadProgress` when a load ends and fails, `CacheLeases` when a lease is leaked, `StuckUploads` what
  cut off uploads block, `LabelRaces` when engines lose labels to each other, and `CacheLimits` has runs
  that show where the promises end.
- `LoadModules.Session` is the imperative code, proved to take exactly the steps of one client of that
  machine for every schedule of the others. It uses any compiler given by what it does to one layer;
  `WasmCompile` is wasmtime's compile loop, proved to be such a compiler.
- `ContentWrite` is the upload of one blob, message by message, and `SaveRefinement` shows that what it
  does to containerd are the machine's own steps.

**The task lifecycle** (`Sync`, `ExitWatcher`, `TaskState`, `TaskService`, `TaskSafety`, `TaskEvents`,
`TaskProgress`, `TaskShutdown`, `ShutdownLimits`, `TaskExits`). The write-once waitable cell, the watcher that fills the
exit cell while the shim's own reaper may collect the process first, and the Task service as steps between
the points where a request can wait, with the per-task write lock held across calls into the instance.
`TaskSafety` and `TaskEvents` say what never happens, `TaskProgress` what does, and `TaskExits` puts the
service and the watchers together.

**Smaller parts**: the graceful drain of the HTTP proxy (`HttpDrain`), the OCI image layout writer
(`OciLayout`) and the ChainID loop (`ChainId`).

## What is assumed

- SHA-256 is an ideal hash: a digest determines its content (in `OciLayout` and `ChainId`, an injective
  function). The 64-bit hash of a cache key stands for the key.
- A compiler is a function of engine and layer that leaves its own output alone (`OwnOutput`);
  `WasmCompile.WasmtimeKeepsItsOutput` reduces this to wasmtime recognising what it precompiled.
  A compile call may also fail.
- containerd refuses to create a lease twice, replaces all labels on an update, checks offset, size and
  digest on a commit, truncates an upload that is written at offset zero, and pins a blob written under a
  lease even when it exists already. A collection may keep any set that contains the images and the
  leased blobs and is closed under gc references. A pull labels a manifest with references to its children.
- The shim's reaper publishes the exit code, or 128 plus the signal, and a pid is not reused before that.

## What turned out not to hold

- A failed save can change the committed content: exactly when the lease is free, the content new, its
  upload resumable, all messages before the commit are served and only the commit's reply is lost
  (`ContentWrite.Connection.SaveContent`; `ContentWrite.FailedSaveThatStores` does it).
- A cut off save can be resumed (`ContentWrite.RetrySucceeds`), but the reference of an upload is the
  engine's and not the blob's, so its bytes (`CacheLimits.CutUploadLeavesItsBytes`) block every other new
  blob of the engine that does not start with them, on every retry and with every message served
  (`ContentWrite.CutOffSaveBlocksOthers`, `StuckUploads.StuckUploadFailsLoads`). They go away exactly when
  a blob that starts with them, or an empty one, is stored (`StuckUploads.StuckExactly`).
- The lease is per engine key, so two engines can overwrite each other's labels
  (`CacheLimits.TwoEnginesLoseAnUpdate`): exactly when another client's label write is served between one
  client's read of the labels and its write and gives an engine a label that is still there then
  (`LabelRaces.LabelIsLostExactly`), and never in runs
  without overlapping snapshots (`LabelRaces.NoOverlapNoLoss`). Even then no lookup finds a wrong module
  (`CacheCoherence.LookupNeverLies`).
- A successful load need not leave the cache warm. Layers are warm exactly where the engine compiles them
  (`LoadOutcome.LoadWarmsWhatCompiles`), and the image gets its flag only if a layer is saved for it: an
  image whose layers are all cached on behalf of another stays without it, and each of its loads calls
  the compiler (`LoneLoads.LoneLoadWarmsExactly`, `CacheLimits.SharedLayersLeaveAnImageUnflagged`).
- A lease outlives its client exactly when some turn of the run lost the reply to its creation or the
  request to delete it, or the client died in the lease scope (`CacheLeases.LeaseIsLeakedExactly`,
  `CacheLimits.LostReplyLeaksALease`, `CacheLimits.CrashLeaksALease`), and from then on every load of that
  engine that has something to save fails (`LoadProgress.LeakedLeaseFailsLoads`).
- The instance map is checked and changed in separate steps and by id. An instance is lost, neither live
  nor deleted, exactly when its delete never succeeded and a create or delete of its id clobbered its
  entry (`TaskShutdown.InstanceIsLostExactly`). Overlapping creates do it
  (`ShutdownLimits.OverlappingCreatesLoseAnInstance`), and so do overlapping deletes followed by a create,
  after which the shim shuts down (`ShutdownLimits.OverlappingDeletesLoseAnInstance`).
- A ChainID determines the layers only among lists of equal length; `ChainId.SameChainIdExactly` says
  which lists share one.
- manifest.json and the OCI manifest list the same layers exactly when no two layers have the same
  content (`OciLayout.ManifestsAgreeExactly`).

## Model

| member | source | states |
|---|---|---|
| `CacheCoherence.CacheRefinesUncachedLoad` | crates/containerd-shim-wasm/src/containerd/client.rs:438-541 | in every run of any clients and engines, a load that succeeds returns one module per config in order: the original or its compilation, and exactly the module of an uncached load unless the compile call failed |
| `CacheCoherence.RunKeepsInv` | crates/containerd-shim-wasm/src/containerd/client.rs:391-542 | every run keeps the invariant: content matches its digest, labels only name compilations of their layer, lease holders own their lease, and every client's partial result is right |
| `CacheCoherence.Alignment` | crates/containerd-shim-wasm/src/containerd/client.rs:462-470 | the compile result has the length of the input exactly when no layer was skipped, and then entry i belongs to layer i |
| `CacheCoherence.CompilesExactlyTheOriginals` | crates/containerd-shim-wasm/src/containerd/client.rs:462-485 | in every run a load has compiled entries exactly for the layers it read as originals that compile |
| `CacheCoherence.LookupNeverLies` | crates/containerd-shim-wasm/src/containerd/client.rs:545-567 | in every run, for every engine, a lookup label that parses names the compilation of its layer, and reading it gives that compilation |
| `CacheCoherence.ProvenanceNeverLies` | crates/containerd-shim-wasm/src/containerd/client.rs:487-493 | in every run the back reference of a compiled blob names a layer it is the compilation of |
| `CacheCoherence.SavedBlobsTellTheirOrigin` | crates/containerd-shim-wasm/src/containerd/client.rs:487-493 | in every run a blob that a load adds carries exactly the back reference to the layer it was compiled from |
| `CacheCoherence.PinnedWhileSaving` | crates/containerd-shim-wasm/src/containerd/client.rs:491-535 | from commit to release the blob being saved is in the store unless deleted by hand, and no collection removes it |
| `CacheCoherence.MutualExclusion` | crates/containerd-shim-wasm/src/containerd/client.rs:125-151 | in every run at most one client of an engine key is between taking and releasing the lease |
| `CacheRetention.NoLostUpdate` | crates/containerd-shim-wasm/src/containerd/client.rs:500-530 | in every run with one engine key a turn keeps every label of every blob, with its value on plain layers |
| `CacheRetention.CachedModulesSurviveGc` | crates/containerd-shim-wasm/src/containerd/client.rs:507-511 | in every run with one engine key a lookup label never dangles, and a collection that keeps the layer keeps the compiled blob |
| `CacheRetention.RunKeepsRetained` | crates/containerd-shim-wasm/src/containerd/client.rs:503-528 | the retention invariant (snapshots inside the lease scope are current, labels come with a gc reference) holds over every run |
| `LoadOutcome.LoadWarmsWhatCompiles` | crates/containerd-shim-wasm/src/containerd/client.rs:443-537 | after every successful load, mixed or not, whatever others of the engine and the collector did and whatever was deleted before, a layer is warm exactly when the engine compiles it |
| `LoadOutcome.FlaggedExactly` | crates/containerd-shim-wasm/src/containerd/client.rs:520-528 | after any run the image is flagged exactly when it was before or a label write for it was served |
| `LoadOutcome.LoadWarmsExactly` | crates/containerd-shim-wasm/src/containerd/client.rs:438-541 | a successful load leaves the cache warm exactly when every layer compiles and the image was flagged or a layer was saved for it |
| `LoadOutcome.SavingFlags` | crates/containerd-shim-wasm/src/containerd/client.rs:513-528 | a successful load that saved a layer leaves the image flagged |
| `LoneLoads.LoneLoadWarmsExactly` | crates/containerd-shim-wasm/src/containerd/client.rs:440-541 | told from the store a lone load starts with: it leaves the cache warm exactly when every layer compiles and the image was flagged or some layer was not warm |
| `CacheLimits.SharedLayersLeaveAnImageUnflagged` | crates/containerd-shim-wasm/src/containerd/client.rs:440-483 | a run of two images sharing one layer in which the second one's load succeeds, calls the compiler and leaves the image unflagged |
| `WarmLoads.WarmLoadsOnlyRead` | crates/containerd-shim-wasm/src/containerd/client.rs:438-460 | starting warm, in every gentle interleaving a load never compiles, leases or writes, ends after at most 2n + 1 requests, and returns the compilation of every layer |
| `WarmLoads.LaterLoadsOnlyRead` | crates/containerd-shim-wasm/src/containerd/client.rs:438-541 | from the empty store: after a load that left the image warm, any history before it and gentle actions after it, a later load of the same image only reads in every continuation and returns the modules the first one returned |
| `WarmLoads.WarmLayersAreNotRecompiled` | crates/containerd-shim-wasm/src/containerd/client.rs:444-458 | once a layer is warm no later load compiles or saves it again, also when it has other layers to compile |
| `CacheWarmth.ReleasedBlobIsReferenced` | crates/containerd-shim-wasm/src/containerd/client.rs:513-535 | when the lease is about to be released, every gc-closed set that has the layer or the image has the compiled blob |
| `CacheWarmth.ReachableWorldsRun` | crates/containerd-shim-wasm/src/containerd/client.rs:391-542 | every store reachable with one engine key that holds the image, deletions included, meets the assumptions of the warmth theorems |
| `CacheLimits.TwoEnginesLoseAnUpdate` | crates/containerd-shim-wasm/src/containerd/client.rs:503-511 | a run of two engines in which the second engine's label update wipes out the first engine's label |
| `CacheLeases.LeaseLeaksExactlyWhenLost` | crates/containerd-shim-wasm/src/containerd/lease.rs:37-70 | a turn leaks a lease exactly when it loses the reply to its creation or the request to delete it; every other way out deletes it |
| `CacheLeases.LeaseIsLeakedExactly` | crates/containerd-shim-wasm/src/containerd/lease.rs:50-70 | after any run, crashes included, a lease is leaked exactly when some turn lost the reply to its creation or the request to delete it or a client died in the lease scope; refused and cut off uploads and failed loads leak nothing |
| `CacheLimits.CrashLeaksALease` | crates/containerd-shim-wasm/src/containerd/client.rs:125-151 | a run in which the holder of a lease dies and the lease outlives it |
| `CacheLimits.LostReplyLeaksALease` | crates/containerd-shim-wasm/src/containerd/client.rs:135-150 | a run in which the reply to the creation of a lease is lost and the lease outlives its client |
| `LabelRaces.LabelIsLostExactly` | crates/containerd-shim-wasm/src/containerd/client.rs:503-528 | in any run, after a client has written back labels of a blob every other engine finds what it found when they were read; so a label is lost exactly when another client's label write served in between had set it |
| `LabelRaces.NoOverlapNoLoss` | crates/containerd-shim-wasm/src/containerd/client.rs:487-535 | in runs of any engines without two snapshots of one blob at once, whatever is collected, deleted, pulled or lost, no turn takes away or changes another engine's label |
| `LabelRaces.NoOverlapNoChange` | crates/containerd-shim-wasm/src/containerd/client.rs:487-535 | if moreover blobs stay while their snapshots are held, no turn changes what any other engine finds on any blob, found or not |
| `LabelRaces.OneEngineNeverOverlaps` | crates/containerd-shim-wasm/src/containerd/client.rs:161-162 | clients of one engine key never hold two snapshots of a blob at once |
| `LoadProgress.LoadEnds` | crates/containerd-shim-wasm/src/containerd/client.rs:391-542 | every load of n layers is over after 11n + 4 of its own requests, whatever becomes of them and whatever others do |
| `LoadProgress.LoadFailsExactly` | crates/containerd-shim-wasm/src/containerd/client.rs:438-541 | in every run, whatever becomes of the messages: a load fails exactly when it dies or a request meets the failure of its step; a miss in the cache, an error of the compile call and a lost release are none |
| `LoadProgress.CompileErrorReturnsTheLayers` | crates/containerd-shim-wasm/src/containerd/client.rs:471-475 | in every run a load whose compile call erred, and no other, ends there and returns exactly the layers it has read |
| `LoadProgress.ServedLoadFailsExactly` | crates/containerd-shim-wasm/src/containerd/client.rs:438-541 | served and with its content present, a load fails exactly when it meets a layer its engine does not recognise, the lease in other hands, or a left-over upload that is no prefix of a new blob |
| `StuckUploads.StuckExactly` | crates/containerd-shim-wasm/src/containerd/client.rs:161-214 | over any run, the bytes of a cut off upload stay at the front of the engine's upload exactly until a blob that starts with them, or an empty one, is stored |
| `StuckUploads.StuckUploadFailsLoads` | crates/containerd-shim-wasm/src/containerd/client.rs:161-268 | until then every load of the engine that saves a new blob not starting with them fails, whatever becomes of its messages, and leaves them there |
| `CacheLimits.CutUploadLeavesItsBytes` | crates/containerd-shim-wasm/src/containerd/client.rs:213-236 | a run in which an upload is cut off and leaves its bytes behind |
| `LoadProgress.LeakedLeaseFailsLoads` | crates/containerd-shim-wasm/src/containerd/client.rs:161-162 | a leaked lease stays leaked in every continuation, and every load of its engine that has something to save fails |
| `LabelKeys.PrecompileLabelInjective` | crates/containerd-shim-wasm/src/containerd/client.rs:583-590 | the precompile label determines engine name and key hash, even if the name has slashes |
| `LabelKeys.TextInjective` | crates/containerd-shim-wasm/src/containerd/client.rs:487-527 | lookup labels, original labels and gc references never share a label string |
| `LabelKeys.LeaseIdInjective` | crates/containerd-shim-wasm/src/containerd/client.rs:161-162 | two saves use the same lease exactly when they have the same engine key |
| `LabelKeys.Spelled` | crates/containerd-shim-wasm/src/containerd/client.rs:487-527 | label keys and lease ids as they are spelled in containerd |
| `LabelKeys.DecimalReadsBack` | crates/containerd-shim-wasm/src/containerd/client.rs:584-588 | numbers in labels are decimal without leading zeros and read back |
| `ContentWrite.Connection.SaveContent` | crates/containerd-shim-wasm/src/containerd/client.rs:154-273 | for all data, leftover uploads and fates of messages: exactly when it succeeds, and then the data is committed under its own digest and leased; failure changes content exactly when only the commit's reply is lost, and otherwise the upload it leaves is as good for the data as the one it found; the server after it is a function of the fates; chunks are contiguous, bounded and cover the missing data once |
| `ContentWrite.RetrySucceeds` | crates/containerd-shim-wasm/src/containerd/client.rs:196-215 | a failed save, cut off wherever, whose upload could be completed and whose lease is gone succeeds when tried again with its messages served |
| `ContentWrite.CutOffSaveBlocksOthers` | crates/containerd-shim-wasm/src/containerd/client.rs:161-214 | after a cut off save of one blob two saves of another fail although the lease is free and every message is served |
| `ContentWrite.FailedSaveThatStores` | crates/containerd-shim-wasm/src/containerd/client.rs:248-249 | a save that fails and yet stores the data |
| `SaveRefinement.SaveTakesMachineSteps` | crates/containerd-shim-wasm/src/containerd/client.rs:154-273 | for all data, leftover uploads and fates, what a save does to content, leases and uploads is the machine's turns: the lease, the upload as a whole and the drop of the lease unless it succeeds |
| `ContentWrite.Connection.Upload` | crates/containerd-shim-wasm/src/containerd/client.rs:164-270 | under a held lease the server after it is that of one commit whose fate is a function of the server, the data and the fates of the messages: existing content pinned, a completed upload stored, a cut off one grown by what arrived |
| `ContentWrite.Connection.Transfer` | crates/containerd-shim-wasm/src/containerd/client.rs:213-270 | chunks, commit and the checks of the final reply: the server and the result as a function of the leftover upload and the fates of the messages, and exactly when it panics |
| `ContentWrite.Connection.WriteChunks` | crates/containerd-shim-wasm/src/containerd/client.rs:213-236 | the loop completes the upload by contiguous chunks of at most 15 MiB, each sent once, unless a message is not served or an offset overflows an i64, and exactly when each happens; the upload then holds exactly the bytes that arrived |
| `ContentWrite.Connection.SendChunk` | crates/containerd-shim-wasm/src/containerd/client.rs:216-235 | one chunk appends exactly its bytes to the upload if it arrives, and changes nothing else |
| `ContentWrite.CommitServed` | crates/containerd-shim-wasm/src/containerd/client.rs:239-249 | the final commit is accepted exactly when the leftover upload was a prefix of the data or there is no data, and then stores the data itself |
| `ContentWrite.Checked` | crates/containerd-shim-wasm/src/containerd/client.rs:256-269 | whatever the server replies to the commit, the save succeeds exactly when the reply reports every byte and the digest of the data |
| `ContentWrite.ReadContent` | crates/stress-test/src/containerd/client.rs:101-119 | reading fails exactly when some offset differs from the bytes before it, and otherwise joins the data in order |
| `PrecompileCache.WasmLayers` | crates/containerd-shim-wasm/src/containerd/client.rs:592-600 | the selected layers are exactly the manifest layers of a supported media type |
| `PrecompileCache.WasmLayersKeepOrder` | crates/containerd-shim-wasm/src/containerd/client.rs:416-420 | the selection keeps manifest order |
| `PrecompileCache.WasmLayersCount` | crates/containerd-shim-wasm/src/containerd/client.rs:416-420 | every supported layer is selected as often as it is listed |
| `WasmCompile.Compile` | crates/containerd-shim-wasmtime/src/instance.rs:173-196 | the loop fails exactly when some recognised layer does not precompile, and otherwise pushes one entry per recognised layer in order: none for a precompiled one, else what its kind precompiles to |
| `WasmCompile.WasmtimeKeepsItsOutput` | crates/containerd-shim-wasmtime/src/instance.rs:177-181 | if wasmtime recognises what it precompiled, its compiler leaves its own output alone |
| `LoadModules.Session.LoadModules` | crates/containerd-shim-wasm/src/containerd/client.rs:391-542 | for every schedule: fails exactly when manifest, config or, without a compiler, a layer cannot be read, or with one when the load fails; nothing for a non-Wasm platform, originals without a compiler, and with one what an uncached load returns unless the compile call erred |
| `LoadModules.Session.Load` | crates/containerd-shim-wasm/src/containerd/client.rs:438-541 | the code follows one client of the cache machine to its result; it fails and falls back exactly when that client's requests in the run say so, and otherwise is exact |
| `LoadModules.Session.LoadOriginals` | crates/containerd-shim-wasm/src/containerd/client.rs:429-436 | without a compiler it fails exactly when a layer cannot be read when its turn comes, and otherwise returns every layer as it is, in order |
| `LoadModules.Session.ReadLayers` | crates/containerd-shim-wasm/src/containerd/client.rs:443-458 | the read loop brings the client to the compile step or the end with every layer read, or to a failed load |
| `LoadModules.Session.ReadLayer` | crates/containerd-shim-wasm/src/containerd/client.rs:545-580 | a cache miss of any kind falls back to the original and marks the load for a compile |
| `LoadModules.Session.CompileAndSave` | crates/containerd-shim-wasm/src/containerd/client.rs:460-538 | the compile call with its fallback, the length check and the save loop take exactly the steps of the machine to the returned result |
| `LoadModules.Session.SaveLayer` | crates/containerd-shim-wasm/src/containerd/client.rs:487-535 | one layer is saved, layer and image are labelled under the lease and it is released; any error drops the guard and fails the load |
| `LoadModules.Session.Drop` | crates/containerd-shim-wasm/src/containerd/lease.rs:60-70 | leaving the lease scope on an error asks for the lease's deletion and fails the load |
| `Sync.NoLostWakeup` | crates/containerd-shimkit/src/sandbox/sync.rs:88-98 | in every interleaving, once a set has notified, every waiter returns the value when it is next scheduled |
| `Sync.WokenFindsValue` | crates/containerd-shimkit/src/sandbox/sync.rs:94-97 | in every interleaving a woken waiter finds the cell set, so the unchecked read is sound |
| `Sync.FirstSetWins` | crates/containerd-shimkit/src/sandbox/sync.rs:49-53 | the first stored value is what every waiter returns in every continuation of the run |
| `Sync.OneSetterWins` | crates/containerd-shimkit/src/sandbox/sync.rs:49-53 | of all sets that returned exactly the winner was told ok |
| `Sync.SetStoresOrIsRefused` | crates/containerd-shimkit/src/sandbox/sync.rs:49-53 | in every run a set on an empty cell stores its value, notifies and succeeds, and on a full one is refused and changes nothing |
| `Sync.WaiterChecks` | crates/containerd-shimkit/src/sandbox/sync.rs:89-93 | in every run a wait on a full cell returns its value at once, and on an empty one blocks |
| `Sync.SetGuard.Drop` | crates/containerd-shimkit/src/sandbox/sync.rs:104-113 | dropping the guard leaves the cell set, with its own value if it had one |
| `ExitWatcher.ExitCellHoldsTheVerdict` | crates/containerd-shim-wasm/src/sys/unix/container/instance.rs:150-168 | in every interleaving with process and reaper the finished watcher left the cell set to the exit status as a u32 or to 128 plus the signal, whoever collected the process, and to 137 if the wait failed, timed out or was aborted |
| `ExitWatcher.WatcherFinishes` | crates/containerd-shim-wasm/src/sys/unix/pid_fd.rs:30-75 | from every state of every interleaving, once the process has ended and any reaping is published, the watcher ends within a bounded number of runs with the cell telling how |
| `ExitWatcher.TimeoutOnlyBeforePublication` | crates/containerd-shim-wasm/src/sys/unix/pid_fd.rs:18-58 | thanks to the early subscription the queue runs dry only while the reaper has not published |
| `ExitWatcher.TryWaitPid` | crates/containerd-shim-wasm/src/sys/unix/pid_fd.rs:61-75 | gives the code of the first event for the pid, and fails exactly when there is none |
| `ExitWatcher.CellIsWriteOnce` | crates/containerd-shim-wasm/src/sys/unix/container/instance.rs:152-167 | once the cell holds a status neither the guard nor anything later changes it |
| `ExitWatcher.StartInstance` | crates/containerd-shim-wasm/src/sys/unix/container/instance.rs:136-171 | an early error leaves the cell set to 137 unless it had a value; success hands the armed guard on with the cell untouched |
| `TaskState.NeverBack` | crates/containerd-shimkit/src/sandbox/shim/task_state.rs:15-59 | whatever transitions are asked for, a task never returns to an earlier stage |
| `TaskSafety.InstancesNeverGoBack` | crates/containerd-shimkit/src/sandbox/shim/instance_data.rs:36-84 | in every interleaving an instance never returns to an earlier stage, although wait assigns Exited unconditionally |
| `TaskState.Task.Apply` | crates/containerd-shimkit/src/sandbox/shim/task_state.rs:15-59 | succeeds exactly for the eight listed (state, transition, state) triples, and a refused transition leaves the state alone |
| `TaskSafety.LifecycleSafety` | crates/containerd-shimkit/src/sandbox/shim/instance_data.rs:36-84 | in every interleaving start runs at most once, kill is forwarded only after a successful start and never once Exited or Deleting, delete only with no pid or a known exit, and discarded transition results are never errors |
| `TaskSafety.CallsIntoInstanceExclude` | crates/containerd-shimkit/src/sandbox/shim/instance_data.rs:36-76 | at most one start, kill or delete call is inside an instance at a time |
| `TaskProgress.StartForwardedExactly` | crates/containerd-shimkit/src/sandbox/shim/instance_data.rs:36-40 | in every run a start that gets the lock is forwarded exactly to an instance never started, exited or deleted |
| `TaskProgress.KillForwardedExactly` | crates/containerd-shimkit/src/sandbox/shim/instance_data.rs:56-60 | in every run a kill that gets the lock is forwarded exactly to an instance whose start succeeded and that was never seen down |
| `TaskProgress.DeleteForwardedExactly` | crates/containerd-shimkit/src/sandbox/shim/instance_data.rs:64-68 | in every run a delete that gets the lock is forwarded exactly to an instance never started nor deleted, or marked exited |
| `TaskProgress.StartDoes` | crates/containerd-shimkit/src/sandbox/shim/instance_data.rs:40-53 | a start that succeeds leaves the instance Started with its pid and is announced with it; one that fails leaves it Exited |
| `TaskProgress.FailedDeleteDoes` | crates/containerd-shimkit/src/sandbox/shim/instance_data.rs:68-76 | a delete that fails leaves the instance Exited, to be deleted again |
| `TaskProgress.DeleteDoes` | crates/containerd-shimkit/src/sandbox/shim/local.rs:290-313 | a delete that succeeds removes the id, and announces and answers the exit of the instance |
| `TaskProgress.CreateDoes` | crates/containerd-shimkit/src/sandbox/shim/local.rs:154-218 | a create of a free id inserts and announces a new instance, one of a taken id does nothing |
| `TaskProgress.RequestsFindTheirInstance` | crates/containerd-shimkit/src/sandbox/shim/local.rs:238-339 | every other request goes on with the live instance of its id, or fails if there is none |
| `TaskProgress.ShutdownDoes` | crates/containerd-shimkit/src/sandbox/shim/local.rs:494-504 | a shutdown sets the shim's exit when no instance is live, and does nothing otherwise |
| `TaskProgress.WaitAnswers` | crates/containerd-shimkit/src/sandbox/shim/local.rs:317-331 | a wait on an exited instance answers with its exit within two steps and marks it exited |
| `TaskProgress.StateAnswers` | crates/containerd-shimkit/src/sandbox/shim/local.rs:339-362 | a state request answers with the exit if its peek succeeds, and without one otherwise |
| `TaskProgress.EveryStartIsWatched` | crates/containerd-shimkit/src/sandbox/shim/local.rs:241-262 | in every run, for every announced start the exit was announced or a watcher is there to announce it |
| `TaskProgress.ExitIsAnnounced` | crates/containerd-shimkit/src/sandbox/shim/local.rs:251-262 | the watcher of an exited instance announces its exit within three steps |
| `TaskSafety.RunKeepsInv` | crates/containerd-shimkit/src/sandbox/shim/instance_data.rs:36-84 | every run keeps the invariant tying state, pid, exit cell and lock of each instance to the requests in flight |
| `TaskSafety.SingleVerdict` | crates/containerd-shimkit/src/sandbox/shim/local.rs:285-363 | all wait, state and delete responses that carry an exit for one instance carry the same code and time |
| `TaskEvents.EventTrace` | crates/containerd-shimkit/src/sandbox/shim/local.rs:233-270 | each instance has at most one TaskExit, always after its TaskStart, both with the pid that start returned |
| `TaskEvents.StartedAtMostOnce` | crates/containerd-shimkit/src/sandbox/shim/local.rs:238-245 | each instance has at most one TaskStart in every run |
| `TaskEvents.EventsAgreeWithReports` | crates/containerd-shimkit/src/sandbox/shim/local.rs:251-362 | TaskExit and TaskDelete events carry the same exit as every response about the instance |
| `TaskExits.ReportsTellTheRealExit` | crates/containerd-shimkit/src/sandbox/shim/local.rs:285-363 | in every interleaving of requests, processes, reaper and watchers every wait, state and delete response carries the code the process really ended with, or 137 after a start that gave up or a wait that failed |
| `TaskExits.EventsTellTheRealExit` | crates/containerd-shimkit/src/sandbox/shim/local.rs:241-306 | a TaskExit event names the process that was watched and tells how it really ended, and a TaskDelete event agrees |
| `TaskExits.StartsAreWatched` | crates/containerd-shim-wasm/src/sys/unix/container/instance.rs:136-170 | a start that launches its process is watched under its pid, and one that gives up leaves 137 and can only fail |
| `TaskShutdown.ShutdownConservation` | crates/containerd-shimkit/src/sandbox/shim/local.rs:494-504 | when creates and deletes of one id do not overlap: inserted equals live plus gone, gone means exactly one successful delete, live and deleted only while being removed, and the shim's exit is set only after a check at which all were deleted |
| `TaskShutdown.LostByExactly` | crates/containerd-shimkit/src/sandbox/shim/local.rs:201-298 | in every reachable state an action loses an accounted instance exactly when it was not deleted and the action inserts or removes the map entry of its id |
| `TaskShutdown.InstanceIsLostExactly` | crates/containerd-shimkit/src/sandbox/shim/local.rs:154-298 | after any run an instance is neither live nor deleted exactly when its delete never succeeded and its map entry was clobbered |
| `ShutdownLimits.OverlappingCreatesLoseAnInstance` | crates/containerd-shimkit/src/sandbox/shim/local.rs:154-204 | two overlapping creates of one id leave an instance that is neither live nor deleted |
| `ShutdownLimits.OverlappingDeletesLoseAnInstance` | crates/containerd-shimkit/src/sandbox/shim/local.rs:285-298 | two overlapping deletes of an exited task and a create: the late removal by id takes out the new instance and the shim shuts down with it undeleted |
| `HttpDrain.DrainSafety` | crates/containerd-shim-wasmtime/src/http_proxy.rs:108-141 | when the server has returned, nothing it tracked is running and in every continuation nothing starts and no request is taken |
| `HttpDrain.DrainCompletes` | crates/containerd-shim-wasmtime/src/http_proxy.rs:116-141 | in every run a cancelled server without unfinished tasks returns by its own next three steps |
| `HttpDrain.RequestIdsDistinct` | crates/containerd-shim-wasmtime/src/http_proxy.rs:237-239 | in every run the request ids are pairwise different exactly as long as at most 2^64 were handed out |
| `HttpDrain.RequestsAreHandled` | crates/containerd-shim-wasmtime/src/http_proxy.rs:181-212 | in every run a request on an idle connection gets the next id, and its handler is started, tracked and carries that id |
| `HttpDrain.ConnectionsAreServed` | crates/containerd-shim-wasmtime/src/http_proxy.rs:108-135 | in every run a connection that arrives while the server accepts is tracked and served |
| `OciLayout.Builder.Build` | crates/oci-tar-builder/src/lib.rs:126-300 | fails exactly for several configs or an unreadable layer; otherwise following index.json gives the config and the layers back with matching digests and sizes, each content once in order of first addition with the media type of the last add or that of a plain layer, and manifest.json gives config, names and every layer as added |
| `OciLayout.Builder.WriteLayers` | crates/oci-tar-builder/src/lib.rs:142-169 | every layer blob is in the tar under its hash, the index map is the de-duplicated list, the paths are those of all layers |
| `OciLayout.Builder.WriteConfigs` | crates/oci-tar-builder/src/lib.rs:171-255 | config and manifest blobs of every config are in the tar and the descriptors describe the manifests |
| `OciLayout.EntriesDeduplicate` | crates/oci-tar-builder/src/lib.rs:142-157 | the index map lists every added content, in order of first addition and so once, with the size of the last layer added with it and the media type that layer was added with, or that of a plain layer |
| `OciLayout.LayoutReadsBack` | crates/oci-tar-builder/src/lib.rs:192-300 | following index, manifest and descriptors of a finished tar yields every image put in |
| `OciLayout.DockerReadsBack` | crates/oci-tar-builder/src/lib.rs:136-140 | following the paths of manifest.json yields config, names and every layer as added |
| `OciLayout.ManifestsAgreeExactly` | crates/oci-tar-builder/src/lib.rs:142-169 | the OCI manifest and manifest.json list the same layers exactly when no two layers have the same content |
| `ChainId.ComputeChainId` | crates/stress-test/src/containerd/client.rs:395-402 | the loop computes the recursive ChainID of the OCI Image Format Specification, config.md, section "Layer ChainID" |
| `ChainId.SameChainIdExactly` | crates/stress-test/src/containerd/client.rs:395-402 | with an injective hash and space-free digests, two lists share a chain id exactly when the shorter starts with the chain id of what the longer has more and goes on like it |
| `ChainId.EmptyChainIdExactly` | crates/stress-test/src/containerd/client.rs:396-396 | the empty list shares its chain id exactly with itself and the list of the empty string |
| `ChainId.ChainIdDeterminesLayers` | crates/stress-test/src/containerd/client.rs:395-402 | equal chain ids of equally long lists mean equal lists |
| `ChainId.ChainIdIgnoresLength` | crates/stress-test/src/containerd/client.rs:396-396 | a one-element list holding a chain id has that same chain id, so the length matters |

## Left out

- Transport and encoding (gRPC, ttrpc, protobuf, JSON): requests are steps that may be lost, manifests are kept decoded.
- The lookups of container and image before the manifest is read: `LoadModules.Session.LoadModules` takes the image digest.
- Lease expiry after 24 hours and label edits by third parties: assumed not to happen.
- CacheRetention.NoLostUpdate: needs one engine key, since the lease is per engine key; `CacheLimits.TwoEnginesLoseAnUpdate` shows why.
- CacheRetention.CachedModulesSurviveGc: needs one engine key, since engines share the gc slots `precompile.{i}`; with several keys only the fallback of `CacheCoherence.CacheRefinesUncachedLoad` is claimed.
- LoadOutcome.LoadWarmsWhatCompiles: needs one engine key and, from the load on, that nobody removes the image or deletes by hand the image, its layers or their compilations; all other deletions are covered.
- ContentWrite.Connection.SaveContent: other clients' steps between its messages are not modelled there, because the lease excludes a second upload under its reference; the labels of the saved blob appear only in the machine.
- TaskShutdown.ShutdownConservation: needs creates and deletes of one id not to overlap; `TaskShutdown.InstanceIsLostExactly` has no such condition.
- `InstanceData` and `Local` as classes: they are steps of a state machine, since what matters is how concurrent calls interleave at the awaits.
- Order of TaskExit and TaskDelete, of TaskCreate and TaskStart, and repeated deletes through an old reference: the code does not enforce them.
- Status reports while the lock is contended: `task_state` may answer RUNNING after STOPPED, so no monotonicity is claimed.
- Data races on the `OnceCell`: set and get are atomic steps.
- libcontainer, mounts, prestart hooks, stdio, metrics, `handle_signals` and the Wasm engines themselves.
- Annotations and platforms in the OCI descriptors, file modes, and files that change between hashing and copying.
- Path resolution, entrypoint and environment parsing, the command lines, telemetry, and the orchestration of the stress test: they would only add easy members.
