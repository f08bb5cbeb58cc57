# Verified model of the ara2-bridge runtime

`ara2-bridge` connects plug-ins and hosts through the ARA audio-random-access API. This project models
the parts of it whose correctness depends on state that is spread over many objects or many calls, and
proves what they promise. `dafny verify dfyconfig.toml` checks everything.

The hardest results, by area:

- **The document graph** (`DocumentGraph`, `GraphInvariant`, `GraphTheorems`, `GraphOutline`, `RequestErrors`,
  `ApplicationStates`, `Identity`, `Runtime`, on top of `Registries`, `CellStore` and `Edges`). Twenty-two
  requests on five append-only registries. Every operation is a total function that keeps the source's branches,
  including the unchecked decrements, the `expect`s and the parent lookups that a broken graph would fail. One
  invariant shows that none of these fires in any run, that every counter is a cardinality, and that a live
  playback region has an active modification of an active source. The runtime then behaves exactly like an
  outline that has no counters and no tombstones, a refused request fails with the error of its first condition
  that does not hold and leaves the live graph as it was, and leaf-first teardown never gets stuck. The
  application's states that objects carry are exactly the delegate's answers to their creations, and
  destructions hand exactly them back. The runtime object updates its fields in place and is proved against
  those functions.
- **The controller** (`Controllers`, `ControllerInvariant`, `AnalysisProtocol`, `ControllerTheorems`,
  `CallbackOutline`, `ContextCallbacks`, `CallbackEffects`, `HostReferences`, `ChangeDelivery`, `ProgressQueue`,
  `SyntheticSequences`, `TornContexts`, `ControllerAdapters`, with `Analysis`, `Updates` and `UpdateFlow`).
  Thirty-two host callbacks and application events over the graph and eleven side tables. Each callback's effect
  on the document is characterized on the outline and on the application's states, both ways, and so is every
  side field, everything that the host is told and every answer. Over every run the host tables have exactly the
  live objects for keys, each with the reference that the host gave when it was created, and the notifications
  of each audio source form a legal history that always matches its job. Every change mark is taken by one flush
  or still waits for one; in the flush that takes it, an accepted mark of a live object is covered by exactly
  one notice, and of an object that is gone by none. In every run of an ARA 1 host musical contexts and
  synthetic region sequences are in bijection. Content readers freeze the graph, with the one exception that the
  code makes, which is exhibited as a run.
- **Counted resources under interleaving** (`ScopedStates`, `LockSteps`, `Lifecycles`, `SharedAssertions`,
  `EntryLocks`, `AssertCoordinators`, `FactorySlots`). The locked fields of a lifecycle are a function of the
  multiset of guards held, which also decides when a begin is granted; the shared assertion table counts its
  holders through every interleaving of lock-level steps and never deadlocks; constructed factories occupy
  distinct callback slots although slots are released late. Where one clause of the lifecycle is lost at lock
  granularity, a lemma says exactly which teardowns are safe.
- **Companion binding** (`Companion`, `DestroyHandlers`). The admitted event sequences are exactly those of
  a nested grammar; binding happens at most once; destroy notifications reach exactly the live registrations.
- **Algorithmic cores** (`Delimiters`, `Signatures`, `CallbackTables`, `IncludeClosure`, `HeadTail`). The
  readers of generated C signatures undo their printers, the include worklist computes the least complete
  set, the sorted index is a map lookup, and a published index is never dropped, however installers interleave.

Conventions. A method whose source mutates fields is a class method proved equal to a function of the old
state; the theorems are about those functions. `Outcome` separates an error from a panic. The application
delegate, which may answer anything and cannot touch the runtime, is the `reply`, `accepted` or similar
argument of an operation. Many predicates have a `match` as their body so that proofs can hide them.

Four behaviours of the code that the general rules do not cover, each with a run that shows it and a lemma
that says exactly when it occurs:

- `destroy_audio_source` does not go through the guard that its siblings use against an active content reader
  (`ReaderOutlivesItsSource`, `ReadersFreezeTheGraph`).
- A render activation can enter after teardown has begun, because its check and its increment take the lock
  separately (`RenderOutlivesTheCheck`, `TeardownIsSafeExactly`).
- A musical context of a controller before ARA 2 can lose its synthetic region sequence, and then no callback
  destroys it any more (`ContextIsTorn`, `StrandsExactly`, `StrandedForever`). It takes a host that also manages
  region sequences itself. Before ARA 2 those callbacks lie beyond the advertised prefix of 41
  (ara2-bridge-plugin/src/ffi/vtable.rs:97), so a host that keeps to the prefix never does it; but the slots
  behind the prefix are filled, and the controller does not refuse the calls.
- Of two overlapping installations of head and tail times the older can stay published, because the pointer is
  stored after the lock of the storage is released (`OlderViewWins`, `NewestExactly`).

## Model

| member | source | states |
|---|---|---|
| CellStore.Store.Insert | ara2-bridge-core/src/registry.rs:117-129 | An insertion appends one live cell under a handle that names nothing so far, and is refused only by the capacity: the 32-bit conversion of its index never fails |
| CellStore.Store.Get | ara2-bridge-core/src/registry.rs:132-137 | A lookup finds exactly the live cells, and tells a foreign handle from a stale one |
| CellStore.Store.Replace | ara2-bridge-core/src/registry.rs:140-145 | A mutable borrow of a live cell changes that cell alone |
| CellStore.Store.Remove | ara2-bridge-core/src/registry.rs:148-153 | Removal leaves a tombstone and gives the value back; every other cell is as it was |
| CellStore.Store.OpaquePointer | ara2-bridge-core/src/registry.rs:156-162 | Exactly the live cells have an address to give out, and it is not null |
| CellStore.Store.HandleFromOpaque | ara2-bridge-core/src/registry.rs:172-189 | The search by address inverts `OpaquePointer` on exactly the live cells, and rejects null, unknown and tombstoned addresses with their own errors |
| CellStore.Store.Handles | ara2-bridge-core/src/registry.rs:108-114 | The iteration yields every live handle once, in insertion order |
| Registries.PushThenPut | ara2-bridge-plugin/src/runtime.rs:503-514 | A provisional record that is then committed is the same as a committed insertion |
| Registries.PushThenRemove | ara2-bridge-plugin/src/runtime.rs:516-519 | A provisional record that is rolled back leaves one tombstone and nothing else |
| GraphInvariant.CreateSequenceKeeps | ara2-bridge-plugin/src/runtime.rs:524-560 | Creating a region sequence keeps the invariant and cannot panic |
| GraphInvariant.CloneModificationKeeps | ara2-bridge-plugin/src/runtime.rs:884-922 | Cloning finds the committed original and its live source, so no `expect` fires and no lookup fails |
| GraphInvariant.CreateRegionKeeps | ara2-bridge-plugin/src/runtime.rs:630-688 | Creating a region raises both parents' counters and keeps the activation chain |
| GraphInvariant.UpdateSequenceKeeps | ara2-bridge-plugin/src/runtime.rs:771-794 | Moving a sequence to another context keeps every counter exact; a refusal changes nothing |
| GraphInvariant.UpdateRegionKeeps | ara2-bridge-plugin/src/runtime.rs:848-881 | Moving a region to another sequence keeps every counter exact; a refusal changes nothing |
| GraphInvariant.DeactivateSourceKeeps | ara2-bridge-plugin/src/runtime.rs:933-955 | The scan for active modifications is what keeps an active modification's source active |
| GraphInvariant.DeactivateModificationKeeps | ara2-bridge-plugin/src/runtime.rs:965-987 | The child counter is what keeps a live region's modification active |
| GraphInvariant.DestroyRegionKeeps | ara2-bridge-plugin/src/runtime.rs:691-715 | Destroying a live region succeeds always: neither decrement underflows, no parent is missing |
| GraphInvariant.DestroyModificationKeeps | ara2-bridge-plugin/src/runtime.rs:718-737 | Destruction is refused exactly while a live region names the modification, and is otherwise complete |
| GraphInvariant.DestroySequenceKeeps | ara2-bridge-plugin/src/runtime.rs:990-1009 | Destruction is refused exactly while a live region is in the sequence, and is otherwise complete |
| GraphInvariant.DestroyContextKeeps | ara2-bridge-plugin/src/runtime.rs:1012-1029 | Destruction is refused exactly while a live sequence is in the context, and is otherwise complete |
| GraphInvariant.DestroySourceKeeps | ara2-bridge-plugin/src/runtime.rs:1040-1059 | Destruction is refused exactly while a live modification names the source, and is otherwise complete |
| GraphTheorems.StepKeeps | ara2-bridge-plugin/src/runtime.rs:368-1059 | Every request on a graph with the invariant keeps it and does not panic |
| GraphTheorems.RunKeeps | ara2-bridge-plugin/src/runtime.rs:368-1059 | So does every run of requests |
| GraphTheorems.ReachableGraphIsExact | ara2-bridge-plugin/src/runtime.rs:524-737 | In every graph reachable from a new document children counters and live counters are cardinalities, named parents are live, live records are committed, and the activation chain holds |
| GraphTheorems.FailureIsAtomic | ara2-bridge-plugin/src/runtime.rs:498-688 | A request that returns an error changed nothing, or left exactly one tombstone |
| GraphTheorems.DestroyDocumentExact | ara2-bridge-plugin/src/runtime.rs:340-358 | The runtime can be destroyed exactly when no registry holds a live cell, and then without panic |
| GraphTheorems.LeafDropSucceeds | ara2-bridge-plugin/src/runtime.rs:691-737 | Destroying an object that nothing names as its parent succeeds and lowers the live count by one |
| GraphTheorems.SomeLeafExists | ara2-bridge-plugin/src/runtime.rs:340-358 | While anything is live, some object is a leaf |
| GraphTheorems.TeardownNeverSticks | ara2-bridge-plugin/src/runtime.rs:990-1059 | Destroying leaves in any order never fails, ends after as many steps as there are live objects, and then the document can be destroyed |
| GraphOutline.StepRefines | ara2-bridge-plugin/src/runtime.rs:368-1059 | A request is granted exactly when the outline allows it, the delegate agrees and a cell is left, and its effect on the outline is the intended one |
| GraphOutline.RefusedChangesNothing | ara2-bridge-plugin/src/runtime.rs:368-1059 | A refused request leaves the outline as it was |
| GraphOutline.OutlineShowsChildren | ara2-bridge-plugin/src/runtime.rs:994-998 | The outline's absence of children is the graph's |
| RequestErrors.ErrorsAreExact | ara2-bridge-plugin/src/runtime.rs:368-1059 | A refused request fails with the error of the first of its conditions that does not hold, in the order in which they are tested |
| ApplicationStates.StepStates | ara2-bridge-plugin/src/runtime.rs:498-737 | A granted creation puts the delegate's own answer under the new handle, a destruction hands the object's state back, and no other request touches a state |
| ApplicationStates.StatesAreGiven | ara2-bridge-plugin/src/runtime.rs:498-688 | In every run a live object carries what the delegate answered to its creation, and has carried that ever since |
| ApplicationStates.ReleasesReturnTheGift | ara2-bridge-plugin/src/runtime.rs:691-737 | A destruction hands back exactly what the delegate answered to the creation |
| ApplicationStates.DocumentIsHandedBack | ara2-bridge-plugin/src/runtime.rs:340-358 | The document's state that a destroyed runtime hands back is the one that it was made with |
| Identity.StepExtends | ara2-bridge-core/src/registry.rs:117-153 | Every request only appends cells and tombstones live ones: a key is never reused |
| Identity.RunExtends | ara2-bridge-core/src/registry.rs:117-153 | So does every run |
| Identity.StaleForever | ara2-bridge-core/src/registry.rs:148-153 | A stale handle stays stale through every further run |
| Runtime.PluginRuntime.Create | ara2-bridge-plugin/src/runtime.rs:98-142 | A runtime is made exactly for a generation that the target supports and if the delegate makes a document; it is empty and has the invariant |
| Runtime.PluginRuntime.BeginEditing | ara2-bridge-plugin/src/runtime.rs:180-191 | In place, exactly the function of the graph: editing is exclusive and needs the delegate |
| Runtime.PluginRuntime.EndEditing | ara2-bridge-plugin/src/runtime.rs:198-212 | In place, exactly the function of the graph |
| Runtime.PluginRuntime.FinishSession | ara2-bridge-plugin/src/runtime.rs:1062-1079 | Finishing an owned session whose delegate refuses asks once more on drop; only a second refusal leaves the runtime editing |
| Runtime.PluginRuntime.CreateContext | ara2-bridge-plugin/src/runtime.rs:498-521 | Provisional insertion with commit or rollback has the net effect of the graph function |
| Runtime.PluginRuntime.CreateSource | ara2-bridge-plugin/src/runtime.rs:571-594 | As above, for audio sources |
| Runtime.PluginRuntime.CreateSequence | ara2-bridge-plugin/src/runtime.rs:524-560 | As above, and the parent's counter rises with the commit only |
| Runtime.PluginRuntime.CreateModification | ara2-bridge-plugin/src/runtime.rs:597-627 | As above, for audio modifications |
| Runtime.PluginRuntime.CloneModification | ara2-bridge-plugin/src/runtime.rs:884-922 | As above; the original is committed, so reading its state cannot panic |
| Runtime.PluginRuntime.CreateRegion | ara2-bridge-plugin/src/runtime.rs:630-688 | As above, with both parents |
| Runtime.PluginRuntime.UpdateContext | ara2-bridge-plugin/src/runtime.rs:749-759 | A payload update answers as the graph function says and changes no graph state |
| Runtime.PluginRuntime.UpdateSource | ara2-bridge-plugin/src/runtime.rs:806-820 | As above; a deactivated source refuses |
| Runtime.PluginRuntime.EnableSamples | ara2-bridge-plugin/src/runtime.rs:311-320 | As above; a deactivated source does not refuse |
| Runtime.PluginRuntime.UpdateModification | ara2-bridge-plugin/src/runtime.rs:823-836 | As above; a deactivated modification refuses |
| Runtime.PluginRuntime.UpdateSequence | ara2-bridge-plugin/src/runtime.rs:771-794 | The unchecked decrement of the old context's counter happens only above zero |
| Runtime.PluginRuntime.UpdateRegion | ara2-bridge-plugin/src/runtime.rs:848-881 | The unchecked decrement of the old sequence's counter happens only above zero |
| Runtime.PluginRuntime.AnyActiveModification | ara2-bridge-plugin/src/runtime.rs:939-945 | The scan of all cells decides whether a live active modification names the source |
| Runtime.PluginRuntime.DeactivateSource | ara2-bridge-plugin/src/runtime.rs:933-955 | In place, exactly the function of the graph |
| Runtime.PluginRuntime.DeactivateModification | ara2-bridge-plugin/src/runtime.rs:965-987 | In place, exactly the function of the graph |
| Runtime.PluginRuntime.DestroyRegion | ara2-bridge-plugin/src/runtime.rs:691-715 | Both unchecked decrements, the `expect` and the live counter are safe |
| Runtime.PluginRuntime.DestroyModification | ara2-bridge-plugin/src/runtime.rs:718-737 | As above, with one parent |
| Runtime.PluginRuntime.DestroySequence | ara2-bridge-plugin/src/runtime.rs:990-1009 | As above, with one parent |
| Runtime.PluginRuntime.DestroyContext | ara2-bridge-plugin/src/runtime.rs:1012-1029 | As above, without a parent |
| Runtime.PluginRuntime.DestroySource | ara2-bridge-plugin/src/runtime.rs:1040-1059 | As above, without a parent |
| Runtime.PluginRuntime.Destroy | ara2-bridge-plugin/src/runtime.rs:340-358 | Succeeds exactly when nothing is live, and then the document state is consumed |
| Updates.Merge | ara2-bridge-plugin/src/updates.rs:248-269 | The search and in-place rewrite is the recursive merge; building the hull cannot fail |
| Updates.CombineCoalesces | ara2-bridge-plugin/src/updates.rs:248-269 | Merging a change into a coalescing gives the coalescing of one change more: hull of ranges, whole object if any is unbounded, intersection of flags |
| Updates.CoalescedIsUnique | ara2-bridge-plugin/src/updates.rs:248-269 | A set of changes has one coalescing |
| Updates.OriginsThatCount | ara2-bridge-plugin/src/updates.rs:86-196 | Marks of the application and of recovery are merged into their category; marks of the host and of a restored archive leave no trace |
| Updates.MarkedAllRepresents | ara2-bridge-plugin/src/updates.rs:152-196 | After any marks each object has at most one entry, exactly if a mark of it was accepted, and it is the coalescing of all of them |
| Updates.OrderDoesNotMatter | ara2-bridge-plugin/src/updates.rs:152-196 | Marks in another order give each object the same entry |
| UpdateFlow.MarksAreConserved | ara2-bridge-plugin/src/updates.rs:67-69 | Across any interleaving of marks and flushes, every mark is in exactly one batch or still open |
| UpdateFlow.EachMarkIsDeliveredOnce | ara2-bridge-plugin/src/updates.rs:207-246 | Each accepted mark of a flushed batch is covered by exactly one of its notifications |
| UpdateFlow.NothingElseIsDelivered | ara2-bridge-plugin/src/updates.rs:207-246 | A notification tells of nothing but the accepted marks of its object; marks from the host or a restored archive contribute nothing |
| UpdateFlow.DocumentIsToldOnce | ara2-bridge-plugin/src/updates.rs:194-246 | The document is reported once, last, and exactly when it was marked |
| UpdateFlow.UpdateTracker.FlushWith | ara2-bridge-plugin/src/updates.rs:207-246 | A flush delivers what was pending when it began; marks made during delivery wait for the next one |
| UpdateFlow.UpdateEmitter.TakePending | ara2-bridge-plugin/src/updates.rs:67-69 | The pending tracker is swapped for an empty one |
| Analysis.AnalysisEmitter.Update | ara2-bridge-plugin/src/analysis.rs:31-39 | Exactly the fractions in [0, 1) are queued |
| Analysis.AnalysisEmitter.Cancel | ara2-bridge-plugin/src/analysis.rs:50-56 | The queue loses the events of one source |
| Analysis.WithoutIsExact | ara2-bridge-plugin/src/analysis.rs:50-56 | It loses all of them, and keeps every other event as often as it was there |
| Analysis.AnalysisCoordinator.Start | ara2-bridge-plugin/src/analysis.rs:85-110 | A job starts unless the content types are empty or repeat, or the source has one already |
| Analysis.AnalysisCoordinator.Update | ara2-bridge-plugin/src/analysis.rs:113-128 | Progress may not fall and stays below one |
| Analysis.AnalysisCoordinator.Complete | ara2-bridge-plugin/src/analysis.rs:131-136 | Completion removes an active job |
| Analysis.AnalysisCoordinator.Cancel | ara2-bridge-plugin/src/analysis.rs:139-143 | Cancellation removes the job and tells whether there was one |
| ControllerInvariant.StepRecounts | ara2-bridge-plugin/src/controller.rs:345-402 | What any request does to the sets of live objects and active sources |
| ControllerInvariant.NewcomerLeavesAgain | ara2-bridge-plugin/src/controller.rs:382-388 | Rolling back a context whose sequence could not be created always succeeds, although its result is ignored |
| ControllerInvariant.ActKeeps | ara2-bridge-plugin/src/controller.rs:168-1376 | Every callback keeps the tables in step with the graph, the deferred starts among the jobs, and at most one reader |
| ControllerInvariant.RunKeepsTidy | ara2-bridge-plugin/src/controller.rs:168-1376 | So does every run |
| AnalysisProtocol.NotifyFollows | ara2-bridge-plugin/src/controller.rs:200-243 | Draining deferred starts before queued progress is legal for every source and leaves the host's picture equal to the jobs |
| AnalysisProtocol.ActFollows | ara2-bridge-plugin/src/controller.rs:597-765 | So does every other callback, including the cancelling ones |
| AnalysisProtocol.HostViewIsExact | ara2-bridge-plugin/src/controller.rs:200-243 | After any run the host believes a source to be in analysis, at a progress, exactly when its job is there at that progress and was announced |
| AnalysisProtocol.NeverBroken | ara2-bridge-plugin/src/controller.rs:200-243 | At no point of any run do the notifications of a source violate the protocol |
| AnalysisProtocol.ProgressHasStart | ara2-bridge-plugin/src/controller.rs:218-243 | Every progress or completion follows a start with only nondecreasing progress in [0, 1) in between |
| AnalysisProtocol.StartsAreSeparated | ara2-bridge-plugin/src/controller.rs:209-217 | Between two starts of a source it was completed or cancelled |
| AnalysisProtocol.SignalsNameTheHost | ara2-bridge-plugin/src/controller.rs:209-243 | Each notification carries the reference that the host gave for its source |
| ControllerTheorems.HostTablesAreExact | ara2-bridge-plugin/src/controller.rs:28-46 | After any run the key sets of the four host tables are the live handles of the four registries, jobs are of live active sources, deferred starts are distinct jobs |
| ControllerTheorems.DestroySourceIsAllOrNothing | ara2-bridge-plugin/src/controller.rs:727-766 | A source's analysis is cancelled exactly when its destruction succeeds: nothing after the validation can fail |
| ControllerTheorems.JobsEndExactly | ara2-bridge-plugin/src/controller.rs:597-766 | A job ends exactly by a delivered completion, a permitted destruction or deactivation of its source, or the revocation of its sample access |
| ControllerTheorems.JobsBeginExactly | ara2-bridge-plugin/src/controller.rs:928-965 | A job begins exactly by an accepted request for distinct analyzable content types of a live active source without one, and its start is then deferred |
| CallbackEffects.RestoreBegins | ara2-bridge-plugin/src/controller.rs:279-303 | Exactly when a restore is accepted, that it is recorded with its reader, and that a failing one closes the editing interval again unless the application refuses that too |
| CallbackEffects.RestoreEnds | ara2-bridge-plugin/src/controller.rs:305-318 | Exactly when the end of a restore is accepted, that its record is then cleared, and that a refused one changes nothing |
| ControllerTheorems.ChangesOfLiveObjectsAreTold | ara2-bridge-plugin/src/controller.rs:244-276 | A flush tells the host exactly the coalesced changes of objects that are still live |
| ControllerTheorems.ReadersFreezeTheGraph | ara2-bridge-plugin/src/controller.rs:59-68 | While a reader is outstanding a callback changes the graph or the editing state if and only if it is the controller's destruction or a permitted destruction of a source |
| ControllerTheorems.ReaderIsExclusive | ara2-bridge-plugin/src/controller.rs:70-95 | A published reader is the only one and resolves until it or the controller is destroyed |
| ControllerTheorems.ReaderOutlivesItsSource | ara2-bridge-plugin/src/controller.rs:727-766 | A run that destroys an audio source under a reader of its content |
| CallbackEffects.TellingIsExact | ara2-bridge-plugin/src/controller.rs:200-277 | If no reader and no editing stands in the way and the host listens, all deferred starts, all queued progress and all changes are told and nothing of them is left; otherwise nothing happens |
| CallbackEffects.EffectsAreExact | ara2-bridge-plugin/src/controller.rs:168-1376 | Each callback's exact effect on the host tables, the tracker, the jobs with their queue and deferred starts, the readers and the restore in progress, what the host is told, and the answer; every field that is not named stays |
| CallbackEffects.WhatStays | ara2-bridge-plugin/src/controller.rs:28-46 | Which callbacks the host tables, the tracker, the readers and the restore in progress belong to: all others leave them alone |
| HostReferences.EntriesFollow | ara2-bridge-plugin/src/controller.rs:345-1376 | A creating callback enters the host's own reference for what it created, and every callback keeps the entries of all other objects that stay |
| HostReferences.ReferencesAreGiven | ara2-bridge-plugin/src/controller.rs:28-46 | In every run the entry of an object is the reference that the host gave with the callback that created it, and has been that ever since |
| ProgressQueue.ProgressIsTheGreatest | ara2-bridge-plugin/src/controller.rs:218-243 | Draining the queue leaves a job that does not complete at the greatest progress below one that was reported for it |
| ProgressQueue.EachReportIsToldOrOvertaken | ara2-bridge-plugin/src/controller.rs:218-243 | The host is told of exactly the reports about jobs that have not completed that no earlier report overtook |
| ChangeDelivery.MarksAfter | ara2-bridge-plugin/src/controller.rs:244-276 | Only reports of the application and permitted flushes touch the tracker, and only a permitted flush tells the host of changes |
| ChangeDelivery.RunTells | ara2-bridge-plugin/src/controller.rs:244-276 | In every run each mark is taken by one flush, in order, or still open; the tracker holds just the open ones, and what the host is told are the flushes |
| ChangeDelivery.EachMarkIsToldOnce | ara2-bridge-plugin/src/controller.rs:244-276 | Of the accepted marks that a flush takes, each one of a live object is covered by exactly one notice, to the host's reference; about an object that is gone nothing is told |
| ChangeDelivery.NothingElseIsTold | ara2-bridge-plugin/src/controller.rs:244-276 | Every notice about an object goes to a live one and is the coalescing of its accepted marks in that flush |
| ChangeDelivery.DocumentIsTold | ara2-bridge-plugin/src/controller.rs:244-276 | A flush tells of the document's data exactly if they were marked |
| CallbackOutline.CallbacksDoExactly | ara2-bridge-plugin/src/controller.rs:181-1376 | Each callback that comes to one request changes the document's outline as that request does, exactly if its guards, the outline, the application and the capacity allow it, and answers with the reference of what it created; otherwise the outline is unchanged |
| ContextCallbacks.ContextIsMadeExactly | ara2-bridge-plugin/src/controller.rs:345-402 | In every generation, exactly when creating a context succeeds, what it then adds to the outline and to the states, and that it otherwise adds nothing |
| ContextCallbacks.ContextGoesExactly | ara2-bridge-plugin/src/controller.rs:443-474 | Exactly what destroying a context leaves of the document |
| SyntheticSequences.CreationIsAllOrNothing | ara2-bridge-plugin/src/controller.rs:374-401 | Before ARA 2, creating a context makes it and its sequence, or neither |
| SyntheticSequences.DestructionIsAllOrNothing | ara2-bridge-plugin/src/controller.rs:443-474 | While contexts and sequences are paired, destruction takes both or neither, and takes both exactly when no region is left |
| SyntheticSequences.LegacyKeepsTogether | ara2-bridge-plugin/src/controller.rs:168-1376 | No callback of an ARA 1 host breaks the pairing |
| SyntheticSequences.LegacyRunsArePaired | ara2-bridge-plugin/src/controller.rs:1251-1267 | In every ARA 1 run contexts and synthetic sequences are in bijection, and each context has exactly that one child |
| SyntheticSequences.TornExactly | ara2-bridge-plugin/src/controller.rs:459-469 | Outside such runs destruction stops half way exactly when the context has another sequence |
| TornContexts.StrandsExactly | ara2-bridge-plugin/src/controller.rs:443-474 | A callback takes a live context's synthetic sequence away and leaves the context exactly when it destroys that sequence, without regions, or the context while another sequence is in it |
| TornContexts.ContextIsTorn | ara2-bridge-plugin/src/ffi/vtable.rs:95-99 | The run of four callbacks in which that happens, on a controller that does not advertise one of them |
| TornContexts.StrandedIsStuck | ara2-bridge-plugin/src/controller.rs:459-469 | The destruction of such a context does nothing |
| TornContexts.StrandedForever | ara2-bridge-plugin/src/controller.rs:443-474 | In every further run the context stays, and its destruction does nothing, until the controller itself is destroyed |
| ControllerAdapters.ControllerAdapter.DestroyDocumentController | ara2-bridge-plugin/src/controller.rs:169-175 | Readers are cleared and the runtime is gone, whether or not its destruction succeeds |
| ControllerAdapters.ControllerAdapter.BeginEditing | ara2-bridge-plugin/src/controller.rs:181-185 | In place, exactly the callback's function |
| ControllerAdapters.ControllerAdapter.EndEditing | ara2-bridge-plugin/src/controller.rs:187-198 | In place, exactly the callback's function |
| ControllerAdapters.ControllerAdapter.NotifyStarts | ara2-bridge-plugin/src/controller.rs:209-217 | The loop announces the deferred starts in order and leaves none |
| ControllerAdapters.ControllerAdapter.NotifyProgress | ara2-bridge-plugin/src/controller.rs:218-243 | The loop applies the queue to the jobs in order and tells exactly the accepted events |
| ControllerAdapters.ControllerAdapter.NotifyChanges | ara2-bridge-plugin/src/controller.rs:244-276 | The flush tells the changes of objects with a host reference |
| ControllerAdapters.ControllerAdapter.NotifyModelUpdates | ara2-bridge-plugin/src/controller.rs:200-277 | The three together are the callback's function, and nothing happens while a reader or editing is active |
| ControllerAdapters.ControllerAdapter.BeginRestoringDocument | ara2-bridge-plugin/src/controller.rs:279-303 | A failed restore ends the editing that it began |
| ControllerAdapters.ControllerAdapter.EndRestoringDocument | ara2-bridge-plugin/src/controller.rs:305-318 | Only the matching reader ends a restore |
| ControllerAdapters.ControllerAdapter.UpdateDocument | ara2-bridge-plugin/src/controller.rs:334-343 | In place, exactly the callback's function |
| ControllerAdapters.ControllerAdapter.CreateContext | ara2-bridge-plugin/src/controller.rs:345-402 | Two runtime calls, a rollback and two tables, as the callback's function says |
| ControllerAdapters.ControllerAdapter.UpdateContext | ara2-bridge-plugin/src/controller.rs:404-441 | In place, exactly the callback's function |
| ControllerAdapters.ControllerAdapter.DestroyContext | ara2-bridge-plugin/src/controller.rs:443-474 | In place, exactly the callback's function |
| ControllerAdapters.ControllerAdapter.CreateSource | ara2-bridge-plugin/src/controller.rs:519-556 | The host reference is recorded exactly with a created source |
| ControllerAdapters.ControllerAdapter.UpdateSource | ara2-bridge-plugin/src/controller.rs:558-595 | In place, exactly the callback's function |
| ControllerAdapters.ControllerAdapter.CancelAnalysis | ara2-bridge-plugin/src/controller.rs:632-635 | Job, queued progress and deferred start of a source go together |
| ControllerAdapters.ControllerAdapter.DeactivateSource | ara2-bridge-plugin/src/controller.rs:597-638 | Analysis is cancelled exactly with a successful deactivation |
| ControllerAdapters.ControllerAdapter.EnableSamples | ara2-bridge-plugin/src/controller.rs:683-725 | Revoking access cancels the analysis first, whatever becomes of the rest |
| ControllerAdapters.ControllerAdapter.DestroySource | ara2-bridge-plugin/src/controller.rs:727-766 | In place, exactly the callback's function |
| ControllerAdapters.ControllerAdapter.RequestAnalysis | ara2-bridge-plugin/src/controller.rs:928-965 | The checks in order; a request that the application refuses leaves no job |
| ControllerAdapters.ControllerAdapter.CreateModification | ara2-bridge-plugin/src/controller.rs:768-803 | The host reference is recorded exactly with a created modification |
| ControllerAdapters.ControllerAdapter.CloneModification | ara2-bridge-plugin/src/controller.rs:805-840 | The host reference is recorded exactly with a cloned modification |
| ControllerAdapters.ControllerAdapter.UpdateModification | ara2-bridge-plugin/src/controller.rs:842-863 | In place, exactly the callback's function |
| ControllerAdapters.ControllerAdapter.DeactivateModification | ara2-bridge-plugin/src/controller.rs:865-880 | In place, exactly the callback's function |
| ControllerAdapters.ControllerAdapter.DestroyModification | ara2-bridge-plugin/src/controller.rs:882-899 | The host reference goes exactly with a destroyed modification |
| ControllerAdapters.ControllerAdapter.CreateSequence | ara2-bridge-plugin/src/controller.rs:1097-1130 | In place, exactly the callback's function |
| ControllerAdapters.ControllerAdapter.UpdateSequence | ara2-bridge-plugin/src/controller.rs:1132-1165 | In place, exactly the callback's function |
| ControllerAdapters.ControllerAdapter.DestroySequence | ara2-bridge-plugin/src/controller.rs:1167-1178 | In place, exactly the callback's function |
| ControllerAdapters.ControllerAdapter.Locate | ara2-bridge-plugin/src/controller.rs:1245-1267 | A region's parent is a sequence since ARA 2, and before that a context standing for its synthetic sequence |
| ControllerAdapters.ControllerAdapter.CreateRegion | ara2-bridge-plugin/src/controller.rs:1202-1287 | The host reference is recorded exactly with a created region |
| ControllerAdapters.ControllerAdapter.UpdateRegion | ara2-bridge-plugin/src/controller.rs:1289-1357 | In place, exactly the callback's function |
| ControllerAdapters.ControllerAdapter.DestroyRegion | ara2-bridge-plugin/src/controller.rs:1359-1376 | The host reference goes exactly with a destroyed region |
| ControllerAdapters.ControllerAdapter.CreateReader | ara2-bridge-plugin/src/controller.rs:132-151 | A reader is published only for a readable object and only while there is none |
| ControllerAdapters.ControllerAdapter.DestroyReader | ara2-bridge-plugin/src/controller.rs:90-95 | Only a published reader is destroyed |
| ScopedStates.BeginExactly | ara2-bridge-core/src/lifecycle.rs:62-209 | A begin is granted exactly if its thread, the poison flag, the phase and the guards held allow it, fails with the error of the first that does not, and changes the state by just its guard |
| ScopedStates.FinishExactly | ara2-bridge-core/src/lifecycle.rs:211-271 | Finishing a held guard changes the state by just that guard, on exactly the permitted threads |
| ScopedStates.BeginKeeps | ara2-bridge-core/src/lifecycle.rs:62-179 | A begun guard is accounted for |
| ScopedStates.HeldGuardsFinish | ara2-bridge-core/src/lifecycle.rs:211-271 | Any guard that is held can be finished, in any order, by exactly the threads that may |
| ScopedStates.DropIsExact | ara2-bridge-core/src/lifecycle.rs:291-296 | A drop keeps the account exactly when it happens where the guard may be finished |
| ScopedStates.RunAccounts | ara2-bridge-core/src/lifecycle.rs:62-271 | In every run the locked fields are the function of the guards held, editing and restoring exclude each other, phases only advance, and outside the active phase nothing scoped is held |
| Lifecycles.Lifecycle.BeginEditing | ara2-bridge-core/src/lifecycle.rs:62-76 | In place, exactly the function of the locked state |
| Lifecycles.Lifecycle.BeginRestore | ara2-bridge-core/src/lifecycle.rs:79-111 | In place, for both restore modes |
| Lifecycles.Lifecycle.BeginSampleAccess | ara2-bridge-core/src/lifecycle.rs:114-125 | In place, with the overflow refused |
| Lifecycles.Lifecycle.BeginContentCall | ara2-bridge-core/src/lifecycle.rs:128-139 | In place, exclusive |
| Lifecycles.Lifecycle.BeginRenderActivation | ara2-bridge-core/src/lifecycle.rs:142-153 | In place, from any thread |
| Lifecycles.Lifecycle.BeginTeardown | ara2-bridge-core/src/lifecycle.rs:158-179 | In place, also after poisoning, and only while nothing scoped is held |
| Lifecycles.Lifecycle.FinishGuard | ara2-bridge-core/src/lifecycle.rs:211-271 | The six finishes in place |
| Lifecycles.HeldGuard.Drop | ara2-bridge-core/src/lifecycle.rs:291-296 | An active guard finishes once; a refusal loses it |
| Lifecycles.HeldGuard.FinishNow | ara2-bridge-core/src/lifecycle.rs:284-288 | An explicit finish reports the refusal and consumes the guard either way |
| LockSteps.FineRunAccounts | ara2-bridge-core/src/lifecycle.rs:196-209 | Lock by lock, under every interleaving, the guards of the model thread are accounted for exactly |
| LockSteps.MovedExactly | ara2-bridge-core/src/lifecycle.rs:62-271 | Each lock-level move in terms of the guards held: an entry takes its guard exactly if they leave room for it |
| LockSteps.UninterruptedIsBegin | ara2-bridge-core/src/lifecycle.rs:191-209 | The poll of the poison flag, the check of the phase and the entry, with nothing in between, are the one step of `ScopedStates` |
| LockSteps.CalmTeardownsSuffice | ara2-bridge-core/src/lifecycle.rs:142-179 | In a run whose teardowns begin while no render activation is between its check and its entry, nothing scoped is ever held outside the active phase |
| LockSteps.HastyTeardownBreaks | ara2-bridge-core/src/lifecycle.rs:142-179 | After any other successful teardown a render activation can enter at once |
| LockSteps.TeardownIsSafeExactly | ara2-bridge-core/src/lifecycle.rs:142-179 | In any reachable state a successful teardown is safe in all continuations if and only if no render activation has passed its check and not entered |
| LockSteps.RenderOutlivesTheCheck | ara2-bridge-core/src/lifecycle.rs:142-179 | The interleaving in which that happens |
| SharedAssertions.AcquireExactly | ara2-bridge-plugin/src/entry.rs:36-53 | An acquisition is granted exactly if all holders of the generation have its address and their number fits |
| SharedAssertions.AcquireCounts | ara2-bridge-plugin/src/entry.rs:36-53 | An acquisition adds one holder to an exact count |
| SharedAssertions.ReleaseCounts | ara2-bridge-plugin/src/entry.rs:55-68 | A holder's release is never mismatched and removes one holder; the last one removes the entry |
| SharedAssertions.AssertionTable.AcquireAssertion | ara2-bridge-plugin/src/entry.rs:36-53 | In place, exactly the function of the table |
| SharedAssertions.AssertionTable.ReleaseAssertion | ara2-bridge-plugin/src/entry.rs:55-68 | In place, exactly the function of the table |
| SharedAssertions.CallbackState.Initialize | ara2-bridge-plugin/src/entry.rs:121-153 | Succeeds exactly for an admitted selection of an uninitialized factory that the table grants; otherwise nothing changes |
| SharedAssertions.CallbackState.Uninitialize | ara2-bridge-plugin/src/entry.rs:155-162 | Releases exactly an initialized factory's selection |
| EntryLocks.NextSound | ara2-bridge-plugin/src/entry.rs:121-179 | Every lock-level step of every thread keeps the counts and the exclusions |
| EntryLocks.EntriesAreExact | ara2-bridge-plugin/src/entry.rs:36-68 | In every interleaving a generation's entry exists exactly if someone holds it, counts its selections plus the uses in flight, and all holders share its address |
| EntryLocks.AcquisitionsAreExact | ara2-bridge-plugin/src/entry.rs:36-53 | In every interleaving an acquisition is granted exactly if every selection and every use in flight has its address and their number fits |
| EntryLocks.UninterruptedInitialize | ara2-bridge-plugin/src/entry.rs:121-153 | The lock-level steps of an initialization, with nothing in between, are the factory's one method |
| EntryLocks.UninterruptedUninitialize | ara2-bridge-plugin/src/entry.rs:155-162 | So are those of an uninitialization |
| EntryLocks.ReleasesMatch | ara2-bridge-plugin/src/entry.rs:62-63 | The release arm that finds no matching entry is unreachable |
| EntryLocks.NeverDeadlocked | ara2-bridge-plugin/src/entry.rs:142-160 | The table's lock is always taken last, so some thread can always go on |
| AssertCoordinators.AssertCoordinator.AcquireCell | ara2-bridge-core/src/assertions.rs:48-67 | Concurrent initializations of a generation get the same cell |
| AssertCoordinators.AssertCoordinator.ReleaseCell | ara2-bridge-core/src/assertions.rs:69-86 | In place, exactly the function of the table |
| AssertCoordinators.FactoryInitialization.Uninitialize | ara2-bridge-core/src/assertions.rs:126-133 | Balances once and reports a second attempt |
| AssertCoordinators.FactoryInitialization.Drop | ara2-bridge-core/src/assertions.rs:141-148 | An active guard is balanced by its drop |
| AssertCoordinators.GuardsEnd | ara2-bridge-core/src/assertions.rs:69-86 | A live guard can always be ended |
| AssertCoordinators.ActiveCountsAreExact | ara2-bridge-core/src/assertions.rs:41-46 | In every run the active count of a generation is the number of its live guards, and they share one cell |
| AssertCoordinators.GuardsBeginExactly | ara2-bridge-core/src/assertions.rs:48-86 | A guard begins exactly for a supported generation while the count fits, and gets the cell of the generation's guards; an end always goes through |
| FactorySlots.SlotTable.Allocate | ara2-bridge-plugin/src/factory.rs:46-58 | The first vacant slot is taken, and an error means that there is none |
| FactorySlots.SlotTable.Deregister | ara2-bridge-plugin/src/factory.rs:61-71 | Only an own slot is cleared |
| FactorySlots.SlotTable.CallbackState | ara2-bridge-plugin/src/factory.rs:73-77 | A slot resolves exactly to the living state that it names |
| FactorySlots.SlotsAreExclusive | ara2-bridge-plugin/src/factory.rs:33-71 | Under every interleaving constructed factories are in distinct slots, and each slot's callbacks resolve to its own factory |
| FactorySlots.CallbacksResolveToOwners | ara2-bridge-plugin/src/factory.rs:73-77 | Whatever a callback resolves to registered in that slot, and is still constructed unless a callback of it is running |
| FactorySlots.LateDropsAreHarmless | ara2-bridge-plugin/src/factory.rs:61-71 | A late registration drop never clears a slot that was taken over, and frees its own |
| FactorySlots.AtMostSlotCount | ara2-bridge-plugin/src/factory.rs:25-38 | There are never more constructed factories than slots |
| FactorySlots.ScanTakesTheFirst | ara2-bridge-plugin/src/factory.rs:46-58 | An uninterrupted scan registers in the first slot that resolves to nothing, and gives up exactly if every slot resolves |
| Companion.Enabled | ara2-bridge-companion/src/binding.rs:341-342 | A role is enabled if and only if it is supported and, where known, assigned |
| Companion.CompanionProcessorBinding.Create | ara2-bridge-companion/src/binding.rs:243-282 | A processor needs at least one factory and distinct identifiers |
| Companion.CompanionProcessorBinding.BindController | ara2-bridge-companion/src/binding.rs:311-354 | In place, exactly the function of the lifecycle |
| Companion.CompanionProcessorBinding.ObserveEvent | ara2-bridge-companion/src/binding.rs:357-428 | In place, exactly the function of the lifecycle |
| Companion.CompanionControllerBinding.Drop | ara2-bridge-companion/src/binding.rs:474-485 | Losing the controller ends activity and rendering |
| Companion.RunOrdered | ara2-bridge-companion/src/binding.rs:212-223 | In every run rendering implies active, active implies bound to a live controller, and the role formula holds |
| Companion.BindsExactly | ara2-bridge-companion/src/binding.rs:311-354 | In every run a binding succeeds exactly on the model thread, with a controller, with known assigned roles, and if no binding succeeded and no event was observed before; it is then the one asked for |
| Companion.OnlyMutationsNeedTheModelThread | ara2-bridge-companion/src/binding.rs:414-425 | Only model mutations need the model thread |
| Companion.BindsOnce | ara2-bridge-companion/src/binding.rs:331-340 | At most one binding ever succeeds, and none after an early boundary |
| Companion.NothingAfterLoss | ara2-bridge-companion/src/binding.rs:357-372 | After processor or controller is gone no event is admitted |
| Companion.NestedIsAdmitted | ara2-bridge-companion/src/binding.rs:373-426 | Every nested sequence of events is admitted |
| Companion.AdmittedIsNested | ara2-bridge-companion/src/binding.rs:373-426 | Every admitted sequence is nested, up to what is still open at its end |
| Companion.InactiveExactlyWhenNested | ara2-bridge-companion/src/binding.rs:373-426 | The admitted sequences that end inactive are exactly the nested ones |
| Companion.AdmittedTellsAll | ara2-bridge-companion/src/binding.rs:357-428 | Refused events, from whatever thread, leave no trace: the admitted ones alone give the same state |
| DestroyHandlers.DestroyRegistry.Register | ara2-bridge-companion/src/binding.rs:89-103 | A handler is appended to its controller's list |
| DestroyHandlers.DestroyRegistry.Deregister | ara2-bridge-companion/src/binding.rs:72-86 | Dead handlers and the own one go; an empty list leaves no entry |
| DestroyHandlers.DestroyRegistry.Notify | ara2-bridge-companion/src/binding.rs:106-126 | The living handlers are collected and the dead pruned |
| DestroyHandlers.NotifiesTheLive | ara2-bridge-companion/src/binding.rs:106-126 | In every run a notification calls exactly the live registrations of its controller, oldest first |
| Delimiters.TypeTextsAreClosed | xtask/src/plugin_dispatch.rs:281-311 | Every type text made of words, arrows and groups in angle brackets, parentheses or square brackets, however deep, is taken in one piece by the scanners |
| Delimiters.FirstOccurrence | xtask/src/plugin_dispatch.rs:95-100 | The search finds the printed occurrence of a pattern after any head without one |
| Signatures.SplitParameters | xtask/src/plugin_dispatch.rs:281-311 | The loop over bytes and depths is the splitting function, with every cursor in bounds |
| Signatures.SplitUndoesPrint | xtask/src/plugin_dispatch.rs:281-311 | Splitting a printed list of closed parameters gives the list, whatever the padding and with or without a trailing comma |
| Signatures.SignatureParts | xtask/src/plugin_dispatch.rs:259-279 | The loop for the closing parenthesis stays in bounds, and panics exactly where there is none |
| Signatures.PartsUndoPrint | xtask/src/plugin_dispatch.rs:259-279 | A printed signature gives back its parameters and its return type |
| Signatures.CallbackUndoesPrint | xtask/src/plugin_dispatch.rs:249-257 | An optional callback type gives back its signature |
| Signatures.FieldIsReadBack | xtask/src/plugin_dispatch.rs:249-279 | The type of a printed callback field gives back the parameters and the return type |
| CallbackTables.ControllerFields | xtask/src/plugin_dispatch.rs:95-145 | The nested loops read the fields in bounds and terminate |
| CallbackTables.TableUndoesPrint | xtask/src/plugin_dispatch.rs:95-145 | A printed struct, after any text without its marker, gives back every field's name and type |
| CallbackTables.ToSnake | xtask/src/plugin_dispatch.rs:328-337 | The loop is the recursive renaming |
| CallbackTables.CamelUndoesTail | xtask/src/plugin_dispatch.rs:328-337 | Renaming can be undone on names without underscores |
| CallbackTables.SnakeIsInjective | xtask/src/plugin_dispatch.rs:328-337 | No two such names that do not start in upper case become equal |
| CallbackTables.SnakeForgets | xtask/src/plugin_dispatch.rs:328-337 | Without either condition two names can collide |
| IncludeClosure.LocalIncludeClosure | xtask/src/provenance.rs:337-370 | The worklist terminates despite repeated pushes with the least set that has the initial files and all they include, and fails exactly if an initial file cannot be read |
| IncludeClosure.LeastIsReachable | xtask/src/provenance.rs:337-370 | That set is what chains of includes lead to |
| HeadTail.HeadTailView.Create | ara2-bridge-core/src/realtime.rs:34-53 | A snapshot is built exactly from bounded entries with distinct keys, and holds just them, sorted |
| HeadTail.HeadTailView.Query | ara2-bridge-core/src/realtime.rs:56-64 | The binary search is a lookup |
| HeadTail.LookupIsUnique | ara2-bridge-core/src/realtime.rs:34-64 | A query of a snapshot is the one answer that the given entries have |
| HeadTail.PublishedIsRetained | ara2-bridge-plugin/src/realtime.rs:68-87 | With any number of installers, the published view is always a retained snapshot, and so stays every view that was published before |
| HeadTail.NewestExactly | ara2-bridge-plugin/src/realtime.rs:68-80 | The published view is the newest exactly before the first installation and when the last to push has just been the last to store |
| HeadTail.SerialInstallsPublishTheNewest | ara2-bridge-plugin/src/realtime.rs:68-80 | If installations do not overlap, the newest view is published whenever none is under way |
| HeadTail.OlderViewWins | ara2-bridge-plugin/src/realtime.rs:74-78 | The interleaving of two installations after which the older view stays published |
| HeadTail.HeadTailAdapter.PushSnapshot | ara2-bridge-plugin/src/realtime.rs:68-77 | The first step of an installation keeps every snapshot and adds a valid one of exactly the given entries, or refuses them |
| HeadTail.HeadTailAdapter.StoreSnapshot | ara2-bridge-plugin/src/realtime.rs:78 | The second step publishes a retained view, whatever came in between |
| HeadTail.HeadTailAdapter.Install | ara2-bridge-plugin/src/realtime.rs:68-80 | The two steps without interruption publish the new view |
| HeadTail.HeadTailAdapter.Query | ara2-bridge-plugin/src/realtime.rs:83-92 | A missing region is reported, unless the failure queue is full |

## Left out

- Floating point: ranges, durations and analysis progress are reals; finiteness checks and rounding are not modelled.
- Payloads: property records, display names, content events, archives and their bytes. A record that cannot be read makes a callback return early without effect; that branch is not modelled.
- Raw pointers, packed records, C strings, vtables and unwinding at the foreign boundary. Addresses, host references and application states are opaque identities.
- Host calls made inside a callback are assumed to run their closure and return its result, and not to call back into the same controller; marks made while updates are delivered are the exception that is modelled.
- Revoking host audio readers and telling the application to cancel its analysis have no effect on the modelled state.
- Object stores, partial restores, licensing, processing algorithms, audio-file chunks and content queries only read the modelled state or delegate, and are not modelled.
- Registries are values inside the runtime object; that the vector of cells behind such a value behaves the same is proved separately (`CellStore`).
- Memory order of atomics, mutex poisoning and lock fairness.
- ScopedStates.RunAccounts: takes each call as one step; the steps of the poison flag and the lock are those of `LockSteps`.
- FactorySlots.SlotTable.Allocate: scans all slots in one step; the interleaving of scans, slot by slot, is the `FactorySlots` step relation.
- Signatures.SignatureParts: text is ASCII, so bytes and characters are the same.
- Rendering the callback source text (`render`, `default_return`), git, hashing, tar, zstd and the rest of the build tooling.
- The host side of the bridge, the native companion shims (CLAP, VST3, Audio Unit) and the content-snapshot types are not part of this model.
