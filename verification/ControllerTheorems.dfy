// What the controller promises over every run of its callbacks: tables that match the graph, the
// pairing of contexts with synthetic sequences before ARA 2, and the exclusion by content readers.
module ControllerTheorems {
  import opened Prelude
  import opened Registries
  import opened Edges
  import opened DocumentGraph
  import opened GraphInvariant
  import opened GraphOutline
  import opened Analysis
  import opened Controllers
  import opened ControllerInvariant
  import opened AnalysisProtocol
  import Updates

  // ---- Host tables

  // After any run, while the controller has its runtime, each host table has exactly the live objects
  // of its kind for keys, every job is of a live active source, and the announcements still to make
  // are distinct jobs.
  lemma HostTablesAreExact(generation: nat, session: nat, document: nat, hearsUpdates: bool,
                           analyzable: set<int>, cbs: seq<Callback>)
    ensures
      var c := After(NewController(NewGraph(generation, session, document), hearsUpdates, analyzable), cbs).now;
      && (forall i, j :: 0 <= i < j < |c.pendingStarts| ==> c.pendingStarts[i] != c.pendingStarts[j])
      && (forall s :: s in c.pendingStarts ==> s in c.jobs)
      && (c.graph.Some? ==>
            var g := c.graph.value;
            && (forall r :: r in c.contextHosts <==> r.kind == MusicalContextKind && r.handle in g.contexts.live)
            && (forall r :: r in c.sourceHosts <==> r.kind == AudioSourceKind && r.handle in g.sources.live)
            && (forall r :: r in c.modificationHosts <==>
                  r.kind == AudioModificationKind && r.handle in g.modifications.live)
            && (forall r :: r in c.regionHosts <==> r.kind == PlaybackRegionKind && r.handle in g.regions.live)
            && (forall r :: r in c.jobs ==>
                  r.kind == AudioSourceKind && r.handle in g.sources.live && g.sources.live[r.handle].active))
  {
    hide Act, Inv;
    var c0 := NewController(NewGraph(generation, session, document), hearsUpdates, analyzable);
    NewControllerTidy(generation, session, document, hearsUpdates, analyzable);
    RunKeepsTidy(c0, cbs);
    TidyTables(After(c0, cbs).now);
  }

  lemma TidyTables(c: Controller)
    requires Tidy(c)
    ensures Pending(c.pendingStarts, c.jobs)
    ensures
      c.graph.Some? ==>
        var g := c.graph.value;
        && Inv(g)
        && Keyed(c.contextHosts, MusicalContextKind, g.contexts.live.Keys)
        && Keyed(c.sourceHosts, AudioSourceKind, g.sources.live.Keys)
        && Keyed(c.modificationHosts, AudioModificationKind, g.modifications.live.Keys)
        && Keyed(c.regionHosts, PlaybackRegionKind, g.regions.live.Keys)
        && Employed(c.jobs, set s | s in g.sources.live && g.sources.live[s].active)
  {
    hide Inv, Keyed, Employed, Pending;
  }

  // ---- Destroying an audio source is all or nothing, and so is the cancellation that it begins with

  lemma DestroySourceIsAllOrNothing(c: Controller, source: Handle)
    requires Tidy(c)
    ensures MayDestroySource(c, source) <==>
            && c.graph.Some? && c.graph.value.editing && source in c.graph.value.sources.live
            && !HasModification(c.graph.value, source)
    ensures
      var t := DestroySourceTurn(c, source);
      if MayDestroySource(c, source) then
        && t.now.graph.Some? && source !in t.now.graph.value.sources.live
        && t.now.sourceHosts == c.sourceHosts - {Src(source)}
        && t.now.jobs == c.jobs - {Src(source)}
        && Src(source) !in t.now.pendingStarts && (forall e :: e in t.now.queue ==> e.source != Src(source))
        && t.signals == (if Src(source) in c.jobs then [Cancelled(Src(source))] else [])
      else t.now == c && t.signals == []
  {
    hide Inv, Keyed, Employed, Pending, Retain, Without;
    TidyTables(c);
    hide Tidy;
    if c.graph.Some? {
      var g := c.graph.value;
      GraphInvariant.DestroySourceKeeps(g, source);
      if source in g.sources.live { ZeroIsChildless(g, source); }
      CancelPending(c.pendingStarts, c.jobs, Src(source));
      WithoutIsExact(c.queue, Src(source));
      WithoutDrops(c.queue, Src(source));
      if MayDestroySource(c, source) {
        assert Src(source) in c.sourceHosts by { SourceIsHosted(c, source); }
      }
    }
  }

  lemma SourceIsHosted(c: Controller, source: Handle)
    requires Tidy(c) && c.graph.Some? && source in c.graph.value.sources.live
    ensures Src(source) in c.sourceHosts
  {
    hide Inv, Employed, Pending;
  }

  lemma ZeroIsChildless(g: Graph, source: Handle)
    requires Inv(g) && source in g.sources.live
    ensures g.sources.live[source].children == 0 <==> !HasModification(g, source)
  {
    hide Linked, Kept;
    ZeroMeansChildless(OF_SOURCE, g.sources.live, g.modifications.live, source);
  }

  lemma WithoutDrops(queue: seq<Progress>, source: RawHandle)
    ensures forall e :: e in Without(queue, source) ==> e.source != source
  {
    WithoutIsExact(queue, source);
    forall e | e in Without(queue, source) ensures e.source != source {
      assert e in multiset(Without(queue, source));
    }
  }

  // ---- When analysis begins and ends

  lemma {:induction false} CompletionEnds(jobs: Jobs, queue: seq<Progress>, r: RawHandle)
    requires r in jobs
    ensures r !in JobsAfter(jobs, queue) <==> Completed(r) in queue
  {
    if queue != [] {
      var init, last := queue[..|queue| - 1], queue[|queue| - 1];
      assert queue == init + [last];
      CompletionEnds(jobs, init, r);
    }
  }

  lemma {:induction false} ProgressBeginsNothing(jobs: Jobs, queue: seq<Progress>, r: RawHandle)
    requires r !in jobs
    ensures r !in JobsAfter(jobs, queue)
  {
    if queue != [] {
      ProgressBeginsNothing(jobs, queue[..|queue| - 1], r);
    }
  }

  // What ends a job: a queued completion when the host may be notified, a destruction or deactivation of
  // its source that the graph allows, or the revocation of sample access.
  ghost predicate Ends(c: Controller, cb: Callback, source: Handle) {
    c.graph.Some? &&
    match cb
    case NotifyUpdates =>
      c.readers == {} && !c.graph.value.editing && c.hearsUpdates && Completed(Src(source)) in c.queue
    case DestroySource(s) => s == source && c.graph.value.editing && !HasModification(c.graph.value, s)
    case DeactivateSource(s, deactivated, accepted) =>
      && s == source && deactivated && accepted && c.readers == {} && c.graph.value.editing
      && !OwnsActiveModification(c.graph.value, s)
    case EnableSamples(s, enable, _) => s == source && !enable
    case _ => false
  }

  lemma JobsEndExactly(c: Controller, cb: Callback, source: Handle)
    requires Tidy(c) && Src(source) in c.jobs
    ensures c.graph.Some? ==> (Src(source) !in Act(c, cb).now.jobs <==> Ends(c, cb, source))
    ensures c.graph.None? ==> Act(c, cb).now.jobs == c.jobs
  {
    hide Tidy, Act, Ends;
    if cb.NotifyUpdates? {
      NotifyEnds(c, source);
    } else if cb.DestroySource? {
      DestroyEnds(c, cb.source, source);
    } else if cb.DeactivateSource? {
      DeactivateEnds(c, cb.source, cb.deactivated, cb.accepted, source);
    } else if cb.EnableSamples? {
      EnableEnds(c, cb.source, cb.enable, cb.accepted, source);
    } else if cb.RequestAnalysis? {
      RequestEndsNothing(c, cb.source, cb.types, cb.accepted, source);
    } else {
      OthersEndNothing(c, cb, source);
    }
  }

  lemma NotifyEnds(c: Controller, source: Handle)
    requires Src(source) in c.jobs
    ensures c.graph.Some? ==> (Src(source) !in Act(c, NotifyUpdates).now.jobs <==> Ends(c, NotifyUpdates, source))
    ensures c.graph.None? ==> Act(c, NotifyUpdates).now.jobs == c.jobs
  {
    hide RespectsReaders, KeepsGraph, JobsAfter;
    CompletionEnds(c.jobs, c.queue, Src(source));
  }

  lemma DestroyEnds(c: Controller, s: Handle, source: Handle)
    requires Tidy(c) && Src(source) in c.jobs
    ensures c.graph.Some? ==>
              (Src(source) !in Act(c, DestroySource(s)).now.jobs <==> Ends(c, DestroySource(s), source))
    ensures c.graph.None? ==> Act(c, DestroySource(s)).now.jobs == c.jobs
  {
    hide Tidy, DestroySourceTurn, LeavesJobs, RespectsReaders, CancelsJob, Asks, Performs, MayDestroySource;
    DestroySourceIsAllOrNothing(c, s);
    WorkerIsActive(c, source);
  }

  // A job's source is live and active.
  lemma WorkerIsActive(c: Controller, source: Handle)
    requires Tidy(c) && Src(source) in c.jobs
    ensures c.graph.Some? ==> source in c.graph.value.sources.live && c.graph.value.sources.live[source].active
    ensures c.graph.Some? ==> Src(source) in c.sourceHosts
  {
    hide Inv, Pending;
    TidyTables(c);
  }

  lemma DeactivateJobs(c: Controller, s: Handle, deactivated: bool, accepted: bool)
    ensures DeactivateSourceTurn(c, s, deactivated, accepted).now.jobs ==
            if Editable(c) && Src(s) in c.sourceHosts && deactivated
               && Step(c.graph.value, SwitchSource(s, deactivated, accepted)).outcome.Done?
            then c.jobs - {Src(s)} else c.jobs
  {
    hide LeavesJobs, RespectsReaders, Asks, Performs, Retain, Without, Step;
  }

  lemma EnableJobs(c: Controller, s: Handle, enable: bool, accepted: bool)
    ensures EnableSamplesTurn(c, s, enable, accepted).now.jobs ==
            if c.graph.Some? && s in c.graph.value.sources.live && !enable then c.jobs - {Src(s)} else c.jobs
  {
    hide LeavesJobs, RespectsReaders, Asks, Performs, Retain, Without, Step;
  }

  lemma DeactivateEnds(c: Controller, s: Handle, deactivated: bool, accepted: bool, source: Handle)
    requires Tidy(c) && Src(source) in c.jobs
    ensures c.graph.Some? ==>
              (Src(source) !in Act(c, DeactivateSource(s, deactivated, accepted)).now.jobs <==>
               Ends(c, DeactivateSource(s, deactivated, accepted), source))
    ensures c.graph.None? ==> Act(c, DeactivateSource(s, deactivated, accepted)).now.jobs == c.jobs
  {
    hide Tidy, LeavesJobs, RespectsReaders, Asks, Performs, DeactivateSourceTurn, Step;
    WorkerIsActive(c, source);
    DeactivateJobs(c, s, deactivated, accepted);
    if Editable(c) && s == source {
      SwitchGranted(c, source, deactivated, accepted);
    }
  }

  lemma SwitchGranted(c: Controller, source: Handle, deactivated: bool, accepted: bool)
    requires Tidy(c) && c.graph.Some? && source in c.graph.value.sources.live
    ensures deactivated ==>
              (Step(c.graph.value, SwitchSource(source, deactivated, accepted)).outcome.Done? <==>
               accepted && !OwnsActiveModification(c.graph.value, source))
  {
    hide Inv, OutlineOf;
    var g := c.graph.value;
    TidyTables(c);
    StepRefines(g, SwitchSource(source, deactivated, accepted));
    OutlineShowsChildren(g, source);
    LiveInOutline(g, source);
  }

  lemma LiveInOutline(g: Graph, source: Handle)
    requires source in g.sources.live
    ensures source in OutlineOf(g).sources
  {
  }

  lemma EnableEnds(c: Controller, s: Handle, enable: bool, accepted: bool, source: Handle)
    requires Tidy(c) && Src(source) in c.jobs
    ensures c.graph.Some? ==>
              (Src(source) !in Act(c, EnableSamples(s, enable, accepted)).now.jobs <==>
               Ends(c, EnableSamples(s, enable, accepted), source))
    ensures c.graph.None? ==> Act(c, EnableSamples(s, enable, accepted)).now.jobs == c.jobs
  {
    hide Tidy, LeavesJobs, RespectsReaders, Asks, Performs, EnableSamplesTurn, Step;
    WorkerIsActive(c, source);
    EnableJobs(c, s, enable, accepted);
  }

  lemma RequestEndsNothing(c: Controller, s: Handle, types: seq<int>, accepted: bool, source: Handle)
    requires Src(source) in c.jobs
    ensures c.graph.Some? ==>
              (Src(source) !in Act(c, RequestAnalysis(s, types, accepted)).now.jobs <==>
               Ends(c, RequestAnalysis(s, types, accepted), source))
    ensures c.graph.None? ==> Act(c, RequestAnalysis(s, types, accepted)).now.jobs == c.jobs
  {
    hide RespectsReaders, KeepsGraph;
  }

  lemma OthersEndNothing(c: Controller, cb: Callback, source: Handle)
    requires Unconcerned(cb) && Src(source) in c.jobs
    ensures !Ends(c, cb, source) && Act(c, cb).now.jobs == c.jobs
  {
    hide Act;
    UnconcernedLeavesJobs(c, cb);
  }

  // What begins one: an accepted request for distinct analyzable content types of a live active source
  // that has none yet.
  ghost predicate Begins(c: Controller, cb: Callback, source: Handle) {
    match cb
    case RequestAnalysis(s, types, accepted) =>
      && s == source && accepted && c.graph.Some?
      && s in c.graph.value.sources.live && c.graph.value.sources.live[s].active
      && 0 < |types| <= MAX_CONTENT_TYPES && Unique(types) && (forall t :: t in types ==> t in c.analyzable)
    case _ => false
  }

  lemma JobsBeginExactly(c: Controller, cb: Callback, source: Handle)
    requires Tidy(c) && Src(source) !in c.jobs
    ensures Src(source) in Act(c, cb).now.jobs <==> Begins(c, cb, source)
    ensures Begins(c, cb, source) ==>
              && Act(c, cb).now.jobs[Src(source)] == Job(set t | t in cb.types, 0.0)
              && Act(c, cb).now.pendingStarts == c.pendingStarts + [Src(source)]
  {
    hide Tidy, Act;
    if cb.RequestAnalysis? {
      RequestBegins(c, cb.source, cb.types, cb.accepted, source);
    } else {
      NothingElseBegins(c, cb, source);
    }
  }

  lemma RequestBegins(c: Controller, s: Handle, types: seq<int>, accepted: bool, source: Handle)
    requires Src(source) !in c.jobs
    ensures
      var cb := RequestAnalysis(s, types, accepted);
      && (Src(source) in Act(c, cb).now.jobs <==> Begins(c, cb, source))
      && (Begins(c, cb, source) ==>
            && Act(c, cb).now.jobs[Src(source)] == Job(set t | t in types, 0.0)
            && Act(c, cb).now.pendingStarts == c.pendingStarts + [Src(source)])
  {
    hide RespectsReaders, KeepsGraph;
  }

  lemma NothingElseBegins(c: Controller, cb: Callback, source: Handle)
    requires Tidy(c) && Src(source) !in c.jobs && !cb.RequestAnalysis?
    ensures Src(source) !in Act(c, cb).now.jobs
  {
    hide Tidy, LeavesJobs, RespectsReaders, Asks, Performs, KeepsGraph, CancelsJob, DestroySourceTurn, Step, JobsAfter,
      DeactivateSourceTurn, EnableSamplesTurn, MayDestroySource;
    if cb.NotifyUpdates? {
      ProgressBeginsNothing(c.jobs, c.queue, Src(source));
    } else if cb.DestroySource? {
      DestroySourceIsAllOrNothing(c, cb.source);
    } else if cb.DeactivateSource? {
      DeactivateJobs(c, cb.source, cb.deactivated, cb.accepted);
    } else if cb.EnableSamples? {
      EnableJobs(c, cb.source, cb.enable, cb.accepted);
    } else {
      OthersBeginNothing(c, cb, source);
    }
  }

  lemma OthersBeginNothing(c: Controller, cb: Callback, source: Handle)
    requires Unconcerned(cb) && Src(source) !in c.jobs
    ensures Src(source) !in Act(c, cb).now.jobs
  {
    hide Act;
    UnconcernedLeavesJobs(c, cb);
  }

  // ---- Model updates

  ghost predicate LiveSubject(g: Graph, n: Updates.Notification) {
    match n
    case SourceChanged(r, _) => r.kind == AudioSourceKind && r.handle in g.sources.live
    case ModificationChanged(r, _) => r.kind == AudioModificationKind && r.handle in g.modifications.live
    case RegionChanged(r, _) => r.kind == PlaybackRegionKind && r.handle in g.regions.live
    case DocumentChanged => false
  }

  // Of the coalesced changes a flush tells the host exactly those of objects that are still live, each
  // under the reference that the host gave for the object, and the change of the document.
  lemma ChangesOfLiveObjectsAreTold(c: Controller, n: Updates.Notification)
    requires Tidy(c) && c.readers == {} && c.graph.Some? && !c.graph.value.editing && c.hearsUpdates
    ensures
      var notices := Act(c, NotifyUpdates).notices;
      var delivery := Updates.Delivery(c.tracker);
      && ((exists h: HostRef :: ObjectChanged(h, n) in notices) <==> n in delivery && LiveSubject(c.graph.value, n))
      && (forall h: HostRef :: ObjectChanged(h, n) in notices ==> HostFor(c, n) == Some(h))
      && (DocumentDataChanged in notices <==> Updates.DocumentChanged in delivery)
  {
    hide Inv, Employed, Pending, Updates.Delivery;
    var notices, delivery := Act(c, NotifyUpdates).notices, Updates.Delivery(c.tracker);
    TidyTables(c);
    forall h: HostRef ensures ObjectChanged(h, n) in notices <==> n in delivery && HostFor(c, n) == Some(h) {
      NoticesAreFiltered(c, delivery, ObjectChanged(h, n));
    }
    NoticesAreFiltered(c, delivery, DocumentDataChanged);
    if n in delivery && LiveSubject(c.graph.value, n) {
      assert ObjectChanged(HostFor(c, n).value, n) in notices;
    }
  }

  // ---- Restoring a document

  // A restore is accepted exactly if nothing stands in its way and the application agrees; the editing
  // interval that a failing one opened is closed again unless the application refuses that too.
  lemma RestoreIsBalanced(c: Controller, reader: HostRef, readable: bool, begun: bool, restored: bool, ended: bool)
    requires Tidy(c)
    ensures
      var e := BeginRestoreEffect(c, reader, readable, begun, restored, ended);
      var opens := c.restoring.None? && readable && Reachable(c) && !c.graph.value.editing && begun;
      && (e.accepted <==> opens && restored)
      && e.restoring == (if e.accepted then Some(reader) else c.restoring)
      && (if opens then e.graph == Some(c.graph.value.(editing := restored || !ended)) else e.graph == c.graph)
  {
    hide Kept, Linked, Pending, Matches;
  }

  // Only the reader that a restore was begun with ends it, and only if the application lets editing end.
  lemma RestoreEndsByItsReader(c: Controller, reader: HostRef, ended: bool)
    requires Tidy(c)
    ensures
      var e := EndRestoreEffect(c, reader, ended);
      var closes := c.restoring == Some(reader) && Reachable(c) && c.graph.value.editing && ended;
      && (e.accepted <==> closes) && e.restoring == (if closes then None else c.restoring)
      && (if closes then e.graph == Some(c.graph.value.(editing := false)) else e.graph == c.graph)
  {
    hide Kept, Linked, Pending, Matches;
  }

  // ---- Content readers

  // Most callbacks test for readers themselves, or through `runtime_mut`.
  predicate TestsForReaders(cb: Callback) {
    !cb.DestroyController? && !cb.DestroySource? && !cb.CreateReader? && !cb.DestroyReader?
  }

  lemma TestedRespectsReaders(c: Controller, cb: Callback)
    requires TestsForReaders(cb) && Tidy(c)
    ensures RespectsReaders(c, Act(c, cb))
  {
    hide Act, RespectsReaders, Tidy;
    if OfContextOrSource(cb) {
      ContextsAndSourcesRespectReaders(c, cb);
    } else if OfModificationOrSequence(cb) {
      ModificationsAndSequencesRespectReaders(c, cb);
    } else {
      OthersRespectReaders(c, cb);
    }
  }

  lemma ContextsAndSourcesRespectReaders(c: Controller, cb: Callback)
    requires TestsForReaders(cb) && OfContextOrSource(cb)
    ensures RespectsReaders(c, Act(c, cb))
  {
    hide LeavesJobs, RespectsReaders, Asks, Performs, KeepsGraph, Edit, CreateContextTurn, DestroyContextTurn,
      CreateSourceTurn, DeactivateSourceTurn, EnableSamplesTurn, RequestAnalysisTurn;
    OutsideRespectsReaders(c, c.queue, c.tracker);
  }

  lemma ModificationsAndSequencesRespectReaders(c: Controller, cb: Callback)
    requires OfModificationOrSequence(cb)
    ensures RespectsReaders(c, Act(c, cb))
  {
    hide LeavesJobs, RespectsReaders, Asks, Performs, Edit, CreateModificationTurn, DestroyModificationTurn,
      CreateRegionTurn, UpdateRegionTurn, DestroyRegionTurn, CreateSequenceTurn;
  }

  lemma OthersRespectReaders(c: Controller, cb: Callback)
    requires TestsForReaders(cb) && !OfContextOrSource(cb) && !OfModificationOrSequence(cb) && Tidy(c)
    ensures RespectsReaders(c, Act(c, cb))
  {
    hide LeavesJobs, RespectsReaders, Asks, Performs, KeepsGraph, Edit, Interval, Restoring, BeginRestoreEffect,
      EndRestoreEffect, NotifyModelUpdates, Updates.Marked, Tidy, Inv, CensusOf;
    match cb
    case BeginRestore(reader, readable, begun, restored, ended) =>
      BeginRestoreIsNeutral(c, reader, readable, begun, restored, ended);
    case EndRestore(reader, ended) => EndRestoreIsNeutral(c, reader, ended);
    case EmitProgress(about, p) => OutsideRespectsReaders(c, c.queue + [Updated(about, p)], c.tracker);
    case EmitCompletion(about) => OutsideRespectsReaders(c, c.queue + [Completed(about)], c.tracker);
    case EmitChange(mark) => OutsideRespectsReaders(c, c.queue, Updates.Marked(c.tracker, mark));
    case _ => OutsideRespectsReaders(c, c.queue, c.tracker);
  }

  lemma OutsideRespectsReaders(c: Controller, queue: seq<Progress>, tracker: Updates.Tracker)
    ensures RespectsReaders(c, Quiet(c.(queue := queue, tracker := tracker), Nothing))
    ensures RespectsReaders(c, Quiet(c, Nothing))
  {
  }

  // While a reader is outstanding, the only callbacks that change the graph or the editing state are
  // two that do not test for readers: the destruction of a source, where it is permitted, and that of
  // the controller.
  lemma ReadersFreezeTheGraph(c: Controller, cb: Callback)
    requires Tidy(c) && c.readers != {}
    ensures Act(c, cb).now.graph != c.graph <==>
            match cb
            case DestroyController => c.graph.Some?
            case DestroySource(source) => MayDestroySource(c, source)
            case _ => false
  {
    hide Tidy, Act, MayDestroySource;
    if TestsForReaders(cb) {
      TestedFreezes(c, cb);
    } else {
      UntestedEffect(c, cb);
    }
  }

  lemma UntestedEffect(c: Controller, cb: Callback)
    requires Tidy(c) && !TestsForReaders(cb)
    ensures Act(c, cb).now.graph != c.graph <==>
            match cb
            case DestroyController => c.graph.Some?
            case DestroySource(source) => MayDestroySource(c, source)
            case _ => false
  {
    hide Tidy, DestroySourceTurn, LeavesJobs, CancelsJob, RespectsReaders, Asks, Performs, KeepsGraph,
      MayDestroySource, Readable, Step;
    if cb.DestroySource? {
      DestroySourceIsAllOrNothing(c, cb.source);
    }
  }

  lemma TestedFreezes(c: Controller, cb: Callback)
    requires TestsForReaders(cb) && Tidy(c)
    ensures Act(c, cb).now.readers == c.readers
    ensures c.readers != {} ==> Act(c, cb).now.graph == c.graph
  {
    hide Act;
    TestedRespectsReaders(c, cb);
  }

  lemma ReaderStays(c: Controller, cb: Callback, pointer: Pointer)
    requires Tidy(c) && pointer in c.readers && cb != DestroyReader(pointer) && !cb.DestroyController?
    ensures pointer in Act(c, cb).now.readers
  {
    hide Act, Tidy;
    if TestsForReaders(cb) {
      TestedFreezes(c, cb);
    } else {
      UntestedReaders(c, cb);
    }
  }

  lemma UntestedReaders(c: Controller, cb: Callback)
    requires c.readers != {} && (cb.DestroySource? || cb.CreateReader? || cb.DestroyReader?)
    ensures Act(c, cb).now.readers == if cb.DestroyReader? then c.readers - {cb.pointer} else c.readers
  {
    hide DestroySourceTurn, LeavesJobs, CancelsJob, MayDestroySource, RespectsReaders, Asks, Performs,
      KeepsGraph, Readable, Step;
  }

  // A published reader resolves until it is destroyed, or the controller is; there is never another.
  lemma {:induction false} ReaderIsExclusive(c: Controller, cbs: seq<Callback>, pointer: Pointer)
    requires Tidy(c) && pointer in c.readers
    requires forall cb :: cb in cbs ==> cb != DestroyReader(pointer) && !cb.DestroyController?
    ensures After(c, cbs).now.readers == {pointer}
  {
    hide Act, Tidy;
    if cbs == [] {
      TidyReaders(c);
      OnlyOne(c.readers, pointer);
    } else {
      var init, cb := cbs[..|cbs| - 1], cbs[|cbs| - 1];
      forall x | x in init ensures x in cbs {
      }
      assert cb in cbs;
      ReaderIsExclusive(c, init, pointer);
      RunKeepsTidy(c, init);
      ReaderStays(After(c, init).now, cb, pointer);
      RunKeepsTidy(c, cbs);
      TidyReaders(After(c, cbs).now);
      OnlyOne(After(c, cbs).now.readers, pointer);
    }
  }

  lemma TidyReaders(c: Controller)
    requires Tidy(c)
    ensures |c.readers| <= 1
  {
  }

  lemma OnlyOne(s: set<Pointer>, p: Pointer)
    requires p in s && |s| <= 1
    ensures s == {p}
  {
    assert |s - {p}| == |s| - 1;
  }

  // The exception, as a run: an audio source is destroyed under a reader of its content.
  lemma ReaderOutlivesItsSource(session: nat) returns (cbs: seq<Callback>, source: Handle, pointer: Pointer)
    ensures
      var c := After(NewController(NewGraph(V2_DRAFT, session, 0), true, {}), cbs).now;
      && CreateReader(SourceSubject(source), Some(pointer)) in cbs && c.readers == {pointer}
      && c.graph.Some? && source !in c.graph.value.sources.live
  {
    hide Act, Tidy;
    var c0 := NewController(NewGraph(V2_DRAFT, session, 0), true, {});
    source, pointer := Handle(1, session), 5;
    var cb0, cb1 := BeginEditing(true), CreateSource(Some(1), Some(7));
    var cb2, cb3 := CreateReader(SourceSubject(source), Some(pointer)), DestroySource(source);
    cbs := [cb0, cb1, cb2, cb3];
    assert cbs[..3] == [cb0, cb1, cb2] && [cb0, cb1, cb2][..2] == [cb0, cb1];
    assert [cb0, cb1][..1] == [cb0] && [cb0][..0] == [];
    assert After(c0, []).now == c0;
    assert After(c0, [cb0]).now == Act(c0, cb0).now;
    assert After(c0, [cb0, cb1]).now == Act(Act(c0, cb0).now, cb1).now;
    var c2 := EditedSource(session);
    var c3 := Act(c2, cb2).now;
    assert After(c0, [cb0, cb1, cb2]).now == c3;
    assert After(c0, cbs).now == Act(c3, cb3).now;
    ReadSource(c2, source, pointer);
    NewControllerTidy(V2_DRAFT, session, 0, true, {});
    RunKeepsTidy(c0, [cb0, cb1, cb2]);
    DestroyReadSource(c3, source);
  }

  // A source in an editing interval, and what then happens to it.
  lemma EditedSource(session: nat) returns (c: Controller)
    ensures
      var c0 := NewController(NewGraph(V2_DRAFT, session, 0), true, {});
      c == Act(Act(c0, BeginEditing(true)).now, CreateSource(Some(1), Some(7))).now
    ensures c.graph.Some? && c.graph.value.editing && c.readers == {}
    ensures
      var g := c.graph.value;
      g.sources.live == map[Handle(1, session) := Committed(7)] && g.liveSources == 1
    ensures Src(Handle(1, session)) in c.sourceHosts
  {
    hide LeavesJobs, RespectsReaders, Asks, Performs, Retain, Without;
    var c0 := NewController(NewGraph(V2_DRAFT, session, 0), true, {});
    var c1 := Act(c0, BeginEditing(true)).now;
    c := Act(c1, CreateSource(Some(1), Some(7))).now;
  }

  lemma ReadSource(c: Controller, source: Handle, pointer: Pointer)
    requires c.graph.Some? && c.readers == {}
    requires source in c.graph.value.sources.live && c.graph.value.sources.live[source] == Committed(7)
    ensures Act(c, CreateReader(SourceSubject(source), Some(pointer))).now == c.(readers := {pointer})
  {
    hide LeavesJobs, RespectsReaders, Asks, Performs, Retain, Without, CancelsJob;
  }

  lemma DestroyReadSource(c: Controller, source: Handle)
    requires Tidy(c) && c.graph.Some? && c.graph.value.editing && c.readers != {}
    requires source in c.graph.value.sources.live && c.graph.value.sources.live[source].children == 0
    ensures
      var c' := Act(c, DestroySource(source)).now;
      && c'.readers == c.readers && c'.graph.Some? && source !in c'.graph.value.sources.live
  {
    hide Tidy, DestroySourceTurn, LeavesJobs, RespectsReaders, CancelsJob, Asks, Performs;
    DestroySourceIsAllOrNothing(c, source);
  }
}
