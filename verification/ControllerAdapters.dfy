// The document controller as an object (ara2-bridge-plugin/src/controller.rs): it owns the runtime,
// the analysis coordinator and queue, and the pending updates, and its callbacks change them in
// place.  Each is proved against the function of `Controllers` that describes it.
module ControllerAdapters {
  import opened Prelude
  import opened Registries
  import opened DocumentGraph
  import opened GraphInvariant
  import opened GraphOutline
  import opened Runtime
  import opened Analysis
  import opened Controllers
  import Updates
  import opened UpdateFlow

  lemma SameHosts(c: Controller, d: Controller, n: Updates.Notification)
    requires c.sourceHosts == d.sourceHosts && c.modificationHosts == d.modificationHosts
    requires c.regionHosts == d.regionHosts
    ensures NoticeOf(c, n) == NoticeOf(d, n)
  {
  }

  lemma {:induction false} SameNotices(c: Controller, d: Controller, ns: seq<Updates.Notification>)
    requires c.sourceHosts == d.sourceHosts && c.modificationHosts == d.modificationHosts
    requires c.regionHosts == d.regionHosts
    ensures NoticesOf(c, ns) == NoticesOf(d, ns)
  {
    if ns != [] {
      SameNotices(c, d, ns[..|ns| - 1]);
      SameHosts(c, d, ns[|ns| - 1]);
    }
  }

  class ControllerAdapter {
    var runtime: PluginRuntime?
    var contextHosts: map<RawHandle, HostRef>
    var sourceHosts: map<RawHandle, HostRef>
    var modificationHosts: map<RawHandle, HostRef>
    var regionHosts: map<RawHandle, HostRef>
    var synthetic: map<Handle, Handle>
    const updates: UpdateEmitter
    const analysis: AnalysisCoordinator
    const events: AnalysisEmitter
    var pendingStarts: seq<RawHandle>
    var readers: set<Pointer>
    var restoring: Option<HostRef>
    const hearsUpdates: bool
    const analyzable: set<int>

    function View(): Controller
      reads this, runtime, updates.pending, analysis, events
    {
      Controller(if runtime == null then None else Some(runtime.State()),
                 contextHosts, sourceHosts, modificationHosts, regionHosts, synthetic,
                 updates.pending.State(), analysis.jobs, events.pending, pendingStarts, readers, restoring,
                 hearsUpdates, analyzable)
    }

    ghost predicate Valid()
      reads this, runtime
    {
      runtime != null ==> runtime.Valid()
    }

    constructor (runtime: PluginRuntime, updates: UpdateEmitter, events: AnalysisEmitter, hearsUpdates: bool,
                 analyzable: set<int>)
      requires runtime.Valid() && updates.pending.State() == Updates.EMPTY && events.pending == []
      ensures Valid() && this.runtime == runtime && this.updates == updates && this.events == events
      ensures fresh(analysis)
      ensures View() == NewController(runtime.State(), hearsUpdates, analyzable)
    {
      hide Inv;
      this.runtime := runtime;
      contextHosts, sourceHosts, modificationHosts, regionHosts := map[], map[], map[], map[];
      synthetic := map[];
      this.updates := updates;
      analysis := new AnalysisCoordinator();
      this.events := events;
      pendingStarts, readers, restoring := [], {}, None;
      this.hearsUpdates, this.analyzable := hearsUpdates, analyzable;
    }

    // ---- The controller itself

    method DestroyDocumentController()
      requires Valid()
      modifies this, runtime
      ensures Valid() && View() == old(View()).(readers := {}, graph := None)
    {
      hide Inv, DestroyDocument;
      readers := {};
      if runtime != null {
        var ignored := runtime.Destroy();
        runtime := null;
      }
    }

    method BeginEditing(accepted: bool)
      requires Valid()
      modifies runtime
      ensures Valid() && Quiet(View(), Nothing) == Interval(old(View()), BeginEdit(accepted))
    {
      hide Inv, DocumentGraph.BeginEditing;
      if readers == {} && runtime != null {
        var ignored := runtime.BeginEditing(accepted);
      }
    }

    method EndEditing(accepted: bool)
      requires Valid()
      modifies runtime
      ensures Valid() && Quiet(View(), Nothing) == Interval(old(View()), EndEdit(accepted))
    {
      hide Inv, DocumentGraph.EndEditing;
      if readers != {} || runtime == null { return; }
      var ignored := runtime.EndEditing(accepted);
    }

    method BeginRestoringDocument(reader: HostRef, readable: bool, begun: bool, restored: bool, ended: bool)
      returns (r: bool)
      requires Valid()
      modifies this, runtime
      ensures Valid()
      ensures Quiet(View(), Flag(r)) ==
              Restoring(old(View()), BeginRestoreEffect(old(View()), reader, readable, begun, restored, ended))
    {
      hide Inv, DocumentGraph.BeginEditing, DocumentGraph.EndEditing;
      if restoring.Some? { return false; }
      if !readable { return false; }
      if readers != {} || runtime == null { return false; }
      var began := runtime.BeginEditing(begun);
      if !began.Done? { return false; }
      if !restored {
        var ignored := runtime.EndEditing(ended);
        return false;
      }
      restoring := Some(reader);
      return true;
    }

    method EndRestoringDocument(reader: HostRef, ended: bool) returns (r: bool)
      requires Valid()
      modifies this, runtime
      ensures Valid() && Quiet(View(), Flag(r)) == Restoring(old(View()), EndRestoreEffect(old(View()), reader, ended))
    {
      hide Inv, DocumentGraph.EndEditing;
      if restoring != Some(reader) { return false; }
      if readers != {} || runtime == null { return false; }
      var done := runtime.EndEditing(ended);
      if !done.Done? { return false; }
      restoring := None;
      return true;
    }

    method UpdateDocument(accepted: bool)
      requires Valid()
      ensures Quiet(View(), Nothing) == Edit(View(), EditDocument(accepted))
    {
      hide Inv;
      if readers != {} || runtime == null || !runtime.editing { return; }
      var ignored := runtime.UpdateDocument(accepted);
    }

    // ---- Model updates

    method NotifyStarts() returns (signals: seq<Signal>)
      modifies this`pendingStarts
      ensures signals == StartSignals(old(pendingStarts), sourceHosts) && pendingStarts == []
    {
      var taken := pendingStarts;
      pendingStarts := [];
      signals := [];
      assert taken[..|taken|] == taken;
      for i := 0 to |taken|
        invariant signals == StartSignals(taken[..i], sourceHosts)
      {
        assert taken[..i + 1][..i] == taken[..i];
        if taken[i] in sourceHosts {
          signals := signals + [Started(taken[i], sourceHosts[taken[i]])];
        }
      }
    }

    method NotifyProgress() returns (signals: seq<Signal>)
      modifies analysis, events
      ensures signals == ProgressSignals(old(analysis.jobs), old(events.pending), sourceHosts)
      ensures analysis.jobs == JobsAfter(old(analysis.jobs), old(events.pending)) && events.pending == []
    {
      ghost var jobs := analysis.jobs;
      var taken := events.TakePending();
      signals := [];
      assert taken[..|taken|] == taken;
      for i := 0 to |taken|
        invariant analysis.jobs == JobsAfter(jobs, taken[..i]) && events.pending == []
        invariant signals == ProgressSignals(jobs, taken[..i], sourceHosts)
      {
        assert taken[..i + 1][..i] == taken[..i];
        var refused: Option<Error>;
        match taken[i] {
          case Updated(source, progress) => refused := analysis.Update(source, progress);
          case Completed(source) => refused := analysis.Complete(source);
        }
        if refused.None? && taken[i].source in sourceHosts {
          signals := signals + [ProgressSignal(taken[i], sourceHosts[taken[i].source])];
        }
      }
    }

    method NotifyChanges() returns (notices: seq<Notice>)
      modifies updates.pending
      ensures updates.pending.State() == Updates.EMPTY
      ensures notices == NoticesOf(old(View()), Updates.Delivery(old(updates.pending.State())))
    {
      hide NoticeOf;
      ghost var c := View();
      var taken := updates.TakePending();
      assert taken != updates.pending;
      var delivered := taken.FlushWith(_ => []);
      assert updates.pending.State() == Updates.EMPTY;
      notices := [];
      assert delivered[..|delivered|] == delivered;
      for i := 0 to |delivered|
        invariant notices == NoticesOf(c, delivered[..i])
        invariant updates.pending.State() == Updates.EMPTY
      {
        assert delivered[..i + 1][..i] == delivered[..i];
        SameHosts(c, View(), delivered[i]);
        notices := notices + NoticeOf(View(), delivered[i]);
      }
    }

    method NotifyModelUpdates() returns (signals: seq<Signal>, notices: seq<Notice>)
      requires Valid()
      modifies this`pendingStarts, analysis, events, updates.pending
      ensures Valid() && Turn(View(), signals, notices, Nothing) == Controllers.NotifyModelUpdates(old(View()))
    {
      hide StartSignals, ProgressSignals, JobsAfter, NoticesOf, Inv;
      signals, notices := [], [];
      if readers != {} || runtime == null || runtime.editing { return; }
      if !hearsUpdates { return; }
      ghost var c := View();
      var starts := NotifyStarts();
      var progress := NotifyProgress();
      signals := starts + progress;
      ghost var d := View();
      SameNotices(c, d, Updates.Delivery(c.tracker));
      notices := NotifyChanges();
    }

    // ---- Musical contexts

    // The synthetic sequence of a new context; if there can be none, the context goes again.
    method GiveSequence(context: Handle, reply: Option<nat>) returns (s: Option<Handle>)
      requires Valid() && runtime != null
      modifies runtime
      ensures Valid()
      ensures
        var r := Step(old(runtime.State()), MakeSequence(context, context, reply));
        if r.outcome.Done? then s == Some(HandleOf(r.outcome.value)) && runtime.State() == r.graph
        else s == None && runtime.State() == Step(r.graph, DropContext(context)).graph
    {
      hide Inv, DocumentGraph.CreateSequence, DocumentGraph.DestroyContext;
      var sequence := runtime.CreateSequence(context, context, reply);
      if sequence.Done? { return Some(HandleOf(sequence.value)); }
      var ignored := runtime.DestroyContext(context);
      return None;
    }

    // Three runtime calls in the vocabulary of requests.
    method MakeContextNow(reply: Option<nat>) returns (r: Outcome<DocumentGraph.Answer>)
      requires Valid() && runtime != null
      modifies runtime
      ensures Valid() && Reply(runtime.State(), r) == Step(old(runtime.State()), MakeContext(reply))
    {
      hide Inv, DocumentGraph.CreateContext;
      r := runtime.CreateContext(reply);
    }

    method DropContextNow(context: Handle) returns (r: Outcome<DocumentGraph.Answer>)
      requires Valid() && runtime != null
      modifies runtime
      ensures Valid() && Reply(runtime.State(), r) == Step(old(runtime.State()), DropContext(context))
    {
      hide Inv, DocumentGraph.DestroyContext;
      r := runtime.DestroyContext(context);
    }

    method DropSequenceNow(sequence: Handle) returns (r: Outcome<DocumentGraph.Answer>)
      requires Valid() && runtime != null
      modifies runtime
      ensures Valid() && Reply(runtime.State(), r) == Step(old(runtime.State()), DropSequence(sequence))
    {
      hide Inv, DocumentGraph.DestroySequence;
      r := runtime.DestroySequence(sequence);
    }

    method CreateContext(host: Option<HostRef>, reply: Option<nat>, sequenceReply: Option<nat>)
      returns (r: Option<Handle>)
      requires Valid()
      modifies this, runtime
      ensures Valid()
      ensures Quiet(View(), Reference(r)) == CreateContextTurn(old(View()), host, reply, sequenceReply)
    {
      hide Inv, LeavesJobs, RespectsReaders, Asks, Performs, Step;
      if host.None? { return None; }
      if readers != {} || runtime == null { return None; }
      if !runtime.editing { return None; }
      var created := MakeContextNow(reply);
      if !created.Done? { return None; }
      var h := HandleOf(created.value);
      if runtime.generation < V2_DRAFT {
        var sequence := GiveSequence(h, sequenceReply);
        if sequence.None? { return None; }
        synthetic := synthetic[h := sequence.value];
      }
      contextHosts := contextHosts[Ctx(h) := host.value];
      return Some(h);
    }

    // Property and content updates share these guards.
    method UpdateContext(context: Handle, accepted: bool)
      requires Valid()
      ensures Quiet(View(), Nothing) ==
              if Ctx(context) in contextHosts then Edit(View(), EditContext(context, accepted))
              else Quiet(View(), Nothing)
    {
      hide Inv, LeavesJobs, RespectsReaders, Asks, Performs;
      if runtime == null || context !in runtime.contexts.live { return; }
      if Ctx(context) !in contextHosts { return; }
      if readers != {} || !runtime.editing { return; }
      var ignored := runtime.UpdateContext(context, accepted);
    }

    method DestroyContext(context: Handle)
      requires Valid()
      modifies this, runtime
      ensures Valid() && Quiet(View(), Nothing) == DestroyContextTurn(old(View()), context)
    {
      hide Inv, LeavesJobs, RespectsReaders, Asks, Performs, Step;
      if readers != {} || runtime == null { return; }
      if context !in runtime.contexts.live { return; }
      if !runtime.editing { return; }
      if context in synthetic {
        var first := DropSequenceNow(synthetic[context]);
        if !first.Done? { return; }
      }
      var second := DropContextNow(context);
      if !second.Done? { return; }
      contextHosts := contextHosts - {Ctx(context)};
      synthetic := synthetic - {context};
    }

    // ---- Audio sources and their analysis

    // Everything of a source's analysis: its job, its queued progress, its deferred start.
    method CancelAnalysis(source: RawHandle) returns (signals: seq<Signal>)
      modifies this`pendingStarts, analysis, events
      ensures View() == Cancel(old(View()), source) && signals == CancelSignals(old(View()), source)
    {
      hide Without;
      var cancelled := analysis.Cancel(source);
      signals := if cancelled then [Cancelled(source)] else [];
      events.Cancel(source);
      var kept := [];
      assert pendingStarts[..|pendingStarts|] == pendingStarts;
      for i := 0 to |pendingStarts|
        invariant kept == Retain(pendingStarts[..i], source)
      {
        assert pendingStarts[..i + 1][..i] == pendingStarts[..i];
        if pendingStarts[i] != source {
          kept := kept + [pendingStarts[i]];
        }
      }
      pendingStarts := kept;
    }

    method CreateSource(host: Option<HostRef>, reply: Option<nat>) returns (r: Option<Handle>)
      requires Valid()
      modifies this, runtime
      ensures Valid() && Quiet(View(), Reference(r)) == CreateSourceTurn(old(View()), host, reply)
    {
      hide Inv, LeavesJobs, RespectsReaders, Asks, Performs, DocumentGraph.CreateSource;
      if host.None? { return None; }
      if readers != {} || runtime == null { return None; }
      if !runtime.editing { return None; }
      var created := runtime.CreateSource(reply);
      if !created.Done? { return None; }
      var h := HandleOf(created.value);
      sourceHosts := sourceHosts[Src(h) := host.value];
      return Some(h);
    }

    method UpdateSource(source: Handle, accepted: bool)
      requires Valid()
      ensures Quiet(View(), Nothing) ==
              if Src(source) in sourceHosts then Edit(View(), EditSource(source, accepted)) else Quiet(View(), Nothing)
    {
      hide Inv, LeavesJobs, RespectsReaders, Asks, Performs;
      if runtime == null || source !in runtime.sources.live { return; }
      if Src(source) !in sourceHosts { return; }
      if readers != {} || !runtime.editing { return; }
      var ignored := runtime.UpdateSource(source, accepted);
    }

    method DeactivateSource(source: Handle, deactivated: bool, accepted: bool) returns (signals: seq<Signal>)
      requires Valid()
      modifies this`pendingStarts, runtime, analysis, events
      ensures Valid()
      ensures Turn(View(), signals, [], Nothing) == DeactivateSourceTurn(old(View()), source, deactivated, accepted)
    {
      hide Inv, LeavesJobs, RespectsReaders, Asks, Performs, Retain, Without, OwnsActiveModification;
      signals := [];
      if runtime == null || source !in runtime.sources.live { return; }
      if Src(source) !in sourceHosts { return; }
      if readers != {} { return; }
      if !runtime.editing { return; }
      var switched := runtime.DeactivateSource(source, deactivated, accepted);
      if !switched.Done? { return; }
      if deactivated {
        signals := CancelAnalysis(Src(source));
      }
    }

    method EnableSamples(source: Handle, enable: bool, accepted: bool) returns (signals: seq<Signal>)
      requires Valid()
      modifies this`pendingStarts, runtime, analysis, events
      ensures Valid()
      ensures Turn(View(), signals, [], Nothing) == EnableSamplesTurn(old(View()), source, enable, accepted)
    {
      hide Inv, LeavesJobs, RespectsReaders, Asks, Performs, Retain, Without;
      signals := [];
      if runtime == null || source !in runtime.sources.live { return; }
      if !enable {
        signals := CancelAnalysis(Src(source));
      }
      if Src(source) !in sourceHosts { return; }
      if readers != {} { return; }
      var ignored := runtime.EnableSamples(source, accepted);
    }

    method DestroySource(source: Handle) returns (signals: seq<Signal>)
      requires Valid()
      modifies this, runtime, analysis, events
      ensures Valid()
      ensures Turn(View(), signals, [], Nothing) == DestroySourceTurn(old(View()), source)
    {
      hide Inv, LeavesJobs, RespectsReaders, Asks, Performs, CancelsJob, CancelSignals, Retain, Without,
        DocumentGraph.DestroySource, ValidateSourceDestruction;
      signals := [];
      if runtime == null || source !in runtime.sources.live { return; }
      var refused := ValidateSourceDestruction(runtime.State(), source);
      if refused.Some? { return; }
      signals := CancelAnalysis(Src(source));
      if Src(source) !in sourceHosts { return; }
      var destroyed := runtime.DestroySource(source);
      if !destroyed.Done? { return; }
      sourceHosts := sourceHosts - {Src(source)};
    }

    method RequestAnalysis(source: Handle, types: seq<int>, accepted: bool) returns (signals: seq<Signal>)
      requires Valid()
      modifies this`pendingStarts, analysis
      ensures Valid()
      ensures Turn(View(), signals, [], Nothing) == RequestAnalysisTurn(old(View()), source, types, accepted)
    {
      hide Inv, LeavesJobs, RespectsReaders, Asks, Performs;
      signals := [];
      if runtime == null || source !in runtime.sources.live { return; }
      if !runtime.sources.live[source].active { return; }
      if |types| == 0 || |types| > MAX_CONTENT_TYPES { return; }
      for i := 0 to |types|
        invariant forall t :: t in types[..i] ==> t in analyzable
      {
        if types[i] !in analyzable {
          ghost var unknown := types[i];
          assert unknown in types && unknown !in analyzable;
          assert exists t :: t in types && t !in analyzable;
          return;
        }
      }
      assert forall t :: t in types ==> t in analyzable by {
        assert types[..|types|] == types;
      }
      var refused := analysis.Start(Src(source), types);
      if refused.Some? { return; }
      if !accepted {
        var ignored := analysis.Cancel(Src(source));
        signals := [Cancelled(Src(source))];
        return;
      }
      pendingStarts := pendingStarts + [Src(source)];
    }

    // ---- Audio modifications

    method CreateModification(source: Handle, host: Option<HostRef>, reply: Option<nat>) returns (r: Option<Handle>)
      requires Valid()
      modifies this, runtime
      ensures Valid()
      ensures Quiet(View(), Reference(r)) ==
              CreateModificationTurn(old(View()), host, MakeModification(source, reply))
    {
      hide Inv, LeavesJobs, RespectsReaders, Asks, Performs;
      if host.None? { return None; }
      if readers != {} || runtime == null { return None; }
      if source !in runtime.sources.live { return None; }
      if !runtime.editing { return None; }
      var created := runtime.CreateModification(source, reply);
      if !created.Done? { return None; }
      var h := HandleOf(created.value);
      modificationHosts := modificationHosts[Mod(h) := host.value];
      return Some(h);
    }

    method CloneModification(original: Handle, host: Option<HostRef>, reply: Option<nat>) returns (r: Option<Handle>)
      requires Valid()
      modifies this, runtime
      ensures Valid()
      ensures Quiet(View(), Reference(r)) ==
              CreateModificationTurn(old(View()), host, CopyModification(original, reply))
    {
      hide Inv, LeavesJobs, RespectsReaders, Asks, Performs;
      if host.None? { return None; }
      if readers != {} || runtime == null { return None; }
      if original !in runtime.modifications.live { return None; }
      if !runtime.editing { return None; }
      var created := runtime.CloneModification(original, reply);
      if !created.Done? { return None; }
      var h := HandleOf(created.value);
      modificationHosts := modificationHosts[Mod(h) := host.value];
      return Some(h);
    }

    method UpdateModification(modification: Handle, accepted: bool)
      requires Valid()
      ensures Quiet(View(), Nothing) == Edit(View(), EditModification(modification, accepted))
    {
      hide Inv, LeavesJobs, RespectsReaders, Asks, Performs;
      if readers != {} || runtime == null { return; }
      if modification !in runtime.modifications.live { return; }
      if !runtime.editing { return; }
      var ignored := runtime.UpdateModification(modification, accepted);
    }

    method DeactivateModification(modification: Handle, deactivated: bool, accepted: bool)
      requires Valid()
      modifies runtime
      ensures Valid()
      ensures Quiet(View(), Nothing) == Edit(old(View()), SwitchModification(modification, deactivated, accepted))
    {
      hide Inv, LeavesJobs, RespectsReaders, Asks, Performs;
      if readers != {} || runtime == null { return; }
      if modification !in runtime.modifications.live { return; }
      if !runtime.editing { return; }
      var ignored := runtime.DeactivateModification(modification, deactivated, accepted);
    }

    method DestroyModification(modification: Handle)
      requires Valid()
      modifies this, runtime
      ensures Valid() && Quiet(View(), Nothing) == DestroyModificationTurn(old(View()), modification)
    {
      hide Inv, LeavesJobs, RespectsReaders, Asks, Performs;
      if readers != {} || runtime == null { return; }
      if modification !in runtime.modifications.live { return; }
      if !runtime.editing { return; }
      var destroyed := runtime.DestroyModification(modification);
      if !destroyed.Done? { return; }
      modificationHosts := modificationHosts - {Mod(modification)};
    }

    // ---- Region sequences, since ARA 2

    method CreateSequence(context: Handle, reply: Option<nat>) returns (r: Option<Handle>)
      requires Valid()
      modifies runtime
      ensures Valid() && Quiet(View(), Reference(r)) == CreateSequenceTurn(old(View()), context, reply)
    {
      hide Inv, LeavesJobs, RespectsReaders, Asks, Performs;
      if readers != {} || runtime == null { return None; }
      if context !in runtime.contexts.live { return None; }
      if !runtime.editing { return None; }
      var created := runtime.CreateSequence(context, context, reply);
      return if created.Done? then Some(HandleOf(created.value)) else None;
    }

    method UpdateSequence(sequence: Handle, context: Handle, accepted: bool)
      requires Valid()
      modifies runtime
      ensures Valid()
      ensures Quiet(View(), Nothing) == Edit(old(View()), EditSequence(sequence, context, context, accepted))
    {
      hide Inv, LeavesJobs, RespectsReaders, Asks, Performs;
      if readers != {} || runtime == null { return; }
      if sequence !in runtime.sequences.live { return; }
      if context !in runtime.contexts.live { return; }
      if !runtime.editing { return; }
      var ignored := runtime.UpdateSequence(sequence, context, context, accepted);
    }

    method DestroySequence(sequence: Handle)
      requires Valid()
      modifies runtime
      ensures Valid() && Quiet(View(), Nothing) == Edit(old(View()), DropSequence(sequence))
    {
      hide Inv, LeavesJobs, RespectsReaders, Asks, Performs;
      if readers != {} || runtime == null { return; }
      if sequence !in runtime.sequences.live { return; }
      if !runtime.editing { return; }
      var ignored := runtime.DestroySequence(sequence);
    }

    // ---- Playback regions

    method Locate(parent: Handle) returns (place: Option<Place>)
      ensures place == PlaceOf(View(), parent)
    {
      if runtime == null { return None; }
      if runtime.generation >= V2_DRAFT {
        return if parent in runtime.sequences.live then Some(Place(parent, Some(parent), None)) else None;
      }
      if parent !in runtime.contexts.live { return None; }
      return if parent in synthetic then Some(Place(synthetic[parent], None, Some(parent))) else None;
    }

    method CreateRegion(modification: Handle, host: Option<HostRef>, parent: Handle, permitted: bool,
                        reply: Option<nat>) returns (r: Option<Handle>)
      requires Valid()
      modifies this, runtime
      ensures Valid()
      ensures Quiet(View(), Reference(r)) ==
              CreateRegionTurn(old(View()), modification, host, parent, permitted, reply)
    {
      hide Inv, LeavesJobs, RespectsReaders, Asks, Performs, PlaceOf, DocumentGraph.CreateRegion;
      if host.None? { return None; }
      var place := Locate(parent);
      if place.None? || !permitted { return None; }
      if readers != {} || runtime == null { return None; }
      if !runtime.editing { return None; }
      var created := runtime.CreateRegion(modification, place.value.sequence, place.value.namedSequence,
                                          place.value.namedContext, reply);
      if !created.Done? { return None; }
      var h := HandleOf(created.value);
      regionHosts := regionHosts[Reg(h) := host.value];
      return Some(h);
    }

    method UpdateRegion(region: Handle, parent: Handle, permitted: bool, accepted: bool)
      requires Valid()
      modifies runtime
      ensures Valid()
      ensures Quiet(View(), Nothing) == UpdateRegionTurn(old(View()), region, parent, permitted, accepted)
    {
      hide Inv, LeavesJobs, RespectsReaders, Asks, Performs, PlaceOf, DocumentGraph.UpdateRegion;
      var place := Locate(parent);
      if place.None? || !permitted { return; }
      if readers != {} || runtime == null { return; }
      if !runtime.editing { return; }
      var ignored := runtime.UpdateRegion(region, place.value.sequence, place.value.namedSequence,
                                          place.value.namedContext, accepted);
    }

    method DestroyRegion(region: Handle)
      requires Valid()
      modifies this, runtime
      ensures Valid() && Quiet(View(), Nothing) == DestroyRegionTurn(old(View()), region)
    {
      hide Inv, LeavesJobs, RespectsReaders, Asks, Performs;
      if readers != {} || runtime == null { return; }
      if region !in runtime.regions.live { return; }
      if !runtime.editing { return; }
      var destroyed := runtime.DestroyRegion(region);
      if !destroyed.Done? { return; }
      regionHosts := regionHosts - {Reg(region)};
    }

    // ---- Content readers

    method CreateReader(subject: Subject, cell: Option<Pointer>) returns (r: Option<Pointer>)
      requires Valid()
      modifies this`readers
      ensures Valid() && Quiet(View(), Reader(r)) == CreateReaderTurn(old(View()), subject, cell)
    {
      hide Inv, LeavesJobs, RespectsReaders, Asks, Performs;
      if runtime == null || !Readable(View(), subject) { return None; }
      if readers != {} { return None; }
      if cell.None? { return None; }
      readers := readers + {cell.value};
      return cell;
    }

    method DestroyReader(pointer: Pointer)
      requires Valid()
      modifies this`readers
      ensures Valid() && View() == old(View()).(readers := old(readers) - {pointer})
    {
      hide Inv;
      if pointer in readers {
        readers := readers - {pointer};
      }
    }
  }
}
