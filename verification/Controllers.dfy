// The document controller as a value (ara2-bridge-plugin/src/controller.rs): the runtime's graph and
// the side tables that the callbacks keep in step with it, with every callback as a function.
//
// A host's reference to a model object is represented by the handle of the cell that it points to;
// a null, stale or foreign reference is a handle without a live cell.  `CellStore.dfy` proves that
// resolving a reference is exactly that.  Where the source returns early because a reference does
// not resolve, the graph request itself refuses the same handle without any effect.
module Controllers {
  import opened Prelude
  import opened Registries
  import opened DocumentGraph
  import opened GraphOutline
  import opened Analysis
  import Updates

  const MAX_CONTENT_TYPES: nat := 1024

  // Opaque identities on the host's side.
  type HostRef = nat
  type Pointer = nat

  // What analysis tells of a source.  The host hears of everything but a cancellation.
  datatype Signal =
    | Started(source: RawHandle, host: HostRef)
    | Advanced(source: RawHandle, host: HostRef, progress: real)
    | Finished(source: RawHandle, host: HostRef)
    | Cancelled(source: RawHandle)

  datatype Notice =
    | ObjectChanged(host: HostRef, notification: Updates.Notification)
    | DocumentDataChanged

  datatype Controller = Controller(
    graph: Option<Graph>,                     // absent once the controller is destroyed
    contextHosts: map<RawHandle, HostRef>,
    sourceHosts: map<RawHandle, HostRef>,
    modificationHosts: map<RawHandle, HostRef>,
    regionHosts: map<RawHandle, HostRef>,
    synthetic: map<Handle, Handle>,           // the region sequence made for a musical context
    tracker: Updates.Tracker,
    jobs: Jobs,
    queue: seq<Progress>,
    pendingStarts: seq<RawHandle>,
    readers: set<Pointer>,
    restoring: Option<HostRef>,
    hearsUpdates: bool,                       // whether the host has a model-update interface
    analyzable: set<int>)

  function NewController(graph: Graph, hearsUpdates: bool, analyzable: set<int>): Controller {
    Controller(Some(graph), map[], map[], map[], map[], map[], Updates.EMPTY, map[], [], [], {}, None,
               hearsUpdates, analyzable)
  }

  datatype Answer = Nothing | Reference(handle: Option<Handle>) | Reader(pointer: Option<Pointer>)
                  | Flag(value: bool)

  datatype Turn = Turn(now: Controller, signals: seq<Signal>, notices: seq<Notice>, answer: Answer)

  function Quiet(c: Controller, answer: Answer): Turn {
    Turn(c, [], [], answer)
  }

  // What most callbacks leave alone: the analysis jobs and what the host was told of them.
  ghost predicate LeavesJobs(c: Controller, t: Turn) {
    match t
    case Turn(now, signals, _, _) =>
      signals == [] && now.jobs == c.jobs && now.pendingStarts == c.pendingStarts
  }

  // An outstanding reader keeps the graph as it is, and itself.
  ghost predicate RespectsReaders(c: Controller, t: Turn) {
    match t
    case Turn(now, _, _, _) => now.readers == c.readers && (c.readers != {} ==> now.graph == c.graph)
  }

  // The graph is as it was, or as this one request of the callback leaves it.
  ghost predicate Asks(c: Controller, t: Turn, q: Request) {
    match t
    case Turn(now, _, _, _) =>
      && now.synthetic == c.synthetic
      && (now.graph == c.graph || (c.graph.Some? && now.graph == Some(Step(c.graph.value, q).graph)))
  }

  predicate Creates(q: Request) {
    q.MakeContext? || q.MakeSource? || q.MakeSequence? || q.MakeModification? || q.CopyModification? || q.MakeRegion?
  }

  // The request is made exactly under the condition `when`, and a creation answers with the reference of
  // what it created.
  ghost predicate Performs(c: Controller, t: Turn, q: Request, when: bool) {
    match t
    case Turn(now, _, _, answer) =>
      if when && c.graph.Some? then
        var r := Step(c.graph.value, q);
        && now.graph == Some(r.graph)
        && (Creates(q) ==> answer == Reference(if r.outcome.Done? then Some(HandleOf(r.outcome.value)) else None))
      else now.graph == c.graph && (Creates(q) ==> answer == Reference(None))
  }

  ghost predicate KeepsGraph(c: Controller, t: Turn) {
    match t
    case Turn(now, _, _, _) => now.graph == c.graph && now.synthetic == c.synthetic
  }

  function Ctx(h: Handle): RawHandle { RawHandle(MusicalContextKind, h) }
  function Src(h: Handle): RawHandle { RawHandle(AudioSourceKind, h) }
  function Mod(h: Handle): RawHandle { RawHandle(AudioModificationKind, h) }
  function Reg(h: Handle): RawHandle { RawHandle(PlaybackRegionKind, h) }

  // ---- Guards

  // `runtime_mut`: no reader is outstanding and the controller still has its runtime.
  predicate Reachable(c: Controller) {
    c.readers == {} && c.graph.Some?
  }

  // `runtime_mut` followed by `callback_edit`.
  predicate Editable(c: Controller) {
    Reachable(c) && c.graph.value.editing
  }

  function WithGraph(c: Controller, g: Graph): Controller {
    c.(graph := Some(g))
  }

  // One edit of the graph, with nothing else to keep in step.
  ghost function Edit(c: Controller, q: Request): (t: Turn)
    requires !Creates(q)
    ensures Asks(c, t, q)
    ensures LeavesJobs(c, t) && RespectsReaders(c, t)
    ensures Performs(c, t, q,
                     Editable(c))
  {
    Quiet(if Editable(c) then WithGraph(c, Step(c.graph.value, q).graph) else c, Nothing)
  }

  // The editing interval itself needs no editing to be active.
  ghost function Interval(c: Controller, q: Request): (t: Turn)
    requires !Creates(q)
    ensures Asks(c, t, q)
    ensures LeavesJobs(c, t) && RespectsReaders(c, t)
    ensures Performs(c, t, q,
                     Reachable(c))
  {
    Quiet(if Reachable(c) then WithGraph(c, Step(c.graph.value, q).graph) else c, Nothing)
  }

  // ---- Analysis

  // Cancelling a source's analysis everywhere.
  function Cancel(c: Controller, source: RawHandle): Controller {
    c.(jobs := c.jobs - {source},
       queue := Without(c.queue, source),
       pendingStarts := Retain(c.pendingStarts, source))
  }

  function Retain(sources: seq<RawHandle>, gone: RawHandle): seq<RawHandle> {
    Filter(sources, (s: RawHandle) => s != gone)
  }

  function CancelSignals(c: Controller, source: RawHandle): seq<Signal> {
    if source in c.jobs then [Cancelled(source)] else []
  }

  ghost predicate CancelsJob(c: Controller, t: Turn, source: RawHandle) {
    match t
    case Turn(now, signals, _, _) =>
      && signals == CancelSignals(c, source)
      && now.jobs == c.jobs - {source} && now.pendingStarts == Retain(c.pendingStarts, source)
  }

  // ---- Telling the host: deferred starts, then queued progress, then model updates

  function StartSignals(sources: seq<RawHandle>, hosts: map<RawHandle, HostRef>): seq<Signal> {
    if sources == [] then []
    else StartSignals(sources[..|sources| - 1], hosts) +
         var s := sources[|sources| - 1];
         if s in hosts then [Started(s, hosts[s])] else []
  }

  function JobsAfter(jobs: Jobs, queue: seq<Progress>): Jobs {
    if queue == [] then jobs else
    var before := JobsAfter(jobs, queue[..|queue| - 1]);
    var r := Advance(before, queue[|queue| - 1]);
    if r.Ok? then r.value else before
  }

  function ProgressSignal(e: Progress, host: HostRef): Signal {
    match e
    case Updated(s, progress) => Advanced(s, host, progress)
    case Completed(s) => Finished(s, host)
  }

  function ProgressSignals(jobs: Jobs, queue: seq<Progress>, hosts: map<RawHandle, HostRef>): seq<Signal> {
    if queue == [] then [] else
    var e := queue[|queue| - 1];
    ProgressSignals(jobs, queue[..|queue| - 1], hosts) +
    if Advance(JobsAfter(jobs, queue[..|queue| - 1]), e).Ok? && e.source in hosts
    then [ProgressSignal(e, hosts[e.source])] else []
  }

  function NoticeOf(c: Controller, n: Updates.Notification): seq<Notice> {
    match n
    case SourceChanged(s, _) =>
      if s in c.sourceHosts then [ObjectChanged(c.sourceHosts[s], n)] else []
    case ModificationChanged(m, _) =>
      if m in c.modificationHosts then [ObjectChanged(c.modificationHosts[m], n)] else []
    case RegionChanged(r, _) =>
      if r in c.regionHosts then [ObjectChanged(c.regionHosts[r], n)] else []
    case DocumentChanged => [DocumentDataChanged]
  }

  function NoticesOf(c: Controller, ns: seq<Updates.Notification>): seq<Notice> {
    if ns == [] then [] else NoticesOf(c, ns[..|ns| - 1]) + NoticeOf(c, ns[|ns| - 1])
  }

  predicate MayNotify(c: Controller) {
    Reachable(c) && !c.graph.value.editing && c.hearsUpdates
  }

  function NotifyModelUpdates(c: Controller): (t: Turn)
    ensures RespectsReaders(c, t) && KeepsGraph(c, t)
  {
    if !MayNotify(c) then Quiet(c, Nothing)
    else
      Turn(c.(pendingStarts := [], jobs := JobsAfter(c.jobs, c.queue), queue := [], tracker := Updates.EMPTY),
           StartSignals(c.pendingStarts, c.sourceHosts) + ProgressSignals(c.jobs, c.queue, c.sourceHosts),
           NoticesOf(c, Updates.Delivery(c.tracker)), Nothing)
  }

  // ---- Restoring a whole document (generation 1)

  datatype Effect = Effect(graph: Option<Graph>, restoring: Option<HostRef>, accepted: bool)

  ghost function BeginRestoreEffect(c: Controller, reader: HostRef, readable: bool, begun: bool, restored: bool,
                                    ended: bool): Effect
  {
    if c.restoring.Some? || !readable || !Reachable(c) then Effect(c.graph, c.restoring, false) else
    var r := Step(c.graph.value, BeginEdit(begun));
    if !r.outcome.Done? then Effect(Some(r.graph), c.restoring, false)
    else if !restored then Effect(Some(Step(r.graph, EndEdit(ended)).graph), c.restoring, false)
    else Effect(Some(r.graph), Some(reader), true)
  }

  ghost function EndRestoreEffect(c: Controller, reader: HostRef, ended: bool): Effect {
    if c.restoring != Some(reader) || !Reachable(c) then Effect(c.graph, c.restoring, false) else
    var r := Step(c.graph.value, EndEdit(ended));
    if !r.outcome.Done? then Effect(Some(r.graph), c.restoring, false) else Effect(Some(r.graph), None, true)
  }

  ghost function Restoring(c: Controller, e: Effect): (t: Turn)
    ensures LeavesJobs(c, t) && (e.graph == c.graph || c.readers == {} ==> RespectsReaders(c, t))
  {
    Quiet(c.(graph := e.graph, restoring := e.restoring), Flag(e.accepted))
  }

  // ---- Musical contexts; before ARA 2 each owns a synthetic region sequence

  ghost function CreateContextTurn(c: Controller, host: Option<HostRef>, reply: Option<nat>,
                                   sequenceReply: Option<nat>): (t: Turn)
    ensures LeavesJobs(c, t) && RespectsReaders(c, t)
  {
    if host.None? || !Editable(c) then Quiet(c, Reference(None)) else
    var r := Step(c.graph.value, MakeContext(reply));
    if !r.outcome.Done? then Quiet(WithGraph(c, r.graph), Reference(None)) else
    var h := HandleOf(r.outcome.value);
    var named := c.(contextHosts := c.contextHosts[Ctx(h) := host.value]);
    if c.graph.value.generation >= V2_DRAFT then Quiet(WithGraph(named, r.graph), Reference(Some(h))) else
    var s := Step(r.graph, MakeSequence(h, h, sequenceReply));
    if !s.outcome.Done? then
      Quiet(WithGraph(c, Step(s.graph, DropContext(h)).graph), Reference(None))
    else
      Quiet(WithGraph(named, s.graph).(synthetic := c.synthetic[h := HandleOf(s.outcome.value)]),
            Reference(Some(h)))
  }

  ghost function DestroyContextTurn(c: Controller, context: Handle): (t: Turn)
    ensures LeavesJobs(c, t) && RespectsReaders(c, t)
  {
    if !Editable(c) || context !in c.graph.value.contexts.live then Quiet(c, Nothing) else
    var r := if context in c.synthetic then Step(c.graph.value, DropSequence(c.synthetic[context]))
             else Accept(c.graph.value);
    if !r.outcome.Done? then Quiet(WithGraph(c, r.graph), Nothing) else
    var d := Step(r.graph, DropContext(context));
    if !d.outcome.Done? then Quiet(WithGraph(c, d.graph), Nothing)
    else
      Quiet(WithGraph(c, d.graph).(contextHosts := c.contextHosts - {Ctx(context)},
                                   synthetic := c.synthetic - {context}), Nothing)
  }

  // ---- Audio sources

  ghost function CreateSourceTurn(c: Controller, host: Option<HostRef>, reply: Option<nat>): (t: Turn)
    ensures Asks(c, t, MakeSource(reply))
    ensures LeavesJobs(c, t) && RespectsReaders(c, t)
    ensures Performs(c, t, MakeSource(reply),
                     host.Some? && Editable(c))
  {
    if host.None? || !Editable(c) then Quiet(c, Reference(None)) else
    var r := Step(c.graph.value, MakeSource(reply));
    if !r.outcome.Done? then Quiet(WithGraph(c, r.graph), Reference(None)) else
    var h := HandleOf(r.outcome.value);
    Quiet(WithGraph(c, r.graph).(sourceHosts := c.sourceHosts[Src(h) := host.value]), Reference(Some(h)))
  }

  ghost function DeactivateSourceTurn(c: Controller, source: Handle, deactivated: bool, accepted: bool): (t: Turn)
    ensures Asks(c, t, SwitchSource(source, deactivated, accepted))
    ensures RespectsReaders(c, t)
    ensures Performs(c, t, SwitchSource(source, deactivated, accepted),
                     Editable(c) && Src(source) in c.sourceHosts)
  {
    if !Editable(c) || Src(source) !in c.sourceHosts then Quiet(c, Nothing) else
    var r := Step(c.graph.value, SwitchSource(source, deactivated, accepted));
    var c' := WithGraph(c, r.graph);
    if r.outcome.Done? && deactivated
    then Turn(Cancel(c', Src(source)), CancelSignals(c, Src(source)), [], Nothing)
    else Quiet(c', Nothing)
  }

  // The request itself needs no editing, only a host reference and no reader.
  ghost function SamplesAsked(c: Controller, source: Handle, accepted: bool): Option<Graph> {
    if c.graph.Some? && Src(source) in c.sourceHosts && c.readers == {}
    then Some(Step(c.graph.value, EnableAccess(source, accepted)).graph) else c.graph
  }

  // Revoking sample access cancels the analysis first, whatever becomes of the rest.
  ghost function EnableSamplesTurn(c: Controller, source: Handle, enable: bool, accepted: bool): (t: Turn)
    ensures Asks(c, t, EnableAccess(source, accepted))
    ensures RespectsReaders(c, t)
    ensures Performs(c, t, EnableAccess(source, accepted),
                     c.readers == {} && c.graph.Some? && source in c.graph.value.sources.live
                     && Src(source) in c.sourceHosts)
  {
    if c.graph.None? || source !in c.graph.value.sources.live then Quiet(c, Nothing) else
    var g := SamplesAsked(c, source, accepted);
    if enable then Quiet(c.(graph := g), Nothing)
    else Turn(Cancel(c, Src(source)).(graph := g), CancelSignals(c, Src(source)), [], Nothing)
  }

  ghost predicate MayDestroySource(c: Controller, source: Handle) {
    match c.graph
    case None => false
    case Some(g) => source in g.sources.live && ValidateSourceDestruction(g, source).None?
  }

  // The destruction is validated, the analysis cancelled, and only then the source destroyed.  There
  // is no test for outstanding readers.
  ghost function DestroySourceTurn(c: Controller, source: Handle): (t: Turn)
    ensures Asks(c, t, DropSource(source))
    ensures if MayDestroySource(c, source) then CancelsJob(c, t, Src(source)) else LeavesJobs(c, t)
    ensures t.now.readers == c.readers
    ensures Performs(c, t, DropSource(source),
                     MayDestroySource(c, source) && Src(source) in c.sourceHosts)
  {
    if !MayDestroySource(c, source) then Quiet(c, Nothing) else
    var c' := Cancel(c, Src(source));
    var signals := CancelSignals(c, Src(source));
    if Src(source) !in c.sourceHosts then Turn(c', signals, [], Nothing) else
    var r := Step(c.graph.value, DropSource(source));
    if !r.outcome.Done? then Turn(WithGraph(c', r.graph), signals, [], Nothing)
    else Turn(WithGraph(c', r.graph).(sourceHosts := c.sourceHosts - {Src(source)}), signals, [], Nothing)
  }

  datatype JobEffect = JobEffect(jobs: Jobs, pendingStarts: seq<RawHandle>, signals: seq<Signal>)

  // A request that the application refuses leaves no job behind.
  ghost function RequestEffect(c: Controller, source: Handle, types: seq<int>, accepted: bool): JobEffect {
    if c.graph.None? || source !in c.graph.value.sources.live || !c.graph.value.sources.live[source].active
       || |types| == 0 || |types| > MAX_CONTENT_TYPES || (exists t :: t in types && t !in c.analyzable)
    then JobEffect(c.jobs, c.pendingStarts, []) else
    var started := StartJob(c.jobs, Src(source), types);
    if started.Err? then JobEffect(c.jobs, c.pendingStarts, [])
    else if !accepted then
      JobEffect(started.value - {Src(source)}, c.pendingStarts, [Cancelled(Src(source))])
    else JobEffect(started.value, c.pendingStarts + [Src(source)], [])
  }

  ghost function RequestAnalysisTurn(c: Controller, source: Handle, types: seq<int>, accepted: bool): (t: Turn)
    ensures RespectsReaders(c, t) && KeepsGraph(c, t)
  {
    var e := RequestEffect(c, source, types, accepted);
    Turn(c.(jobs := e.jobs, pendingStarts := e.pendingStarts), e.signals, [], Nothing)
  }

  // ---- Audio modifications and playback regions

  // Creating and cloning a modification differ only in the request.
  ghost function CreateModificationTurn(c: Controller, host: Option<HostRef>, q: Request): (t: Turn)
    requires q.MakeModification? || q.CopyModification?
    ensures Asks(c, t, q)
    ensures LeavesJobs(c, t) && RespectsReaders(c, t)
    ensures Performs(c, t, q,
                     host.Some? && Editable(c))
  {
    if host.None? || !Editable(c) then Quiet(c, Reference(None)) else
    var r := Step(c.graph.value, q);
    if !r.outcome.Done? then Quiet(WithGraph(c, r.graph), Reference(None)) else
    var h := HandleOf(r.outcome.value);
    Quiet(WithGraph(c, r.graph).(modificationHosts := c.modificationHosts[Mod(h) := host.value]),
          Reference(Some(h)))
  }

  ghost function DestroyModificationTurn(c: Controller, modification: Handle): (t: Turn)
    ensures Asks(c, t, DropModification(modification))
    ensures LeavesJobs(c, t) && RespectsReaders(c, t)
    ensures Performs(c, t, DropModification(modification),
                     Editable(c))
  {
    if !Editable(c) then Quiet(c, Nothing) else
    var r := Step(c.graph.value, DropModification(modification));
    var c' := WithGraph(c, r.graph);
    if r.outcome.Done?
    then Quiet(c'.(modificationHosts := c.modificationHosts - {Mod(modification)}), Nothing)
    else Quiet(c', Nothing)
  }

  datatype Place = Place(sequence: Handle, namedSequence: Option<Handle>, namedContext: Option<Handle>)

  // What the playback-region properties refer to: a region sequence since ARA 2, and before that a
  // musical context, standing for its synthetic sequence.
  function PlaceOf(c: Controller, parent: Handle): Option<Place> {
    if c.graph.None? then None
    else if c.graph.value.generation >= V2_DRAFT then
      if parent in c.graph.value.sequences.live then Some(Place(parent, Some(parent), None)) else None
    else
      if parent in c.graph.value.contexts.live && parent in c.synthetic
      then Some(Place(c.synthetic[parent], None, Some(parent))) else None
  }

  // The requests that a region's creation and update come to; without a place nothing is asked.
  function RegionRequest(c: Controller, modification: Handle, parent: Handle, reply: Option<nat>): Request {
    match PlaceOf(c, parent)
    case Some(p) => MakeRegion(modification, p.sequence, p.namedSequence, p.namedContext, reply)
    case None => MakeRegion(modification, parent, None, None, reply)
  }

  function MoveRequest(c: Controller, region: Handle, parent: Handle, accepted: bool): Request {
    match PlaceOf(c, parent)
    case Some(p) => EditRegion(region, p.sequence, p.namedSequence, p.namedContext, accepted)
    case None => EditRegion(region, parent, None, None, accepted)
  }

  // `permitted`: the factory supports the transformations that the properties ask for.
  ghost function CreateRegionTurn(c: Controller, modification: Handle, host: Option<HostRef>, parent: Handle,
                                  permitted: bool, reply: Option<nat>): (t: Turn)
    ensures Asks(c, t, RegionRequest(c, modification, parent, reply))
    ensures LeavesJobs(c, t) && RespectsReaders(c, t)
    ensures Performs(c, t, RegionRequest(c, modification, parent, reply),
                     host.Some? && permitted && PlaceOf(c, parent).Some? && Editable(c))
  {
    if host.None? || PlaceOf(c, parent).None? || !permitted || !Editable(c) then Quiet(c, Reference(None)) else
    var r := Step(c.graph.value, RegionRequest(c, modification, parent, reply));
    if !r.outcome.Done? then Quiet(WithGraph(c, r.graph), Reference(None)) else
    var h := HandleOf(r.outcome.value);
    Quiet(WithGraph(c, r.graph).(regionHosts := c.regionHosts[Reg(h) := host.value]), Reference(Some(h)))
  }

  ghost function UpdateRegionTurn(c: Controller, region: Handle, parent: Handle, permitted: bool,
                                  accepted: bool): (t: Turn)
    ensures Asks(c, t, MoveRequest(c, region, parent, accepted))
    ensures LeavesJobs(c, t) && RespectsReaders(c, t)
    ensures Performs(c, t, MoveRequest(c, region, parent, accepted),
                     permitted && PlaceOf(c, parent).Some? && Editable(c))
  {
    if PlaceOf(c, parent).None? || !permitted then Quiet(c, Nothing)
    else Edit(c, MoveRequest(c, region, parent, accepted))
  }

  ghost function DestroyRegionTurn(c: Controller, region: Handle): (t: Turn)
    ensures Asks(c, t, DropRegion(region))
    ensures LeavesJobs(c, t) && RespectsReaders(c, t)
    ensures Performs(c, t, DropRegion(region),
                     Editable(c))
  {
    if !Editable(c) then Quiet(c, Nothing) else
    var r := Step(c.graph.value, DropRegion(region));
    var c' := WithGraph(c, r.graph);
    if r.outcome.Done? then Quiet(c'.(regionHosts := c.regionHosts - {Reg(region)}), Nothing)
    else Quiet(c', Nothing)
  }

  ghost function CreateSequenceTurn(c: Controller, context: Handle, reply: Option<nat>): (t: Turn)
    ensures Asks(c, t, MakeSequence(context, context, reply))
    ensures LeavesJobs(c, t) && RespectsReaders(c, t)
    ensures Performs(c, t, MakeSequence(context, context, reply),
                     Editable(c))
  {
    if !Editable(c) then Quiet(c, Reference(None)) else
    var r := Step(c.graph.value, MakeSequence(context, context, reply));
    Quiet(WithGraph(c, r.graph),
          Reference(if r.outcome.Done? then Some(HandleOf(r.outcome.value)) else None))
  }

  // ---- Content readers

  datatype Subject = SourceSubject(handle: Handle) | ModificationSubject(handle: Handle)
                   | RegionSubject(handle: Handle)

  // The object of a content query: it must be live and, unless it is a region, active.
  predicate Readable(c: Controller, subject: Subject) {
    c.graph.Some? &&
    var g := c.graph.value;
    match subject
    case SourceSubject(h) => h in g.sources.live && g.sources.live[h].active
    case ModificationSubject(h) => h in g.modifications.live && g.modifications.live[h].node.active
    case RegionSubject(h) => h in g.regions.live
  }

  // `cell` is the address of the new reader cell, absent when the application has no such content.
  function CreateReaderTurn(c: Controller, subject: Subject, cell: Option<Pointer>): (t: Turn)
    ensures LeavesJobs(c, t) && KeepsGraph(c, t)
  {
    if !Readable(c, subject) || c.readers != {} || cell.None? then Quiet(c, Reader(None))
    else Quiet(c.(readers := {cell.value}), Reader(cell))
  }

  // ---- All callbacks, and the three ways in which the application acts from outside

  datatype Callback =
    | DestroyController
    | BeginEditing(accepted: bool)
    | EndEditing(accepted: bool)
    | NotifyUpdates
    | BeginRestore(reader: HostRef, readable: bool, begun: bool, restored: bool, ended: bool)
    | EndRestore(reader: HostRef, ended: bool)
    | UpdateDocument(accepted: bool)
    | CreateContext(host: Option<HostRef>, reply: Option<nat>, sequenceReply: Option<nat>)
    | UpdateContext(context: Handle, accepted: bool)
    | DestroyContext(context: Handle)
    | CreateSource(host: Option<HostRef>, reply: Option<nat>)
    | UpdateSource(source: Handle, accepted: bool)
    | DeactivateSource(source: Handle, deactivated: bool, accepted: bool)
    | EnableSamples(source: Handle, enable: bool, accepted: bool)
    | DestroySource(source: Handle)
    | RequestAnalysis(source: Handle, types: seq<int>, accepted: bool)
    | CreateModification(source: Handle, host: Option<HostRef>, reply: Option<nat>)
    | CloneModification(original: Handle, host: Option<HostRef>, reply: Option<nat>)
    | UpdateModification(modification: Handle, accepted: bool)
    | DeactivateModification(modification: Handle, deactivated: bool, accepted: bool)
    | DestroyModification(modification: Handle)
    | CreateSequence(context: Handle, reply: Option<nat>)
    | UpdateSequence(sequence: Handle, context: Handle, accepted: bool)
    | DestroySequence(sequence: Handle)
    | CreateRegion(modification: Handle, host: Option<HostRef>, parent: Handle, permitted: bool,
                   reply: Option<nat>)
    | UpdateRegion(region: Handle, parent: Handle, permitted: bool, accepted: bool)
    | DestroyRegion(region: Handle)
    | CreateReader(subject: Subject, cell: Option<Pointer>)
    | DestroyReader(pointer: Pointer)
    | EmitProgress(about: RawHandle, progress: real)
    | EmitCompletion(about: RawHandle)
    | EmitChange(mark: Updates.Mark)

  ghost function Act(c: Controller, cb: Callback): Turn {
    match cb
    case DestroyController => Quiet(c.(readers := {}, graph := None), Nothing)
    case BeginEditing(accepted) => Interval(c, BeginEdit(accepted))
    case EndEditing(accepted) => Interval(c, EndEdit(accepted))
    case NotifyUpdates => NotifyModelUpdates(c)
    case BeginRestore(reader, readable, begun, restored, ended) =>
      Restoring(c, BeginRestoreEffect(c, reader, readable, begun, restored, ended))
    case EndRestore(reader, ended) => Restoring(c, EndRestoreEffect(c, reader, ended))
    case UpdateDocument(accepted) => Edit(c, EditDocument(accepted))
    case CreateContext(host, reply, sequenceReply) => CreateContextTurn(c, host, reply, sequenceReply)
    case UpdateContext(context, accepted) =>
      if Ctx(context) in c.contextHosts then Edit(c, EditContext(context, accepted)) else Quiet(c, Nothing)
    case DestroyContext(context) => DestroyContextTurn(c, context)
    case CreateSource(host, reply) => CreateSourceTurn(c, host, reply)
    case UpdateSource(source, accepted) =>
      if Src(source) in c.sourceHosts then Edit(c, EditSource(source, accepted)) else Quiet(c, Nothing)
    case DeactivateSource(source, deactivated, accepted) =>
      DeactivateSourceTurn(c, source, deactivated, accepted)
    case EnableSamples(source, enable, accepted) => EnableSamplesTurn(c, source, enable, accepted)
    case DestroySource(source) => DestroySourceTurn(c, source)
    case RequestAnalysis(source, types, accepted) => RequestAnalysisTurn(c, source, types, accepted)
    case CreateModification(source, host, reply) =>
      CreateModificationTurn(c, host, MakeModification(source, reply))
    case CloneModification(original, host, reply) =>
      CreateModificationTurn(c, host, CopyModification(original, reply))
    case UpdateModification(modification, accepted) =>
      Edit(c, EditModification(modification, accepted))
    case DeactivateModification(modification, deactivated, accepted) =>
      Edit(c, SwitchModification(modification, deactivated, accepted))
    case DestroyModification(modification) => DestroyModificationTurn(c, modification)
    case CreateSequence(context, reply) => CreateSequenceTurn(c, context, reply)
    case UpdateSequence(sequence, context, accepted) =>
      Edit(c, EditSequence(sequence, context, context, accepted))
    case DestroySequence(sequence) => Edit(c, DropSequence(sequence))
    case CreateRegion(modification, host, parent, permitted, reply) =>
      CreateRegionTurn(c, modification, host, parent, permitted, reply)
    case UpdateRegion(region, parent, permitted, accepted) =>
      UpdateRegionTurn(c, region, parent, permitted, accepted)
    case DestroyRegion(region) => DestroyRegionTurn(c, region)
    case CreateReader(subject, cell) => CreateReaderTurn(c, subject, cell)
    case DestroyReader(pointer) => Quiet(c.(readers := c.readers - {pointer}), Nothing)
    case EmitProgress(about, progress) =>
      Quiet(if 0.0 <= progress < 1.0 then c.(queue := c.queue + [Updated(about, progress)]) else c, Nothing)
    case EmitCompletion(about) => Quiet(c.(queue := c.queue + [Completed(about)]), Nothing)
    case EmitChange(mark) => Quiet(c.(tracker := Updates.Marked(c.tracker, mark)), Nothing)
  }

  // ---- Runs

  datatype World = World(now: Controller, trace: seq<Signal>, notices: seq<Notice>)

  ghost function Next(w: World, cb: Callback): World {
    var t := Act(w.now, cb);
    World(t.now, w.trace + t.signals, w.notices + t.notices)
  }

  ghost function After(c: Controller, cbs: seq<Callback>): World {
    if cbs == [] then World(c, [], []) else Next(After(c, cbs[..|cbs| - 1]), cbs[|cbs| - 1])
  }
}
