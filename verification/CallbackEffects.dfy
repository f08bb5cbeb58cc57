// What each callback does besides the document: the host tables, the tracker of changes, the analysis
// jobs with their queue and deferred starts, the readers, the restore in progress, what the host is told
// and what the callback answers.  Everything that is not named stays as it was.  When a request is
// granted is said on the outline, as in `CallbackOutline`.
module CallbackEffects {
  import opened Prelude
  import opened Registries
  import opened DocumentGraph
  import opened GraphInvariant
  import opened GraphOutline
  import opened Analysis
  import opened Controllers
  import opened ControllerInvariant
  import opened ControllerTheorems
  import opened CallbackOutline
  import opened ContextCallbacks
  import SyntheticSequences
  import RequestErrors
  import TornContexts
  import Updates

  // ---- The conditions, each from its callback's own guards

  // The host may be told: it listens, and neither a reader nor an editing interval stands in the way.
  predicate Tellable(c: Controller) {
    c.readers == {} && c.graph.Some? && !c.graph.value.editing && c.hearsUpdates
  }

  // A restore opens an editing interval.
  predicate Opens(c: Controller, readable: bool, begun: bool) {
    c.restoring.None? && readable && c.readers == {} && c.graph.Some? && !c.graph.value.editing && begun
  }

  predicate Closes(c: Controller, reader: HostRef, ended: bool) {
    c.restoring == Some(reader) && c.readers == {} && c.graph.Some? && c.graph.value.editing && ended
  }

  // The callback's request is made and granted.
  ghost predicate Works(c: Controller, cb: Callback) {
    c.graph.Some? && DemandOf(c, cb).Some? && Granted(c.graph.value, DemandOf(c, cb).value)
  }

  ghost predicate StopsAnalysis(c: Controller, cb: Callback) {
    match cb
    case DestroySource(_) => Works(c, cb)
    case DeactivateSource(_, deactivated, _) => deactivated && Works(c, cb)
    case EnableSamples(s, enable, _) => !enable && c.graph.Some? && s in OutlineOf(c.graph.value).sources
    case _ => false
  }

  // A request for analysis that only the application can still refuse.
  ghost predicate AsksWell(c: Controller, source: Handle, types: seq<int>) {
    && c.graph.Some? && source in OutlineOf(c.graph.value).sources && OutlineOf(c.graph.value).sources[source]
    && 0 < |types| <= MAX_CONTENT_TYPES && (forall t :: t in types ==> t in c.analyzable)
    && (forall i, j :: 0 <= i < j < |types| ==> types[i] != types[j])
    && Src(source) !in c.jobs
  }

  // There is content to read: of a live region, or of a live source or modification that is active.
  ghost predicate Publishes(c: Controller, subject: Subject, cell: Option<Pointer>) {
    && c.graph.Some? && c.readers == {} && cell.Some?
    && var o := OutlineOf(c.graph.value);
       match subject
       case SourceSubject(h) => h in o.sources && o.sources[h]
       case ModificationSubject(h) => h in o.modifications && o.modifications[h].active
       case RegionSubject(h) => h in o.regions
  }

  // ---- The effects

  function Entered(hosts: map<RawHandle, HostRef>, kind: Kind, host: Option<HostRef>,
                   answer: Controllers.Answer): map<RawHandle, HostRef>
  {
    if host.Some? && answer.Reference? && answer.handle.Some?
    then hosts[RawHandle(kind, answer.handle.value) := host.value] else hosts
  }

  function Left(hosts: map<RawHandle, HostRef>, r: RawHandle, gone: bool): map<RawHandle, HostRef> {
    if gone then hosts - {r} else hosts
  }

  // Everything of one source's analysis goes: its job, its queued progress, its deferred start.
  function JobsLeft(c: Controller, source: RawHandle, stops: bool): Jobs {
    if stops then c.jobs - {source} else c.jobs
  }

  function QueueLeft(c: Controller, source: RawHandle, stops: bool): seq<Progress> {
    if stops then Without(c.queue, source) else c.queue
  }

  function StartsLeft(c: Controller, source: RawHandle, stops: bool): seq<RawHandle> {
    if stops then Retain(c.pendingStarts, source) else c.pendingStarts
  }

  // The controller after the callback; `t` supplies the graph and the synthetic sequences, of which
  // `CallbackOutline` and `ContextCallbacks` speak, and the handle of a new object.
  ghost function SidesAfter(c: Controller, cb: Callback, t: Turn): Controller {
    if OfContextOrSource(cb) then UpperSides(c, cb, t)
    else if OfModificationOrSequence(cb) then LowerSides(c, cb, t)
    else if TurnsInward(cb) then InnerSides(c, cb)
    else OwnSides(c, cb, t)
  }

  // Musical contexts, audio sources and their analysis.
  ghost function UpperSides(c: Controller, cb: Callback, t: Turn): Controller {
    var g := t.now.graph;
    match cb
    case CreateContext(host, _, _) =>
      c.(graph := g, synthetic := t.now.synthetic,
         contextHosts := Entered(c.contextHosts, MusicalContextKind, host, t.answer))
    case DestroyContext(h) =>
      c.(graph := g, synthetic := t.now.synthetic,
         contextHosts := Left(c.contextHosts, Ctx(h), c.graph.Some? && h !in ViewLeft(c, h).outline.contexts))
    case CreateSource(host, _) =>
      c.(graph := g, sourceHosts := Entered(c.sourceHosts, AudioSourceKind, host, t.answer))
    case DeactivateSource(s, _, _) =>
      var stops := StopsAnalysis(c, cb);
      c.(graph := g, jobs := JobsLeft(c, Src(s), stops), queue := QueueLeft(c, Src(s), stops),
         pendingStarts := StartsLeft(c, Src(s), stops))
    case EnableSamples(s, _, _) =>
      var stops := StopsAnalysis(c, cb);
      c.(graph := g, jobs := JobsLeft(c, Src(s), stops), queue := QueueLeft(c, Src(s), stops),
         pendingStarts := StartsLeft(c, Src(s), stops))
    case DestroySource(s) =>
      var stops := StopsAnalysis(c, cb);
      c.(graph := g, sourceHosts := Left(c.sourceHosts, Src(s), Works(c, cb)), jobs := JobsLeft(c, Src(s), stops),
         queue := QueueLeft(c, Src(s), stops), pendingStarts := StartsLeft(c, Src(s), stops))
    case RequestAnalysis(s, types, accepted) =>
      var begins := AsksWell(c, s, types) && accepted;
      c.(jobs := if begins then c.jobs[Src(s) := Job(set k | k in types, 0.0)] else c.jobs,
         pendingStarts := c.pendingStarts + if begins then [Src(s)] else [])
    case _ => c.(graph := g)
  }

  // Audio modifications, region sequences and playback regions.
  ghost function LowerSides(c: Controller, cb: Callback, t: Turn): Controller {
    var g := t.now.graph;
    match cb
    case CreateModification(_, host, _) =>
      c.(graph := g, modificationHosts := Entered(c.modificationHosts, AudioModificationKind, host, t.answer))
    case CloneModification(_, host, _) =>
      c.(graph := g, modificationHosts := Entered(c.modificationHosts, AudioModificationKind, host, t.answer))
    case DestroyModification(m) =>
      c.(graph := g, modificationHosts := Left(c.modificationHosts, Mod(m), Works(c, cb)))
    case CreateRegion(_, host, _, _, _) =>
      c.(graph := g, regionHosts := Entered(c.regionHosts, PlaybackRegionKind, host, t.answer))
    case DestroyRegion(r) => c.(graph := g, regionHosts := Left(c.regionHosts, Reg(r), Works(c, cb)))
    case _ => c.(graph := g)
  }

  // The editing interval, the document's own properties, telling the host and restoring.
  ghost function OwnSides(c: Controller, cb: Callback, t: Turn): Controller {
    match cb
    case NotifyUpdates =>
      if Tellable(c)
      then c.(pendingStarts := [], jobs := JobsAfter(c.jobs, c.queue), queue := [], tracker := Updates.EMPTY)
      else c
    case BeginRestore(reader, readable, begun, restored, ended) =>
      var opens := Opens(c, readable, begun);
      c.(graph := if opens then Some(c.graph.value.(editing := restored || !ended)) else c.graph,
         restoring := if opens && restored then Some(reader) else c.restoring)
    case EndRestore(reader, ended) =>
      var closes := Closes(c, reader, ended);
      c.(graph := if closes then Some(c.graph.value.(editing := false)) else c.graph,
         restoring := if closes then None else c.restoring)
    case _ => c.(graph := t.now.graph)
  }

  predicate TurnsInward(cb: Callback) {
    cb.DestroyController? || cb.CreateReader? || cb.DestroyReader? || cb.EmitProgress? || cb.EmitCompletion?
    || cb.EmitChange?
  }

  // Readers, reports of the application, and the end.
  ghost function InnerSides(c: Controller, cb: Callback): Controller {
    match cb
    case DestroyController => c.(graph := None, readers := {})
    case CreateReader(subject, cell) =>
      c.(readers := if Publishes(c, subject, cell) then {cell.value} else c.readers)
    case DestroyReader(pointer) => c.(readers := c.readers - {pointer})
    case EmitProgress(about, progress) =>
      c.(queue := c.queue + if 0.0 <= progress < 1.0 then [Updated(about, progress)] else [])
    case EmitCompletion(about) => c.(queue := c.queue + [Completed(about)])
    case EmitChange(mark) => c.(tracker := Updates.Marked(c.tracker, mark))
    case _ => c
  }

  ghost function SignalsFor(c: Controller, cb: Callback): seq<Signal> {
    match cb
    case NotifyUpdates =>
      if Tellable(c)
      then StartSignals(c.pendingStarts, c.sourceHosts) + ProgressSignals(c.jobs, c.queue, c.sourceHosts)
      else []
    case DeactivateSource(s, _, _) => if StopsAnalysis(c, cb) && Src(s) in c.jobs then [Cancelled(Src(s))] else []
    case EnableSamples(s, _, _) => if StopsAnalysis(c, cb) && Src(s) in c.jobs then [Cancelled(Src(s))] else []
    case DestroySource(s) => if StopsAnalysis(c, cb) && Src(s) in c.jobs then [Cancelled(Src(s))] else []
    case RequestAnalysis(s, types, accepted) =>
      if AsksWell(c, s, types) && !accepted then [Cancelled(Src(s))] else []
    case _ => []
  }

  function NoticesFor(c: Controller, cb: Callback): seq<Notice> {
    if cb.NotifyUpdates? && Tellable(c) then NoticesOf(c, Updates.Delivery(c.tracker)) else []
  }

  // Which reference a creation answers with is for `CallbackOutline` and `ContextCallbacks` to say.
  ghost predicate Answers(c: Controller, cb: Callback, answer: Controllers.Answer) {
    match cb
    case BeginRestore(_, readable, begun, restored, _) => answer == Flag(Opens(c, readable, begun) && restored)
    case EndRestore(reader, ended) => answer == Flag(Closes(c, reader, ended))
    case CreateReader(subject, cell) => answer == Reader(if Publishes(c, subject, cell) then cell else None)
    case CreateContext(host, _, _) => Refers(host, answer)
    case CreateSource(host, _) => Refers(host, answer)
    case CreateModification(_, host, _) => Refers(host, answer)
    case CloneModification(_, host, _) => Refers(host, answer)
    case CreateRegion(_, host, _, _, _) => Refers(host, answer)
    case CreateSequence(_, _) => answer.Reference?
    case _ => answer == Nothing
  }

  predicate Refers(host: Option<HostRef>, answer: Controllers.Answer) {
    answer.Reference? && (answer.handle.Some? ==> host.Some?)
  }

  ghost predicate Exactly(c: Controller, cb: Callback, t: Turn) {
    match t
    case Turn(now, signals, notices, answer) =>
      && now == SidesAfter(c, cb, t) && signals == SignalsFor(c, cb) && notices == NoticesFor(c, cb)
      && Answers(c, cb, answer)
  }

  // ---- Callbacks that touch the graph alone

  predicate OnlyGraph(cb: Callback) {
    cb.BeginEditing? || cb.EndEditing? || cb.UpdateDocument? || cb.UpdateContext? || cb.UpdateSource?
    || cb.UpdateModification? || cb.DeactivateModification? || cb.UpdateSequence? || cb.DestroySequence?
    || cb.UpdateRegion?
  }

  ghost predicate GraphAlone(c: Controller, t: Turn) {
    match t
    case Turn(now, signals, notices, answer) =>
      now == c.(graph := now.graph) && signals == [] && notices == [] && answer == Nothing
  }

  lemma EditIsGraphAlone(c: Controller, q: Request)
    requires !Creates(q)
    ensures GraphAlone(c, Edit(c, q)) && GraphAlone(c, Interval(c, q)) && GraphAlone(c, Quiet(c, Nothing))
  {
    hide Step, LeavesJobs, RespectsReaders, Asks, Performs;
  }

  lemma GraphAloneActs(c: Controller, cb: Callback)
    requires OnlyGraph(cb)
    ensures GraphAlone(c, Act(c, cb))
  {
    hide GraphAlone, Act;
    if OfModificationOrSequence(cb) {
      LowerGraphAlone(c, cb);
    } else {
      UpperGraphAlone(c, cb);
    }
  }

  lemma UpperGraphAlone(c: Controller, cb: Callback)
    requires OnlyGraph(cb) && !OfModificationOrSequence(cb)
    ensures GraphAlone(c, Act(c, cb))
  {
    hide GraphAlone, LeavesJobs, RespectsReaders, Asks, Performs, Edit, Interval, Step;
    match cb
    case BeginEditing(accepted) => EditIsGraphAlone(c, BeginEdit(accepted));
    case EndEditing(accepted) => EditIsGraphAlone(c, EndEdit(accepted));
    case UpdateDocument(accepted) => EditIsGraphAlone(c, EditDocument(accepted));
    case UpdateContext(h, accepted) => EditIsGraphAlone(c, EditContext(h, accepted));
    case UpdateSource(s, accepted) => EditIsGraphAlone(c, EditSource(s, accepted));
  }

  lemma LowerGraphAlone(c: Controller, cb: Callback)
    requires OnlyGraph(cb) && OfModificationOrSequence(cb)
    ensures GraphAlone(c, Act(c, cb))
  {
    hide GraphAlone, LeavesJobs, RespectsReaders, Asks, Performs, Edit, Step, UpdateRegionTurn;
    match cb
    case UpdateModification(m, accepted) => EditIsGraphAlone(c, EditModification(m, accepted));
    case DeactivateModification(m, d, accepted) => EditIsGraphAlone(c, SwitchModification(m, d, accepted));
    case UpdateSequence(s, h, accepted) => EditIsGraphAlone(c, EditSequence(s, h, h, accepted));
    case DestroySequence(s) => EditIsGraphAlone(c, DropSequence(s));
    case UpdateRegion(r, parent, permitted, accepted) => RegionMoveIsGraphAlone(c, r, parent, permitted, accepted);
  }

  lemma RegionMoveIsGraphAlone(c: Controller, r: Handle, parent: Handle, permitted: bool, accepted: bool)
    ensures GraphAlone(c, UpdateRegionTurn(c, r, parent, permitted, accepted))
  {
    hide GraphAlone, LeavesJobs, RespectsReaders, Asks, Performs, Edit, PlaceOf;
    EditIsGraphAlone(c, MoveRequest(c, r, parent, accepted));
  }

  lemma GraphAloneIsExact(c: Controller, cb: Callback, t: Turn)
    requires OnlyGraph(cb) && GraphAlone(c, t)
    ensures Exactly(c, cb, t)
  {
  }

  // ---- Telling the host, and what comes from outside

  // Where the host may be told it is told everything: the deferred starts, the queued progress and the
  // changes, and nothing of them is left.  Elsewhere nothing happens.
  lemma TellingIsExact(c: Controller)
    ensures Exactly(c, NotifyUpdates, Act(c, NotifyUpdates))
    ensures Act(c, NotifyUpdates) ==
            if c.readers == {} && c.graph.Some? && !c.graph.value.editing && c.hearsUpdates then
              Turn(c.(pendingStarts := [], jobs := JobsAfter(c.jobs, c.queue), queue := [], tracker := Updates.EMPTY),
                   StartSignals(c.pendingStarts, c.sourceHosts) + ProgressSignals(c.jobs, c.queue, c.sourceHosts),
                   NoticesOf(c, Updates.Delivery(c.tracker)), Nothing)
            else Turn(c, [], [], Nothing)
  {
    hide RespectsReaders, KeepsGraph, StartSignals, ProgressSignals, JobsAfter, NoticesOf, Updates.Delivery;
  }

  lemma InnerIsExact(c: Controller, cb: Callback)
    requires TurnsInward(cb) && !cb.CreateReader?
    ensures Exactly(c, cb, Act(c, cb))
  {
    hide Exactly, Act;
    if cb.EmitProgress? || cb.EmitCompletion? || cb.EmitChange? {
      EmittingIsExact(c, cb);
    } else {
      EndingIsExact(c, cb);
    }
  }

  lemma EmittingIsExact(c: Controller, cb: Callback)
    requires cb.EmitProgress? || cb.EmitCompletion? || cb.EmitChange?
    ensures Exactly(c, cb, Act(c, cb))
  {
    hide Updates.Marked;
    assert c.queue + [] == c.queue;
  }

  lemma EndingIsExact(c: Controller, cb: Callback)
    requires cb.DestroyController? || cb.DestroyReader?
    ensures Exactly(c, cb, Act(c, cb))
  {
  }

  lemma ReaderIsExact(c: Controller, subject: Subject, cell: Option<Pointer>)
    ensures Exactly(c, CreateReader(subject, cell), Act(c, CreateReader(subject, cell)))
  {
    hide LeavesJobs, KeepsGraph, Readable, Publishes;
    ReadableIsShown(c, subject, cell);
  }

  lemma ReadableIsShown(c: Controller, subject: Subject, cell: Option<Pointer>)
    ensures Publishes(c, subject, cell) <==> Readable(c, subject) && c.readers == {} && cell.Some?
  {
    if c.graph.Some? {
      RequestErrors.OutlineShows(c.graph.value);
    }
  }

  // ---- Restoring

  // A restore that the guards and the application let begin is recorded with its reader; one that then
  // fails closes its editing interval again, unless the application refuses that too.
  lemma RestoreBegins(c: Controller, reader: HostRef, readable: bool, begun: bool, restored: bool, ended: bool)
    requires Tidy(c)
    ensures Act(c, BeginRestore(reader, readable, begun, restored, ended)) ==
            if c.restoring.None? && readable && c.readers == {} && c.graph.Some? && !c.graph.value.editing && begun then
              Turn(c.(graph := Some(c.graph.value.(editing := restored || !ended)),
                      restoring := if restored then Some(reader) else None), [], [], Flag(restored))
            else Turn(c, [], [], Flag(false))
  {
    hide Tidy, BeginRestoreEffect, LeavesJobs, RespectsReaders;
    RestoreIsBalanced(c, reader, readable, begun, restored, ended);
  }

  lemma BeginRestoreIsExact(c: Controller, reader: HostRef, readable: bool, begun: bool, restored: bool, ended: bool)
    requires Tidy(c)
    ensures
      var cb := BeginRestore(reader, readable, begun, restored, ended);
      Exactly(c, cb, Act(c, cb))
  {
    hide Tidy, Act;
    RestoreBegins(c, reader, readable, begun, restored, ended);
  }

  // Only its own reader ends it, and only if the application lets the editing interval end.
  lemma RestoreEnds(c: Controller, reader: HostRef, ended: bool)
    requires Tidy(c)
    ensures Act(c, EndRestore(reader, ended)) ==
            if c.restoring == Some(reader) && c.readers == {} && c.graph.Some? && c.graph.value.editing && ended then
              Turn(c.(graph := Some(c.graph.value.(editing := false)), restoring := None), [], [], Flag(true))
            else Turn(c, [], [], Flag(false))
  {
    hide Tidy, EndRestoreEffect, LeavesJobs, RespectsReaders;
    RestoreEndsByItsReader(c, reader, ended);
  }

  lemma EndRestoreIsExact(c: Controller, reader: HostRef, ended: bool)
    requires Tidy(c)
    ensures Exactly(c, EndRestore(reader, ended), Act(c, EndRestore(reader, ended)))
  {
    hide Tidy, Act;
    RestoreEnds(c, reader, ended);
  }

  // ---- Musical contexts

  lemma CreateContextIsExact(c: Controller, host: Option<HostRef>, reply: Option<nat>, sequenceReply: Option<nat>)
    ensures
      var cb := CreateContext(host, reply, sequenceReply);
      Exactly(c, cb, Act(c, cb))
  {
    hide Step, CreateContextTurn, Act, Exactly;
    var cb := CreateContext(host, reply, sequenceReply);
    TornContexts.ContextActs(c, cb);
    if host.Some? && Editable(c) && Step(c.graph.value, MakeContext(reply)).outcome.Done? {
      if c.graph.value.generation >= V2_DRAFT {
        ContextAloneEntered(c, host.value, reply, sequenceReply);
      } else {
        ContextEntered(c, host.value, reply, sequenceReply);
      }
    } else {
      ContextNotEntered(c, host, reply, sequenceReply);
    }
    CreateContextFits(c, cb, Act(c, cb));
  }

  lemma CreateContextFits(c: Controller, cb: Callback, t: Turn)
    requires cb.CreateContext? && t.signals == [] && t.notices == [] && Refers(cb.host, t.answer)
    requires t.now == c.(graph := t.now.graph, synthetic := t.now.synthetic,
                         contextHosts := Entered(c.contextHosts, MusicalContextKind, cb.host, t.answer))
    ensures Exactly(c, cb, t)
  {
  }

  lemma ContextNotEntered(c: Controller, host: Option<HostRef>, reply: Option<nat>, sequenceReply: Option<nat>)
    requires host.None? || !Editable(c) || !Step(c.graph.value, MakeContext(reply)).outcome.Done?
    ensures
      var t := CreateContextTurn(c, host, reply, sequenceReply);
      && t.now == c.(graph := t.now.graph) && t.signals == [] && t.notices == [] && t.answer == Reference(None)
  {
    hide Step, LeavesJobs, RespectsReaders;
  }

  lemma ContextAloneEntered(c: Controller, host: HostRef, reply: Option<nat>, sequenceReply: Option<nat>)
    requires Editable(c) && c.graph.value.generation >= V2_DRAFT
    requires Step(c.graph.value, MakeContext(reply)).outcome.Done?
    ensures
      var t := CreateContextTurn(c, Some(host), reply, sequenceReply);
      var h := HandleOf(Step(c.graph.value, MakeContext(reply)).outcome.value);
      && t.now == c.(graph := t.now.graph, contextHosts := c.contextHosts[Ctx(h) := host])
      && t.signals == [] && t.notices == [] && t.answer == Reference(Some(h))
  {
    hide Step, LeavesJobs, RespectsReaders;
  }

  lemma ContextEntered(c: Controller, host: HostRef, reply: Option<nat>, sequenceReply: Option<nat>)
    requires Editable(c) && c.graph.value.generation < V2_DRAFT
    requires Step(c.graph.value, MakeContext(reply)).outcome.Done?
    ensures
      var t := CreateContextTurn(c, Some(host), reply, sequenceReply);
      var h := HandleOf(Step(c.graph.value, MakeContext(reply)).outcome.value);
      && t.signals == [] && t.notices == []
      && (t.answer == Reference(Some(h)) || t.answer == Reference(None))
      && t.now == c.(graph := t.now.graph, synthetic := t.now.synthetic,
                     contextHosts := if t.answer == Reference(Some(h)) then c.contextHosts[Ctx(h) := host]
                                     else c.contextHosts)
  {
    hide Step, LeavesJobs, RespectsReaders;
  }

  // The entry of an object goes, or no entry does; which of the two is decided by whether it is live
  // afterwards, as the keys are the live objects.
  lemma LeftByKeys(before: map<RawHandle, HostRef>, after: map<RawHandle, HostRef>, kind: Kind, h: Handle,
                   live: set<Handle>, left: set<Handle>)
    requires Keyed(before, kind, live) && Keyed(after, kind, left)
    requires after == before || after == before - {RawHandle(kind, h)}
    ensures after == Left(before, RawHandle(kind, h), h !in left)
  {
    var r := RawHandle(kind, h);
    if h in left {
      assert r in after;
    } else {
      assert r !in after;
    }
  }

  lemma DestroyContextIsExact(c: Controller, h: Handle)
    requires Tidy(c)
    ensures Exactly(c, DestroyContext(h), Act(c, DestroyContext(h)))
  {
    hide Tidy, Inv, Act, ViewLeft, ViewOf, OutlineOf, Keyed;
    var now := Act(c, DestroyContext(h)).now;
    ContextLeft(c, h);
    if c.graph.Some? {
      ContextGoesExactly(c, h);
      ActKeeps(c, DestroyContext(h));
      TidyTables(c);
      TidyTables(now);
      LeftByKeys(c.contextHosts, now.contextHosts, MusicalContextKind, h, c.graph.value.contexts.live.Keys,
                 now.graph.value.contexts.live.Keys);
      SameContexts(now.graph.value);
      ViewHasOutline(now.graph.value);
    }
  }

  ghost predicate LeavesContext(c: Controller, t: Turn, h: Handle) {
    match t
    case Turn(now, signals, notices, answer) =>
      && now == c.(graph := now.graph, synthetic := now.synthetic, contextHosts := now.contextHosts)
      && (now.contextHosts == c.contextHosts || now.contextHosts == c.contextHosts - {Ctx(h)})
      && signals == [] && notices == [] && answer == Nothing && (c.graph.None? ==> now == c)
  }

  lemma ContextLeft(c: Controller, h: Handle)
    ensures LeavesContext(c, Act(c, DestroyContext(h)), h)
  {
    hide Act, DestroyContextTurn, LeavesContext;
    TornContexts.ContextActs(c, DestroyContext(h));
    if Editable(c) && h in c.graph.value.contexts.live {
      if h in c.synthetic {
        PairLeft(c, h);
      } else {
        ContextAloneLeft(c, h);
      }
    } else {
      ContextNotLeft(c, h);
    }
  }

  lemma ContextNotLeft(c: Controller, h: Handle)
    requires !Editable(c) || h !in c.graph.value.contexts.live
    ensures LeavesContext(c, DestroyContextTurn(c, h), h)
  {
    hide Step, LeavesJobs, RespectsReaders;
  }

  lemma ContextAloneLeft(c: Controller, h: Handle)
    requires Editable(c) && h in c.graph.value.contexts.live && h !in c.synthetic
    ensures LeavesContext(c, DestroyContextTurn(c, h), h)
  {
    hide Step, LeavesJobs, RespectsReaders;
  }

  lemma PairLeft(c: Controller, h: Handle)
    requires Editable(c) && h in c.graph.value.contexts.live && h in c.synthetic
    ensures LeavesContext(c, DestroyContextTurn(c, h), h)
  {
    hide Step, LeavesJobs, RespectsReaders;
  }

  lemma ViewHasOutline(g: Graph)
    ensures ViewOf(g).outline == OutlineOf(g)
  {
  }

  // ---- Whether a request is granted

  // The outline's word and the runtime's are the same.
  lemma WorksIs(c: Controller, cb: Callback, q: Request, made: bool)
    requires Tidy(c) && c.graph.Some? && DemandOf(c, cb) == Some(Demand(q, made))
    ensures Works(c, cb) <==> made && Step(c.graph.value, q).outcome.Done?
  {
    hide Inv, Step, OutlineOf, Allowed, DelegateAgrees, HasRoom;
    SyntheticSequences.TidyGraph(c);
    StepRefines(c.graph.value, q);
  }

  // ---- Audio sources

  lemma CreateSourceIsExact(c: Controller, host: Option<HostRef>, reply: Option<nat>)
    ensures Exactly(c, CreateSource(host, reply), Act(c, CreateSource(host, reply)))
  {
    hide CreateSourceTurn, LeavesJobs, RespectsReaders, Asks, Performs;
    SourceEntered(c, host, reply);
  }

  lemma SourceEntered(c: Controller, host: Option<HostRef>, reply: Option<nat>)
    ensures
      var t := CreateSourceTurn(c, host, reply);
      && t.now == c.(graph := t.now.graph, sourceHosts := Entered(c.sourceHosts, AudioSourceKind, host, t.answer))
      && t.signals == [] && t.notices == [] && Refers(host, t.answer)
  {
    hide Step, CreateSourceTurn;
    if host.Some? && Editable(c) && Step(c.graph.value, MakeSource(reply)).outcome.Done? {
      SourceMade(c, host.value, reply);
    } else {
      SourceNotMade(c, host, reply);
    }
  }

  lemma SourceMade(c: Controller, host: HostRef, reply: Option<nat>)
    requires Editable(c) && Step(c.graph.value, MakeSource(reply)).outcome.Done?
    ensures
      var t := CreateSourceTurn(c, Some(host), reply);
      var h := HandleOf(Step(c.graph.value, MakeSource(reply)).outcome.value);
      && t.now == c.(graph := t.now.graph, sourceHosts := c.sourceHosts[Src(h) := host])
      && t.signals == [] && t.notices == [] && t.answer == Reference(Some(h))
  {
    hide Step, LeavesJobs, RespectsReaders, Asks, Performs;
  }

  lemma SourceNotMade(c: Controller, host: Option<HostRef>, reply: Option<nat>)
    requires host.None? || !Editable(c) || !Step(c.graph.value, MakeSource(reply)).outcome.Done?
    ensures
      var t := CreateSourceTurn(c, host, reply);
      t.now == c.(graph := t.now.graph) && t.signals == [] && t.notices == [] && t.answer == Reference(None)
  {
    hide Step, LeavesJobs, RespectsReaders, Asks, Performs;
  }

  lemma DeactivateSourceIsExact(c: Controller, source: Handle, deactivated: bool, accepted: bool)
    requires Tidy(c)
    ensures
      var cb := DeactivateSource(source, deactivated, accepted);
      Exactly(c, cb, Act(c, cb))
  {
    hide Tidy, Step, Works, RespectsReaders, Asks, Performs, DeactivateSourceTurn, JobsLeft, QueueLeft, StartsLeft;
    var cb := DeactivateSource(source, deactivated, accepted);
    DeactivationStops(c, source, deactivated, accepted);
    if c.graph.Some? {
      WorksIs(c, cb, SwitchSource(source, deactivated, accepted), Editable(c));
      HostedIfGranted(c, source, SwitchSource(source, deactivated, accepted));
    } else {
      NothingWorks(c, cb);
    }
  }

  lemma DeactivationStops(c: Controller, source: Handle, deactivated: bool, accepted: bool)
    ensures
      var t := DeactivateSourceTurn(c, source, deactivated, accepted);
      var stops := deactivated && Editable(c) && Src(source) in c.sourceHosts
                   && Step(c.graph.value, SwitchSource(source, deactivated, accepted)).outcome.Done?;
      && t.now == c.(graph := t.now.graph, jobs := JobsLeft(c, Src(source), stops),
                     queue := QueueLeft(c, Src(source), stops), pendingStarts := StartsLeft(c, Src(source), stops))
      && t.signals == (if stops && Src(source) in c.jobs then [Cancelled(Src(source))] else [])
      && t.notices == [] && t.answer == Nothing
  {
    hide Step, RespectsReaders, Asks, Performs, Retain, Without;
  }

  lemma NothingWorks(c: Controller, cb: Callback)
    requires c.graph.None?
    ensures !Works(c, cb)
  {
  }

  // A request about a source is granted only if the source is live, and then it has an entry.
  lemma HostedIfGranted(c: Controller, source: Handle, q: Request)
    requires Tidy(c) && c.graph.Some? && (q.SwitchSource? || q.DropSource?) && q.source == source
    ensures Step(c.graph.value, q).outcome.Done? ==>
              Src(source) in c.sourceHosts && source in c.graph.value.sources.live
  {
    hide Tidy, Inv, Step, OutlineOf, Allowed;
    SyntheticSequences.TidyGraph(c);
    StepRefines(c.graph.value, q);
    if Src(source) !in c.sourceHosts || source !in c.graph.value.sources.live {
      UnhostedSourceIsRefused(c, source, q);
    }
  }

  lemma EnableSamplesIsExact(c: Controller, source: Handle, enable: bool, accepted: bool)
    ensures
      var cb := EnableSamples(source, enable, accepted);
      Exactly(c, cb, Act(c, cb))
  {
    hide OutlineOf, RespectsReaders, Asks, Performs, EnableSamplesTurn, JobsLeft, QueueLeft, StartsLeft, Exactly;
    EnablingStops(c, source, enable, accepted);
    if c.graph.Some? {
      RequestErrors.OutlineShows(c.graph.value);
    }
    EnablingFits(c, EnableSamples(source, enable, accepted), EnableSamplesTurn(c, source, enable, accepted));
  }

  lemma EnablingFits(c: Controller, cb: Callback, t: Turn)
    requires cb.EnableSamples?
    requires
      var s, stops := Src(cb.source), StopsAnalysis(c, cb);
      && t.now == c.(graph := t.now.graph, jobs := JobsLeft(c, s, stops), queue := QueueLeft(c, s, stops),
                     pendingStarts := StartsLeft(c, s, stops))
      && t.signals == (if stops && s in c.jobs then [Cancelled(s)] else []) && t.notices == [] && t.answer == Nothing
    ensures Exactly(c, cb, t)
  {
    hide StopsAnalysis, JobsLeft, QueueLeft, StartsLeft;
  }

  lemma EnablingStops(c: Controller, source: Handle, enable: bool, accepted: bool)
    ensures
      var t := EnableSamplesTurn(c, source, enable, accepted);
      var stops := !enable && c.graph.Some? && source in c.graph.value.sources.live;
      && t.now == c.(graph := t.now.graph, jobs := JobsLeft(c, Src(source), stops),
                     queue := QueueLeft(c, Src(source), stops), pendingStarts := StartsLeft(c, Src(source), stops))
      && t.signals == (if stops && Src(source) in c.jobs then [Cancelled(Src(source))] else [])
      && t.notices == [] && t.answer == Nothing
  {
    hide Step, SamplesAsked, RespectsReaders, Asks, Performs, Retain, Without;
  }

  lemma DestroySourceIsExact(c: Controller, source: Handle)
    requires Tidy(c)
    ensures Exactly(c, DestroySource(source), Act(c, DestroySource(source)))
  {
    hide Tidy, Step, Works, LeavesJobs, CancelsJob, Asks, Performs, Retain, Without, ValidateSourceDestruction;
    var cb := DestroySource(source);
    if c.graph.Some? {
      WorksIs(c, cb, DropSource(source), c.graph.value.editing);
      HostedIfGranted(c, source, DropSource(source));
      PermittedIfGranted(c, source);
    } else {
      NothingWorks(c, cb);
    }
  }

  lemma PermittedIfGranted(c: Controller, source: Handle)
    requires Tidy(c) && c.graph.Some?
    ensures
      MayDestroySource(c, source) <==>
      c.graph.value.editing && Step(c.graph.value, DropSource(source)).outcome.Done?
  {
    hide Tidy, Inv, Step, OutlineOf, MayDestroySource, HasModification;
    var g := c.graph.value;
    SyntheticSequences.TidyGraph(c);
    DestroySourceIsAllOrNothing(c, source);
    StepRefines(g, DropSource(source));
    OutlineShowsChildren(g, source);
    RequestErrors.OutlineShows(g);
  }

  lemma RequestAnalysisIsExact(c: Controller, source: Handle, types: seq<int>, accepted: bool)
    ensures
      var cb := RequestAnalysis(source, types, accepted);
      Exactly(c, cb, Act(c, cb))
  {
    hide RequestEffect, AsksWell, RespectsReaders, KeepsGraph;
    RequestEffectIs(c, source, types, accepted);
  }

  lemma RequestEffectIs(c: Controller, source: Handle, types: seq<int>, accepted: bool)
    ensures RequestEffect(c, source, types, accepted) ==
            if !AsksWell(c, source, types) then JobEffect(c.jobs, c.pendingStarts, [])
            else if !accepted then JobEffect(c.jobs, c.pendingStarts, [Cancelled(Src(source))])
            else JobEffect(c.jobs[Src(source) := Job(set t | t in types, 0.0)], c.pendingStarts + [Src(source)], [])
  {
    hide OutlineOf;
    if c.graph.Some? {
      RequestErrors.OutlineShows(c.graph.value);
    }
    assert Src(source) !in c.jobs ==>
             c.jobs[Src(source) := Job(set t | t in types, 0.0)] - {Src(source)} == c.jobs;
  }

  // ---- Audio modifications, playback regions, region sequences

  lemma CreateModificationIsExact(c: Controller, cb: Callback)
    requires cb.CreateModification? || cb.CloneModification?
    ensures Exactly(c, cb, Act(c, cb))
  {
    hide CreateModificationTurn, LeavesJobs, RespectsReaders, Asks, Performs;
    if cb.CreateModification? {
      ModificationEntered(c, cb.host, MakeModification(cb.source, cb.reply));
    } else {
      ModificationEntered(c, cb.host, CopyModification(cb.original, cb.reply));
    }
  }

  lemma ModificationEntered(c: Controller, host: Option<HostRef>, q: Request)
    requires q.MakeModification? || q.CopyModification?
    ensures
      var t := CreateModificationTurn(c, host, q);
      && t.now == c.(graph := t.now.graph,
                     modificationHosts := Entered(c.modificationHosts, AudioModificationKind, host, t.answer))
      && t.signals == [] && t.notices == [] && Refers(host, t.answer)
  {
    hide Step, CreateModificationTurn;
    if host.Some? && Editable(c) && Step(c.graph.value, q).outcome.Done? {
      ModificationMade(c, host.value, q);
    } else {
      ModificationNotMade(c, host, q);
    }
  }

  lemma ModificationMade(c: Controller, host: HostRef, q: Request)
    requires (q.MakeModification? || q.CopyModification?) && Editable(c) && Step(c.graph.value, q).outcome.Done?
    ensures
      var t := CreateModificationTurn(c, Some(host), q);
      var h := HandleOf(Step(c.graph.value, q).outcome.value);
      && t.now == c.(graph := t.now.graph, modificationHosts := c.modificationHosts[Mod(h) := host])
      && t.signals == [] && t.notices == [] && t.answer == Reference(Some(h))
  {
    hide Step, LeavesJobs, RespectsReaders, Asks, Performs;
  }

  lemma ModificationNotMade(c: Controller, host: Option<HostRef>, q: Request)
    requires q.MakeModification? || q.CopyModification?
    requires host.None? || !Editable(c) || !Step(c.graph.value, q).outcome.Done?
    ensures
      var t := CreateModificationTurn(c, host, q);
      t.now == c.(graph := t.now.graph) && t.signals == [] && t.notices == [] && t.answer == Reference(None)
  {
    hide Step, LeavesJobs, RespectsReaders, Asks, Performs;
  }

  lemma DestroyModificationIsExact(c: Controller, m: Handle)
    requires Tidy(c)
    ensures Exactly(c, DestroyModification(m), Act(c, DestroyModification(m)))
  {
    hide Tidy, Step, Works, LeavesJobs, RespectsReaders, Asks, Performs, DestroyModificationTurn;
    ModificationLeft(c, m);
    if c.graph.Some? {
      WorksIs(c, DestroyModification(m), DropModification(m), Editable(c));
    } else {
      NothingWorks(c, DestroyModification(m));
    }
  }

  lemma ModificationLeft(c: Controller, m: Handle)
    ensures
      var t := DestroyModificationTurn(c, m);
      && t.now == c.(graph := t.now.graph,
                     modificationHosts := Left(c.modificationHosts, Mod(m),
                                               Editable(c) && Step(c.graph.value, DropModification(m)).outcome.Done?))
      && t.signals == [] && t.notices == [] && t.answer == Nothing
  {
    hide Step, LeavesJobs, RespectsReaders, Asks, Performs;
  }

  lemma CreateRegionIsExact(c: Controller, cb: Callback)
    requires cb.CreateRegion?
    ensures Exactly(c, cb, Act(c, cb))
  {
    hide CreateRegionTurn, LeavesJobs, RespectsReaders, Asks, Performs;
    RegionEntered(c, cb.modification, cb.host, cb.parent, cb.permitted, cb.reply);
  }

  lemma RegionEntered(c: Controller, m: Handle, host: Option<HostRef>, parent: Handle, permitted: bool,
                      reply: Option<nat>)
    ensures
      var t := CreateRegionTurn(c, m, host, parent, permitted, reply);
      && t.now == c.(graph := t.now.graph, regionHosts := Entered(c.regionHosts, PlaybackRegionKind, host, t.answer))
      && t.signals == [] && t.notices == [] && Refers(host, t.answer)
  {
    hide Step, LeavesJobs, RespectsReaders, Asks, Performs, PlaceOf, RegionRequest;
  }

  lemma DestroyRegionIsExact(c: Controller, region: Handle)
    requires Tidy(c)
    ensures Exactly(c, DestroyRegion(region), Act(c, DestroyRegion(region)))
  {
    hide Tidy, Step, Works, LeavesJobs, RespectsReaders, Asks, Performs, DestroyRegionTurn;
    RegionLeft(c, region);
    if c.graph.Some? {
      WorksIs(c, DestroyRegion(region), DropRegion(region), Editable(c));
    } else {
      NothingWorks(c, DestroyRegion(region));
    }
  }

  lemma RegionLeft(c: Controller, region: Handle)
    ensures
      var t := DestroyRegionTurn(c, region);
      && t.now == c.(graph := t.now.graph,
                     regionHosts := Left(c.regionHosts, Reg(region),
                                         Editable(c) && Step(c.graph.value, DropRegion(region)).outcome.Done?))
      && t.signals == [] && t.notices == [] && t.answer == Nothing
  {
    hide Step, LeavesJobs, RespectsReaders, Asks, Performs;
  }

  lemma CreateSequenceIsExact(c: Controller, context: Handle, reply: Option<nat>)
    ensures Exactly(c, CreateSequence(context, reply), Act(c, CreateSequence(context, reply)))
  {
    hide Step, LeavesJobs, RespectsReaders, Asks, Performs;
  }

  // ---- All of them

  lemma EffectsAreExact(c: Controller, cb: Callback)
    requires Tidy(c)
    ensures Exactly(c, cb, Act(c, cb))
  {
    hide Tidy, Act, Exactly, GraphAlone;
    match cb
    case NotifyUpdates => TellingIsExact(c);
    case BeginRestore(reader, readable, begun, restored, ended) =>
      BeginRestoreIsExact(c, reader, readable, begun, restored, ended);
    case EndRestore(reader, ended) => EndRestoreIsExact(c, reader, ended);
    case CreateContext(host, reply, sequenceReply) => CreateContextIsExact(c, host, reply, sequenceReply);
    case DestroyContext(h) => DestroyContextIsExact(c, h);
    case CreateSource(host, reply) => CreateSourceIsExact(c, host, reply);
    case DeactivateSource(s, deactivated, accepted) => DeactivateSourceIsExact(c, s, deactivated, accepted);
    case EnableSamples(s, enable, accepted) => EnableSamplesIsExact(c, s, enable, accepted);
    case DestroySource(s) => DestroySourceIsExact(c, s);
    case RequestAnalysis(s, types, accepted) => RequestAnalysisIsExact(c, s, types, accepted);
    case CreateModification(_, _, _) => CreateModificationIsExact(c, cb);
    case CloneModification(_, _, _) => CreateModificationIsExact(c, cb);
    case DestroyModification(m) => DestroyModificationIsExact(c, m);
    case CreateSequence(h, reply) => CreateSequenceIsExact(c, h, reply);
    case CreateRegion(_, _, _, _, _) => CreateRegionIsExact(c, cb);
    case DestroyRegion(r) => DestroyRegionIsExact(c, r);
    case CreateReader(subject, cell) => ReaderIsExact(c, subject, cell);
    case _ =>
      if OnlyGraph(cb) {
        GraphAloneActs(c, cb);
        GraphAloneIsExact(c, cb, Act(c, cb));
      } else {
        InnerIsExact(c, cb);
      }
  }

  // ---- What stays

  // Which callbacks the host tables, the restore in progress, the readers and the tracker belong to.
  ghost predicate Stays(c: Controller, cb: Callback, now: Controller) {
    match now
    case Controller(_, contexts, sources, modifications, regions, _, tracker, _, _, _, readers, restoring,
                    hearsUpdates, analyzable) =>
      && (!cb.CreateContext? && !cb.DestroyContext? ==> contexts == c.contextHosts)
      && (!cb.CreateSource? && !cb.DestroySource? ==> sources == c.sourceHosts)
      && (!cb.CreateModification? && !cb.CloneModification? && !cb.DestroyModification? ==>
            modifications == c.modificationHosts)
      && (!cb.CreateRegion? && !cb.DestroyRegion? ==> regions == c.regionHosts)
      && hearsUpdates == c.hearsUpdates && analyzable == c.analyzable
      && (!cb.BeginRestore? && !cb.EndRestore? ==> restoring == c.restoring)
      && (!cb.CreateReader? && !cb.DestroyReader? && !cb.DestroyController? ==> readers == c.readers)
      && tracker == (if cb.EmitChange? then Updates.Marked(c.tracker, cb.mark)
                     else if cb.NotifyUpdates? && Tellable(c) then Updates.EMPTY else c.tracker)
  }

  predicate OfContext(cb: Callback) {
    cb.CreateContext? || cb.UpdateContext? || cb.DestroyContext?
  }

  lemma ContextsStay(c: Controller, cb: Callback, t: Turn)
    requires OfContext(cb)
    ensures Stays(c, cb, UpperSides(c, cb, t))
  {
    hide ViewLeft, Entered, Left;
  }

  lemma SourcesStay(c: Controller, cb: Callback, t: Turn)
    requires OfContextOrSource(cb) && !OfContext(cb)
    ensures Stays(c, cb, UpperSides(c, cb, t))
  {
    hide Works, StopsAnalysis, AsksWell, Entered, Left, JobsLeft, QueueLeft, StartsLeft;
  }

  lemma LowerStays(c: Controller, cb: Callback, t: Turn)
    requires OfModificationOrSequence(cb)
    ensures Stays(c, cb, LowerSides(c, cb, t))
  {
    hide Works, Entered, Left, Stays;
    var now := LowerSides(c, cb, t);
    LowerTablesStay(c, cb, now.graph, now.modificationHosts, now.regionHosts);
  }

  lemma LowerTablesStay(c: Controller, cb: Callback, graph: Option<Graph>, modifications: map<RawHandle, HostRef>,
                        regions: map<RawHandle, HostRef>)
    requires OfModificationOrSequence(cb)
    requires cb.CreateModification? || cb.CloneModification? || cb.DestroyModification?
             || modifications == c.modificationHosts
    requires cb.CreateRegion? || cb.DestroyRegion? || regions == c.regionHosts
    ensures Stays(c, cb, c.(graph := graph, modificationHosts := modifications, regionHosts := regions))
  {
  }

  lemma GraphAloneStays(c: Controller, cb: Callback, t: Turn)
    requires cb.BeginEditing? || cb.EndEditing? || cb.UpdateDocument?
    ensures Stays(c, cb, OwnSides(c, cb, t))
  {
  }

  lemma TellingStays(c: Controller, t: Turn)
    ensures Stays(c, NotifyUpdates, OwnSides(c, NotifyUpdates, t))
  {
    hide JobsAfter;
  }

  lemma BeginRestoreStays(c: Controller, reader: HostRef, readable: bool, begun: bool, restored: bool, ended: bool,
                          t: Turn)
    ensures
      var cb := BeginRestore(reader, readable, begun, restored, ended);
      Stays(c, cb, OwnSides(c, cb, t))
  {
    hide Opens, JobsAfter;
  }

  lemma EndRestoreStays(c: Controller, reader: HostRef, ended: bool, t: Turn)
    ensures Stays(c, EndRestore(reader, ended), OwnSides(c, EndRestore(reader, ended), t))
  {
    hide Closes, JobsAfter;
  }

  lemma InnerStays(c: Controller, cb: Callback)
    requires TurnsInward(cb)
    ensures Stays(c, cb, InnerSides(c, cb))
  {
    hide Stays, InnerSides;
    match cb
    case DestroyController => DestroyControllerStays(c);
    case CreateReader(subject, cell) => CreateReaderStays(c, subject, cell);
    case DestroyReader(pointer) => DestroyReaderStays(c, pointer);
    case EmitProgress(about, progress) => EmitProgressStays(c, about, progress);
    case EmitCompletion(about) => EmitCompletionStays(c, about);
    case EmitChange(mark) => EmitChangeStays(c, mark);
  }

  lemma DestroyControllerStays(c: Controller)
    ensures Stays(c, DestroyController, InnerSides(c, DestroyController))
  {
  }

  lemma CreateReaderStays(c: Controller, subject: Subject, cell: Option<Pointer>)
    ensures Stays(c, CreateReader(subject, cell), InnerSides(c, CreateReader(subject, cell)))
  {
    hide Publishes;
  }

  lemma DestroyReaderStays(c: Controller, pointer: Pointer)
    ensures Stays(c, DestroyReader(pointer), InnerSides(c, DestroyReader(pointer)))
  {
  }

  lemma EmitProgressStays(c: Controller, about: RawHandle, progress: real)
    ensures Stays(c, EmitProgress(about, progress), InnerSides(c, EmitProgress(about, progress)))
  {
  }

  lemma EmitCompletionStays(c: Controller, about: RawHandle)
    ensures Stays(c, EmitCompletion(about), InnerSides(c, EmitCompletion(about)))
  {
  }

  lemma EmitChangeStays(c: Controller, mark: Updates.Mark)
    ensures Stays(c, EmitChange(mark), InnerSides(c, EmitChange(mark)))
  {
    hide Updates.Marked;
  }

  lemma WhatStays(c: Controller, cb: Callback)
    requires Tidy(c)
    ensures Stays(c, cb, Act(c, cb).now)
    ensures Act(c, cb).notices ==
            if cb.NotifyUpdates? && Tellable(c) then NoticesOf(c, Updates.Delivery(c.tracker)) else []
  {
    hide Tidy, Act, Stays, UpperSides, LowerSides, OwnSides, InnerSides, SignalsFor, Answers, NoticesOf,
      Updates.Delivery;
    EffectsAreExact(c, cb);
    var t := Act(c, cb);
    if OfContext(cb) {
      ContextsStay(c, cb, t);
    } else if OfContextOrSource(cb) {
      SourcesStay(c, cb, t);
    } else if OfModificationOrSequence(cb) {
      LowerStays(c, cb, t);
    } else if TurnsInward(cb) {
      InnerStays(c, cb);
    } else {
      match cb
      case NotifyUpdates => TellingStays(c, t);
      case BeginRestore(reader, readable, begun, restored, ended) =>
        BeginRestoreStays(c, reader, readable, begun, restored, ended, t);
      case EndRestore(reader, ended) => EndRestoreStays(c, reader, ended, t);
      case _ => GraphAloneStays(c, cb, t);
    }
  }
}
