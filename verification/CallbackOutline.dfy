// What each callback does to the document, as the outline of `GraphOutline` shows it: which request it
// comes to, under which condition it is made, and that nothing else of the outline changes.
module CallbackOutline {
  import opened Prelude
  import opened Registries
  import opened DocumentGraph
  import opened GraphInvariant
  import opened GraphOutline
  import opened ApplicationStates
  import opened Controllers
  import opened ControllerInvariant
  import opened SyntheticSequences
  import opened ControllerTheorems

  // Editing is open and no reader is outstanding.
  predicate MayEdit(c: Controller) {
    c.readers == {} && c.graph.Some? && c.graph.value.editing
  }

  datatype Demand = Demand(request: Request, made: bool)

  // A region's parent is a region sequence since ARA 2; before that it is a musical context, which stands
  // for its synthetic sequence.  The creation and the destruction of a musical context are two requests each
  // (`SyntheticSequences`); the restore callbacks open and close the editing interval around the
  // application's work.
  ghost function DemandOf(c: Controller, cb: Callback): Option<Demand>
    requires c.graph.Some?
  {
    match cb
    case BeginEditing(accepted) => Some(Demand(BeginEdit(accepted), c.readers == {}))
    case EndEditing(accepted) => Some(Demand(EndEdit(accepted), c.readers == {}))
    case UpdateDocument(accepted) => Some(Demand(EditDocument(accepted), MayEdit(c)))
    case UpdateContext(context, accepted) => Some(Demand(EditContext(context, accepted), MayEdit(c)))
    case CreateSource(host, reply) => Some(Demand(MakeSource(reply), host.Some? && MayEdit(c)))
    case UpdateSource(s, accepted) => Some(Demand(EditSource(s, accepted), MayEdit(c)))
    case DeactivateSource(s, deactivated, accepted) => Some(Demand(SwitchSource(s, deactivated, accepted), MayEdit(c)))
    case EnableSamples(s, _, accepted) => Some(Demand(EnableAccess(s, accepted), c.readers == {}))
    case DestroySource(s) => Some(Demand(DropSource(s), c.graph.value.editing))
    case CreateModification(s, host, reply) => Some(Demand(MakeModification(s, reply), host.Some? && MayEdit(c)))
    case CloneModification(m, host, reply) => Some(Demand(CopyModification(m, reply), host.Some? && MayEdit(c)))
    case UpdateModification(m, accepted) => Some(Demand(EditModification(m, accepted), MayEdit(c)))
    case DeactivateModification(m, deactivated, accepted) =>
      Some(Demand(SwitchModification(m, deactivated, accepted), MayEdit(c)))
    case DestroyModification(m) => Some(Demand(DropModification(m), MayEdit(c)))
    case CreateSequence(context, reply) => Some(Demand(MakeSequence(context, context, reply), MayEdit(c)))
    case UpdateSequence(s, context, accepted) => Some(Demand(EditSequence(s, context, context, accepted), MayEdit(c)))
    case DestroySequence(s) => Some(Demand(DropSequence(s), MayEdit(c)))
    case CreateRegion(m, host, parent, permitted, reply) =>
      var made := host.Some? && permitted && MayEdit(c);
      if c.graph.value.generation >= V2_DRAFT then Some(Demand(MakeRegion(m, parent, Some(parent), None, reply), made))
      else if parent in c.synthetic then
        Some(Demand(MakeRegion(m, c.synthetic[parent], None, Some(parent), reply), made))
      else Some(Demand(MakeRegion(m, parent, None, None, reply), false))
    case UpdateRegion(region, parent, permitted, accepted) =>
      var made := permitted && MayEdit(c);
      if c.graph.value.generation >= V2_DRAFT then
        Some(Demand(EditRegion(region, parent, Some(parent), None, accepted), made))
      else if parent in c.synthetic then
        Some(Demand(EditRegion(region, c.synthetic[parent], None, Some(parent), accepted), made))
      else Some(Demand(EditRegion(region, parent, None, None, accepted), false))
    case DestroyRegion(region) => Some(Demand(DropRegion(region), MayEdit(c)))
    case _ => None
  }

  ghost predicate Granted(g: Graph, d: Demand) {
    d.made && Allowed(OutlineOf(g), d.request) && DelegateAgrees(d.request) && HasRoom(g, d.request)
  }

  // The callback's effect: that of its request where it is made and granted, and otherwise none.
  ghost predicate DoesExactly(c: Controller, t: Turn, d: Demand)
    requires c.graph.Some?
  {
    match t
    case Turn(now, _, _, answer) =>
      && now.graph.Some?
      && (Creates(d.request) ==> answer.Reference? && (answer.handle.Some? <==> Granted(c.graph.value, d)))
      && if Granted(c.graph.value, d) then
           exists newcomer ::
             && OutlineOf(now.graph.value) == Apply(OutlineOf(c.graph.value), d.request, newcomer)
             && StatesOf(now.graph.value) == StatesAfter(StatesOf(c.graph.value), d.request, newcomer)
             && (Creates(d.request) ==> answer == Reference(Some(newcomer)))
         else
           && OutlineOf(now.graph.value) == OutlineOf(c.graph.value)
           && StatesOf(now.graph.value) == StatesOf(c.graph.value)
  }

  lemma PerformedExactly(c: Controller, t: Turn, d: Demand)
    requires Tidy(c) && c.graph.Some? && Performs(c, t, d.request, d.made)
    ensures DoesExactly(c, t, d)
  {
    hide Inv, Tidy, Step, OutlineOf, StatesOf, Apply, StatesAfter, Allowed, DelegateAgrees, HasRoom;
    var g := c.graph.value;
    TidyGraph(c);
    StepOutline(g, d.request);
    StepRefines(g, d.request);
    StepStates(g, d.request);
    if Granted(g, d) {
      var newcomer := HandleOf(Step(g, d.request).outcome.value);
      assert OutlineOf(t.now.graph.value) == Apply(OutlineOf(g), d.request, newcomer);
    }
  }

  // Objects that a callback can reach have a host reference, so the test for one never decides.
  lemma HostedOrRefused(c: Controller, q: Request, made: bool, hosted: bool, t: Turn)
    requires Tidy(c) && c.graph.Some? && Performs(c, t, q, made && hosted)
    requires !hosted ==> !Allowed(OutlineOf(c.graph.value), q)
    ensures DoesExactly(c, t, Demand(q, made))
  {
    hide Tidy, DoesExactly, Performs, OutlineOf, Inv, Allowed;
    PerformedExactly(c, t, Demand(q, made && hosted));
    if !hosted {
      NotGranted(c, t, q, made);
    }
  }

  lemma UnhostedSourceIsRefused(c: Controller, s: Handle, q: Request)
    requires Tidy(c) && c.graph.Some? && (Src(s) !in c.sourceHosts || s !in c.graph.value.sources.live)
    requires (q.SwitchSource? || q.EnableAccess? || q.DropSource? || q.EditSource?) && q.source == s
    ensures !Allowed(OutlineOf(c.graph.value), q)
  {
    hide Inv, Employed, Pending;
    TidyTables(c);
    OutlineKeepsKeys(c.graph.value);
  }

  lemma UnhostedContextIsRefused(c: Controller, context: Handle, accepted: bool)
    requires Tidy(c) && c.graph.Some? && Ctx(context) !in c.contextHosts
    ensures !Allowed(OutlineOf(c.graph.value), EditContext(context, accepted))
  {
    hide Inv, Employed, Pending;
    TidyTables(c);
    OutlineKeepsKeys(c.graph.value);
  }

  lemma OutlineKeepsKeys(g: Graph)
    ensures OutlineOf(g).sources.Keys == g.sources.live.Keys
    ensures OutlineOf(g).contexts.Keys == g.contexts.live.Keys
  {
  }

  lemma QuietPerforms(c: Controller, q: Request)
    requires !Creates(q)
    ensures Performs(c, Quiet(c, Nothing), q, false)
  {
  }

  lemma NotGranted(c: Controller, t: Turn, q: Request, made: bool)
    requires c.graph.Some? && !Allowed(OutlineOf(c.graph.value), q) && DoesExactly(c, t, Demand(q, false))
    ensures DoesExactly(c, t, Demand(q, made))
  {
    hide OutlineOf, StatesOf, Allowed, Apply, StatesAfter;
  }

  // A destruction that the outline refuses is one that the validation refuses.
  lemma ValidationIsAllowance(c: Controller, s: Handle, t: Turn)
    requires Tidy(c) && c.graph.Some?
    requires DoesExactly(c, t, Demand(DropSource(s), MayDestroySource(c, s)))
    ensures DoesExactly(c, t, Demand(DropSource(s), c.graph.value.editing))
  {
    hide Tidy, DoesExactly, OutlineOf, Inv, MayDestroySource;
    DestroySourceIsAllOrNothing(c, s);
    OutlineShowsChildren(c.graph.value, s);
    OutlineKeepsKeys(c.graph.value);
    if MayDestroySource(c, s) != c.graph.value.editing {
      NotGranted(c, t, DropSource(s), c.graph.value.editing);
    }
  }

  // Every callback that comes to one request does exactly that, and reports the new object.
  lemma CallbacksDoExactly(c: Controller, cb: Callback)
    requires Tidy(c) && c.graph.Some? && DemandOf(c, cb).Some?
    ensures DoesExactly(c, Act(c, cb), DemandOf(c, cb).value)
  {
    hide Tidy, DoesExactly, LeavesJobs, RespectsReaders, Asks, Performs, CancelsJob, MayDestroySource, Edit, Interval,
      CreateSourceTurn, DeactivateSourceTurn, EnableSamplesTurn, DestroySourceTurn, CreateModificationTurn,
      DestroyModificationTurn, CreateSequenceTurn, CreateRegionTurn, UpdateRegionTurn, DestroyRegionTurn,
      PlaceOf, RegionRequest, MoveRequest, OutlineOf;
    var t, d := Act(c, cb), DemandOf(c, cb).value;
    if cb.UpdateContext? {
      UpdatesExactly(c, d.request, Ctx(cb.context) in c.contextHosts, t);
    } else if cb.UpdateSource? {
      UpdatesExactly(c, d.request, Src(cb.source) in c.sourceHosts, t);
    } else if cb.DeactivateSource? {
      if Src(cb.source) !in c.sourceHosts { UnhostedSourceIsRefused(c, cb.source, d.request); }
      HostedOrRefused(c, d.request, d.made, Src(cb.source) in c.sourceHosts, t);
    } else if cb.EnableSamples? {
      var hosted := cb.source in c.graph.value.sources.live && Src(cb.source) in c.sourceHosts;
      if !hosted { UnhostedSourceIsRefused(c, cb.source, d.request); }
      HostedOrRefused(c, d.request, d.made, hosted, t);
    } else if cb.DestroySource? {
      if Src(cb.source) !in c.sourceHosts { UnhostedSourceIsRefused(c, cb.source, d.request); }
      HostedOrRefused(c, d.request, MayDestroySource(c, cb.source), Src(cb.source) in c.sourceHosts, t);
      ValidationIsAllowance(c, cb.source, t);
    } else if cb.CreateRegion? {
      RegionCreatedExactly(c, cb, t, d);
    } else if cb.UpdateRegion? {
      RegionMovedExactly(c, cb, t, d);
    } else {
      PerformedExactly(c, t, d);
    }
  }

  // Without a place the outline refuses what the callback would ask for.
  lemma PlacelessIsRefused(c: Controller, parent: Handle, q: Request)
    requires Tidy(c) && c.graph.Some? && PlaceOf(c, parent).None?
    requires q.MakeRegion? || q.EditRegion?
    requires if c.graph.value.generation >= V2_DRAFT then q.sequence == parent
             else parent in c.synthetic && q.sequence == c.synthetic[parent] && q.namedContext == Some(parent)
    ensures !Allowed(OutlineOf(c.graph.value), q)
  {
    hide Inv;
    var g := c.graph.value;
    TidyGraph(c);
    SyntheticSequences.LiveInOutline(g);
    if q.sequence in g.sequences.live {
      SequenceIsPlaced(g, q.sequence);
    }
  }

  lemma RegionCreatedExactly(c: Controller, cb: Callback, t: Turn, d: Demand)
    requires Tidy(c) && c.graph.Some? && cb.CreateRegion? && DemandOf(c, cb) == Some(d)
    requires
      var made := cb.host.Some? && cb.permitted && PlaceOf(c, cb.parent).Some? && Editable(c);
      Performs(c, t, RegionRequest(c, cb.modification, cb.parent, cb.reply), made)
    ensures DoesExactly(c, t, d)
  {
    hide Tidy, DoesExactly, OutlineOf, Inv, Allowed;
    if PlaceOf(c, cb.parent).Some? {
      hide Performs;
      PerformedExactly(c, t, d);
    } else {
      assert Performs(c, t, d.request, false);
      hide Performs;
      PerformedExactly(c, t, Demand(d.request, false));
      if d.made {
        PlacelessIsRefused(c, cb.parent, d.request);
        NotGranted(c, t, d.request, d.made);
      }
    }
  }

  lemma RegionMovedExactly(c: Controller, cb: Callback, t: Turn, d: Demand)
    requires Tidy(c) && c.graph.Some? && cb.UpdateRegion? && DemandOf(c, cb) == Some(d)
    requires
      var made := cb.permitted && PlaceOf(c, cb.parent).Some? && Editable(c);
      Performs(c, t, MoveRequest(c, cb.region, cb.parent, cb.accepted), made)
    ensures DoesExactly(c, t, d)
  {
    hide Tidy, DoesExactly, OutlineOf, Inv, Allowed;
    if PlaceOf(c, cb.parent).Some? {
      hide Performs;
      PerformedExactly(c, t, d);
    } else {
      assert Performs(c, t, d.request, false);
      hide Performs;
      PerformedExactly(c, t, Demand(d.request, false));
      if d.made {
        PlacelessIsRefused(c, cb.parent, d.request);
        NotGranted(c, t, d.request, d.made);
      }
    }
  }

  lemma UpdatesExactly(c: Controller, q: Request, hosted: bool, t: Turn)
    requires Tidy(c) && c.graph.Some?
    requires (q.EditContext? && hosted == (Ctx(q.context) in c.contextHosts))
             || (q.EditSource? && hosted == (Src(q.source) in c.sourceHosts))
    requires t == if hosted then Edit(c, q) else Quiet(c, Nothing)
    ensures DoesExactly(c, t, Demand(q, Editable(c)))
  {
    hide Tidy, DoesExactly, Performs, OutlineOf, Inv, Allowed, LeavesJobs, RespectsReaders, Asks;
    if !hosted {
      QuietPerforms(c, q);
      match q {
        case EditContext(context, accepted) => UnhostedContextIsRefused(c, context, accepted);
        case EditSource(source, _) => UnhostedSourceIsRefused(c, source, q);
      }
    }
    HostedOrRefused(c, q, Editable(c), hosted, t);
  }
}
