// Why a request is refused: the first of its conditions that fails, in the order in which they are
// tested, said on the outline.
module RequestErrors {
  import opened Prelude
  import opened Registries
  import opened Edges
  import opened DocumentGraph
  import opened GraphInvariant
  import opened GraphTheorems
  import opened GraphOutline

  function Unless(passes: bool, e: Error, later: Option<Error>): Option<Error> {
    if passes then later else Some(e)
  }

  ghost function Complaint(g: Graph, q: Request): Option<Error> {
    var o := OutlineOf(g);
    var delegate := Unless(DelegateAgrees(q), Application, None);
    var creation := Unless(HasRoom(g, q), CapacityExhausted, delegate);
    match q
    case BeginEdit(_) => Unless(!o.editing, AlreadyEditing, delegate)
    case EndEdit(_) => Unless(o.editing, NotEditing, delegate)
    case EditDocument(_) => delegate
    case MakeContext(_) => creation
    case MakeSource(_) => creation
    case MakeSequence(c, named, _) =>
      Unless(c in o.contexts, g.contexts.Missing(c), Unless(named == c, WrongParent, creation))
    case MakeModification(s, _) =>
      Unless(s in o.sources, g.sources.Missing(s), Unless(s in o.sources && o.sources[s], Deactivated, creation))
    case CopyModification(m, _) =>
      Unless(m in o.modifications, g.modifications.Missing(m),
             Unless(m in o.modifications && ActiveSource(o, o.modifications[m].source), Deactivated, creation))
    case MakeRegion(m, s, ns, nc, _) =>
      Unless(m in o.modifications, g.modifications.Missing(m),
             Unless(m in o.modifications && o.modifications[m].active, Deactivated,
                    Unless(s in o.sequences, g.sequences.Missing(s),
                           Unless(NamesSequence(o, s, ns, nc), WrongParent, creation))))
    case EditContext(c, _) => Unless(c in o.contexts, g.contexts.Missing(c), delegate)
    case EditSource(s, _) =>
      Unless(s in o.sources, g.sources.Missing(s), Unless(ActiveSource(o, s), Deactivated, delegate))
    case EnableAccess(s, _) => Unless(s in o.sources, g.sources.Missing(s), delegate)
    case EditModification(m, _) =>
      Unless(m in o.modifications, g.modifications.Missing(m),
             Unless(m in o.modifications && o.modifications[m].active, Deactivated, delegate))
    case EditSequence(s, c, named, _) =>
      Unless(c in o.contexts, g.contexts.Missing(c),
             Unless(named == c, WrongParent, Unless(s in o.sequences, g.sequences.Missing(s), delegate)))
    case EditRegion(r, s, ns, nc, _) =>
      Unless(s in o.sequences, g.sequences.Missing(s),
             Unless(NamesSequence(o, s, ns, nc), WrongParent,
                    Unless(r in o.regions, g.regions.Missing(r), delegate)))
    case SwitchSource(s, deactivated, _) =>
      Unless(deactivated ==> NoActiveModificationOf(o, s), StillOwnsChildren,
             Unless(s in o.sources, g.sources.Missing(s), delegate))
    case SwitchModification(m, deactivated, _) =>
      Unless(m in o.modifications, g.modifications.Missing(m),
             Unless(deactivated ==> NoRegionOf(o, m), StillOwnsChildren,
                    Unless(deactivated || (m in o.modifications && ActiveSource(o, o.modifications[m].source)),
                           Deactivated, delegate)))
    case DropRegion(r) => Unless(r in o.regions, g.regions.Missing(r), None)
    case DropModification(m) =>
      Unless(m in o.modifications, g.modifications.Missing(m), Unless(NoRegionOf(o, m), StillOwnsChildren, None))
    case DropSequence(s) =>
      Unless(s in o.sequences, g.sequences.Missing(s), Unless(NoRegionIn(o, s), StillOwnsChildren, None))
    case DropContext(c) =>
      Unless(c in o.contexts, g.contexts.Missing(c), Unless(NoSequenceIn(o, c), StillOwnsChildren, None))
    case DropSource(s) =>
      Unless(s in o.sources, g.sources.Missing(s), Unless(NoModificationOf(o, s), StillOwnsChildren, None))
  }

  predicate ActiveSource(o: Outline, s: Handle) {
    s in o.sources && o.sources[s]
  }

  ghost predicate Explained(g: Graph, q: Request) {
    match Complaint(g, q)
    case None => Step(g, q).outcome.Done?
    case Some(e) => Step(g, q).outcome == Failed(e)
  }

  // The outline has the objects of the graph, with their parents and their activity.
  lemma OutlineShows(g: Graph)
    ensures
      var o := OutlineOf(g);
      && o.contexts.Keys == g.contexts.live.Keys && o.sequences.Keys == g.sequences.live.Keys
      && o.sources.Keys == g.sources.live.Keys && o.modifications.Keys == g.modifications.live.Keys
      && o.regions.Keys == g.regions.live.Keys && o.editing == g.editing && o.generation == g.generation
    ensures forall s :: s in g.sequences.live ==> OutlineOf(g).sequences[s] == g.sequences.live[s].context
    ensures forall s :: s in g.sources.live ==> OutlineOf(g).sources[s] == g.sources.live[s].active
    ensures forall m :: m in g.modifications.live ==>
              OutlineOf(g).modifications[m] ==
                Ownership(g.modifications.live[m].source, g.modifications.live[m].node.active)
  {
  }

  lemma EditingExplained(g: Graph, q: Request)
    requires Inv(g) && (q.BeginEdit? || q.EndEdit? || q.EditDocument?)
    ensures Explained(g, q)
  {
    hide Linked, Kept, OutlineOf;
    OutlineShows(g);
  }

  lemma PayloadExplained(g: Graph, q: Request)
    requires Inv(g) && (q.EditContext? || q.EditSource? || q.EnableAccess? || q.EditModification?)
    ensures Explained(g, q)
  {
    hide Linked, Kept, OutlineOf;
    OutlineShows(g);
    match q
    case EditContext(context, accepted) => UpdateContextKeeps(g, context, accepted);
    case EditSource(source, accepted) => UpdateSourceKeeps(g, source, accepted);
    case EnableAccess(source, accepted) => UpdateSourceKeeps(g, source, accepted);
    case EditModification(m, accepted) => UpdateModificationKeeps(g, m, accepted);
  }

  lemma CreationExplained(g: Graph, q: Request)
    requires Inv(g) && (q.MakeContext? || q.MakeSource? || q.MakeSequence? || q.MakeModification?)
    ensures Explained(g, q)
  {
    hide Linked, Kept, OutlineOf;
    OutlineShows(g);
    if q.MakeSequence? && q.context in g.contexts.live {
      KeptCommitted(g.contexts, ContextCommitted, g.liveContexts, q.context);
    }
  }

  lemma CopyExplained(g: Graph, q: Request)
    requires Inv(g) && q.CopyModification?
    ensures Explained(g, q)
  {
    hide Linked, Kept, OutlineOf;
    OutlineShows(g);
    if q.original in g.modifications.live {
      KeptCommitted(g.modifications, ModificationCommitted, g.liveModifications, q.original);
      ParentIsCounted(OF_SOURCE, g.sources.live, g.modifications.live, q.original);
    }
  }

  lemma RegionExplained(g: Graph, q: Request)
    requires Inv(g) && (q.MakeRegion? || q.EditRegion?)
    ensures Explained(g, q)
  {
    hide Linked, Kept, OutlineOf;
    OutlineShows(g);
    if q.sequence in g.sequences.live {
      SequenceIsPlaced(g, q.sequence);
    }
    if q.EditRegion? && q.region in g.regions.live {
      KeptCommitted(g.regions, RegionCommitted, g.liveRegions, q.region);
      ParentIsCounted(IN_SEQUENCE, g.sequences.live, g.regions.live, q.region);
    }
  }

  lemma MoveExplained(g: Graph, q: Request)
    requires Inv(g) && q.EditSequence?
    ensures Explained(g, q)
  {
    hide Linked, Kept, OutlineOf;
    OutlineShows(g);
    if q.sequence in g.sequences.live {
      ParentIsCounted(IN_CONTEXT, g.contexts.live, g.sequences.live, q.sequence);
      KeptCommitted(g.sequences, SequenceCommitted, g.liveSequences, q.sequence);
    }
  }

  lemma SourceSwitchExplained(g: Graph, q: Request)
    requires Inv(g) && q.SwitchSource?
    ensures Explained(g, q)
  {
    hide Linked, Kept, OutlineOf, NoActiveModificationOf, OwnsActiveModification;
    OutlineShows(g);
    SourceShown(g, q.source);
    if q.source in g.sources.live {
      KeptCommitted(g.sources, SourceCommitted, g.liveSources, q.source);
    }
  }

  lemma SourceShown(g: Graph, h: Handle)
    ensures NoActiveModificationOf(OutlineOf(g), h) <==> !OwnsActiveModification(g, h)
    ensures NoModificationOf(OutlineOf(g), h) <==> !HasModification(g, h)
  {
    OutlineShowsChildren(g, h);
  }

  lemma ParentShown(g: Graph, h: Handle)
    ensures NoRegionOf(OutlineOf(g), h) <==> !HasRegion(g, h)
    ensures NoRegionIn(OutlineOf(g), h) <==> !SequenceHasRegion(g, h)
    ensures NoSequenceIn(OutlineOf(g), h) <==> !HasSequence(g, h)
  {
    OutlineShowsChildren(g, h);
  }

  lemma ModificationSwitchExplained(g: Graph, q: Request)
    requires Inv(g) && q.SwitchModification?
    ensures Explained(g, q)
  {
    hide Linked, Kept, OutlineOf, NoRegionOf, NoRegionIn, NoSequenceIn, HasRegion, SequenceHasRegion, HasSequence;
    OutlineShows(g);
    ParentShown(g, q.modification);
    if q.modification in g.modifications.live {
      KeptCommitted(g.modifications, ModificationCommitted, g.liveModifications, q.modification);
      ParentIsCounted(OF_SOURCE, g.sources.live, g.modifications.live, q.modification);
      ZeroMeansNoRegion(g, q.modification);
    }
  }

  lemma LeafDropExplained(g: Graph, q: Request)
    requires Inv(g) && (q.DropRegion? || q.DropModification? || q.DropSequence?)
    ensures Explained(g, q)
  {
    hide Inv, OutlineOf, NoRegionOf, NoRegionIn, NoSequenceIn, HasRegion, SequenceHasRegion, HasSequence,
      DestroyRegion, DestroyModification, DestroySequence;
    OutlineShows(g);
    match q
    case DropRegion(r) => DestroyRegionKeeps(g, r);
    case DropModification(m) =>
      ParentShown(g, m);
      DestroyModificationKeeps(g, m);
    case DropSequence(s) =>
      ParentShown(g, s);
      DestroySequenceKeeps(g, s);
  }

  lemma RootDropExplained(g: Graph, q: Request)
    requires Inv(g) && (q.DropContext? || q.DropSource?)
    ensures Explained(g, q)
  {
    hide Inv, OutlineOf, NoRegionOf, NoRegionIn, NoSequenceIn, NoModificationOf, NoActiveModificationOf, HasRegion,
      SequenceHasRegion, HasSequence, HasModification, OwnsActiveModification, DestroyContext, DestroySource;
    OutlineShows(g);
    match q
    case DropContext(c) =>
      ParentShown(g, c);
      DestroyContextKeeps(g, c);
    case DropSource(s) =>
      SourceShown(g, s);
      DestroySourceKeeps(g, s);
  }

  lemma ErrorsAreExact(g: Graph, q: Request)
    requires Inv(g)
    ensures Explained(g, q)
  {
    hide Inv, Explained;
    match q
    case BeginEdit(_) => EditingExplained(g, q);
    case EndEdit(_) => EditingExplained(g, q);
    case EditDocument(_) => EditingExplained(g, q);
    case MakeContext(_) => CreationExplained(g, q);
    case MakeSource(_) => CreationExplained(g, q);
    case MakeSequence(_, _, _) => CreationExplained(g, q);
    case MakeModification(_, _) => CreationExplained(g, q);
    case CopyModification(_, _) => CopyExplained(g, q);
    case MakeRegion(_, _, _, _, _) => RegionExplained(g, q);
    case EditRegion(_, _, _, _, _) => RegionExplained(g, q);
    case EditSequence(_, _, _, _) => MoveExplained(g, q);
    case SwitchSource(_, _, _) => SourceSwitchExplained(g, q);
    case SwitchModification(_, _, _) => ModificationSwitchExplained(g, q);
    case DropRegion(_) => LeafDropExplained(g, q);
    case DropModification(_) => LeafDropExplained(g, q);
    case DropSequence(_) => LeafDropExplained(g, q);
    case DropContext(_) => RootDropExplained(g, q);
    case DropSource(_) => RootDropExplained(g, q);
    case _ => PayloadExplained(g, q);
  }
}
