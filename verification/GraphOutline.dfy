// The document graph without its machinery: which objects exist, what they name, and which are
// active.  There are no counters, no tombstones and no guards on counters here.  `StepRefines` says
// that the runtime's graph behaves exactly like this outline.
module GraphOutline {
  import opened Prelude
  import opened Registries
  import opened Edges
  import opened DocumentGraph
  import opened GraphInvariant
  import opened GraphTheorems

  datatype Ownership = Ownership(source: Handle, active: bool)
  datatype Placement = Placement(modification: Handle, sequence: Handle)

  datatype Outline = Outline(
    generation: nat,
    editing: bool,
    contexts: map<Handle, ()>,
    sequences: map<Handle, Handle>,          // to the musical context
    sources: map<Handle, bool>,              // to whether it is active
    modifications: map<Handle, Ownership>,
    regions: map<Handle, Placement>)

  ghost function Project<T, U>(m: map<Handle, T>, f: T -> U): map<Handle, U> {
    map h | h in m :: f(m[h])
  }

  lemma ProjectPut<T, U>(m: map<Handle, T>, f: T -> U, h: Handle, v: T)
    ensures Project(m[h := v], f) == Project(m, f)[h := f(v)]
    ensures h in m && f(v) == f(m[h]) ==> Project(m[h := v], f) == Project(m, f)
  {
  }

  lemma ProjectRemove<T, U>(m: map<Handle, T>, f: T -> U, h: Handle)
    ensures Project(m - {h}, f) == Project(m, f) - {h}
  {
  }

  function ContextView(n: Node): () { () }
  function SourceView(n: Node): bool { n.active }
  function SequenceView(n: SequenceNode): Handle { n.context }
  function ModificationView(n: ModificationNode): Ownership { Ownership(n.source, n.node.active) }
  function RegionView(n: RegionNode): Placement { Placement(n.modification, n.sequence) }

  ghost function OutlineOf(g: Graph): Outline {
    Outline(g.generation, g.editing,
            Project(g.contexts.live, ContextView), Project(g.sequences.live, SequenceView),
            Project(g.sources.live, SourceView), Project(g.modifications.live, ModificationView),
            Project(g.regions.live, RegionView))
  }

  // ---- What a request needs of the outline, and what it does to it

  ghost predicate NoRegionOf(o: Outline, modification: Handle) {
    forall r :: r in o.regions ==> o.regions[r].modification != modification
  }

  ghost predicate NoRegionIn(o: Outline, sequence: Handle) {
    forall r :: r in o.regions ==> o.regions[r].sequence != sequence
  }

  ghost predicate NoSequenceIn(o: Outline, context: Handle) {
    forall s :: s in o.sequences ==> o.sequences[s] != context
  }

  ghost predicate NoModificationOf(o: Outline, source: Handle) {
    forall m :: m in o.modifications ==> o.modifications[m].source != source
  }

  ghost predicate NoActiveModificationOf(o: Outline, source: Handle) {
    forall m :: m in o.modifications ==> o.modifications[m].source != source || !o.modifications[m].active
  }

  lemma OutlineShowsChildren(g: Graph, h: Handle)
    ensures NoRegionOf(OutlineOf(g), h) <==> !HasRegion(g, h)
    ensures NoRegionIn(OutlineOf(g), h) <==> !SequenceHasRegion(g, h)
    ensures NoSequenceIn(OutlineOf(g), h) <==> !HasSequence(g, h)
    ensures NoModificationOf(OutlineOf(g), h) <==> !HasModification(g, h)
    ensures NoActiveModificationOf(OutlineOf(g), h) <==> !OwnsActiveModification(g, h)
  {
    var o := OutlineOf(g);
    assert forall r :: r in o.regions <==> r in g.regions.live;
    assert forall r :: r in o.sequences <==> r in g.sequences.live;
    assert forall r :: r in o.modifications <==> r in g.modifications.live;
  }

  ghost predicate NamesSequence(o: Outline, sequence: Handle, namedSequence: Option<Handle>,
                                namedContext: Option<Handle>)
  {
    sequence in o.sequences &&
    if o.generation >= V2_DRAFT then namedSequence == Some(sequence)
    else namedContext == Some(o.sequences[sequence])
  }

  ghost predicate Allowed(o: Outline, q: Request) {
    match q
    case BeginEdit(_) => !o.editing
    case EndEdit(_) => o.editing
    case EditDocument(_) => true
    case MakeContext(_) => true
    case MakeSource(_) => true
    case MakeSequence(context, named, _) => context in o.contexts && named == context
    case MakeModification(source, _) => source in o.sources && o.sources[source]
    case CopyModification(original, _) =>
      original in o.modifications && o.modifications[original].source in o.sources &&
      o.sources[o.modifications[original].source]
    case MakeRegion(m, s, ns, nc, _) =>
      m in o.modifications && o.modifications[m].active && NamesSequence(o, s, ns, nc)
    case EditContext(context, _) => context in o.contexts
    case EditSource(source, _) => source in o.sources && o.sources[source]
    case EnableAccess(source, _) => source in o.sources
    case EditModification(m, _) => m in o.modifications && o.modifications[m].active
    case EditSequence(s, context, named, _) =>
      s in o.sequences && context in o.contexts && named == context
    case EditRegion(r, s, ns, nc, _) => r in o.regions && NamesSequence(o, s, ns, nc)
    case SwitchSource(source, deactivated, _) =>
      source in o.sources &&
      (deactivated ==> NoActiveModificationOf(o, source))
    case SwitchModification(m, deactivated, _) =>
      m in o.modifications &&
      (if deactivated then NoRegionOf(o, m)
       else o.modifications[m].source in o.sources && o.sources[o.modifications[m].source])
    case DropRegion(r) => r in o.regions
    case DropModification(m) =>
      m in o.modifications && NoRegionOf(o, m)
    case DropSequence(s) =>
      s in o.sequences && NoRegionIn(o, s)
    case DropContext(c) =>
      c in o.contexts && NoSequenceIn(o, c)
    case DropSource(s) =>
      s in o.sources && NoModificationOf(o, s)
  }

  // The delegate's answer; destruction does not ask it.
  predicate DelegateAgrees(q: Request) {
    match q
    case BeginEdit(a) => a
    case EndEdit(a) => a
    case EditDocument(a) => a
    case MakeContext(reply) => reply.Some?
    case MakeSource(reply) => reply.Some?
    case MakeSequence(_, _, reply) => reply.Some?
    case MakeModification(_, reply) => reply.Some?
    case CopyModification(_, reply) => reply.Some?
    case MakeRegion(_, _, _, _, reply) => reply.Some?
    case EditContext(_, a) => a
    case EditSource(_, a) => a
    case EnableAccess(_, a) => a
    case EditModification(_, a) => a
    case EditSequence(_, _, _, a) => a
    case EditRegion(_, _, _, _, a) => a
    case SwitchSource(_, _, a) => a
    case SwitchModification(_, _, a) => a
    case _ => true
  }

  // A creation needs one more cell.
  predicate HasRoom(g: Graph, q: Request) {
    match q
    case MakeContext(_) => !g.contexts.Full()
    case MakeSource(_) => !g.sources.Full()
    case MakeSequence(_, _, _) => !g.sequences.Full()
    case MakeModification(_, _) => !g.modifications.Full()
    case CopyModification(_, _) => !g.modifications.Full()
    case MakeRegion(_, _, _, _, _) => !g.regions.Full()
    case _ => true
  }

  // The effect of a granted request; a creation uses the handle `newcomer`.
  ghost function Apply(o: Outline, q: Request, newcomer: Handle): Outline
    requires Allowed(o, q)
  {
    match q
    case BeginEdit(_) => o.(editing := true)
    case EndEdit(_) => o.(editing := false)
    case MakeContext(_) => o.(contexts := o.contexts[newcomer := ()])
    case MakeSource(_) => o.(sources := o.sources[newcomer := true])
    case MakeSequence(context, _, _) => o.(sequences := o.sequences[newcomer := context])
    case MakeModification(source, _) =>
      o.(modifications := o.modifications[newcomer := Ownership(source, true)])
    case CopyModification(original, _) =>
      o.(modifications := o.modifications[newcomer := Ownership(o.modifications[original].source, true)])
    case MakeRegion(m, s, _, _, _) => o.(regions := o.regions[newcomer := Placement(m, s)])
    case EditSequence(s, context, _, _) => o.(sequences := o.sequences[s := context])
    case EditRegion(r, s, _, _, _) =>
      o.(regions := o.regions[r := o.regions[r].(sequence := s)])
    case SwitchSource(source, deactivated, _) => o.(sources := o.sources[source := !deactivated])
    case SwitchModification(m, deactivated, _) =>
      o.(modifications := o.modifications[m := o.modifications[m].(active := !deactivated)])
    case DropRegion(r) => o.(regions := o.regions - {r})
    case DropModification(m) => o.(modifications := o.modifications - {m})
    case DropSequence(s) => o.(sequences := o.sequences - {s})
    case DropContext(c) => o.(contexts := o.contexts - {c})
    case DropSource(s) => o.(sources := o.sources - {s})
    case _ => o
  }

  // A granted creation answers with a handle that names nothing so far, of its own kind.
  ghost predicate Fresh(g: Graph, q: Request, answer: Answer) {
    match q
    case MakeContext(_) => answer.Created? && answer.handle.index > g.contexts.count
    case MakeSource(_) => answer.Created? && answer.handle.index > g.sources.count
    case MakeSequence(_, _, _) => answer.Created? && answer.handle.index > g.sequences.count
    case MakeModification(_, _) => answer.Created? && answer.handle.index > g.modifications.count
    case CopyModification(_, _) => answer.Created? && answer.handle.index > g.modifications.count
    case MakeRegion(_, _, _, _, _) => answer.Created? && answer.handle.index > g.regions.count
    case _ => !answer.Created?
  }

  function HandleOf(a: Answer): Handle {
    match a
    case Created(h) => h
    case _ => Handle(0, 0)
  }

  // ---- The refinement, request by request

  // The runtime grants a request exactly when the outline allows it, the delegate agrees and, for a
  // creation, a cell is left.
  ghost predicate GrantedExactly(g: Graph, q: Request) {
    Step(g, q).outcome.Done? <==> Allowed(OutlineOf(g), q) && DelegateAgrees(q) && HasRoom(g, q)
  }

  // A granted request does to the outline what `Apply` says.
  ghost predicate AppliedExactly(g: Graph, q: Request) {
    Step(g, q).outcome.Done? && Allowed(OutlineOf(g), q) ==>
      var answer := Step(g, q).outcome.value;
      && Fresh(g, q, answer)
      && OutlineOf(Step(g, q).graph) == Apply(OutlineOf(g), q, HandleOf(answer))
  }

  lemma PayloadRefines(g: Graph, q: Request)
    requires Inv(g)
    requires q.BeginEdit? || q.EndEdit? || q.EditDocument? || q.EditContext? || q.EditSource?
             || q.EnableAccess? || q.EditModification?
    ensures GrantedExactly(g, q) && AppliedExactly(g, q)
  {
    hide Linked, Kept;
    match q
    case EditContext(context, accepted) => UpdateContextKeeps(g, context, accepted);
    case EditSource(source, accepted) => UpdateSourceKeeps(g, source, accepted);
    case EnableAccess(source, accepted) => UpdateSourceKeeps(g, source, accepted);
    case EditModification(m, accepted) => UpdateModificationKeeps(g, m, accepted);
    case _ =>
  }

  lemma RootCreationRefines(g: Graph, q: Request)
    requires Inv(g) && (q.MakeContext? || q.MakeSource?)
    ensures GrantedExactly(g, q) && AppliedExactly(g, q)
  {
    hide Linked, Kept;
    if q.reply.Some? {
      ProjectPut(g.contexts.live, ContextView, g.contexts.Next(), Committed(q.reply.value));
      ProjectPut(g.sources.live, SourceView, g.sources.Next(), Committed(q.reply.value));
    }
  }

  lemma SequenceCreationRefines(g: Graph, q: Request)
    requires Inv(g) && q.MakeSequence?
    ensures GrantedExactly(g, q) && AppliedExactly(g, q)
  {
    hide Linked, Kept;
    if q.context in g.contexts.live {
      KeptCommitted(g.contexts, ContextCommitted, g.liveContexts, q.context);
      if q.reply.Some? {
        ProjectPut(g.contexts.live, ContextView, q.context, Raise(g.contexts.live[q.context]));
        ProjectPut(g.sequences.live, SequenceView, g.sequences.Next(),
                   SequenceNode(Committed(q.reply.value), q.context));
      }
    }
  }

  lemma ModificationCreationRefines(g: Graph, q: Request)
    requires Inv(g) && (q.MakeModification? || q.CopyModification?)
    ensures GrantedExactly(g, q) && AppliedExactly(g, q)
  {
    hide Linked, Kept;
    if q.CopyModification? && q.original in g.modifications.live {
      KeptCommitted(g.modifications, ModificationCommitted, g.liveModifications, q.original);
      ParentIsCounted(OF_SOURCE, g.sources.live, g.modifications.live, q.original);
    }
    if Step(g, q).outcome.Done? {
      var source := if q.MakeModification? then q.source else g.modifications.live[q.original].source;
      ProjectPut(g.sources.live, SourceView, source, Raise(g.sources.live[source]));
      ProjectPut(g.modifications.live, ModificationView, g.modifications.Next(),
                 ModificationNode(Committed(q.reply.value), source));
    }
  }

  lemma SequenceIsPlaced(g: Graph, sequence: Handle)
    requires Inv(g) && sequence in g.sequences.live
    ensures g.sequences.live[sequence].context in g.contexts.live
    ensures g.sequences.live[sequence].node.active
  {
    hide Linked, Kept;
    KeptCommitted(g.sequences, SequenceCommitted, g.liveSequences, sequence);
    ParentIsCounted(IN_CONTEXT, g.contexts.live, g.sequences.live, sequence);
  }

  lemma RegionCreationRefines(g: Graph, q: Request)
    requires Inv(g) && q.MakeRegion?
    ensures GrantedExactly(g, q) && AppliedExactly(g, q)
  {
    hide Linked, Kept;
    if q.sequence in g.sequences.live {
      SequenceIsPlaced(g, q.sequence);
    }
    if Step(g, q).outcome.Done? {
      var m, s := g.modifications.live[q.modification], g.sequences.live[q.sequence];
      ProjectPut(g.modifications.live, ModificationView, q.modification, m.(node := Raise(m.node)));
      ProjectPut(g.sequences.live, SequenceView, q.sequence, s.(node := Raise(s.node)));
      ProjectPut(g.regions.live, RegionView, g.regions.Next(),
                 RegionNode(Committed(q.reply.value), q.modification, q.sequence));
    }
  }

  lemma SequenceMoveRefines(g: Graph, q: Request)
    requires Inv(g) && q.EditSequence?
    ensures GrantedExactly(g, q) && AppliedExactly(g, q)
  {
    hide Linked, Kept;
    if q.sequence in g.sequences.live {
      ParentIsCounted(IN_CONTEXT, g.contexts.live, g.sequences.live, q.sequence);
      KeptCommitted(g.sequences, SequenceCommitted, g.liveSequences, q.sequence);
      var s := g.sequences.live[q.sequence];
      ProjectPut(g.sequences.live, SequenceView, q.sequence, s.(context := q.context));
      if Step(g, q).outcome.Done? && s.context != q.context {
        var from := g.contexts.Put(s.context, Lower(g.contexts.live[s.context]));
        ProjectPut(g.contexts.live, ContextView, s.context, Lower(g.contexts.live[s.context]));
        ProjectPut(from.live, ContextView, q.context, Raise(g.contexts.live[q.context]));
      }
    }
  }

  lemma RegionMoveRefines(g: Graph, q: Request)
    requires Inv(g) && q.EditRegion?
    ensures GrantedExactly(g, q) && AppliedExactly(g, q)
  {
    hide Linked, Kept;
    if q.sequence in g.sequences.live {
      SequenceIsPlaced(g, q.sequence);
      if q.region in g.regions.live {
        ParentIsCounted(IN_SEQUENCE, g.sequences.live, g.regions.live, q.region);
        KeptCommitted(g.regions, RegionCommitted, g.liveRegions, q.region);
        var r := g.regions.live[q.region];
        ProjectPut(g.regions.live, RegionView, q.region, r.(sequence := q.sequence));
        if Step(g, q).outcome.Done? && r.sequence != q.sequence {
          var a, b := g.sequences.live[r.sequence], g.sequences.live[q.sequence];
          var from := g.sequences.Put(r.sequence, a.(node := Lower(a.node)));
          ProjectPut(g.sequences.live, SequenceView, r.sequence, a.(node := Lower(a.node)));
          ProjectPut(from.live, SequenceView, q.sequence, b.(node := Raise(b.node)));
        }
      }
    }
  }

  lemma SourceSwitchRefines(g: Graph, q: Request)
    requires Inv(g) && q.SwitchSource?
    ensures GrantedExactly(g, q) && AppliedExactly(g, q)
  {
    hide Linked, Kept, NoRegionOf, NoRegionIn, NoSequenceIn, NoModificationOf, NoActiveModificationOf,
      HasRegion, SequenceHasRegion, HasSequence, HasModification, OwnsActiveModification;
    OutlineShowsChildren(g, q.source);
    if q.source in g.sources.live {
      KeptCommitted(g.sources, SourceCommitted, g.liveSources, q.source);
      ProjectPut(g.sources.live, SourceView, q.source,
                 g.sources.live[q.source].(active := !q.deactivated));
    }
  }

  lemma ZeroMeansNoRegion(g: Graph, modification: Handle)
    requires Inv(g) && modification in g.modifications.live
    ensures g.modifications.live[modification].node.children == 0 <==> !HasRegion(g, modification)
  {
    hide Linked, Kept;
    ZeroMeansChildless(OF_MODIFICATION, g.modifications.live, g.regions.live, modification);
  }

  lemma ModificationSwitchRefines(g: Graph, q: Request)
    requires Inv(g) && q.SwitchModification?
    ensures GrantedExactly(g, q) && AppliedExactly(g, q)
  {
    hide Linked, Kept, NoRegionOf, HasRegion;
    if q.modification in g.modifications.live {
      var m := g.modifications.live[q.modification];
      KeptCommitted(g.modifications, ModificationCommitted, g.liveModifications, q.modification);
      ParentIsCounted(OF_SOURCE, g.sources.live, g.modifications.live, q.modification);
      ZeroMeansNoRegion(g, q.modification);
      OutlineShowsChildren(g, q.modification);
      ProjectPut(g.modifications.live, ModificationView, q.modification,
                 m.(node := m.node.(active := !q.deactivated)));
    }
  }

  lemma RegionDropRefines(g: Graph, q: Request)
    requires Inv(g) && q.DropRegion?
    ensures GrantedExactly(g, q) && AppliedExactly(g, q)
  {
    hide Linked, Kept, NoRegionOf, NoRegionIn, NoSequenceIn, NoModificationOf, NoActiveModificationOf,
      HasRegion, SequenceHasRegion, HasSequence, HasModification, OwnsActiveModification;
    DestroyRegionKeeps(g, q.region);
    if q.region in g.regions.live {
      var r := g.regions.live[q.region];
      var m, s := g.modifications.live[r.modification], g.sequences.live[r.sequence];
      ProjectRemove(g.regions.live, RegionView, q.region);
      ProjectPut(g.modifications.live, ModificationView, r.modification, m.(node := Lower(m.node)));
      ProjectPut(g.sequences.live, SequenceView, r.sequence, s.(node := Lower(s.node)));
    }
  }

  lemma ModificationDropRefines(g: Graph, q: Request)
    requires Inv(g) && q.DropModification?
    ensures GrantedExactly(g, q) && AppliedExactly(g, q)
  {
    hide Linked, Kept, NoRegionOf, NoRegionIn, NoSequenceIn, NoModificationOf, NoActiveModificationOf,
      HasRegion, SequenceHasRegion, HasSequence, HasModification, OwnsActiveModification;
    DestroyModificationKeeps(g, q.modification);
    OutlineShowsChildren(g, q.modification);
    ProjectRemove(g.modifications.live, ModificationView, q.modification);
    if Step(g, q).outcome.Done? {
      var s := g.modifications.live[q.modification].source;
      ProjectPut(g.sources.live, SourceView, s, Lower(g.sources.live[s]));
    }
  }

  lemma SequenceDropRefines(g: Graph, q: Request)
    requires Inv(g) && q.DropSequence?
    ensures GrantedExactly(g, q) && AppliedExactly(g, q)
  {
    hide Linked, Kept, NoRegionOf, NoRegionIn, NoSequenceIn, NoModificationOf, NoActiveModificationOf,
      HasRegion, SequenceHasRegion, HasSequence, HasModification, OwnsActiveModification;
    DestroySequenceKeeps(g, q.sequence);
    OutlineShowsChildren(g, q.sequence);
    ProjectRemove(g.sequences.live, SequenceView, q.sequence);
    if Step(g, q).outcome.Done? {
      var c := g.sequences.live[q.sequence].context;
      ProjectPut(g.contexts.live, ContextView, c, Lower(g.contexts.live[c]));
    }
  }

  lemma RootDropRefines(g: Graph, q: Request)
    requires Inv(g) && (q.DropContext? || q.DropSource?)
    ensures GrantedExactly(g, q) && AppliedExactly(g, q)
  {
    hide Linked, Kept, NoRegionOf, NoRegionIn, NoSequenceIn, NoModificationOf, NoActiveModificationOf,
      HasRegion, SequenceHasRegion, HasSequence, HasModification, OwnsActiveModification;
    if q.DropContext? {
      DestroyContextKeeps(g, q.context);
      OutlineShowsChildren(g, q.context);
      ProjectRemove(g.contexts.live, ContextView, q.context);
    } else {
      DestroySourceKeeps(g, q.source);
      OutlineShowsChildren(g, q.source);
      ProjectRemove(g.sources.live, SourceView, q.source);
    }
  }

  lemma StepRefines(g: Graph, q: Request)
    requires Inv(g)
    ensures GrantedExactly(g, q) && AppliedExactly(g, q)
  {
    hide Inv, GrantedExactly, AppliedExactly;
    match q
    case MakeContext(_) => RootCreationRefines(g, q);
    case MakeSource(_) => RootCreationRefines(g, q);
    case MakeSequence(_, _, _) => SequenceCreationRefines(g, q);
    case MakeModification(_, _) => ModificationCreationRefines(g, q);
    case CopyModification(_, _) => ModificationCreationRefines(g, q);
    case MakeRegion(_, _, _, _, _) => RegionCreationRefines(g, q);
    case EditSequence(_, _, _, _) => SequenceMoveRefines(g, q);
    case EditRegion(_, _, _, _, _) => RegionMoveRefines(g, q);
    case SwitchSource(_, _, _) => SourceSwitchRefines(g, q);
    case SwitchModification(_, _, _) => ModificationSwitchRefines(g, q);
    case DropRegion(_) => RegionDropRefines(g, q);
    case DropModification(_) => ModificationDropRefines(g, q);
    case DropSequence(_) => SequenceDropRefines(g, q);
    case DropContext(_) => RootDropRefines(g, q);
    case DropSource(_) => RootDropRefines(g, q);
    case _ => PayloadRefines(g, q);
  }

  // A refused request leaves the outline as it was.
  lemma RefusedChangesNothing(g: Graph, q: Request)
    requires Inv(g) && !Step(g, q).outcome.Done?
    ensures OutlineOf(Step(g, q).graph) == OutlineOf(g)
  {
    hide Inv;
    StepKeeps(g, q);
    FailureIsAtomic(g, q);
    var g' := Step(g, q).graph;
    assert g'.contexts.live == g.contexts.live && g'.sequences.live == g.sequences.live;
    assert g'.sources.live == g.sources.live && g'.modifications.live == g.modifications.live;
    assert g'.regions.live == g.regions.live;
  }
}
