// What the document graph promises, over every request and every run:
//  - it never panics, keeps its counters exact and its activation chain intact;
//  - a failed request leaves the live graph as it was;
//  - leaf-first teardown never gets stuck.
module GraphTheorems {
  import opened Prelude
  import opened Registries
  import opened Edges
  import opened DocumentGraph
  import opened GraphInvariant

  // ---- Every request, every run

  lemma StepKeeps(g: Graph, q: Request)
    requires Inv(g)
    ensures Inv(Step(g, q).graph) && !Step(g, q).outcome.Panicked?
  {
    hide Inv, BeginEditing, EndEditing, UpdateDocument, CreateContext, CreateSource, CreateSequence,
      CreateModification, CloneModification, CreateRegion, UpdateContext, UpdateSource, EnableSamples,
      UpdateModification, UpdateSequence, UpdateRegion, DeactivateSource, DeactivateModification,
      DestroyRegion, DestroyModification, DestroySequence, DestroyContext, DestroySource;
    match q
    case BeginEdit(accepted) => EditingKeeps(g, accepted);
    case EndEdit(accepted) => EditingKeeps(g, accepted);
    case EditDocument(accepted) => EditingKeeps(g, accepted);
    case MakeContext(reply) => CreateContextKeeps(g, reply);
    case MakeSource(reply) => CreateSourceKeeps(g, reply);
    case MakeSequence(context, named, reply) => CreateSequenceKeeps(g, context, named, reply);
    case MakeModification(source, reply) => CreateModificationKeeps(g, source, reply);
    case CopyModification(original, reply) => CloneModificationKeeps(g, original, reply);
    case MakeRegion(m, s, ns, nc, reply) => CreateRegionKeeps(g, m, s, ns, nc, reply);
    case EditContext(context, accepted) => UpdateContextKeeps(g, context, accepted);
    case EditSource(source, accepted) => UpdateSourceKeeps(g, source, accepted);
    case EnableAccess(source, accepted) => UpdateSourceKeeps(g, source, accepted);
    case EditModification(modification, accepted) =>
      UpdateModificationKeeps(g, modification, accepted);
    case EditSequence(s, context, named, accepted) =>
      UpdateSequenceKeeps(g, s, context, named, accepted);
    case EditRegion(r, s, ns, nc, accepted) => UpdateRegionKeeps(g, r, s, ns, nc, accepted);
    case SwitchSource(source, deactivated, accepted) =>
      DeactivateSourceKeeps(g, source, deactivated, accepted);
    case SwitchModification(m, deactivated, accepted) =>
      DeactivateModificationKeeps(g, m, deactivated, accepted);
    case DropRegion(region) => DestroyRegionKeeps(g, region);
    case DropModification(modification) => DestroyModificationKeeps(g, modification);
    case DropSequence(sequence) => DestroySequenceKeeps(g, sequence);
    case DropContext(context) => DestroyContextKeeps(g, context);
    case DropSource(source) => DestroySourceKeeps(g, source);
  }

  lemma EditingKeeps(g: Graph, accepted: bool)
    requires Inv(g)
    ensures Inv(BeginEditing(g, accepted).graph) && Inv(EndEditing(g, accepted).graph)
    ensures Inv(UpdateDocument(g, accepted).graph)
    ensures !BeginEditing(g, accepted).outcome.Panicked? && !EndEditing(g, accepted).outcome.Panicked?
    ensures !UpdateDocument(g, accepted).outcome.Panicked?
  {
    hide Linked, Kept;
  }

  lemma {:induction false} RunKeeps(g: Graph, qs: seq<Request>)
    requires Inv(g)
    ensures Run(g, qs).Done? && Inv(Run(g, qs).value)
    decreases |qs|
  {
    hide Inv;
    if qs != [] {
      StepKeeps(g, qs[0]);
      RunKeeps(Step(g, qs[0]).graph, qs[1..]);
    }
  }

  // In every state that any run from a new document reaches: counters are exact, named parents are
  // live, every live record is committed, and the activation chain holds.
  lemma ReachableGraphIsExact(generation: nat, session: nat, document: nat, qs: seq<Request>)
    ensures Run(NewGraph(generation, session, document), qs).Done?
    ensures
      var g := Run(NewGraph(generation, session, document), qs).value;
      && CountersExact(g) && ChildrenExact(g) && ParentsLive(g) && AllCommitted(g) && ChainIntact(g)
  {
    hide Inv, CountersExact, ChildrenExact, ParentsLive, AllCommitted, ChainIntact;
    NewGraphInv(generation, session, document);
    RunKeeps(NewGraph(generation, session, document), qs);
    InvIsExact(Run(NewGraph(generation, session, document), qs).value);
  }

  lemma InvIsExact(g: Graph)
    requires Inv(g)
    ensures CountersExact(g) && ChildrenExact(g) && ParentsLive(g) && AllCommitted(g) && ChainIntact(g)
  {
    InvCounters(g);
    InvChildren(g);
    InvParents(g);
    InvCommitted(g);
    InvChain(g);
  }

  lemma InvCounters(g: Graph)
    requires Inv(g)
    ensures CountersExact(g)
  {
    hide Linked;
  }

  lemma InvChildren(g: Graph)
    requires Inv(g)
    ensures ChildrenExact(g)
  {
    hide Kept;
  }

  lemma InvParents(g: Graph)
    requires Inv(g)
    ensures ParentsLive(g)
  {
    hide Kept;
  }

  lemma InvCommitted(g: Graph)
    requires Inv(g)
    ensures AllCommitted(g)
  {
    hide Linked;
  }

  lemma InvChain(g: Graph)
    requires Inv(g)
    ensures ChainIntact(g)
  {
    hide Kept;
  }

  ghost predicate CountersExact(g: Graph) {
    && g.liveContexts == |g.contexts.live| && g.liveSequences == |g.sequences.live|
    && g.liveSources == |g.sources.live| && g.liveModifications == |g.modifications.live|
    && g.liveRegions == |g.regions.live|
  }

  ghost predicate ChildrenExact(g: Graph) {
    && (forall h :: h in g.contexts.live ==>
          g.contexts.live[h].children == |Kids(g.sequences.live, ContextOf, h)|)
    && (forall h :: h in g.sources.live ==>
          g.sources.live[h].children == |Kids(g.modifications.live, SourceOf, h)|)
    && (forall h :: h in g.modifications.live ==>
          g.modifications.live[h].node.children == |Kids(g.regions.live, ModificationOf, h)|)
    && (forall h :: h in g.sequences.live ==>
          g.sequences.live[h].node.children == |Kids(g.regions.live, SequenceOf, h)|)
  }

  ghost predicate ParentsLive(g: Graph) {
    && (forall h :: h in g.sequences.live ==> g.sequences.live[h].context in g.contexts.live)
    && (forall h :: h in g.modifications.live ==> g.modifications.live[h].source in g.sources.live)
    && (forall h :: h in g.regions.live ==>
          && g.regions.live[h].modification in g.modifications.live
          && g.regions.live[h].sequence in g.sequences.live)
  }

  ghost predicate AllCommitted(g: Graph) {
    && (forall h :: h in g.contexts.live ==> g.contexts.live[h].value.Some?)
    && (forall h :: h in g.sources.live ==> g.sources.live[h].value.Some?)
    && (forall h :: h in g.sequences.live ==> g.sequences.live[h].node.value.Some?)
    && (forall h :: h in g.modifications.live ==> g.modifications.live[h].node.value.Some?)
    && (forall h :: h in g.regions.live ==> g.regions.live[h].node.value.Some?)
  }

  ghost predicate ChainIntact(g: Graph) {
    && (forall r :: r in g.regions.live ==>
          var m := g.regions.live[r].modification;
          m in g.modifications.live && g.modifications.live[m].node.active)
    && (forall m :: m in g.modifications.live && g.modifications.live[m].node.active ==>
          var s := g.modifications.live[m].source;
          s in g.sources.live && g.sources.live[s].active)
  }

  // ---- Failure atomicity

  // The graphs in which nothing changed, or one registry holds one more tombstone.
  ghost function Tombstoned(g: Graph): (s: set<Graph>)
    ensures g in s
  {
    {g,
     g.(contexts := g.contexts.Bury()),
     g.(sequences := g.sequences.Bury()),
     g.(sources := g.sources.Bury()),
     g.(modifications := g.modifications.Bury()),
     g.(regions := g.regions.Bury())}
  }

  lemma FailureIsAtomic(g: Graph, q: Request)
    requires Inv(g) && Step(g, q).outcome.Failed?
    ensures Step(g, q).graph in Tombstoned(g)
  {
    hide Inv, DestroyRegion, DestroyModification, DestroySequence, DestroyContext, DestroySource,
      UpdateSequence, UpdateRegion, Tombstoned;
    match q
    case EditSequence(s, context, named, accepted) =>
      UpdateSequenceKeeps(g, s, context, named, accepted);
    case EditRegion(r, s, ns, nc, accepted) => UpdateRegionKeeps(g, r, s, ns, nc, accepted);
    case DropRegion(region) => DestroyRegionKeeps(g, region);
    case DropModification(modification) => DestroyModificationKeeps(g, modification);
    case DropSequence(sequence) => DestroySequenceKeeps(g, sequence);
    case DropContext(context) => DestroyContextKeeps(g, context);
    case DropSource(source) => DestroySourceKeeps(g, source);
    case _ => CreationFailureIsAtomic(g, q);
  }

  // The other requests check everything before they change anything.
  lemma CreationFailureIsAtomic(g: Graph, q: Request)
    requires Step(g, q).outcome.Failed?
    requires !q.EditSequence? && !q.EditRegion? && !q.DropRegion? && !q.DropModification?
    requires !q.DropSequence? && !q.DropContext? && !q.DropSource?
    ensures Step(g, q).graph in Tombstoned(g)
  {
  }

  // ---- Teardown

  function Total(g: Graph): nat {
    |g.contexts.live| + |g.sequences.live| + |g.sources.live| + |g.modifications.live|
    + |g.regions.live|
  }

  // `DestroyDocument` succeeds exactly when no registry holds a live cell.
  lemma DestroyDocumentExact(g: Graph)
    requires Inv(g)
    ensures DestroyDocument(g).Done? <==>
            && g.contexts.live == map[] && g.sequences.live == map[] && g.sources.live == map[]
            && g.modifications.live == map[] && g.regions.live == map[]
    ensures !DestroyDocument(g).Panicked?
  {
    hide Linked;
  }

  // A request to destroy a live object that no live object names as its parent.
  ghost predicate DropsLeaf(g: Graph, q: Request) {
    match q
    case DropRegion(r) => r in g.regions.live
    case DropModification(m) => m in g.modifications.live && !HasRegion(g, m)
    case DropSequence(s) => s in g.sequences.live && !SequenceHasRegion(g, s)
    case DropContext(c) => c in g.contexts.live && !HasSequence(g, c)
    case DropSource(s) => s in g.sources.live && !HasModification(g, s)
    case _ => false
  }

  lemma DropCardinality<T>(m: map<Handle, T>, h: Handle)
    requires h in m
    ensures |m - {h}| == |m| - 1
  {
    assert (m - {h}).Keys == m.Keys - {h};
  }

  lemma PutCardinality<T>(m: map<Handle, T>, h: Handle, v: T)
    requires h in m
    ensures |m[h := v]| == |m|
  {
    assert m[h := v].Keys == m.Keys;
  }

  lemma LeafDropSucceeds(g: Graph, q: Request)
    requires Inv(g) && DropsLeaf(g, q)
    ensures Step(g, q).outcome.Done?
    ensures Inv(Step(g, q).graph) && Total(Step(g, q).graph) == Total(g) - 1
  {
    StepKeeps(g, q);
    LeafDropOutcome(g, q);
    LeafDropTotal(g, q);
  }

  lemma LeafDropOutcome(g: Graph, q: Request)
    requires Inv(g) && DropsLeaf(g, q)
    ensures Step(g, q).outcome.Done?
  {
    hide Inv;
    match q
    case DropRegion(r) => DestroyRegionKeeps(g, r);
    case DropModification(m) => DestroyModificationKeeps(g, m);
    case DropSequence(s) => DestroySequenceKeeps(g, s);
    case DropContext(c) => DestroyContextKeeps(g, c);
    case DropSource(s) => DestroySourceKeeps(g, s);
    case _ =>
  }

  lemma LeafDropTotal(g: Graph, q: Request)
    requires DropsLeaf(g, q) && Step(g, q).outcome.Done?
    ensures Total(Step(g, q).graph) == Total(g) - 1
  {
    hide Inv, Total, DestroyRegion, DestroyModification, DestroySequence;
    match q
    case DropRegion(r) => RegionDropTotal(g, r);
    case DropModification(m) => ModificationDropTotal(g, m);
    case DropSequence(s) => SequenceDropTotal(g, s);
    case DropContext(c) => RootDropTotal(g, c);
    case DropSource(s) => RootDropTotal(g, s);
    case _ =>
  }

  lemma RootDropTotal(g: Graph, h: Handle)
    ensures DestroyContext(g, h).outcome.Done? ==>
            Total(DestroyContext(g, h).graph) == Total(g) - 1
    ensures DestroySource(g, h).outcome.Done? ==>
            Total(DestroySource(g, h).graph) == Total(g) - 1
  {
    if h in g.contexts.live {
      DropCardinality(g.contexts.live, h);
    }
    if h in g.sources.live {
      DropCardinality(g.sources.live, h);
    }
  }

  lemma ModificationDropTotal(g: Graph, m: Handle)
    requires DestroyModification(g, m).outcome.Done?
    ensures Total(DestroyModification(g, m).graph) == Total(g) - 1
  {
    DropCardinality(g.modifications.live, m);
    var s := g.modifications.live[m].source;
    PutCardinality(g.sources.live, s, Lower(g.sources.live[s]));
  }

  lemma SequenceDropTotal(g: Graph, s: Handle)
    requires DestroySequence(g, s).outcome.Done?
    ensures Total(DestroySequence(g, s).graph) == Total(g) - 1
  {
    DropCardinality(g.sequences.live, s);
    var c := g.sequences.live[s].context;
    PutCardinality(g.contexts.live, c, Lower(g.contexts.live[c]));
  }

  lemma RegionDropTotal(g: Graph, region: Handle)
    requires DestroyRegion(g, region).outcome.Done?
    ensures Total(DestroyRegion(g, region).graph) == Total(g) - 1
  {
    DropCardinality(g.regions.live, region);
    var n := g.regions.live[region];
    var m, s := g.modifications.live[n.modification], g.sequences.live[n.sequence];
    PutCardinality(g.modifications.live, n.modification, m.(node := Lower(m.node)));
    PutCardinality(g.sequences.live, n.sequence, s.(node := Lower(s.node)));
  }

  // While anything is live, some leaf is.
  lemma SomeLeafExists(g: Graph) returns (q: Request)
    requires Total(g) > 0
    ensures DropsLeaf(g, q)
  {
    if r :| r in g.regions.live {
      q := DropRegion(r);
    } else if m :| m in g.modifications.live {
      q := DropModification(m);
    } else if s :| s in g.sequences.live {
      q := DropSequence(s);
    } else if c :| c in g.contexts.live {
      q := DropContext(c);
    } else {
      assert g.regions.live == map[] && g.modifications.live == map[] && g.sequences.live == map[];
      assert g.contexts.live == map[];
      var s :| s in g.sources.live;
      q := DropSource(s);
    }
  }

  // A run that destroys leaves, in any order at all.
  ghost predicate DropsLeaves(g: Graph, qs: seq<Request>)
    decreases |qs|
  {
    qs == [] || (DropsLeaf(g, qs[0]) && DropsLeaves(Step(g, qs[0]).graph, qs[1..]))
  }

  // Such a run never fails, is never longer than the number of live objects, and when no leaf is
  // left to destroy the document itself can be destroyed.
  lemma {:induction false} TeardownNeverSticks(g: Graph, qs: seq<Request>)
    requires Inv(g) && DropsLeaves(g, qs)
    ensures Run(g, qs).Done? && Inv(Run(g, qs).value)
    ensures |qs| + Total(Run(g, qs).value) == Total(g)
    ensures (forall q :: !DropsLeaf(Run(g, qs).value, q)) ==> DestroyDocument(Run(g, qs).value).Done?
    decreases |qs|
  {
    hide Inv;
    if qs == [] {
      DestroyDocumentExact(g);
      if Total(g) > 0 {
        var q := SomeLeafExists(g);
      }
    } else {
      LeafDropSucceeds(g, qs[0]);
      TeardownNeverSticks(Step(g, qs[0]).graph, qs[1..]);
    }
  }
}
