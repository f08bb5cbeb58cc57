// The invariant that makes the document graph's counters, guards and unchecked sites correct, and
// its preservation by every operation.
module GraphInvariant {
  import opened Prelude
  import opened Registries
  import opened Edges
  import opened DocumentGraph

  // ---- The four relations.  A region needs an active modification, an active modification needs
  // an active source.

  function SequenceChildren(n: SequenceNode): nat { n.node.children }
  function SequenceActive(n: SequenceNode): bool { n.node.active }
  function ModificationChildren(n: ModificationNode): nat { n.node.children }
  function ModificationActive(n: ModificationNode): bool { n.node.active }
  function NodeChildren(n: Node): nat { n.children }
  function NodeActive(n: Node): bool { n.active }
  function ContextOf(n: SequenceNode): Handle { n.context }
  function SourceOf(n: ModificationNode): Handle { n.source }
  function ModificationOf(n: RegionNode): Handle { n.modification }
  function SequenceOf(n: RegionNode): Handle { n.sequence }
  function SequenceNever(n: SequenceNode): bool { false }
  function RegionNever(n: RegionNode): bool { false }
  function RegionAlways(n: RegionNode): bool { true }

  const IN_CONTEXT: Relation<Node, SequenceNode> :=
    Relation(NodeChildren, NodeActive, ContextOf, SequenceNever)
  const OF_SOURCE: Relation<Node, ModificationNode> :=
    Relation(NodeChildren, NodeActive, SourceOf, ModificationActive)
  const OF_MODIFICATION: Relation<ModificationNode, RegionNode> :=
    Relation(ModificationChildren, ModificationActive, ModificationOf, RegionAlways)
  const IN_SEQUENCE: Relation<SequenceNode, RegionNode> :=
    Relation(SequenceChildren, SequenceActive, SequenceOf, RegionNever)

  // ---- Storage: a registry is well formed, every live cell is committed, and `n` counts them.
  // Contexts and sequences are never deactivated.

  function ContextCommitted(n: Node): bool { n.value.Some? && n.active }
  function SourceCommitted(n: Node): bool { n.value.Some? }
  function SequenceCommitted(n: SequenceNode): bool { n.node.value.Some? && n.node.active }
  function ModificationCommitted(n: ModificationNode): bool { n.node.value.Some? }
  function RegionCommitted(n: RegionNode): bool { n.node.value.Some? }

  ghost predicate Kept<T>(r: Registry<T>, committed: T -> bool, n: nat) {
    match r
    case Registry(session, capacity, count, live) =>
      && count <= capacity <= U32_MAX
      && (forall h :: h in live ==> h.session == session && 1 <= h.index <= count)
      && (forall h :: h in live ==> committed(live[h]))
      && n == |live|
  }

  lemma PushKept<T>(r: Registry<T>, committed: T -> bool, n: nat, v: T)
    requires Kept(r, committed, n) && !r.Full() && committed(v)
    ensures r.Next() !in r.live && Kept(r.Push(v), committed, n + 1)
  {
  }

  lemma BuryKept<T>(r: Registry<T>, committed: T -> bool, n: nat)
    requires Kept(r, committed, n) && !r.Full()
    ensures Kept(r.Bury(), committed, n)
  {
  }

  lemma RemoveKept<T>(r: Registry<T>, committed: T -> bool, n: nat, h: Handle)
    requires Kept(r, committed, n) && h in r.live
    ensures committed(r.live[h]) && n > 0 && Kept(r.Remove(h), committed, n - 1)
  {
    assert (r.live - {h}).Keys == r.live.Keys - {h};
  }

  lemma PutKept<T>(r: Registry<T>, committed: T -> bool, n: nat, h: Handle, v: T)
    requires Kept(r, committed, n) && h in r.live && committed(v)
    ensures Kept(r.Put(h, v), committed, n)
  {
    assert r.live[h := v].Keys == r.live.Keys;
  }

  lemma KeptCommitted<T>(r: Registry<T>, committed: T -> bool, n: nat, h: Handle)
    requires Kept(r, committed, n) && h in r.live
    ensures committed(r.live[h])
  {
  }

  lemma KeptBounds<T>(r: Registry<T>, committed: T -> bool, n: nat)
    requires Kept(r, committed, n)
    ensures r.count <= r.capacity <= U32_MAX && n == |r.live|
    ensures forall h :: h in r.live ==> r.Names(h)
  {
  }

  ghost predicate Inv(g: Graph) {
    match g.document
    case None => false
    case Some(_) =>
      && Kept(g.contexts, ContextCommitted, g.liveContexts)
      && Kept(g.sequences, SequenceCommitted, g.liveSequences)
      && Kept(g.sources, SourceCommitted, g.liveSources)
      && Kept(g.modifications, ModificationCommitted, g.liveModifications)
      && Kept(g.regions, RegionCommitted, g.liveRegions)
      && Linked(IN_CONTEXT, g.contexts.live, g.sequences.live)
      && Linked(OF_SOURCE, g.sources.live, g.modifications.live)
      && Linked(OF_MODIFICATION, g.modifications.live, g.regions.live)
      && Linked(IN_SEQUENCE, g.sequences.live, g.regions.live)
  }

  lemma NewGraphInv(generation: nat, session: nat, document: nat)
    ensures Inv(NewGraph(generation, session, document))
  {
  }

  lemma NextIsUnused(g: Graph)
    requires Inv(g)
    ensures g.contexts.Next() !in g.contexts.live && g.sequences.Next() !in g.sequences.live
    ensures g.sources.Next() !in g.sources.live && g.modifications.Next() !in g.modifications.live
    ensures g.regions.Next() !in g.regions.live
  {
    hide Linked;
    KeptBounds(g.contexts, ContextCommitted, g.liveContexts);
    KeptBounds(g.sequences, SequenceCommitted, g.liveSequences);
    KeptBounds(g.sources, SourceCommitted, g.liveSources);
    KeptBounds(g.modifications, ModificationCommitted, g.liveModifications);
    KeptBounds(g.regions, RegionCommitted, g.liveRegions);
  }

  // ---- Creation

  lemma CreateContextKeeps(g: Graph, reply: Option<nat>)
    requires Inv(g)
    ensures Inv(CreateContext(g, reply).graph) && !CreateContext(g, reply).outcome.Panicked?
  {
    hide Linked, Kept;
    if !g.contexts.Full() {
      BuryKept(g.contexts, ContextCommitted, g.liveContexts);
      if reply.Some? {
        var v := Committed(reply.value);
        PushKept(g.contexts, ContextCommitted, g.liveContexts, v);
        NewParent(IN_CONTEXT, g.contexts.live, g.sequences.live, g.contexts.Next(), v);
      }
    }
  }

  lemma CreateSourceKeeps(g: Graph, reply: Option<nat>)
    requires Inv(g)
    ensures Inv(CreateSource(g, reply).graph) && !CreateSource(g, reply).outcome.Panicked?
  {
    hide Linked, Kept;
    if !g.sources.Full() {
      BuryKept(g.sources, SourceCommitted, g.liveSources);
      if reply.Some? {
        var v := Committed(reply.value);
        PushKept(g.sources, SourceCommitted, g.liveSources, v);
        NewParent(OF_SOURCE, g.sources.live, g.modifications.live, g.sources.Next(), v);
      }
    }
  }

  lemma CreateSequenceKeeps(g: Graph, context: Handle, named: Handle, reply: Option<nat>)
    requires Inv(g)
    ensures Inv(CreateSequence(g, context, named, reply).graph)
    ensures !CreateSequence(g, context, named, reply).outcome.Panicked?
  {
    hide Linked, Kept;
    if CreateSequence(g, context, named, reply).graph != g {
      BuryKept(g.sequences, SequenceCommitted, g.liveSequences);
      if reply.Some? {
        var kid := SequenceNode(Committed(reply.value), context);
        var raised := Raise(g.contexts.live[context]);
        KeptCommitted(g.contexts, ContextCommitted, g.liveContexts, context);
        PushKept(g.sequences, SequenceCommitted, g.liveSequences, kid);
        PutKept(g.contexts, ContextCommitted, g.liveContexts, context, raised);
        Link(IN_CONTEXT, g.contexts.live, g.sequences.live, g.sequences.Next(), kid, raised);
        NewParent(IN_SEQUENCE, g.sequences.live, g.regions.live, g.sequences.Next(), kid);
      }
    }
  }

  lemma AddModificationKeeps(g: Graph, source: Handle, reply: Option<nat>)
    requires Inv(g) && source in g.sources.live && g.sources.live[source].active
    requires !g.modifications.Full()
    ensures Inv(AddModification(g, source, reply).graph)
  {
    hide Linked, Kept;
    BuryKept(g.modifications, ModificationCommitted, g.liveModifications);
    if reply.Some? {
      var kid := ModificationNode(Committed(reply.value), source);
      var raised := Raise(g.sources.live[source]);
      KeptCommitted(g.sources, SourceCommitted, g.liveSources, source);
      PushKept(g.modifications, ModificationCommitted, g.liveModifications, kid);
      PutKept(g.sources, SourceCommitted, g.liveSources, source, raised);
      Link(OF_SOURCE, g.sources.live, g.modifications.live, g.modifications.Next(), kid, raised);
      NewParent(OF_MODIFICATION, g.modifications.live, g.regions.live, g.modifications.Next(), kid);
    }
  }

  lemma CreateModificationKeeps(g: Graph, source: Handle, reply: Option<nat>)
    requires Inv(g)
    ensures Inv(CreateModification(g, source, reply).graph)
    ensures !CreateModification(g, source, reply).outcome.Panicked?
  {
    hide Linked, Kept;
    if CreateModification(g, source, reply).graph != g {
      AddModificationKeeps(g, source, reply);
    }
  }

  lemma CloneModificationKeeps(g: Graph, original: Handle, reply: Option<nat>)
    requires Inv(g)
    ensures Inv(CloneModification(g, original, reply).graph)
    ensures !CloneModification(g, original, reply).outcome.Panicked?
  {
    hide Linked, Kept;
    if CloneModification(g, original, reply).graph != g {
      KeptCommitted(g.modifications, ModificationCommitted, g.liveModifications, original);
      AddModificationKeeps(g, g.modifications.live[original].source, reply);
    }
  }

  lemma CreateRegionKeeps(g: Graph, modification: Handle, sequence: Handle,
                          namedSequence: Option<Handle>, namedContext: Option<Handle>,
                          reply: Option<nat>)
    requires Inv(g)
    ensures Inv(CreateRegion(g, modification, sequence, namedSequence, namedContext, reply).graph)
    ensures !CreateRegion(g, modification, sequence, namedSequence, namedContext, reply)
              .outcome.Panicked?
  {
    hide Linked, Kept;
    if CreateRegion(g, modification, sequence, namedSequence, namedContext, reply).graph != g {
      AddRegionKeeps(g, modification, sequence, reply);
    }
  }

  lemma AddRegionKeeps(g: Graph, modification: Handle, sequence: Handle, reply: Option<nat>)
    requires Inv(g) && !g.regions.Full()
    requires modification in g.modifications.live && g.modifications.live[modification].node.active
    requires sequence in g.sequences.live
    ensures Inv(AddRegion(g, modification, sequence, reply).graph)
  {
    hide Linked, Kept;
    BuryKept(g.regions, RegionCommitted, g.liveRegions);
    if reply.Some? {
      var m, s := g.modifications.live[modification], g.sequences.live[sequence];
      var m', s' := m.(node := Raise(m.node)), s.(node := Raise(s.node));
      var kid := RegionNode(Committed(reply.value), modification, sequence);
      KeptCommitted(g.modifications, ModificationCommitted, g.liveModifications, modification);
      KeptCommitted(g.sequences, SequenceCommitted, g.liveSequences, sequence);
      PushKept(g.regions, RegionCommitted, g.liveRegions, kid);
      PutKept(g.modifications, ModificationCommitted, g.liveModifications, modification, m');
      PutKept(g.sequences, SequenceCommitted, g.liveSequences, sequence, s');
      Link(OF_MODIFICATION, g.modifications.live, g.regions.live, g.regions.Next(), kid, m');
      Link(IN_SEQUENCE, g.sequences.live, g.regions.live, g.regions.Next(), kid, s');
      ParentIsCounted(IN_CONTEXT, g.contexts.live, g.sequences.live, sequence);
      TouchKid(IN_CONTEXT, g.contexts.live, g.sequences.live, sequence, s');
      ParentIsCounted(OF_SOURCE, g.sources.live, g.modifications.live, modification);
      TouchKid(OF_SOURCE, g.sources.live, g.modifications.live, modification, m');
    }
  }

  // ---- Updates of payload: nothing in the graph changes, and no `expect` fires

  lemma UpdateContextKeeps(g: Graph, context: Handle, accepted: bool)
    requires Inv(g)
    ensures UpdateContext(g, context, accepted).graph == g
    ensures !UpdateContext(g, context, accepted).outcome.Panicked?
  {
    hide Linked, Kept;
    if context in g.contexts.live {
      KeptCommitted(g.contexts, ContextCommitted, g.liveContexts, context);
    }
  }

  lemma UpdateSourceKeeps(g: Graph, source: Handle, accepted: bool)
    requires Inv(g)
    ensures UpdateSource(g, source, accepted).graph == EnableSamples(g, source, accepted).graph == g
    ensures !UpdateSource(g, source, accepted).outcome.Panicked?
    ensures !EnableSamples(g, source, accepted).outcome.Panicked?
  {
    hide Linked, Kept;
    if source in g.sources.live {
      KeptCommitted(g.sources, SourceCommitted, g.liveSources, source);
    }
  }

  lemma UpdateModificationKeeps(g: Graph, modification: Handle, accepted: bool)
    requires Inv(g)
    ensures UpdateModification(g, modification, accepted).graph == g
    ensures !UpdateModification(g, modification, accepted).outcome.Panicked?
  {
    hide Linked, Kept;
    if modification in g.modifications.live {
      KeptCommitted(g.modifications, ModificationCommitted, g.liveModifications, modification);
    }
  }

  // ---- Edge moves

  lemma UpdateSequenceKeeps(g: Graph, sequence: Handle, context: Handle, named: Handle, accepted: bool)
    requires Inv(g)
    ensures Inv(UpdateSequence(g, sequence, context, named, accepted).graph)
    ensures !UpdateSequence(g, sequence, context, named, accepted).outcome.Panicked?
    ensures !UpdateSequence(g, sequence, context, named, accepted).outcome.Done? ==>
            UpdateSequence(g, sequence, context, named, accepted).graph == g
  {
    hide Linked, Kept;
    if sequence in g.sequences.live {
      KeptCommitted(g.sequences, SequenceCommitted, g.liveSequences, sequence);
      ParentIsCounted(IN_CONTEXT, g.contexts.live, g.sequences.live, sequence);
      if UpdateSequence(g, sequence, context, named, accepted).graph != g {
        MoveSequenceKeeps(g, sequence, context);
      }
    }
  }

  lemma MoveSequenceKeeps(g: Graph, sequence: Handle, context: Handle)
    requires Inv(g) && sequence in g.sequences.live && context in g.contexts.live
    requires g.sequences.live[sequence].context in g.contexts.live
    requires g.sequences.live[sequence].context != context
    requires g.contexts.live[g.sequences.live[sequence].context].children > 0
    ensures
      var s := g.sequences.live[sequence];
      Inv(g.(contexts := g.contexts.Put(s.context, Lower(g.contexts.live[s.context]))
                                   .Put(context, Raise(g.contexts.live[context])),
             sequences := g.sequences.Put(sequence, s.(context := context))))
  {
    hide Linked, Kept;
    var s := g.sequences.live[sequence];
    var moved := s.(context := context);
    var from, to := Lower(g.contexts.live[s.context]), Raise(g.contexts.live[context]);
    KeptCommitted(g.contexts, ContextCommitted, g.liveContexts, s.context);
    KeptCommitted(g.contexts, ContextCommitted, g.liveContexts, context);
    KeptCommitted(g.sequences, SequenceCommitted, g.liveSequences, sequence);
    PutKept(g.sequences, SequenceCommitted, g.liveSequences, sequence, moved);
    PutKept(g.contexts, ContextCommitted, g.liveContexts, s.context, from);
    PutKept(g.contexts.Put(s.context, from), ContextCommitted, g.liveContexts, context, to);
    Move(IN_CONTEXT, g.contexts.live, g.sequences.live, sequence, moved, from, to);
    TouchParent(IN_SEQUENCE, g.sequences.live, g.regions.live, sequence, moved);
  }

  lemma UpdateRegionKeeps(g: Graph, region: Handle, sequence: Handle, namedSequence: Option<Handle>,
                          namedContext: Option<Handle>, accepted: bool)
    requires Inv(g)
    ensures Inv(UpdateRegion(g, region, sequence, namedSequence, namedContext, accepted).graph)
    ensures !UpdateRegion(g, region, sequence, namedSequence, namedContext, accepted)
              .outcome.Panicked?
    ensures !UpdateRegion(g, region, sequence, namedSequence, namedContext, accepted).outcome.Done? ==>
            UpdateRegion(g, region, sequence, namedSequence, namedContext, accepted).graph == g
  {
    hide Linked, Kept;
    if region in g.regions.live {
      KeptCommitted(g.regions, RegionCommitted, g.liveRegions, region);
      ParentIsCounted(IN_SEQUENCE, g.sequences.live, g.regions.live, region);
      if UpdateRegion(g, region, sequence, namedSequence, namedContext, accepted).graph != g {
        MoveRegionKeeps(g, region, sequence);
      }
    }
  }

  lemma MoveRegionKeeps(g: Graph, region: Handle, sequence: Handle)
    requires Inv(g) && region in g.regions.live && sequence in g.sequences.live
    requires g.regions.live[region].sequence in g.sequences.live
    requires g.regions.live[region].sequence != sequence
    requires g.sequences.live[g.regions.live[region].sequence].node.children > 0
    ensures
      var r := g.regions.live[region];
      var from, to := g.sequences.live[r.sequence], g.sequences.live[sequence];
      Inv(g.(sequences := g.sequences.Put(r.sequence, from.(node := Lower(from.node)))
                                     .Put(sequence, to.(node := Raise(to.node))),
             regions := g.regions.Put(region, r.(sequence := sequence))))
  {
    hide Linked, Kept;
    var r := g.regions.live[region];
    var moved := r.(sequence := sequence);
    var a, b := g.sequences.live[r.sequence], g.sequences.live[sequence];
    var from, to := a.(node := Lower(a.node)), b.(node := Raise(b.node));
    var lowered := g.sequences.Put(r.sequence, from);
    KeptCommitted(g.regions, RegionCommitted, g.liveRegions, region);
    KeptCommitted(g.sequences, SequenceCommitted, g.liveSequences, r.sequence);
    KeptCommitted(g.sequences, SequenceCommitted, g.liveSequences, sequence);
    PutKept(g.regions, RegionCommitted, g.liveRegions, region, moved);
    PutKept(g.sequences, SequenceCommitted, g.liveSequences, r.sequence, from);
    PutKept(lowered, SequenceCommitted, g.liveSequences, sequence, to);
    Move(IN_SEQUENCE, g.sequences.live, g.regions.live, region, moved, from, to);
    ParentIsCounted(OF_MODIFICATION, g.modifications.live, g.regions.live, region);
    TouchKid(OF_MODIFICATION, g.modifications.live, g.regions.live, region, moved);
    ParentIsCounted(IN_CONTEXT, g.contexts.live, g.sequences.live, r.sequence);
    TouchKid(IN_CONTEXT, g.contexts.live, g.sequences.live, r.sequence, from);
    ParentIsCounted(IN_CONTEXT, g.contexts.live, lowered.live, sequence);
    TouchKid(IN_CONTEXT, g.contexts.live, lowered.live, sequence, to);
  }

  // ---- Activation

  lemma DeactivateSourceKeeps(g: Graph, source: Handle, deactivated: bool, accepted: bool)
    requires Inv(g)
    ensures Inv(DeactivateSource(g, source, deactivated, accepted).graph)
    ensures !DeactivateSource(g, source, deactivated, accepted).outcome.Panicked?
    ensures !DeactivateSource(g, source, deactivated, accepted).outcome.Done? ==>
            DeactivateSource(g, source, deactivated, accepted).graph == g
  {
    hide Linked, Kept;
    if source in g.sources.live {
      KeptCommitted(g.sources, SourceCommitted, g.liveSources, source);
      if DeactivateSource(g, source, deactivated, accepted).outcome.Done? {
        var s' := g.sources.live[source].(active := !deactivated);
        PutKept(g.sources, SourceCommitted, g.liveSources, source, s');
        TouchParent(OF_SOURCE, g.sources.live, g.modifications.live, source, s');
      }
    }
  }

  lemma DeactivateModificationKeeps(g: Graph, modification: Handle, deactivated: bool, accepted: bool)
    requires Inv(g)
    ensures Inv(DeactivateModification(g, modification, deactivated, accepted).graph)
    ensures !DeactivateModification(g, modification, deactivated, accepted).outcome.Panicked?
    ensures !DeactivateModification(g, modification, deactivated, accepted).outcome.Done? ==>
            DeactivateModification(g, modification, deactivated, accepted).graph == g
  {
    hide Linked, Kept;
    if modification in g.modifications.live {
      KeptCommitted(g.modifications, ModificationCommitted, g.liveModifications, modification);
      if DeactivateModification(g, modification, deactivated, accepted).outcome.Done? {
        var m := g.modifications.live[modification];
        var m' := m.(node := m.node.(active := !deactivated));
        PutKept(g.modifications, ModificationCommitted, g.liveModifications, modification, m');
        ParentIsCounted(OF_SOURCE, g.sources.live, g.modifications.live, modification);
        TouchKid(OF_SOURCE, g.sources.live, g.modifications.live, modification, m');
        ZeroMeansChildless(OF_MODIFICATION, g.modifications.live, g.regions.live, modification);
        TouchParent(OF_MODIFICATION, g.modifications.live, g.regions.live, modification, m');
      }
    }
  }

  // Where the source destroys a region it finds both parents, with counters above zero.
  lemma RegionIsPlaced(g: Graph, region: Handle)
    requires Inv(g) && region in g.regions.live
    ensures
      var r := g.regions.live[region];
      && r.node.value.Some? && g.liveRegions > 0
      && r.modification in g.modifications.live
      && g.modifications.live[r.modification].node.children > 0
      && r.sequence in g.sequences.live && g.sequences.live[r.sequence].node.children > 0
  {
    hide Linked, Kept;
    ParentIsCounted(OF_MODIFICATION, g.modifications.live, g.regions.live, region);
    ParentIsCounted(IN_SEQUENCE, g.sequences.live, g.regions.live, region);
    RemoveKept(g.regions, RegionCommitted, g.liveRegions, region);
  }

  // ---- Destruction: the outcome is decided by liveness and by live children alone

  lemma DestroyRegionKeeps(g: Graph, region: Handle)
    requires Inv(g)
    ensures Inv(DestroyRegion(g, region).graph)
    ensures DestroyRegion(g, region).outcome.Failed? ==> DestroyRegion(g, region).graph == g
    ensures DestroyRegion(g, region).outcome ==
            if region in g.regions.live then Done(Released(g.regions.live[region].node.value))
            else Failed(g.regions.Missing(region))
  {
    hide Linked, Kept;
    if region in g.regions.live {
      var r := g.regions.live[region];
      ParentIsCounted(OF_MODIFICATION, g.modifications.live, g.regions.live, region);
      ParentIsCounted(IN_SEQUENCE, g.sequences.live, g.regions.live, region);
      var m, s := g.modifications.live[r.modification], g.sequences.live[r.sequence];
      var m', s' := m.(node := Lower(m.node)), s.(node := Lower(s.node));
      KeptCommitted(g.modifications, ModificationCommitted, g.liveModifications, r.modification);
      KeptCommitted(g.sequences, SequenceCommitted, g.liveSequences, r.sequence);
      RemoveKept(g.regions, RegionCommitted, g.liveRegions, region);
      PutKept(g.modifications, ModificationCommitted, g.liveModifications, r.modification, m');
      PutKept(g.sequences, SequenceCommitted, g.liveSequences, r.sequence, s');
      Unlink(OF_MODIFICATION, g.modifications.live, g.regions.live, region, m');
      Unlink(IN_SEQUENCE, g.sequences.live, g.regions.live, region, s');
      ParentIsCounted(IN_CONTEXT, g.contexts.live, g.sequences.live, r.sequence);
      TouchKid(IN_CONTEXT, g.contexts.live, g.sequences.live, r.sequence, s');
      ParentIsCounted(OF_SOURCE, g.sources.live, g.modifications.live, r.modification);
      TouchKid(OF_SOURCE, g.sources.live, g.modifications.live, r.modification, m');
    }
  }

  ghost predicate HasRegion(g: Graph, modification: Handle) {
    exists r :: r in g.regions.live && g.regions.live[r].modification == modification
  }

  ghost predicate SequenceHasRegion(g: Graph, sequence: Handle) {
    exists r :: r in g.regions.live && g.regions.live[r].sequence == sequence
  }

  ghost predicate HasSequence(g: Graph, context: Handle) {
    exists s :: s in g.sequences.live && g.sequences.live[s].context == context
  }

  ghost predicate HasModification(g: Graph, source: Handle) {
    exists m :: m in g.modifications.live && g.modifications.live[m].source == source
  }

  lemma DestroyModificationKeeps(g: Graph, modification: Handle)
    requires Inv(g)
    ensures Inv(DestroyModification(g, modification).graph)
    ensures DestroyModification(g, modification).outcome.Failed? ==> DestroyModification(g, modification).graph == g
    ensures DestroyModification(g, modification).outcome ==
            if modification !in g.modifications.live then Failed(g.modifications.Missing(modification))
            else if HasRegion(g, modification) then Failed(StillOwnsChildren)
            else Done(Released(g.modifications.live[modification].node.value))
  {
    hide Linked, Kept;
    if modification in g.modifications.live {
      ZeroMeansChildless(OF_MODIFICATION, g.modifications.live, g.regions.live, modification);
      if g.modifications.live[modification].node.children == 0 {
        var m := g.modifications.live[modification];
        ParentIsCounted(OF_SOURCE, g.sources.live, g.modifications.live, modification);
        var s' := Lower(g.sources.live[m.source]);
        KeptCommitted(g.sources, SourceCommitted, g.liveSources, m.source);
        RemoveKept(g.modifications, ModificationCommitted, g.liveModifications, modification);
        PutKept(g.sources, SourceCommitted, g.liveSources, m.source, s');
        Unlink(OF_SOURCE, g.sources.live, g.modifications.live, modification, s');
        DropParent(OF_MODIFICATION, g.modifications.live, g.regions.live, modification);
      }
    }
  }

  lemma DestroySequenceKeeps(g: Graph, sequence: Handle)
    requires Inv(g)
    ensures Inv(DestroySequence(g, sequence).graph)
    ensures DestroySequence(g, sequence).outcome.Failed? ==> DestroySequence(g, sequence).graph == g
    ensures DestroySequence(g, sequence).outcome ==
            if sequence !in g.sequences.live then Failed(g.sequences.Missing(sequence))
            else if SequenceHasRegion(g, sequence) then Failed(StillOwnsChildren)
            else Done(Released(g.sequences.live[sequence].node.value))
  {
    hide Linked, Kept;
    if sequence in g.sequences.live {
      ZeroMeansChildless(IN_SEQUENCE, g.sequences.live, g.regions.live, sequence);
      if g.sequences.live[sequence].node.children == 0 {
        var s := g.sequences.live[sequence];
        ParentIsCounted(IN_CONTEXT, g.contexts.live, g.sequences.live, sequence);
        var c' := Lower(g.contexts.live[s.context]);
        KeptCommitted(g.contexts, ContextCommitted, g.liveContexts, s.context);
        RemoveKept(g.sequences, SequenceCommitted, g.liveSequences, sequence);
        PutKept(g.contexts, ContextCommitted, g.liveContexts, s.context, c');
        Unlink(IN_CONTEXT, g.contexts.live, g.sequences.live, sequence, c');
        DropParent(IN_SEQUENCE, g.sequences.live, g.regions.live, sequence);
      }
    }
  }

  lemma DestroyContextKeeps(g: Graph, context: Handle)
    requires Inv(g)
    ensures Inv(DestroyContext(g, context).graph)
    ensures DestroyContext(g, context).outcome.Failed? ==> DestroyContext(g, context).graph == g
    ensures DestroyContext(g, context).outcome ==
            if context !in g.contexts.live then Failed(g.contexts.Missing(context))
            else if HasSequence(g, context) then Failed(StillOwnsChildren)
            else Done(Released(g.contexts.live[context].value))
  {
    hide Linked, Kept;
    if context in g.contexts.live {
      ZeroMeansChildless(IN_CONTEXT, g.contexts.live, g.sequences.live, context);
      if g.contexts.live[context].children == 0 {
        RemoveKept(g.contexts, ContextCommitted, g.liveContexts, context);
        DropParent(IN_CONTEXT, g.contexts.live, g.sequences.live, context);
      }
    }
  }

  lemma DestroySourceKeeps(g: Graph, source: Handle)
    requires Inv(g)
    ensures Inv(DestroySource(g, source).graph)
    ensures DestroySource(g, source).outcome.Failed? ==> DestroySource(g, source).graph == g
    ensures DestroySource(g, source).outcome ==
            if source !in g.sources.live then Failed(g.sources.Missing(source))
            else if HasModification(g, source) then Failed(StillOwnsChildren)
            else Done(Released(g.sources.live[source].value))
  {
    hide Linked, Kept;
    if source in g.sources.live {
      ZeroMeansChildless(OF_SOURCE, g.sources.live, g.modifications.live, source);
      if g.sources.live[source].children == 0 {
        RemoveKept(g.sources, SourceCommitted, g.liveSources, source);
        DropParent(OF_SOURCE, g.sources.live, g.modifications.live, source);
      }
    }
  }
}
