// The runtime object that owns the document graph (ara2-bridge-plugin/src/runtime.rs), updated in
// place.  Each method is proved against the total function of `DocumentGraph` that describes it.
// Where the source would panic or take an error path on a broken graph, the method asserts that
// the graph is not broken: those assertions are what the invariant is for.
module Runtime {
  import opened Prelude
  import opened Registries
  import opened Edges
  import opened DocumentGraph
  import opened GraphInvariant
  import opened GraphTheorems

  class PluginRuntime {
    const generation: nat
    var document: Option<nat>
    var contexts: Registry<Node>
    var sequences: Registry<SequenceNode>
    var sources: Registry<Node>
    var modifications: Registry<ModificationNode>
    var regions: Registry<RegionNode>
    var liveContexts: nat
    var liveSequences: nat
    var liveSources: nat
    var liveModifications: nat
    var liveRegions: nat
    var editing: bool

    function State(): Graph
      reads this
    {
      Graph(generation, document, contexts, sequences, sources, modifications, regions,
            liveContexts, liveSequences, liveSources, liveModifications, liveRegions, editing)
    }

    ghost predicate Valid()
      reads this
    {
      Inv(State())
    }

    constructor (generation: nat, session: nat, document: nat)
      ensures Valid() && State() == NewGraph(generation, session, document)
    {
      this.generation := generation;
      this.document := Some(document);
      contexts := Empty(session, DEFAULT_CAPACITY);
      sequences := Empty(session, DEFAULT_CAPACITY);
      sources := Empty(session, DEFAULT_CAPACITY);
      modifications := Empty(session, DEFAULT_CAPACITY);
      regions := Empty(session, DEFAULT_CAPACITY);
      liveContexts, liveSequences, liveSources, liveModifications, liveRegions := 0, 0, 0, 0, 0;
      editing := false;
      new;
      NewGraphInv(generation, session, document);
    }

    // A generation before ARA 2 Final is refused on 64-bit ARM, and otherwise the delegate may refuse.
    static method Create(generation: nat, arm64: bool, reply: Option<nat>, session: nat)
      returns (r: Result<PluginRuntime>)
      ensures r.Ok? <==> (arm64 ==> generation >= V2_FINAL) && reply.Some?
      ensures r.Err? ==> r.error == if arm64 && generation < V2_FINAL then Unsupported else Application
      ensures r.Ok? ==>
                && fresh(r.value) && r.value.Valid() && reply.Some?
                && r.value.State() == NewGraph(generation, session, reply.value)
    {
      if arm64 && generation < V2_FINAL { return Err(Unsupported); }
      if reply.None? { return Err(Application); }
      var runtime := new PluginRuntime(generation, session, reply.value);
      return Ok(runtime);
    }

    // ---- Editing sessions

    method BeginEditing(accepted: bool) returns (r: Outcome<Answer>)
      requires Valid()
      modifies this
      ensures Valid()
      ensures Reply(State(), r) == DocumentGraph.BeginEditing(old(State()), accepted)
    {
      hide Linked, Kept;
      EditingKeeps(State(), accepted);
      if editing { return Failed(AlreadyEditing); }
      if document.None? { return Failed(DocumentDestroyed); }
      if !accepted { return Failed(Application); }
      editing := true;
      return Done(Accepted);
    }

    method EndEditing(accepted: bool) returns (r: Outcome<Answer>)
      requires Valid()
      modifies this
      ensures Valid()
      ensures Reply(State(), r) == DocumentGraph.EndEditing(old(State()), accepted)
    {
      hide Linked, Kept;
      EditingKeeps(State(), accepted);
      if !editing { return Failed(NotEditing); }
      if document.None? { return Failed(DocumentDestroyed); }
      if !accepted { return Failed(Application); }
      editing := false;
      return Done(Accepted);
    }

    // Finishing a session that owns the editing state.  When the delegate refuses to end editing,
    // the error is returned and dropping the session asks it once more; if it refuses again the
    // runtime stays in the editing state.
    method FinishSession(accepted: bool, acceptedOnDrop: bool) returns (r: Outcome<Answer>)
      requires Valid() && editing && document.Some?
      modifies this
      ensures Valid()
      ensures r == if accepted then Done(Accepted) else Failed(Application)
      ensures State() == old(State()).(editing := !accepted && !acceptedOnDrop)
    {
      r := EndEditing(accepted);
      if r.Failed? {
        var ignored := EndEditing(acceptedOnDrop);
      }
    }

    // ---- Creation

    method CreateContext(reply: Option<nat>) returns (r: Outcome<Answer>)
      requires Valid()
      modifies this
      ensures Valid()
      ensures Reply(State(), r) == DocumentGraph.CreateContext(old(State()), reply)
    {
      hide Inv;
      CreateContextKeeps(State(), reply);
      if contexts.Full() { return Failed(CapacityExhausted); }
      NextIsUnused(State());
      var handle := contexts.Next();
      PushThenRemove(contexts, Provisional());
      contexts := contexts.Push(Provisional());
      match reply
      case Some(v) =>
        PushThenPut(old(contexts), Provisional(), Committed(v));
        contexts := contexts.Put(handle, Committed(v));
        liveContexts := liveContexts + 1;
        return Done(Created(handle));
      case None =>
        contexts := contexts.Remove(handle);
        return Failed(Application);
    }

    method CreateSource(reply: Option<nat>) returns (r: Outcome<Answer>)
      requires Valid()
      modifies this
      ensures Valid()
      ensures Reply(State(), r) == DocumentGraph.CreateSource(old(State()), reply)
    {
      hide Inv;
      CreateSourceKeeps(State(), reply);
      if sources.Full() { return Failed(CapacityExhausted); }
      NextIsUnused(State());
      var handle := sources.Next();
      PushThenRemove(sources, Provisional());
      sources := sources.Push(Provisional());
      match reply
      case Some(v) =>
        PushThenPut(old(sources), Provisional(), Committed(v));
        sources := sources.Put(handle, Committed(v));
        liveSources := liveSources + 1;
        return Done(Created(handle));
      case None =>
        sources := sources.Remove(handle);
        return Failed(Application);
    }

    method CreateSequence(context: Handle, named: Handle, reply: Option<nat>)
      returns (r: Outcome<Answer>)
      requires Valid()
      modifies this
      ensures Valid()
      ensures Reply(State(), r) == DocumentGraph.CreateSequence(old(State()), context, named, reply)
    {
      hide Inv;
      CreateSequenceKeeps(State(), context, named, reply);
      if context !in contexts.live { return Failed(contexts.Missing(context)); }
      if named != context { return Failed(WrongParent); }
      if !contexts.live[context].active { return Failed(Deactivated); }
      if sequences.Full() { return Failed(CapacityExhausted); }
      NextIsUnused(State());
      var handle := sequences.Next();
      PushThenRemove(sequences, SequenceNode(Provisional(), context));
      sequences := sequences.Push(SequenceNode(Provisional(), context));
      match reply
      case Some(v) =>
        PushThenPut(old(sequences), SequenceNode(Provisional(), context), SequenceNode(Committed(v), context));
        sequences := sequences.Put(handle, SequenceNode(Committed(v), context));
        contexts := contexts.Put(context, Raise(contexts.live[context]));
        liveSequences := liveSequences + 1;
        return Done(Created(handle));
      case None =>
        sequences := sequences.Remove(handle);
        return Failed(Application);
    }

    // The common tail of creating and cloning: a provisional record, committed or rolled back.
    method AddModification(source: Handle, reply: Option<nat>) returns (r: Outcome<Answer>)
      requires Valid() && source in sources.live && sources.live[source].active
      requires !modifications.Full()
      modifies this
      ensures Valid()
      ensures Reply(State(), r) == DocumentGraph.AddModification(old(State()), source, reply)
    {
      hide Inv;
      AddModificationKeeps(State(), source, reply);
      NextIsUnused(State());
      var handle := modifications.Next();
      PushThenRemove(modifications, ModificationNode(Provisional(), source));
      modifications := modifications.Push(ModificationNode(Provisional(), source));
      match reply
      case Some(v) =>
        PushThenPut(old(modifications), ModificationNode(Provisional(), source), ModificationNode(Committed(v),
          source));
        modifications := modifications.Put(handle, ModificationNode(Committed(v), source));
        sources := sources.Put(source, Raise(sources.live[source]));
        liveModifications := liveModifications + 1;
        return Done(Created(handle));
      case None =>
        modifications := modifications.Remove(handle);
        return Failed(Application);
    }

    method CreateModification(source: Handle, reply: Option<nat>) returns (r: Outcome<Answer>)
      requires Valid()
      modifies this
      ensures Valid()
      ensures Reply(State(), r) == DocumentGraph.CreateModification(old(State()), source, reply)
    {
      hide Linked, Kept;
      if source !in sources.live { return Failed(sources.Missing(source)); }
      if !sources.live[source].active { return Failed(Deactivated); }
      if modifications.Full() { return Failed(CapacityExhausted); }
      r := AddModification(source, reply);
    }

    method CloneModification(original: Handle, reply: Option<nat>) returns (r: Outcome<Answer>)
      requires Valid()
      modifies this
      ensures Valid()
      ensures Reply(State(), r) == DocumentGraph.CloneModification(old(State()), original, reply)
    {
      hide Linked, Kept;
      if original !in modifications.live { return Failed(modifications.Missing(original)); }
      KeptCommitted(modifications, ModificationCommitted, liveModifications, original);
      ParentIsCounted(OF_SOURCE, sources.live, modifications.live, original);
      var source := modifications.live[original].source;
      assert source in sources.live;
      if !sources.live[source].active { return Failed(Deactivated); }
      if modifications.Full() { return Failed(CapacityExhausted); }
      assert modifications.live[original].node.value.Some?;
      r := AddModification(source, reply);
    }

    method AddRegion(modification: Handle, sequence: Handle, reply: Option<nat>)
      returns (r: Outcome<Answer>)
      requires Valid() && !regions.Full()
      requires modification in modifications.live && modifications.live[modification].node.active
      requires sequence in sequences.live
      modifies this
      ensures Valid()
      ensures Reply(State(), r) == DocumentGraph.AddRegion(old(State()), modification, sequence, reply)
    {
      hide Inv;
      AddRegionKeeps(State(), modification, sequence, reply);
      NextIsUnused(State());
      var handle := regions.Next();
      PushThenRemove(regions, RegionNode(Provisional(), modification, sequence));
      regions := regions.Push(RegionNode(Provisional(), modification, sequence));
      match reply
      case Some(v) =>
        PushThenPut(old(regions), RegionNode(Provisional(), modification, sequence),
                    RegionNode(Committed(v), modification, sequence));
        regions := regions.Put(handle, RegionNode(Committed(v), modification, sequence));
        var m := modifications.live[modification];
        modifications := modifications.Put(modification, m.(node := Raise(m.node)));
        var s := sequences.live[sequence];
        sequences := sequences.Put(sequence, s.(node := Raise(s.node)));
        liveRegions := liveRegions + 1;
        return Done(Created(handle));
      case None =>
        regions := regions.Remove(handle);
        return Failed(Application);
    }

    method CreateRegion(modification: Handle, sequence: Handle, namedSequence: Option<Handle>,
                        namedContext: Option<Handle>, reply: Option<nat>) returns (r: Outcome<Answer>)
      requires Valid()
      modifies this
      ensures Valid()
      ensures Reply(State(), r) == DocumentGraph.CreateRegion(old(State()), modification, sequence,
                                                              namedSequence, namedContext, reply)
    {
      hide Linked, Kept;
      if modification !in modifications.live { return Failed(modifications.Missing(modification)); }
      if !modifications.live[modification].node.active { return Failed(Deactivated); }
      if sequence !in sequences.live { return Failed(sequences.Missing(sequence)); }
      if !sequences.live[sequence].node.active { return Failed(Deactivated); }
      var wrong := CheckRegionParent(State(), sequence, namedSequence, namedContext);
      if wrong.Some? { return Failed(wrong.value); }
      if regions.Full() { return Failed(CapacityExhausted); }
      r := AddRegion(modification, sequence, reply);
    }

    // ---- Updates

    method UpdateDocument(accepted: bool) returns (r: Outcome<Answer>)
      ensures Reply(State(), r) == DocumentGraph.UpdateDocument(State(), accepted)
    {
      if document.None? { return Failed(DocumentDestroyed); }
      return if accepted then Done(Accepted) else Failed(Application);
    }

    method UpdateContext(context: Handle, accepted: bool) returns (r: Outcome<Answer>)
      requires Valid()
      ensures Reply(State(), r) == DocumentGraph.UpdateContext(State(), context, accepted)
    {
      hide Linked, Kept;
      if context !in contexts.live { return Failed(contexts.Missing(context)); }
      KeptCommitted(contexts, ContextCommitted, liveContexts, context);
      assert contexts.live[context].value.Some?;
      return if accepted then Done(Accepted) else Failed(Application);
    }

    // Property and content updates share this guard.
    method UpdateSource(source: Handle, accepted: bool) returns (r: Outcome<Answer>)
      requires Valid()
      ensures Reply(State(), r) == DocumentGraph.UpdateSource(State(), source, accepted)
    {
      hide Linked, Kept;
      if source !in sources.live { return Failed(sources.Missing(source)); }
      if !sources.live[source].active { return Failed(Deactivated); }
      KeptCommitted(sources, SourceCommitted, liveSources, source);
      assert sources.live[source].value.Some?;
      return if accepted then Done(Accepted) else Failed(Application);
    }

    method EnableSamples(source: Handle, accepted: bool) returns (r: Outcome<Answer>)
      requires Valid()
      ensures Reply(State(), r) == DocumentGraph.EnableSamples(State(), source, accepted)
    {
      hide Linked, Kept;
      if source !in sources.live { return Failed(sources.Missing(source)); }
      KeptCommitted(sources, SourceCommitted, liveSources, source);
      assert sources.live[source].value.Some?;
      return if accepted then Done(Accepted) else Failed(Application);
    }

    method UpdateModification(modification: Handle, accepted: bool) returns (r: Outcome<Answer>)
      requires Valid()
      ensures Reply(State(), r) == DocumentGraph.UpdateModification(State(), modification, accepted)
    {
      hide Linked, Kept;
      if modification !in modifications.live { return Failed(modifications.Missing(modification)); }
      if !modifications.live[modification].node.active { return Failed(Deactivated); }
      KeptCommitted(modifications, ModificationCommitted, liveModifications, modification);
      assert modifications.live[modification].node.value.Some?;
      return if accepted then Done(Accepted) else Failed(Application);
    }

    method UpdateSequence(sequence: Handle, context: Handle, named: Handle, accepted: bool)
      returns (r: Outcome<Answer>)
      requires Valid()
      modifies this
      ensures Valid()
      ensures Reply(State(), r) ==
              DocumentGraph.UpdateSequence(old(State()), sequence, context, named, accepted)
    {
      hide Linked, Kept;
      UpdateSequenceKeeps(State(), sequence, context, named, accepted);
      if context !in contexts.live { return Failed(contexts.Missing(context)); }
      if named != context { return Failed(WrongParent); }
      if sequence !in sequences.live { return Failed(sequences.Missing(sequence)); }
      KeptCommitted(sequences, SequenceCommitted, liveSequences, sequence);
      ParentIsCounted(IN_CONTEXT, contexts.live, sequences.live, sequence);
      var previous := sequences.live[sequence].context;
      assert sequences.live[sequence].node.value.Some?;
      if !accepted { return Failed(Application); }
      if previous != context {
        assert previous in contexts.live && contexts.live[previous].children > 0;
        contexts := contexts.Put(previous, Lower(contexts.live[previous]));
        contexts := contexts.Put(context, Raise(contexts.live[context]));
        sequences := sequences.Put(sequence, sequences.live[sequence].(context := context));
      }
      return Done(Accepted);
    }

    method UpdateRegion(region: Handle, sequence: Handle, namedSequence: Option<Handle>,
                        namedContext: Option<Handle>, accepted: bool) returns (r: Outcome<Answer>)
      requires Valid()
      modifies this
      ensures Valid()
      ensures Reply(State(), r) == DocumentGraph.UpdateRegion(old(State()), region, sequence,
                                                              namedSequence, namedContext, accepted)
    {
      hide Linked, Kept;
      UpdateRegionKeeps(State(), region, sequence, namedSequence, namedContext, accepted);
      if sequence !in sequences.live { return Failed(sequences.Missing(sequence)); }
      var wrong := CheckRegionParent(State(), sequence, namedSequence, namedContext);
      if wrong.Some? { return Failed(wrong.value); }
      if region !in regions.live { return Failed(regions.Missing(region)); }
      KeptCommitted(regions, RegionCommitted, liveRegions, region);
      ParentIsCounted(IN_SEQUENCE, sequences.live, regions.live, region);
      var previous := regions.live[region].sequence;
      assert regions.live[region].node.value.Some?;
      if !accepted { return Failed(Application); }
      if previous != sequence {
        assert previous in sequences.live && sequences.live[previous].node.children > 0;
        var from := sequences.live[previous];
        sequences := sequences.Put(previous, from.(node := Lower(from.node)));
        var to := sequences.live[sequence];
        sequences := sequences.Put(sequence, to.(node := Raise(to.node)));
        regions := regions.Put(region, regions.live[region].(sequence := sequence));
      }
      return Done(Accepted);
    }

    // ---- Activation

    // Whether some live active modification names `source`: a scan of all cells.
    method AnyActiveModification(source: Handle) returns (found: bool)
      requires Valid()
      ensures found <==> OwnsActiveModification(State(), source)
    {
      hide Linked, Kept;
      KeptBounds(modifications, ModificationCommitted, liveModifications);
      for i := 0 to modifications.count
        invariant forall m :: m in modifications.live && m.index <= i ==>
          modifications.live[m].source != source || !modifications.live[m].node.active
      {
        var m := Handle(i + 1, modifications.session);
        if m in modifications.live && modifications.live[m].source == source
           && modifications.live[m].node.active
        {
          return true;
        }
      }
      return false;
    }

    method DeactivateSource(source: Handle, deactivated: bool, accepted: bool)
      returns (r: Outcome<Answer>)
      requires Valid()
      modifies this
      ensures Valid()
      ensures Reply(State(), r) ==
              DocumentGraph.DeactivateSource(old(State()), source, deactivated, accepted)
    {
      hide Linked, Kept;
      DeactivateSourceKeeps(State(), source, deactivated, accepted);
      if deactivated {
        var owns := AnyActiveModification(source);
        if owns { return Failed(StillOwnsChildren); }
      }
      if source !in sources.live { return Failed(sources.Missing(source)); }
      KeptCommitted(sources, SourceCommitted, liveSources, source);
      assert sources.live[source].value.Some?;
      if !accepted { return Failed(Application); }
      sources := sources.Put(source, sources.live[source].(active := !deactivated));
      return Done(Accepted);
    }

    method DeactivateModification(modification: Handle, deactivated: bool, accepted: bool)
      returns (r: Outcome<Answer>)
      requires Valid()
      modifies this
      ensures Valid()
      ensures Reply(State(), r) ==
              DocumentGraph.DeactivateModification(old(State()), modification, deactivated, accepted)
    {
      hide Linked, Kept;
      DeactivateModificationKeeps(State(), modification, deactivated, accepted);
      if modification !in modifications.live { return Failed(modifications.Missing(modification)); }
      var m := modifications.live[modification];
      KeptCommitted(modifications, ModificationCommitted, liveModifications, modification);
      ParentIsCounted(OF_SOURCE, sources.live, modifications.live, modification);
      if deactivated && m.node.children != 0 { return Failed(StillOwnsChildren); }
      assert m.source in sources.live;
      if !deactivated && !sources.live[m.source].active { return Failed(Deactivated); }
      assert m.node.value.Some?;
      if !accepted { return Failed(Application); }
      modifications := modifications.Put(modification, m.(node := m.node.(active := !deactivated)));
      return Done(Accepted);
    }

    // ---- Destruction

    method DestroyRegion(region: Handle) returns (r: Outcome<Answer>)
      requires Valid()
      modifies this
      ensures Valid()
      ensures Reply(State(), r) == DocumentGraph.DestroyRegion(old(State()), region)
    {
      hide Inv;
      DestroyRegionKeeps(State(), region);
      if region !in regions.live { return Failed(regions.Missing(region)); }
      RegionIsPlaced(State(), region);
      var removed := regions.live[region];
      regions := regions.Remove(region);
      assert removed.modification in modifications.live;
      var m := modifications.live[removed.modification];
      modifications := modifications.Put(removed.modification, m.(node := Lower(m.node)));
      assert removed.sequence in sequences.live;
      var s := sequences.live[removed.sequence];
      sequences := sequences.Put(removed.sequence, s.(node := Lower(s.node)));
      assert removed.node.value.Some?;
      liveRegions := liveRegions - 1;
      return Done(Released(removed.node.value));
    }

    method DestroyModification(modification: Handle) returns (r: Outcome<Answer>)
      requires Valid()
      modifies this
      ensures Valid()
      ensures Reply(State(), r) == DocumentGraph.DestroyModification(old(State()), modification)
    {
      hide Linked, Kept;
      DestroyModificationKeeps(State(), modification);
      if modification !in modifications.live { return Failed(modifications.Missing(modification)); }
      if modifications.live[modification].node.children != 0 { return Failed(StillOwnsChildren); }
      ParentIsCounted(OF_SOURCE, sources.live, modifications.live, modification);
      RemoveKept(modifications, ModificationCommitted, liveModifications, modification);
      var removed := modifications.live[modification];
      modifications := modifications.Remove(modification);
      assert removed.source in sources.live;
      sources := sources.Put(removed.source, Lower(sources.live[removed.source]));
      assert removed.node.value.Some?;
      liveModifications := liveModifications - 1;
      return Done(Released(removed.node.value));
    }

    method DestroySequence(sequence: Handle) returns (r: Outcome<Answer>)
      requires Valid()
      modifies this
      ensures Valid()
      ensures Reply(State(), r) == DocumentGraph.DestroySequence(old(State()), sequence)
    {
      hide Linked, Kept;
      DestroySequenceKeeps(State(), sequence);
      if sequence !in sequences.live { return Failed(sequences.Missing(sequence)); }
      if sequences.live[sequence].node.children != 0 { return Failed(StillOwnsChildren); }
      ParentIsCounted(IN_CONTEXT, contexts.live, sequences.live, sequence);
      RemoveKept(sequences, SequenceCommitted, liveSequences, sequence);
      var removed := sequences.live[sequence];
      sequences := sequences.Remove(sequence);
      assert removed.context in contexts.live;
      contexts := contexts.Put(removed.context, Lower(contexts.live[removed.context]));
      assert removed.node.value.Some?;
      liveSequences := liveSequences - 1;
      return Done(Released(removed.node.value));
    }

    method DestroyContext(context: Handle) returns (r: Outcome<Answer>)
      requires Valid()
      modifies this
      ensures Valid()
      ensures Reply(State(), r) == DocumentGraph.DestroyContext(old(State()), context)
    {
      hide Linked, Kept;
      DestroyContextKeeps(State(), context);
      if context !in contexts.live { return Failed(contexts.Missing(context)); }
      if contexts.live[context].children != 0 { return Failed(StillOwnsChildren); }
      RemoveKept(contexts, ContextCommitted, liveContexts, context);
      var removed := contexts.live[context];
      contexts := contexts.Remove(context);
      assert removed.value.Some?;
      liveContexts := liveContexts - 1;
      return Done(Released(removed.value));
    }

    method DestroySource(source: Handle) returns (r: Outcome<Answer>)
      requires Valid()
      modifies this
      ensures Valid()
      ensures Reply(State(), r) == DocumentGraph.DestroySource(old(State()), source)
    {
      hide Linked, Kept;
      DestroySourceKeeps(State(), source);
      if source !in sources.live { return Failed(sources.Missing(source)); }
      if sources.live[source].children != 0 { return Failed(StillOwnsChildren); }
      RemoveKept(sources, SourceCommitted, liveSources, source);
      var removed := sources.live[source];
      sources := sources.Remove(source);
      assert removed.value.Some?;
      liveSources := liveSources - 1;
      return Done(Released(removed.value));
    }

    // Consumes the runtime: on success the document state is gone, on failure nothing changed.
    method Destroy() returns (r: Outcome<nat>)
      requires Valid()
      modifies this`document
      ensures r == DestroyDocument(old(State()))
      ensures r.Done? <==> old(Total(State())) == 0
      ensures document == if r.Done? then None else old(document)
    {
      hide Linked;
      DestroyDocumentExact(State());
      if liveContexts + liveSequences + liveSources + liveModifications + liveRegions != 0 {
        return Failed(InvalidState);
      }
      assert document.Some?;
      r := Done(document.value);
      document := None;
    }
  }
}
