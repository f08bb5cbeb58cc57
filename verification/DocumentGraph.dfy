// The ARA document graph as a value, and every operation of an edit session as a total function
// on it (ara2-bridge-plugin/src/runtime.rs, with the records of model.rs).
//
// The functions keep the source's branches in the source's order, including those that a correct
// graph never takes: a parent lookup that fails after the child is already gone, an `expect` on a
// record without application state, a counter that is decremented at zero.  The last two are the
// outcome `Panicked`.  The application delegate is the `reply` or `accepted` argument: it may
// answer anything, and it cannot touch the graph.
module DocumentGraph {
  import opened Prelude
  import opened Registries

  const V2_DRAFT: nat := 3
  const V2_FINAL: nat := 4

  // `value` is the application state: an opaque token, absent while a record is provisional.
  datatype Node = Node(value: Option<nat>, active: bool, children: nat)
  datatype SequenceNode = SequenceNode(node: Node, context: Handle)
  datatype ModificationNode = ModificationNode(node: Node, source: Handle)
  datatype RegionNode = RegionNode(node: Node, modification: Handle, sequence: Handle)

  function Provisional(): Node {
    Node(None, true, 0)
  }

  function Committed(v: nat): Node {
    Node(Some(v), true, 0)
  }

  function Raise(n: Node): Node {
    n.(children := n.children + 1)
  }

  function Lower(n: Node): Node
    requires n.children > 0
  {
    n.(children := n.children - 1)
  }

  datatype Graph = Graph(
    generation: nat,
    document: Option<nat>,
    contexts: Registry<Node>,
    sequences: Registry<SequenceNode>,
    sources: Registry<Node>,
    modifications: Registry<ModificationNode>,
    regions: Registry<RegionNode>,
    liveContexts: nat,
    liveSequences: nat,
    liveSources: nat,
    liveModifications: nat,
    liveRegions: nat,
    editing: bool)

  function NewGraph(generation: nat, session: nat, document: nat): Graph {
    Graph(generation, Some(document),
          Empty(session, DEFAULT_CAPACITY), Empty(session, DEFAULT_CAPACITY),
          Empty(session, DEFAULT_CAPACITY), Empty(session, DEFAULT_CAPACITY),
          Empty(session, DEFAULT_CAPACITY), 0, 0, 0, 0, 0, false)
  }

  // A destruction hands the object's state back to the delegate.
  datatype Answer = Accepted | Created(handle: Handle) | Released(state: Option<nat>)
  datatype Reply = Reply(graph: Graph, outcome: Outcome<Answer>)

  function Reject(g: Graph, e: Error): Reply {
    Reply(g, Failed(e))
  }

  function Crash(g: Graph): Reply {
    Reply(g, Panicked)
  }

  function Accept(g: Graph): Reply {
    Reply(g, Done(Accepted))
  }

  function Release(g: Graph, state: Option<nat>): Reply {
    Reply(g, Done(Released(state)))
  }

  // ---- Editing sessions

  function BeginEditing(g: Graph, accepted: bool): Reply {
    if g.editing then Reject(g, AlreadyEditing)
    else if g.document.None? then Reject(g, DocumentDestroyed)
    else if !accepted then Reject(g, Application)
    else Accept(g.(editing := true))
  }

  function EndEditing(g: Graph, accepted: bool): Reply {
    if !g.editing then Reject(g, NotEditing)
    else if g.document.None? then Reject(g, DocumentDestroyed)
    else if !accepted then Reject(g, Application)
    else Accept(g.(editing := false))
  }

  function UpdateDocument(g: Graph, accepted: bool): Reply {
    if g.document.None? then Reject(g, DocumentDestroyed)
    else if !accepted then Reject(g, Application)
    else Accept(g)
  }

  // ---- Creation: a provisional record is appended, and becomes a tombstone if the delegate fails

  function CreateContext(g: Graph, reply: Option<nat>): Reply {
    if g.contexts.Full() then Reject(g, CapacityExhausted)
    else match reply
      case None => Reject(g.(contexts := g.contexts.Bury()), Application)
      case Some(v) =>
        Reply(g.(contexts := g.contexts.Push(Committed(v)), liveContexts := g.liveContexts + 1),
              Done(Created(g.contexts.Next())))
  }

  function CreateSource(g: Graph, reply: Option<nat>): Reply {
    if g.sources.Full() then Reject(g, CapacityExhausted)
    else match reply
      case None => Reject(g.(sources := g.sources.Bury()), Application)
      case Some(v) =>
        Reply(g.(sources := g.sources.Push(Committed(v)), liveSources := g.liveSources + 1),
              Done(Created(g.sources.Next())))
  }

  // `named` is the musical context that the region-sequence properties refer to.
  function CreateSequence(g: Graph, context: Handle, named: Handle, reply: Option<nat>): Reply {
    if context !in g.contexts.live then Reject(g, g.contexts.Missing(context))
    else if named != context then Reject(g, WrongParent)
    else if !g.contexts.live[context].active then Reject(g, Deactivated)
    else if g.sequences.Full() then Reject(g, CapacityExhausted)
    else match reply
      case None => Reject(g.(sequences := g.sequences.Bury()), Application)
      case Some(v) =>
        Reply(g.(sequences := g.sequences.Push(SequenceNode(Committed(v), context)),
                 contexts := g.contexts.Put(context, Raise(g.contexts.live[context])),
                 liveSequences := g.liveSequences + 1),
              Done(Created(g.sequences.Next())))
  }

  function AddModification(g: Graph, source: Handle, reply: Option<nat>): Reply
    requires source in g.sources.live
  {
    match reply
    case None => Reject(g.(modifications := g.modifications.Bury()), Application)
    case Some(v) =>
      Reply(g.(modifications := g.modifications.Push(ModificationNode(Committed(v), source)),
               sources := g.sources.Put(source, Raise(g.sources.live[source])),
               liveModifications := g.liveModifications + 1),
            Done(Created(g.modifications.Next())))
  }

  function CreateModification(g: Graph, source: Handle, reply: Option<nat>): Reply {
    if source !in g.sources.live then Reject(g, g.sources.Missing(source))
    else if !g.sources.live[source].active then Reject(g, Deactivated)
    else if g.modifications.Full() then Reject(g, CapacityExhausted)
    else AddModification(g, source, reply)
  }

  function CloneModification(g: Graph, original: Handle, reply: Option<nat>): Reply {
    if original !in g.modifications.live then Reject(g, g.modifications.Missing(original)) else
    var source := g.modifications.live[original].source;
    if source !in g.sources.live then Reject(g, g.sources.Missing(source))
    else if !g.sources.live[source].active then Reject(g, Deactivated)
    else if g.modifications.Full() then Reject(g, CapacityExhausted)
    else if g.modifications.live[original].node.value.None? then
      Crash(g.(modifications := g.modifications.Push(ModificationNode(Provisional(), source))))
    else AddModification(g, source, reply)
  }

  // What the playback-region properties must name: the sequence itself since ARA 2, and before
  // that the musical context of the sequence.
  function CheckRegionParent(g: Graph, sequence: Handle, namedSequence: Option<Handle>,
                             namedContext: Option<Handle>): Option<Error>
    requires sequence in g.sequences.live
  {
    if g.generation >= V2_DRAFT then
      if namedSequence != Some(sequence) then Some(WrongParent) else None
    else
      var context := g.sequences.live[sequence].context;
      if context !in g.contexts.live then Some(g.contexts.Missing(context))
      else if namedContext != Some(context) then Some(WrongParent)
      else None
  }

  function AddRegion(g: Graph, modification: Handle, sequence: Handle, reply: Option<nat>): Reply
    requires modification in g.modifications.live && sequence in g.sequences.live
  {
    match reply
    case None => Reject(g.(regions := g.regions.Bury()), Application)
    case Some(v) =>
      var m, s := g.modifications.live[modification], g.sequences.live[sequence];
      Reply(g.(regions := g.regions.Push(RegionNode(Committed(v), modification, sequence)),
               modifications := g.modifications.Put(modification, m.(node := Raise(m.node))),
               sequences := g.sequences.Put(sequence, s.(node := Raise(s.node))),
               liveRegions := g.liveRegions + 1),
            Done(Created(g.regions.Next())))
  }

  function CreateRegion(g: Graph, modification: Handle, sequence: Handle,
                        namedSequence: Option<Handle>, namedContext: Option<Handle>,
                        reply: Option<nat>): Reply
  {
    if modification !in g.modifications.live then Reject(g, g.modifications.Missing(modification))
    else if !g.modifications.live[modification].node.active then Reject(g, Deactivated)
    else if sequence !in g.sequences.live then Reject(g, g.sequences.Missing(sequence))
    else if !g.sequences.live[sequence].node.active then Reject(g, Deactivated) else
    var wrong := CheckRegionParent(g, sequence, namedSequence, namedContext);
    if wrong.Some? then Reject(g, wrong.value)
    else if g.regions.Full() then Reject(g, CapacityExhausted)
    else AddRegion(g, modification, sequence, reply)
  }

  // ---- Updates; those of sequences and regions can move a parent edge

  function UpdateContext(g: Graph, context: Handle, accepted: bool): Reply {
    if context !in g.contexts.live then Reject(g, g.contexts.Missing(context))
    else if g.contexts.live[context].value.None? then Crash(g)
    else if !accepted then Reject(g, Application)
    else Accept(g)
  }

  function EnableSamples(g: Graph, source: Handle, accepted: bool): Reply {
    if source !in g.sources.live then Reject(g, g.sources.Missing(source))
    else if g.sources.live[source].value.None? then Crash(g)
    else if !accepted then Reject(g, Application)
    else Accept(g)
  }

  function UpdateSource(g: Graph, source: Handle, accepted: bool): Reply {
    if source !in g.sources.live then Reject(g, g.sources.Missing(source))
    else if !g.sources.live[source].active then Reject(g, Deactivated)
    else if g.sources.live[source].value.None? then Crash(g)
    else if !accepted then Reject(g, Application)
    else Accept(g)
  }

  function UpdateModification(g: Graph, modification: Handle, accepted: bool): Reply {
    if modification !in g.modifications.live then Reject(g, g.modifications.Missing(modification))
    else if !g.modifications.live[modification].node.active then Reject(g, Deactivated)
    else if g.modifications.live[modification].node.value.None? then Crash(g)
    else if !accepted then Reject(g, Application)
    else Accept(g)
  }

  function UpdateSequence(g: Graph, sequence: Handle, context: Handle, named: Handle,
                          accepted: bool): Reply
  {
    if context !in g.contexts.live then Reject(g, g.contexts.Missing(context))
    else if named != context then Reject(g, WrongParent)
    else if sequence !in g.sequences.live then Reject(g, g.sequences.Missing(sequence)) else
    var s := g.sequences.live[sequence];
    if s.node.value.None? then Crash(g)
    else if !accepted then Reject(g, Application)
    else if s.context == context then Accept(g)
    else if s.context !in g.contexts.live then Reject(g, g.contexts.Missing(s.context))
    else if g.contexts.live[s.context].children == 0 then Crash(g)
    else
      Accept(g.(contexts := g.contexts.Put(s.context, Lower(g.contexts.live[s.context]))
                                      .Put(context, Raise(g.contexts.live[context])),
                sequences := g.sequences.Put(sequence, s.(context := context))))
  }

  function UpdateRegion(g: Graph, region: Handle, sequence: Handle, namedSequence: Option<Handle>,
                        namedContext: Option<Handle>, accepted: bool): Reply
  {
    if sequence !in g.sequences.live then Reject(g, g.sequences.Missing(sequence)) else
    var wrong := CheckRegionParent(g, sequence, namedSequence, namedContext);
    if wrong.Some? then Reject(g, wrong.value)
    else if region !in g.regions.live then Reject(g, g.regions.Missing(region)) else
    var r := g.regions.live[region];
    if r.node.value.None? then Crash(g)
    else if !accepted then Reject(g, Application)
    else if r.sequence == sequence then Accept(g)
    else if r.sequence !in g.sequences.live then Reject(g, g.sequences.Missing(r.sequence))
    else if g.sequences.live[r.sequence].node.children == 0 then Crash(g)
    else
      var from, to := g.sequences.live[r.sequence], g.sequences.live[sequence];
      Accept(g.(sequences := g.sequences.Put(r.sequence, from.(node := Lower(from.node)))
                                        .Put(sequence, to.(node := Raise(to.node))),
                regions := g.regions.Put(region, r.(sequence := sequence))))
  }

  // ---- Deactivation for the undo history, and reactivation

  ghost predicate OwnsActiveModification(g: Graph, source: Handle) {
    exists m :: m in g.modifications.live && g.modifications.live[m].source == source
                && g.modifications.live[m].node.active
  }

  ghost function DeactivateSource(g: Graph, source: Handle, deactivated: bool, accepted: bool): Reply {
    if deactivated && OwnsActiveModification(g, source) then Reject(g, StillOwnsChildren)
    else if source !in g.sources.live then Reject(g, g.sources.Missing(source))
    else if g.sources.live[source].value.None? then Crash(g)
    else if !accepted then Reject(g, Application)
    else
      Accept(g.(sources := g.sources.Put(source, g.sources.live[source].(active := !deactivated))))
  }

  function DeactivateModification(g: Graph, modification: Handle, deactivated: bool,
                                  accepted: bool): Reply
  {
    if modification !in g.modifications.live then Reject(g, g.modifications.Missing(modification)) else
    var m := g.modifications.live[modification];
    if deactivated && m.node.children != 0 then Reject(g, StillOwnsChildren)
    else if !deactivated && m.source !in g.sources.live then Reject(g, g.sources.Missing(m.source))
    else if !deactivated && !g.sources.live[m.source].active then Reject(g, Deactivated)
    else if m.node.value.None? then Crash(g)
    else if !accepted then Reject(g, Application)
    else
      Accept(g.(modifications :=
        g.modifications.Put(modification, m.(node := m.node.(active := !deactivated)))))
  }

  // ---- Destruction, leaf first

  function DestroyRegion(g: Graph, region: Handle): Reply {
    if region !in g.regions.live then Reject(g, g.regions.Missing(region)) else
    var r := g.regions.live[region];
    var g1 := g.(regions := g.regions.Remove(region));
    if r.modification !in g1.modifications.live then Reject(g1, g1.modifications.Missing(r.modification))
    else if g1.modifications.live[r.modification].node.children == 0 then Crash(g1) else
    var m := g1.modifications.live[r.modification];
    var g2 := g1.(modifications := g1.modifications.Put(r.modification, m.(node := Lower(m.node))));
    if r.sequence !in g2.sequences.live then Reject(g2, g2.sequences.Missing(r.sequence))
    else if g2.sequences.live[r.sequence].node.children == 0 then Crash(g2) else
    var s := g2.sequences.live[r.sequence];
    var g3 := g2.(sequences := g2.sequences.Put(r.sequence, s.(node := Lower(s.node))));
    if r.node.value.None? || g3.liveRegions == 0 then Crash(g3)
    else Release(g3.(liveRegions := g3.liveRegions - 1), r.node.value)
  }

  function DestroyModification(g: Graph, modification: Handle): Reply {
    if modification !in g.modifications.live then Reject(g, g.modifications.Missing(modification)) else
    var m := g.modifications.live[modification];
    if m.node.children != 0 then Reject(g, StillOwnsChildren) else
    var g1 := g.(modifications := g.modifications.Remove(modification));
    if m.source !in g1.sources.live then Reject(g1, g1.sources.Missing(m.source))
    else if g1.sources.live[m.source].children == 0 then Crash(g1) else
    var g2 := g1.(sources := g1.sources.Put(m.source, Lower(g1.sources.live[m.source])));
    if m.node.value.None? || g2.liveModifications == 0 then Crash(g2)
    else Release(g2.(liveModifications := g2.liveModifications - 1), m.node.value)
  }

  function DestroySequence(g: Graph, sequence: Handle): Reply {
    if sequence !in g.sequences.live then Reject(g, g.sequences.Missing(sequence)) else
    var s := g.sequences.live[sequence];
    if s.node.children != 0 then Reject(g, StillOwnsChildren) else
    var g1 := g.(sequences := g.sequences.Remove(sequence));
    if s.context !in g1.contexts.live then Reject(g1, g1.contexts.Missing(s.context))
    else if g1.contexts.live[s.context].children == 0 then Crash(g1) else
    var g2 := g1.(contexts := g1.contexts.Put(s.context, Lower(g1.contexts.live[s.context])));
    if s.node.value.None? || g2.liveSequences == 0 then Crash(g2)
    else Release(g2.(liveSequences := g2.liveSequences - 1), s.node.value)
  }

  function DestroyContext(g: Graph, context: Handle): Reply {
    if context !in g.contexts.live then Reject(g, g.contexts.Missing(context)) else
    var c := g.contexts.live[context];
    if c.children != 0 then Reject(g, StillOwnsChildren) else
    var g1 := g.(contexts := g.contexts.Remove(context));
    if c.value.None? || g1.liveContexts == 0 then Crash(g1)
    else Release(g1.(liveContexts := g1.liveContexts - 1), c.value)
  }

  function DestroySource(g: Graph, source: Handle): Reply {
    if source !in g.sources.live then Reject(g, g.sources.Missing(source)) else
    var s := g.sources.live[source];
    if s.children != 0 then Reject(g, StillOwnsChildren) else
    var g1 := g.(sources := g.sources.Remove(source));
    if s.value.None? || g1.liveSources == 0 then Crash(g1)
    else Release(g1.(liveSources := g1.liveSources - 1), s.value)
  }

  // The guard that the controller runs before it cancels a source's analysis.
  function ValidateSourceDestruction(g: Graph, source: Handle): Option<Error> {
    if !g.editing then Some(NotEditing)
    else if source !in g.sources.live then Some(g.sources.Missing(source))
    else if g.sources.live[source].children != 0 then Some(StillOwnsChildren)
    else None
  }

  // `PluginRuntime::destroy` consumes the runtime; it refuses while any live counter is nonzero.
  function DestroyDocument(g: Graph): Outcome<nat> {
    if g.liveContexts + g.liveSequences + g.liveSources + g.liveModifications + g.liveRegions != 0
    then Failed(InvalidState)
    else if g.document.None? then Panicked
    else Done(g.document.value)
  }

  // ---- One request to the runtime, so that runs are sequences of requests

  datatype Request =
    | BeginEdit(accepted: bool)
    | EndEdit(accepted: bool)
    | EditDocument(accepted: bool)
    | MakeContext(reply: Option<nat>)
    | MakeSource(reply: Option<nat>)
    | MakeSequence(context: Handle, named: Handle, reply: Option<nat>)
    | MakeModification(source: Handle, reply: Option<nat>)
    | CopyModification(original: Handle, reply: Option<nat>)
    | MakeRegion(modification: Handle, sequence: Handle, namedSequence: Option<Handle>,
                 namedContext: Option<Handle>, reply: Option<nat>)
    | EditContext(context: Handle, accepted: bool)
    | EditSource(source: Handle, accepted: bool)
    | EnableAccess(source: Handle, accepted: bool)
    | EditModification(modification: Handle, accepted: bool)
    | EditSequence(sequence: Handle, context: Handle, named: Handle, accepted: bool)
    | EditRegion(region: Handle, sequence: Handle, namedSequence: Option<Handle>,
                 namedContext: Option<Handle>, accepted: bool)
    | SwitchSource(source: Handle, deactivated: bool, accepted: bool)
    | SwitchModification(modification: Handle, deactivated: bool, accepted: bool)
    | DropRegion(region: Handle)
    | DropModification(modification: Handle)
    | DropSequence(sequence: Handle)
    | DropContext(context: Handle)
    | DropSource(source: Handle)

  ghost function Step(g: Graph, q: Request): Reply {
    match q
    case BeginEdit(accepted) => BeginEditing(g, accepted)
    case EndEdit(accepted) => EndEditing(g, accepted)
    case EditDocument(accepted) => UpdateDocument(g, accepted)
    case MakeContext(reply) => CreateContext(g, reply)
    case MakeSource(reply) => CreateSource(g, reply)
    case MakeSequence(context, named, reply) => CreateSequence(g, context, named, reply)
    case MakeModification(source, reply) => CreateModification(g, source, reply)
    case CopyModification(original, reply) => CloneModification(g, original, reply)
    case MakeRegion(m, s, ns, nc, reply) => CreateRegion(g, m, s, ns, nc, reply)
    case EditContext(context, accepted) => UpdateContext(g, context, accepted)
    case EditSource(source, accepted) => UpdateSource(g, source, accepted)
    case EnableAccess(source, accepted) => EnableSamples(g, source, accepted)
    case EditModification(modification, accepted) => UpdateModification(g, modification, accepted)
    case EditSequence(s, context, named, accepted) => UpdateSequence(g, s, context, named, accepted)
    case EditRegion(r, s, ns, nc, accepted) => UpdateRegion(g, r, s, ns, nc, accepted)
    case SwitchSource(source, deactivated, accepted) => DeactivateSource(g, source, deactivated, accepted)
    case SwitchModification(m, deactivated, accepted) => DeactivateModification(g, m, deactivated, accepted)
    case DropRegion(region) => DestroyRegion(g, region)
    case DropModification(modification) => DestroyModification(g, modification)
    case DropSequence(sequence) => DestroySequence(g, sequence)
    case DropContext(context) => DestroyContext(g, context)
    case DropSource(source) => DestroySource(g, source)
  }

  // The graph after a run; a run stops at the first panic.
  ghost function Run(g: Graph, qs: seq<Request>): Outcome<Graph>
    decreases |qs|
  {
    if qs == [] then Done(g) else
    var r := Step(g, qs[0]);
    if r.outcome.Panicked? then Panicked else Run(r.graph, qs[1..])
  }
}
