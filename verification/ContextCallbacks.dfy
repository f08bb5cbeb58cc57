// What creating and destroying a musical context does to the document, in every state and for every
// generation: the two callbacks that are more than one request to the runtime.
module ContextCallbacks {
  import opened Prelude
  import opened Registries
  import opened DocumentGraph
  import opened GraphInvariant
  import opened GraphOutline
  import opened ApplicationStates
  import opened Controllers
  import opened ControllerInvariant
  import opened SyntheticSequences
  import opened TornContexts

  // The document as the application knows it: its outline, and the states that its objects carry.
  datatype View = View(outline: Outline, states: States)

  ghost function ViewOf(g: Graph): View {
    View(OutlineOf(g), StatesOf(g))
  }

  ghost function WithContext(v: View, h: Handle, state: Value): View {
    View(v.outline.(contexts := v.outline.contexts[h := ()]), v.states.(contexts := v.states.contexts[h := state]))
  }

  ghost function WithSequence(v: View, s: Handle, context: Handle, state: Value): View {
    View(v.outline.(sequences := v.outline.sequences[s := context]),
         v.states.(sequences := v.states.sequences[s := state]))
  }

  ghost function WithoutContext(v: View, h: Handle): View {
    View(v.outline.(contexts := v.outline.contexts - {h}), v.states.(contexts := v.states.contexts - {h}))
  }

  ghost function WithoutSequence(v: View, s: Handle): View {
    View(v.outline.(sequences := v.outline.sequences - {s}), v.states.(sequences := v.states.sequences - {s}))
  }

  // ---- The requests that the two callbacks are made of

  lemma MakeContextView(g: Graph, reply: Option<nat>)
    requires Inv(g)
    ensures
      var r := Step(g, MakeContext(reply));
      && Inv(r.graph) && r.graph.sequences == g.sequences
      && (r.outcome.Done? <==> reply.Some? && !g.contexts.Full())
      && if r.outcome.Done? then
           var h := HandleOf(r.outcome.value);
           h !in OutlineOf(g).contexts && ViewOf(r.graph) == WithContext(ViewOf(g), h, reply)
         else ViewOf(r.graph) == ViewOf(g)
  {
    hide Inv, Step, OutlineOf, StatesOf;
    StepOutline(g, MakeContext(reply));
    StepRefines(g, MakeContext(reply));
    StepStates(g, MakeContext(reply));
    SequencesApart(g, reply);
    if Step(g, MakeContext(reply)).outcome.Done? {
      NewcomerIsBare(g, reply);
    }
  }

  lemma SequencesApart(g: Graph, reply: Option<nat>)
    ensures Step(g, MakeContext(reply)).graph.sequences == g.sequences
  {
  }

  lemma MakeSequenceView(g: Graph, h: Handle, reply: Option<nat>)
    requires Inv(g) && h in OutlineOf(g).contexts
    ensures
      var r := Step(g, MakeSequence(h, h, reply));
      && Inv(r.graph)
      && (r.outcome.Done? <==> reply.Some? && !g.sequences.Full())
      && if r.outcome.Done? then
           var s := HandleOf(r.outcome.value);
           s !in OutlineOf(g).sequences && ViewOf(r.graph) == WithSequence(ViewOf(g), s, h, reply)
         else ViewOf(r.graph) == ViewOf(g)
  {
    hide Inv, Step, OutlineOf, StatesOf;
    var q := MakeSequence(h, h, reply);
    StepOutline(g, q);
    StepRefines(g, q);
    StepStates(g, q);
    if Step(g, q).outcome.Done? {
      NewSequence(g, q);
    }
  }

  lemma DropContextView(g: Graph, h: Handle)
    requires Inv(g)
    ensures
      var r := Step(g, DropContext(h));
      && Inv(r.graph)
      && (r.outcome.Done? <==> h in OutlineOf(g).contexts && NoSequenceIn(OutlineOf(g), h))
      && ViewOf(r.graph) == if r.outcome.Done? then WithoutContext(ViewOf(g), h) else ViewOf(g)
  {
    hide Inv, Step, OutlineOf, StatesOf, NoSequenceIn;
    DropContextOutline(g, h);
    StepStates(g, DropContext(h));
  }

  lemma DropSequenceView(g: Graph, s: Handle)
    requires Inv(g)
    ensures
      var r := Step(g, DropSequence(s));
      && Inv(r.graph)
      && (r.outcome.Done? <==> s in OutlineOf(g).sequences && NoRegionIn(OutlineOf(g), s))
      && ViewOf(r.graph) == if r.outcome.Done? then WithoutSequence(ViewOf(g), s) else ViewOf(g)
  {
    hide Inv, Step, OutlineOf, StatesOf, NoRegionIn;
    DropSequenceOutline(g, s);
    StepStates(g, DropSequence(s));
  }

  // States and outline have the same objects.
  lemma SameContexts(g: Graph)
    ensures StatesOf(g).contexts.Keys == OutlineOf(g).contexts.Keys == g.contexts.live.Keys
  {
  }

  // ---- Creation

  // Whether the callback can make what it must: a context, and before ARA 2 its sequence with it.
  predicate ContextGranted(c: Controller, host: Option<HostRef>, reply: Option<nat>, sequenceReply: Option<nat>)
    requires c.graph.Some?
  {
    var g := c.graph.value;
    && host.Some? && c.readers == {} && g.editing && reply.Some? && !g.contexts.Full()
    && (g.generation < V2_DRAFT ==> sequenceReply.Some? && !g.sequences.Full())
  }

  // A new context, and before ARA 2 a new sequence in it that the controller remembers as its synthetic one.
  ghost predicate ContextMade(c: Controller, t: Turn, reply: Option<nat>, sequenceReply: Option<nat>) {
    match t
    case Turn(now, _, _, answer) =>
      && c.graph.Some? && now.graph.Some? && answer.Reference? && answer.handle.Some?
      && var h, v := answer.handle.value, ViewOf(c.graph.value);
         && h !in v.outline.contexts
         && if c.graph.value.generation >= V2_DRAFT then
              ViewOf(now.graph.value) == WithContext(v, h, reply) && now.synthetic == c.synthetic
            else
              && h in now.synthetic && now.synthetic == c.synthetic[h := now.synthetic[h]]
              && now.synthetic[h] !in v.outline.sequences
              && ViewOf(now.graph.value) == WithSequence(WithContext(v, h, reply), now.synthetic[h], h, sequenceReply)
  }

  ghost predicate NothingMade(c: Controller, t: Turn) {
    match t
    case Turn(now, _, _, answer) =>
      && answer == Reference(None) && now.synthetic == c.synthetic
      && now.graph.Some? == c.graph.Some? && (c.graph.Some? ==> ViewOf(now.graph.value) == ViewOf(c.graph.value))
  }

  // Creating a context succeeds exactly if it is granted, with all that belongs to it, and otherwise
  // leaves the document as it was.
  lemma ContextIsMadeExactly(c: Controller, host: Option<HostRef>, reply: Option<nat>, sequenceReply: Option<nat>)
    requires Tidy(c) && c.graph.Some?
    ensures
      var t := Act(c, CreateContext(host, reply, sequenceReply));
      if ContextGranted(c, host, reply, sequenceReply) then ContextMade(c, t, reply, sequenceReply)
      else NothingMade(c, t)
  {
    hide Inv, Tidy, Step, OutlineOf, StatesOf, CreateContextTurn, Act, ContextMade, NothingMade, ViewOf;
    var cb := CreateContext(host, reply, sequenceReply);
    ContextActs(c, cb);
    CreationSteps(c, host, reply, sequenceReply);
    CreationAnswers(c, host, reply, sequenceReply);
    TidyGraph(c);
    MakeContextView(c.graph.value, reply);
    var g := c.graph.value;
    var r := Step(g, MakeContext(reply));
    if host.None? || !Editable(c) || !r.outcome.Done? {
      MadeNothing(c, Act(c, cb));
    } else if g.generation >= V2_DRAFT {
      MadeContextAlone(c, Act(c, cb), reply, sequenceReply);
    } else {
      MadeInTwoSteps(c, Act(c, cb), reply, sequenceReply);
    }
  }

  // What the callback answers.
  lemma CreationAnswers(c: Controller, host: Option<HostRef>, reply: Option<nat>, sequenceReply: Option<nat>)
    ensures
      var answer := CreateContextTurn(c, host, reply, sequenceReply).answer;
      if host.None? || !Editable(c) then answer == Reference(None) else
      var r := Step(c.graph.value, MakeContext(reply));
      if !r.outcome.Done? then answer == Reference(None) else
      var h := HandleOf(r.outcome.value);
      if c.graph.value.generation >= V2_DRAFT
         || Step(r.graph, MakeSequence(h, h, sequenceReply)).outcome.Done?
      then answer == Reference(Some(h)) else answer == Reference(None)
  {
    hide Step, LeavesJobs, RespectsReaders;
  }

  lemma MadeNothing(c: Controller, t: Turn)
    requires c.graph.Some? && t.now.graph.Some? && t.answer == Reference(None) && t.now.synthetic == c.synthetic
    requires ViewOf(t.now.graph.value) == ViewOf(c.graph.value)
    ensures NothingMade(c, t)
  {
    hide ViewOf;
  }

  lemma MadeContextAlone(c: Controller, t: Turn, reply: Option<nat>, sequenceReply: Option<nat>)
    requires c.graph.Some? && Inv(c.graph.value) && c.graph.value.generation >= V2_DRAFT
    requires
      var r := Step(c.graph.value, MakeContext(reply));
      && r.outcome.Done? && t.now.graph == Some(r.graph) && t.now.synthetic == c.synthetic
      && t.answer == Reference(Some(HandleOf(r.outcome.value)))
    ensures ContextMade(c, t, reply, sequenceReply)
  {
    hide Inv, Step, OutlineOf, StatesOf;
    MakeContextView(c.graph.value, reply);
  }

  lemma MadeInTwoSteps(c: Controller, t: Turn, reply: Option<nat>, sequenceReply: Option<nat>)
    requires c.graph.Some? && Inv(c.graph.value) && c.graph.value.generation < V2_DRAFT
    requires
      var r := Step(c.graph.value, MakeContext(reply));
      && r.outcome.Done?
      && var h := HandleOf(r.outcome.value);
         var s := Step(r.graph, MakeSequence(h, h, sequenceReply));
         if s.outcome.Done? then
           && t.now.graph == Some(s.graph) && t.now.synthetic == c.synthetic[h := HandleOf(s.outcome.value)]
           && t.answer == Reference(Some(h))
         else
           && t.now.graph == Some(Step(s.graph, DropContext(h)).graph) && t.now.synthetic == c.synthetic
           && t.answer == Reference(None)
    ensures
      if sequenceReply.Some? && !c.graph.value.sequences.Full() then ContextMade(c, t, reply, sequenceReply)
      else NothingMade(c, t)
  {
    hide Inv, Step, OutlineOf, StatesOf, NoSequenceIn;
    var g := c.graph.value;
    var r := Step(g, MakeContext(reply));
    var h := HandleOf(r.outcome.value);
    MakeContextView(g, reply);
    MakeSequenceView(r.graph, h, sequenceReply);
    var s := Step(r.graph, MakeSequence(h, h, sequenceReply));
    if !s.outcome.Done? {
      NewcomerIsBare(g, reply);
      DropContextView(s.graph, h);
      SameContexts(g);
      var v := ViewOf(g);
      assert v.outline.contexts[h := ()] - {h} == v.outline.contexts;
      assert v.states.contexts[h := reply] - {h} == v.states.contexts;
    }
  }

  // ---- Destruction

  // What is left of the document: the synthetic sequence goes first, if it can, and then the context, if
  // no other sequence is in it.
  ghost function ViewLeft(c: Controller, context: Handle): View
    requires c.graph.Some?
  {
    var v := ViewOf(c.graph.value);
    if c.readers != {} || !c.graph.value.editing || context !in v.outline.contexts then v
    else if context !in c.synthetic then
      if NoSequenceIn(v.outline, context) then WithoutContext(v, context) else v
    else if c.synthetic[context] !in v.outline.sequences || !NoRegionIn(v.outline, c.synthetic[context]) then v
    else
      var w := WithoutSequence(v, c.synthetic[context]);
      if NoSequenceIn(w.outline, context) then WithoutContext(w, context) else w
  }

  lemma ContextGoesExactly(c: Controller, context: Handle)
    requires Tidy(c) && c.graph.Some?
    ensures
      var now := Act(c, DestroyContext(context)).now;
      && now.graph.Some? && ViewOf(now.graph.value) == ViewLeft(c, context)
      && now.synthetic == (if context in ViewOf(c.graph.value).outline.contexts
                              && context !in ViewLeft(c, context).outline.contexts
                           then c.synthetic - {context} else c.synthetic)
  {
    hide Inv, Tidy, Step, OutlineOf, StatesOf, DestroyContextTurn, Act, NoSequenceIn, NoRegionIn;
    ContextActs(c, DestroyContext(context));
    TidyGraph(c);
    var g := c.graph.value;
    SameContexts(g);
    if context in c.synthetic {
      PairGoes(c, context);
    } else {
      DestructionStep(c, context);
      DropContextView(g, context);
      assert c.synthetic - {context} == c.synthetic;
    }
  }

  lemma PairGoes(c: Controller, context: Handle)
    requires c.graph.Some? && Inv(c.graph.value) && context in c.synthetic
    ensures
      var now := DestroyContextTurn(c, context).now;
      && now.graph.Some? && ViewOf(now.graph.value) == ViewLeft(c, context)
      && now.synthetic == (if context in ViewOf(c.graph.value).outline.contexts
                              && context !in ViewLeft(c, context).outline.contexts
                           then c.synthetic - {context} else c.synthetic)
  {
    hide Inv, Step, OutlineOf, StatesOf, DestroyContextTurn, NoSequenceIn, NoRegionIn;
    var g := c.graph.value;
    SameContexts(g);
    DestructionSteps(c, context);
    if Editable(c) && context in g.contexts.live {
      DropSequenceView(g, c.synthetic[context]);
      DropContextView(Step(g, DropSequence(c.synthetic[context])).graph, context);
    }
  }

  lemma DestructionStep(c: Controller, h: Handle)
    requires h !in c.synthetic
    ensures
      var now := DestroyContextTurn(c, h).now;
      if !Editable(c) || h !in c.graph.value.contexts.live then now == c else
      var d := Step(c.graph.value, DropContext(h));
      now.graph == Some(d.graph) && now.synthetic == if d.outcome.Done? then c.synthetic - {h} else c.synthetic
  {
    hide Step, LeavesJobs, RespectsReaders;
  }
}
