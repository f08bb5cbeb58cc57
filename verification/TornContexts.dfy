// The case that the pairing of `SyntheticSequences` leaves out: a controller before ARA 2 whose host
// also manages region sequences itself.  The callbacks for that lie beyond the prefix of the interface
// that the controller then advertises (ara2-bridge-plugin/src/ffi/vtable.rs), but their slots are
// filled and nothing in the controller refuses them.
module TornContexts {
  import opened Prelude
  import opened Registries
  import opened Edges
  import opened DocumentGraph
  import opened GraphInvariant
  import opened GraphOutline
  import opened Identity
  import opened Controllers
  import opened ControllerInvariant
  import opened SyntheticSequences

  // A live context with its synthetic sequence, which is live or has gone stale; or no graph any more.
  ghost predicate Owns(synthetic: map<Handle, Handle>, graph: Option<Graph>, context: Handle, alive: bool) {
    match graph
    case None => true
    case Some(g) =>
      && context in g.contexts.live && context in synthetic
      && if alive then synthetic[context] in g.sequences.live else Stale(g.sequences, synthetic[context])
  }

  // The context is there and its synthetic sequence is gone.
  ghost predicate Stranded(c: Controller, context: Handle) {
    c.graph.Some? && Owns(c.synthetic, c.graph, context, false)
  }

  // The destruction of such a context fails at its first step, the sequence, and so does nothing.
  lemma StrandedIsStuck(c: Controller, context: Handle)
    requires Owns(c.synthetic, c.graph, context, false)
    ensures DestroyContextTurn(c, context) == Quiet(c, Nothing)
  {
    hide LeavesJobs, RespectsReaders;
  }

  // ---- What leaves a context and its sequence as they are

  predicate Spares(q: Request, context: Handle, alive: bool, s: Handle) {
    q != DropContext(context) && (alive ==> q != DropSequence(s))
  }

  lemma StepSpares(synthetic: map<Handle, Handle>, g: Graph, context: Handle, alive: bool, q: Request)
    requires Inv(g) && Owns(synthetic, Some(g), context, alive) && Spares(q, context, alive, synthetic[context])
    ensures Inv(Step(g, q).graph) && Owns(synthetic, Some(Step(g, q).graph), context, alive)
  {
    hide Inv, Step, Stale, Extends;
    StepRecounts(g, q);
    if alive {
      SequenceStays(g, q, synthetic[context]);
    } else {
      StepExtends(g, q);
      StaleStaysStale(g.sequences, Step(g, q).graph.sequences, synthetic[context]);
    }
  }

  lemma SequenceStays(g: Graph, q: Request, s: Handle)
    requires Inv(g) && s in g.sequences.live && q != DropSequence(s)
    ensures s in Step(g, q).graph.sequences.live
  {
    hide Inv, Step, Allowed, OutlineOf;
    StepOutline(g, q);
    LiveInOutline(g);
    LiveInOutline(Step(g, q).graph);
  }

  lemma AskingSpares(c: Controller, t: Turn, q: Request, context: Handle, alive: bool)
    requires Tidy(c) && Owns(c.synthetic, c.graph, context, alive) && Asks(c, t, q)
    requires c.graph.Some? ==> Spares(q, context, alive, c.synthetic[context])
    ensures Owns(t.now.synthetic, t.now.graph, context, alive)
  {
    hide Tidy, Step, Inv;
    if c.graph.Some? {
      TidyGraph(c);
      StepSpares(c.synthetic, c.graph.value, context, alive, q);
    }
  }

  lemma BeginRestoreSpares(c: Controller, reader: HostRef, readable: bool, begun: bool, restored: bool,
                           ended: bool, context: Handle, alive: bool)
    requires Tidy(c) && Owns(c.synthetic, c.graph, context, alive)
    ensures Owns(c.synthetic, BeginRestoreEffect(c, reader, readable, begun, restored, ended).graph, context, alive)
  {
    hide Tidy, Step, Inv, Owns;
    if Reachable(c) {
      var g := c.graph.value;
      TidyGraph(c);
      EditingSpares(c.synthetic, g, context, alive, BeginEdit(begun));
      EditingSpares(c.synthetic, Step(g, BeginEdit(begun)).graph, context, alive, EndEdit(ended));
    }
  }

  lemma EndRestoreSpares(c: Controller, reader: HostRef, ended: bool, context: Handle, alive: bool)
    requires Tidy(c) && Owns(c.synthetic, c.graph, context, alive)
    ensures Owns(c.synthetic, EndRestoreEffect(c, reader, ended).graph, context, alive)
  {
    hide Tidy, Step, Inv, Owns;
    if Reachable(c) {
      TidyGraph(c);
      EditingSpares(c.synthetic, c.graph.value, context, alive, EndEdit(ended));
    }
  }

  lemma EditingSpares(synthetic: map<Handle, Handle>, g: Graph, context: Handle, alive: bool, q: Request)
    requires Inv(g) && Owns(synthetic, Some(g), context, alive) && (q.BeginEdit? || q.EndEdit?)
    ensures Inv(Step(g, q).graph) && Owns(synthetic, Some(Step(g, q).graph), context, alive)
  {
    hide Inv, Step;
    StepSpares(synthetic, g, context, alive, q);
  }

  lemma RestoringSpares(c: Controller, cb: Callback, context: Handle, alive: bool)
    requires Tidy(c) && Owns(c.synthetic, c.graph, context, alive) && (cb.BeginRestore? || cb.EndRestore?)
    ensures Owns(Act(c, cb).now.synthetic, Act(c, cb).now.graph, context, alive)
  {
    hide Tidy, Owns, BeginRestoreEffect, EndRestoreEffect, LeavesJobs, RespectsReaders;
    match cb
    case BeginRestore(reader, readable, begun, restored, ended) =>
      BeginRestoreSpares(c, reader, readable, begun, restored, ended, context, alive);
    case EndRestore(reader, ended) => EndRestoreSpares(c, reader, ended, context, alive);
  }

  // Entries of other contexts do not matter.
  lemma OtherEntries(synthetic: map<Handle, Handle>, graph: Option<Graph>, context: Handle, alive: bool,
                     other: Handle, s: Handle)
    requires Owns(synthetic, graph, context, alive) && other != context
    ensures Owns(synthetic[other := s], graph, context, alive)
    ensures Owns(synthetic - {other}, graph, context, alive)
  {
  }

  lemma CreationSpares(c: Controller, host: Option<HostRef>, reply: Option<nat>, sequenceReply: Option<nat>,
                       context: Handle, alive: bool)
    requires Tidy(c) && Owns(c.synthetic, c.graph, context, alive)
    ensures
      var t := CreateContextTurn(c, host, reply, sequenceReply);
      Owns(t.now.synthetic, t.now.graph, context, alive)
  {
    hide Tidy, Step, Owns, Inv, CreateContextTurn;
    CreationSteps(c, host, reply, sequenceReply);
    if host.Some? && Editable(c) {
      TidyGraph(c);
      CreationCallsSpare(c.synthetic, c.graph.value, context, alive, reply, sequenceReply);
    }
  }

  // The two requests of a creation, and the third that undoes the first.
  lemma CreationSteps(c: Controller, host: Option<HostRef>, reply: Option<nat>, sequenceReply: Option<nat>)
    ensures
      var now := CreateContextTurn(c, host, reply, sequenceReply).now;
      if host.None? || !Editable(c) then now == c else
      var r := Step(c.graph.value, MakeContext(reply));
      if !r.outcome.Done? || c.graph.value.generation >= V2_DRAFT then
        now.graph == Some(r.graph) && now.synthetic == c.synthetic
      else
        var h := HandleOf(r.outcome.value);
        var s := Step(r.graph, MakeSequence(h, h, sequenceReply));
        if s.outcome.Done? then
          now.graph == Some(s.graph) && now.synthetic == c.synthetic[h := HandleOf(s.outcome.value)]
        else
          now.graph == Some(Step(s.graph, DropContext(h)).graph) && now.synthetic == c.synthetic
  {
    hide Step, CreateContextTurn;
    if host.Some? && Editable(c) {
      var r := Step(c.graph.value, MakeContext(reply));
      if r.outcome.Done? && c.graph.value.generation < V2_DRAFT {
        SecondCreationStep(c, host.value, reply, sequenceReply);
      } else {
        OneCreationStep(c, host.value, reply, sequenceReply);
      }
    } else {
      assert CreateContextTurn(c, host, reply, sequenceReply).now == c by {
        NoCreationStep(c, host, reply, sequenceReply);
      }
    }
  }

  lemma NoCreationStep(c: Controller, host: Option<HostRef>, reply: Option<nat>, sequenceReply: Option<nat>)
    requires host.None? || !Editable(c)
    ensures CreateContextTurn(c, host, reply, sequenceReply).now == c
  {
  }

  lemma OneCreationStep(c: Controller, host: HostRef, reply: Option<nat>, sequenceReply: Option<nat>)
    requires Editable(c)
    requires !Step(c.graph.value, MakeContext(reply)).outcome.Done? || c.graph.value.generation >= V2_DRAFT
    ensures
      var now := CreateContextTurn(c, Some(host), reply, sequenceReply).now;
      now.graph == Some(Step(c.graph.value, MakeContext(reply)).graph) && now.synthetic == c.synthetic
  {
    hide Step, LeavesJobs, RespectsReaders;
  }

  lemma SecondCreationStep(c: Controller, host: HostRef, reply: Option<nat>, sequenceReply: Option<nat>)
    requires Editable(c)
    requires Step(c.graph.value, MakeContext(reply)).outcome.Done? && c.graph.value.generation < V2_DRAFT
    ensures
      var now := CreateContextTurn(c, Some(host), reply, sequenceReply).now;
      var r := Step(c.graph.value, MakeContext(reply));
      var h := HandleOf(r.outcome.value);
      var s := Step(r.graph, MakeSequence(h, h, sequenceReply));
      if s.outcome.Done? then
        now.graph == Some(s.graph) && now.synthetic == c.synthetic[h := HandleOf(s.outcome.value)]
      else
        now.graph == Some(Step(s.graph, DropContext(h)).graph) && now.synthetic == c.synthetic
  {
    hide Step, LeavesJobs, RespectsReaders;
  }

  lemma CreationCallsSpare(synthetic: map<Handle, Handle>, g: Graph, context: Handle, alive: bool,
                           reply: Option<nat>, sequenceReply: Option<nat>)
    requires Inv(g) && Owns(synthetic, Some(g), context, alive)
    ensures
      var r := Step(g, MakeContext(reply));
      && Owns(synthetic, Some(r.graph), context, alive)
      && (r.outcome.Done? ==>
            var h := HandleOf(r.outcome.value);
            var s := Step(r.graph, MakeSequence(h, h, sequenceReply));
            && Owns(synthetic, Some(Step(s.graph, DropContext(h)).graph), context, alive)
            && (s.outcome.Done? ==> Owns(synthetic[h := HandleOf(s.outcome.value)], Some(s.graph), context, alive)))
  {
    hide Inv, Step, OutlineOf;
    var r := Step(g, MakeContext(reply));
    StepSpares(synthetic, g, context, alive, MakeContext(reply));
    if r.outcome.Done? {
      var h := HandleOf(r.outcome.value);
      var q := MakeSequence(h, h, sequenceReply);
      NewcomerIsBare(g, reply);
      OutlineGeneration(g);
      StepSpares(synthetic, r.graph, context, alive, q);
      StepSpares(synthetic, Step(r.graph, q).graph, context, alive, DropContext(h));
      if Step(r.graph, q).outcome.Done? {
        OtherEntries(synthetic, Some(Step(r.graph, q).graph), context, alive, h,
                     HandleOf(Step(r.graph, q).outcome.value));
      }
    }
  }

  lemma DestructionSpares(c: Controller, other: Handle, context: Handle, alive: bool)
    requires Tidy(c) && Owns(c.synthetic, c.graph, context, alive) && other != context
    requires alive && c.graph.Some? && other in c.synthetic ==> c.synthetic[other] != c.synthetic[context]
    ensures
      var t := DestroyContextTurn(c, other);
      Owns(t.now.synthetic, t.now.graph, context, alive)
  {
    hide Tidy, Step, Owns, Inv, LeavesJobs, RespectsReaders;
    if Editable(c) {
      TidyGraph(c);
      DestructionCallsSpare(c.synthetic, c.graph.value, other, context, alive);
    }
  }

  lemma DestructionCallsSpare(synthetic: map<Handle, Handle>, g: Graph, other: Handle, context: Handle, alive: bool)
    requires Inv(g) && Owns(synthetic, Some(g), context, alive) && other != context
    requires alive && other in synthetic ==> synthetic[other] != synthetic[context]
    ensures
      var r := if other in synthetic then Step(g, DropSequence(synthetic[other])) else Accept(g);
      && Owns(synthetic, Some(r.graph), context, alive)
      && Owns(synthetic, Some(Step(r.graph, DropContext(other)).graph), context, alive)
      && Owns(synthetic - {other}, Some(Step(r.graph, DropContext(other)).graph), context, alive)
  {
    hide Inv, Step;
    var r := if other in synthetic then Step(g, DropSequence(synthetic[other])) else Accept(g);
    if other in synthetic {
      StepSpares(synthetic, g, context, alive, DropSequence(synthetic[other]));
    }
    StepSpares(synthetic, r.graph, context, alive, DropContext(other));
    OtherEntries(synthetic, Some(Step(r.graph, DropContext(other)).graph), context, alive, other, other);
  }

  lemma BystandersSpare(c: Controller, cb: Callback, context: Handle, alive: bool)
    requires Owns(c.synthetic, c.graph, context, alive) && Bystander(cb)
    ensures Owns(Act(c, cb).now.synthetic, Act(c, cb).now.graph, context, alive)
  {
    hide LeavesJobs, RespectsReaders, Asks, Performs, NotifyModelUpdates, RequestAnalysisTurn, CreateReaderTurn;
  }

  lemma ContextActs(c: Controller, cb: Callback)
    requires cb.CreateContext? || cb.DestroyContext?
    ensures Act(c, cb) == if cb.CreateContext? then CreateContextTurn(c, cb.host, cb.reply, cb.sequenceReply)
                          else DestroyContextTurn(c, cb.context)
  {
    hide CreateContextTurn, DestroyContextTurn, LeavesJobs, RespectsReaders;
  }

  // The two callbacks that may take the synthetic sequence of a context away.
  predicate TargetsSequence(c: Controller, cb: Callback, s: Handle) {
    cb == DestroySequence(s) || (cb.DestroyContext? && cb.context in c.synthetic && c.synthetic[cb.context] == s)
  }

  lemma ActSpares(c: Controller, cb: Callback, context: Handle, alive: bool)
    requires Tidy(c) && c.graph.Some? && Owns(c.synthetic, c.graph, context, alive) && cb != DestroyContext(context)
    requires alive ==> !TargetsSequence(c, cb, c.synthetic[context])
    ensures Owns(Act(c, cb).now.synthetic, Act(c, cb).now.graph, context, alive)
  {
    hide Tidy, Act, Asks, Inv, CreateContextTurn, DestroyContextTurn;
    if cb.CreateContext? {
      ContextActs(c, cb);
      CreationSpares(c, cb.host, cb.reply, cb.sequenceReply, context, alive);
    } else if cb.DestroyContext? {
      ContextActs(c, cb);
      DestructionSpares(c, cb.context, context, alive);
    } else if cb.BeginRestore? || cb.EndRestore? {
      RestoringSpares(c, cb, context, alive);
    } else if Bystander(cb) {
      BystandersSpare(c, cb, context, alive);
    } else {
      var q := OneRequest(c, cb);
      AskingSpares(c, Act(c, cb), q, context, alive);
    }
  }

  // ---- Stranded for ever

  lemma GoneStaysGone(c: Controller, cb: Callback)
    requires Tidy(c) && c.graph.None?
    ensures Act(c, cb).now.graph.None?
  {
    hide Tidy, Act;
    if Single(cb) {
      var q := OneRequest(c, cb);
    } else {
      GoneOtherwise(c, cb);
    }
  }

  lemma GoneOtherwise(c: Controller, cb: Callback)
    requires c.graph.None? && !Single(cb)
    ensures Act(c, cb).now.graph.None?
  {
    hide LeavesJobs, RespectsReaders, Asks, Performs, CancelsJob, Step;
  }

  // Once its synthetic sequence is gone, no run of callbacks removes the context: it is there, and its
  // destruction does nothing, until the controller itself is destroyed.
  lemma {:induction false} StrandedForever(c: Controller, cbs: seq<Callback>, context: Handle)
    requires Tidy(c) && Stranded(c, context)
    ensures
      var later := After(c, cbs).now;
      && Tidy(later)
      && (later.graph.Some? ==> context in later.graph.value.contexts.live && Stranded(later, context))
      && Act(later, DestroyContext(context)).now == later
  {
    hide Tidy, Act, Stale;
    if cbs != [] {
      var init, last := cbs[..|cbs| - 1], cbs[|cbs| - 1];
      var before := After(c, init).now;
      StrandedForever(c, init, context);
      ActKeeps(before, last);
      if before.graph.None? {
        GoneStaysGone(before, last);
      } else if last != DestroyContext(context) {
        ActSpares(before, last, context, false);
      }
    }
    var later := After(c, cbs).now;
    ContextActs(later, DestroyContext(context));
    StrandedIsStuck(later, context);
  }

  // ---- Exactly when it happens

  // A context is stranded when the host destroys its empty synthetic sequence itself, or destroys the
  // context while it has put another sequence into it.
  ghost predicate Strands(c: Controller, cb: Callback, context: Handle)
    requires c.graph.Some? && context in c.synthetic
  {
    var g, s := c.graph.value, c.synthetic[context];
    && TargetsSequence(c, cb, s) && c.readers == {} && g.editing && NoRegionIn(OutlineOf(g), s)
    && match cb
       case DestroyContext(h) =>
         && h in g.contexts.live
         && (h == context ==> exists other :: other != s && other in g.sequences.live
                                              && g.sequences.live[other].context == context)
       case _ => true
  }

  lemma NamedOnceLive(g: Graph, s: Handle, q: Request)
    requires Inv(g) && s in g.sequences.live
    ensures s !in Step(g, q).graph.sequences.live ==> Stale(Step(g, q).graph.sequences, s)
  {
    hide Step, Inv;
    StepExtends(g, q);
    SequenceBounds(g);
  }

  lemma SequenceBounds(g: Graph)
    requires Inv(g)
    ensures forall s :: s in g.sequences.live ==> g.sequences.Names(s)
  {
    hide Linked;
    KeptBounds(g.sequences, SequenceCommitted, g.liveSequences);
  }

  // The first step of a destruction: the sequence goes exactly if it has no region, and then the context
  // is without one.
  lemma FirstStepStrands(synthetic: map<Handle, Handle>, g: Graph, context: Handle)
    requires Inv(g) && Owns(synthetic, Some(g), context, true)
    ensures
      var s := synthetic[context];
      var r := Step(g, DropSequence(s));
      && Inv(r.graph)
      && (r.outcome.Done? <==> NoRegionIn(OutlineOf(g), s))
      && Owns(synthetic, Some(r.graph), context, !r.outcome.Done?)
  {
    hide Inv, Step, OutlineOf, NoRegionIn, Stale;
    var s := synthetic[context];
    FirstStepAlone(g, s, context);
    StepOutline(g, DropSequence(s));
    NamedOnceLive(g, s, DropSequence(s));
  }

  lemma AliveIsNotStranded(c: Controller, context: Handle)
    requires Owns(c.synthetic, c.graph, context, true)
    ensures !Stranded(c, context)
  {
  }

  lemma GoneIsNotStranded(c: Controller, context: Handle)
    requires c.graph.Some? ==> context !in c.graph.value.contexts.live
    ensures !Stranded(c, context)
  {
  }

  // The two steps of a destruction.
  lemma DestructionSteps(c: Controller, h: Handle)
    requires h in c.synthetic
    ensures
      var now := DestroyContextTurn(c, h).now;
      if !Editable(c) || h !in c.graph.value.contexts.live then now == c else
      var r := Step(c.graph.value, DropSequence(c.synthetic[h]));
      if !r.outcome.Done? then now == WithGraph(c, r.graph) else
      var d := Step(r.graph, DropContext(h));
      && now.graph == Some(d.graph)
      && now.synthetic == if d.outcome.Done? then c.synthetic - {h} else c.synthetic
  {
    hide Step, LeavesJobs, RespectsReaders;
  }

  lemma OwnDestructionStrands(c: Controller, context: Handle)
    requires Tidy(c) && c.graph.Some? && Owns(c.synthetic, c.graph, context, true)
    ensures Stranded(DestroyContextTurn(c, context).now, context) <==> Strands(c, DestroyContext(context), context)
  {
    hide Inv, Tidy, Step, OutlineOf, NoRegionIn, DestroyContextTurn, Stranded, Stale, Owns;
    var g, now := c.graph.value, DestroyContextTurn(c, context).now;
    OwnedIsLive(c.synthetic, g, context);
    DestructionSteps(c, context);
    if !Editable(c) {
      AliveIsNotStranded(c, context);
    } else {
      TidyGraph(c);
      FirstStepStrands(c.synthetic, g, context);
      if Step(g, DropSequence(c.synthetic[context])).outcome.Done? {
        SecondStepStrands(c.synthetic, g, context);
        if context !in now.graph.value.contexts.live {
          GoneIsNotStranded(now, context);
        } else {
          StrandedInWords(now, context);
        }
      } else {
        AliveIsNotStranded(now, context);
      }
    }
  }

  lemma OwnedIsLive(synthetic: map<Handle, Handle>, g: Graph, context: Handle)
    requires Owns(synthetic, Some(g), context, true)
    ensures context in g.contexts.live && context in synthetic && synthetic[context] in g.sequences.live
  {
  }

  lemma StrandedInWords(c: Controller, context: Handle)
    requires c.graph.Some?
    ensures Stranded(c, context) <==>
            && context in c.graph.value.contexts.live && context in c.synthetic
            && Stale(c.graph.value.sequences, c.synthetic[context])
  {
  }

  lemma SecondStepStrands(synthetic: map<Handle, Handle>, g: Graph, context: Handle)
    requires Inv(g) && Owns(synthetic, Some(g), context, true)
    requires Step(g, DropSequence(synthetic[context])).outcome.Done?
    ensures
      var s := synthetic[context];
      var d := Step(Step(g, DropSequence(s)).graph, DropContext(context));
      && Stale(d.graph.sequences, s)
      && (context in d.graph.contexts.live <==> !d.outcome.Done?)
      && (!d.outcome.Done? <==>
            exists other :: other != s && other in g.sequences.live && g.sequences.live[other].context == context)
  {
    hide Inv, Step, Stale, Extends;
    var s := synthetic[context];
    var r := Step(g, DropSequence(s));
    SecondStepAlone(g, s, context);
    FirstStepStrands(synthetic, g, context);
    StepExtends(r.graph, DropContext(context));
    StaleStaysStale(r.graph.sequences, Step(r.graph, DropContext(context)).graph.sequences, s);
  }

  lemma SequenceDestructionStrands(c: Controller, context: Handle)
    requires Tidy(c) && c.graph.Some? && Owns(c.synthetic, c.graph, context, true)
    ensures
      var cb := DestroySequence(c.synthetic[context]);
      Stranded(Act(c, cb).now, context) <==> Strands(c, cb, context)
  {
    hide Inv, Tidy, Step, OutlineOf, NoRegionIn, Act, Owns, Stale;
    OwnedIsLive(c.synthetic, c.graph.value, context);
    var g, s := c.graph.value, c.synthetic[context];
    SequenceDestructionStep(c, s);
    TidyGraph(c);
    FirstStepStrands(c.synthetic, g, context);
    if !Editable(c) || !Step(g, DropSequence(s)).outcome.Done? {
      AliveIsNotStranded(Act(c, DestroySequence(s)).now, context);
    }
  }

  lemma SequenceDestructionStep(c: Controller, s: Handle)
    ensures Act(c, DestroySequence(s)).now ==
            if Editable(c) then WithGraph(c, Step(c.graph.value, DropSequence(s)).graph) else c
  {
    hide Step, LeavesJobs, RespectsReaders, Asks, Performs;
  }

  // Never so in a run, where each context has a sequence of its own; but that is not needed here.
  lemma SharedDestructionStrands(c: Controller, other: Handle, context: Handle)
    requires Tidy(c) && c.graph.Some? && Owns(c.synthetic, c.graph, context, true) && other != context
    requires other in c.synthetic && c.synthetic[other] == c.synthetic[context]
    ensures Stranded(DestroyContextTurn(c, other).now, context) <==> Strands(c, DestroyContext(other), context)
  {
    hide Inv, Tidy, Step, OutlineOf, NoRegionIn, DestroyContextTurn, Stale, Owns;
    var g, now := c.graph.value, DestroyContextTurn(c, other).now;
    OwnedIsLive(c.synthetic, g, context);
    DestructionSteps(c, other);
    AliveIsNotStranded(c, context);
    if Editable(c) && other in g.contexts.live {
      TidyGraph(c);
      FirstStepStrands(c.synthetic, g, context);
      var r := Step(g, DropSequence(c.synthetic[context]));
      if r.outcome.Done? {
        Spared(c.synthetic, r.graph, context, other);
      } else {
        AliveIsNotStranded(now, context);
      }
    }
  }

  lemma Spared(synthetic: map<Handle, Handle>, g: Graph, context: Handle, other: Handle)
    requires Inv(g) && Owns(synthetic, Some(g), context, false) && other != context
    ensures Owns(synthetic, Some(Step(g, DropContext(other)).graph), context, false)
    ensures Owns(synthetic - {other}, Some(Step(g, DropContext(other)).graph), context, false)
  {
    hide Inv, Step;
    StepSpares(synthetic, g, context, false, DropContext(other));
    OtherEntries(synthetic, Some(Step(g, DropContext(other)).graph), context, false, other, other);
  }

  lemma StrandsExactly(c: Controller, cb: Callback, context: Handle)
    requires Tidy(c) && c.graph.Some? && context in c.graph.value.contexts.live && context in c.synthetic
    requires c.synthetic[context] in c.graph.value.sequences.live
    ensures Stranded(Act(c, cb).now, context) <==> Strands(c, cb, context)
  {
    hide Tidy, Act, Stranded, OutlineOf, NoRegionIn, CreateContextTurn, DestroyContextTurn, Inv;
    if cb == DestroyContext(context) {
      ContextActs(c, cb);
      OwnDestructionStrands(c, context);
    } else if !TargetsSequence(c, cb, c.synthetic[context]) {
      ActSpares(c, cb, context, true);
      AliveIsNotStranded(Act(c, cb).now, context);
    } else if cb.DestroySequence? {
      SequenceDestructionStrands(c, context);
    } else {
      ContextActs(c, cb);
      SharedDestructionStrands(c, cb.context, context);
    }
  }

  lemma EditedContext(generation: nat, session: nat) returns (c: Controller)
    requires generation < V2_DRAFT
    ensures
      var c0 := NewController(NewGraph(generation, session, 0), true, {});
      c == Act(Act(c0, BeginEditing(true)).now, CreateContext(Some(1), Some(7), Some(8))).now
    ensures c.graph.Some? && Editable(c)
    ensures
      var g, h := c.graph.value, Handle(1, session);
      && g.contexts.live == map[h := Raise(Committed(7))]
      && g.sequences.count == 1 && g.sequences.session == session && g.sequences.capacity == DEFAULT_CAPACITY
      && g.sequences.live == map[h := SequenceNode(Committed(8), h)]
      && g.regions.live == map[] && c.synthetic == map[h := h]
  {
    hide LeavesJobs, RespectsReaders, Asks, Performs;
    var c0 := NewController(NewGraph(generation, session, 0), true, {});
    var c1 := Act(c0, BeginEditing(true)).now;
    c := Act(c1, CreateContext(Some(1), Some(7), Some(8))).now;
  }

  lemma SecondSequence(c: Controller, h: Handle)
    requires c.graph.Some? && Editable(c)
    requires
      var g := c.graph.value;
      && h in g.contexts.live && g.contexts.live[h].active && !g.sequences.Full()
      && g.sequences.live == map[h := SequenceNode(Committed(8), h)] && g.regions.live == map[]
      && g.sequences.Next() != h
    ensures
      var c' := Act(c, CreateSequence(h, Some(9))).now;
      && c'.graph.Some? && Editable(c') && c'.synthetic == c.synthetic
      && h in c'.graph.value.contexts.live && h in c'.graph.value.sequences.live
      && c.graph.value.sequences.Next() in c'.graph.value.sequences.live
      && c'.graph.value.sequences.live[c.graph.value.sequences.Next()].context == h
      && c'.graph.value.regions.live == map[]
  {
    hide LeavesJobs, RespectsReaders, Asks, Performs;
  }

  lemma NoRegions(g: Graph, s: Handle)
    requires g.regions.live == map[]
    ensures NoRegionIn(OutlineOf(g), s)
  {
  }

  lemma WillStrand(c: Controller, context: Handle, other: Handle)
    requires c.graph.Some? && Editable(c) && context in c.synthetic && context in c.graph.value.contexts.live
    requires NoRegionIn(OutlineOf(c.graph.value), c.synthetic[context])
    requires other != c.synthetic[context] && other in c.graph.value.sequences.live
    requires c.graph.value.sequences.live[other].context == context
    ensures Strands(c, DestroyContext(context), context)
  {
    hide OutlineOf, NoRegionIn;
  }

  lemma StaleIsDead(g: Graph, s: Handle)
    ensures Stale(g.sequences, s) ==> s !in g.sequences.live
  {
  }

  lemma FourCallbacks(c: Controller, cb0: Callback, cb1: Callback, cb2: Callback, cb3: Callback)
    ensures
      var c2 := Act(Act(c, cb0).now, cb1).now;
      && After(c, [cb0, cb1, cb2]).now == Act(c2, cb2).now
      && After(c, [cb0, cb1, cb2, cb3]).now == Act(Act(c2, cb2).now, cb3).now
  {
    hide Act;
    assert [cb0, cb1, cb2, cb3][..3] == [cb0, cb1, cb2] && [cb0, cb1, cb2][..2] == [cb0, cb1];
    assert [cb0, cb1][..1] == [cb0] && [cb0][..0] == [];
    assert After(c, []).now == c && After(c, [cb0]).now == Act(c, cb0).now;
  }

  // The run: the host puts a region sequence of its own into a context and then destroys the context.
  lemma ContextIsTorn(generation: nat, session: nat) returns (cbs: seq<Callback>, context: Handle)
    requires generation < V2_DRAFT
    ensures cbs == [BeginEditing(true), CreateContext(Some(1), Some(7), Some(8)), CreateSequence(context, Some(9)),
                    DestroyContext(context)]
    ensures
      var c := After(NewController(NewGraph(generation, session, 0), true, {}), cbs).now;
      Tidy(c) && Stranded(c, context) && c.synthetic[context] !in c.graph.value.sequences.live
  {
    hide Act, Tidy, OutlineOf, NoRegionIn, Strands, Stale, After;
    var c0 := NewController(NewGraph(generation, session, 0), true, {});
    context := Handle(1, session);
    var cb0, cb1 := BeginEditing(true), CreateContext(Some(1), Some(7), Some(8));
    var cb2, cb3 := CreateSequence(context, Some(9)), DestroyContext(context);
    cbs := [cb0, cb1, cb2, cb3];
    FourCallbacks(c0, cb0, cb1, cb2, cb3);
    NewControllerTidy(generation, session, 0, true, {});
    RunKeepsTidy(c0, [cb0, cb1, cb2]);
    RunKeepsTidy(c0, cbs);
    var c2 := EditedContext(generation, session);
    SecondSequence(c2, context);
    NewSequenceStrands(Act(c2, cb2).now, context, Handle(2, session));
  }

  lemma NewSequenceStrands(c: Controller, context: Handle, other: Handle)
    requires Tidy(c) && c.graph.Some? && Editable(c)
    requires context in c.synthetic && context in c.graph.value.contexts.live && c.graph.value.regions.live == map[]
    requires c.synthetic[context] in c.graph.value.sequences.live
    requires other != c.synthetic[context] && other in c.graph.value.sequences.live
    requires c.graph.value.sequences.live[other].context == context
    ensures
      var c' := Act(c, DestroyContext(context)).now;
      Stranded(c', context) && c'.synthetic[context] !in c'.graph.value.sequences.live
  {
    hide Act, Tidy, OutlineOf, NoRegionIn, Strands, Stale;
    NoRegions(c.graph.value, c.synthetic[context]);
    WillStrand(c, context, other);
    StrandsExactly(c, DestroyContext(context), context);
    var c' := Act(c, DestroyContext(context)).now;
    StrandedInWords(c', context);
    StaleIsDead(c'.graph.value, c'.synthetic[context]);
  }
}
