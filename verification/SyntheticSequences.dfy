// Before ARA 2 there are no region sequences for the host: the controller makes one for each musical
// context (ara2-bridge-plugin/src/controller.rs).  The two are created and destroyed in two calls to
// the runtime; this is what keeps them together.
module SyntheticSequences {
  import opened Prelude
  import opened Registries
  import opened Edges
  import opened DocumentGraph
  import opened GraphInvariant
  import opened GraphTheorems
  import opened GraphOutline
  import opened Controllers
  import opened ControllerInvariant
  import Updates

  // An ARA 1 host has no region-sequence callbacks.
  predicate Legacy(cb: Callback) {
    !cb.CreateSequence? && !cb.UpdateSequence? && !cb.DestroySequence?
  }

  // Contexts and sequences are in bijection: a context's synthetic sequence is the one sequence that
  // names it.
  ghost predicate Paired(synthetic: map<Handle, Handle>, contexts: set<Handle>, sequences: map<Handle, Handle>) {
    match synthetic
    case made =>
      && (forall h :: h in contexts <==> h in made)
      && (forall h :: h in made ==> made[h] in sequences && sequences[made[h]] == h)
      && (forall s :: s in sequences ==> sequences[s] in made && made[sequences[s]] == s)
  }

  ghost predicate Joined(synthetic: map<Handle, Handle>, graph: Option<Graph>) {
    match graph
    case None => true
    case Some(g) =>
      g.generation < V2_DRAFT && Paired(synthetic, OutlineOf(g).contexts.Keys, OutlineOf(g).sequences)
  }

  ghost predicate Together(c: Controller) {
    Joined(c.synthetic, c.graph)
  }

  // Requests that leave contexts, sequences and generation alone.
  predicate Elsewhere(q: Request) {
    !q.MakeContext? && !q.DropContext? && !q.MakeSequence? && !q.DropSequence? && !q.EditSequence?
  }

  // One request as the outline sees it.
  lemma StepOutline(g: Graph, q: Request)
    requires Inv(g)
    ensures
      var r := Step(g, q);
      && Inv(r.graph)
      && if r.outcome.Done? then
           Allowed(OutlineOf(g), q) && OutlineOf(r.graph) == Apply(OutlineOf(g), q, HandleOf(r.outcome.value))
         else OutlineOf(r.graph) == OutlineOf(g)
  {
    hide Inv, Step, OutlineOf, Allowed, Apply, Fresh, DelegateAgrees, HasRoom;
    StepKeeps(g, q);
    StepRefines(g, q);
    if !Step(g, q).outcome.Done? {
      RefusedChangesNothing(g, q);
    }
  }

  lemma DropSequenceOutline(g: Graph, s: Handle)
    requires Inv(g)
    ensures
      var o, r := OutlineOf(g), Step(g, DropSequence(s));
      && Inv(r.graph)
      && (r.outcome.Done? <==> s in o.sequences && NoRegionIn(o, s))
      && OutlineOf(r.graph) == if r.outcome.Done? then o.(sequences := o.sequences - {s}) else o
  {
    hide Inv, Step, OutlineOf, NoRegionIn;
    StepOutline(g, DropSequence(s));
    StepRefines(g, DropSequence(s));
  }

  lemma DropContextOutline(g: Graph, h: Handle)
    requires Inv(g)
    ensures
      var o, r := OutlineOf(g), Step(g, DropContext(h));
      && Inv(r.graph)
      && (r.outcome.Done? <==> h in o.contexts && NoSequenceIn(o, h))
      && OutlineOf(r.graph) == if r.outcome.Done? then o.(contexts := o.contexts - {h}) else o
  {
    hide Inv, Step, OutlineOf, NoSequenceIn;
    StepOutline(g, DropContext(h));
    StepRefines(g, DropContext(h));
  }

  lemma ElsewhereKeeps(c: Controller, q: Request)
    requires Tidy(c) && c.graph.Some? && Together(c)
    requires Elsewhere(q) || !Step(c.graph.value, q).outcome.Done?
    ensures Together(WithGraph(c, Step(c.graph.value, q).graph))
  {
    hide Inv, Step, OutlineOf, Paired, Allowed, Tidy;
    var g := c.graph.value;
    TidyGraph(c);
    StepOutline(g, q);
    OutlineGeneration(g);
    OutlineGeneration(Step(g, q).graph);
  }

  lemma TidyGraph(c: Controller)
    requires Tidy(c) && c.graph.Some?
    ensures Inv(c.graph.value)
  {
  }

  lemma OutlineGeneration(g: Graph)
    ensures OutlineOf(g).generation == g.generation && OutlineOf(g).editing == g.editing
    ensures OutlineOf(g).contexts.Keys == g.contexts.live.Keys
  {
  }

  // ---- Creation

  lemma PairMore(synthetic: map<Handle, Handle>, contexts: set<Handle>, sequences: map<Handle, Handle>,
                 h: Handle, s: Handle)
    requires Paired(synthetic, contexts, sequences) && h !in contexts && s !in sequences
    ensures Paired(synthetic[h := s], contexts + {h}, sequences[s := h])
  {
  }

  lemma PairLess(synthetic: map<Handle, Handle>, contexts: set<Handle>, sequences: map<Handle, Handle>, h: Handle)
    requires Paired(synthetic, contexts, sequences) && h in synthetic
    ensures Paired(synthetic - {h}, contexts - {h}, sequences - {synthetic[h]})
  {
  }

  // What a creation can come to: a context with its one sequence, or nothing.
  ghost predicate BothCreated(c: Controller, t: Turn, host: HostRef) {
    c.graph.Some? && t.now.graph.Some? &&
    exists h, s ::
      var o, o' := OutlineOf(c.graph.value), OutlineOf(t.now.graph.value);
      && t.answer == Reference(Some(h)) && h !in o.contexts && s !in o.sequences
      && o' == o.(contexts := o.contexts[h := ()], sequences := o.sequences[s := h])
      && t.now.synthetic == c.synthetic[h := s]
      && t.now.contextHosts == c.contextHosts[Ctx(h) := host]
  }

  // Nothing but tombstones: no table and no live object differs.
  ghost predicate NothingDone(c: Controller, t: Turn) {
    match t
    case Turn(now, _, _, _) =>
      && now == c.(graph := now.graph)
      && now.graph.Some? == c.graph.Some?
      && (c.graph.Some? ==> OutlineOf(now.graph.value) == OutlineOf(c.graph.value))
  }

  lemma OnlyTombstones(c: Controller, g: Graph, answer: Controllers.Answer)
    requires c.graph.Some? && OutlineOf(g) == OutlineOf(c.graph.value)
    ensures NothingDone(c, Quiet(WithGraph(c, g), answer)) && NothingDone(c, Quiet(c, answer))
  {
  }

  // A new sequence's handle names no live sequence.
  lemma NewSequence(g: Graph, q: Request)
    requires Inv(g) && q.MakeSequence? && Step(g, q).outcome.Done?
    ensures HandleOf(Step(g, q).outcome.value) !in OutlineOf(g).sequences
  {
    hide Linked;
    KeptBounds(g.sequences, SequenceCommitted, g.liveSequences);
    assert OutlineOf(g).sequences.Keys == g.sequences.live.Keys;
  }

  // In every state, creating a context before ARA 2 makes both the context and its sequence, or
  // neither; the two runtime calls and the rollback between them do not show.
  lemma CreationIsAllOrNothing(c: Controller, host: Option<HostRef>, reply: Option<nat>, sequenceReply: Option<nat>)
    requires Tidy(c) && c.graph.Some? && c.graph.value.generation < V2_DRAFT
    ensures
      var t := CreateContextTurn(c, host, reply, sequenceReply);
      if t.answer == Reference(None) then NothingDone(c, t)
      else host.Some? && BothCreated(c, t, host.value)
  {
    hide Inv, Step, OutlineOf, LeavesJobs, RespectsReaders, Asks, Performs, Tidy, Allowed, Apply, BothCreated,
      NothingDone;
    var g := c.graph.value;
    TidyGraph(c);
    if host.Some? && Editable(c) {
      var r := Step(g, MakeContext(reply));
      StepOutline(g, MakeContext(reply));
      if r.outcome.Done? {
        var h := HandleOf(r.outcome.value);
        var s := Step(r.graph, MakeSequence(h, h, sequenceReply));
        NewcomerLeavesAgain(g, reply, sequenceReply);
        BothMade(c, host.value, reply, sequenceReply);
        if !s.outcome.Done? {
          OnlyTombstones(c, Step(s.graph, DropContext(h)).graph, Reference(None));
        }
      } else {
        OnlyTombstones(c, r.graph, Reference(None));
      }
    } else {
      OnlyTombstones(c, g, Reference(None));
    }
  }

  lemma BothMade(c: Controller, host: HostRef, reply: Option<nat>, sequenceReply: Option<nat>)
    requires c.graph.Some? && Inv(c.graph.value) && c.graph.value.generation < V2_DRAFT && Editable(c)
    requires Step(c.graph.value, MakeContext(reply)).outcome.Done?
    ensures
      var r := Step(c.graph.value, MakeContext(reply));
      var h := HandleOf(r.outcome.value);
      Step(r.graph, MakeSequence(h, h, sequenceReply)).outcome.Done? ==>
        BothCreated(c, CreateContextTurn(c, Some(host), reply, sequenceReply), host)
  {
    hide Inv, Step, OutlineOf, LeavesJobs, RespectsReaders, Asks, Performs, Allowed, BothCreated;
    var g := c.graph.value;
    var r := Step(g, MakeContext(reply));
    var h := HandleOf(r.outcome.value);
    var p := MakeSequence(h, h, sequenceReply);
    NewcomerIsBare(g, reply);
    StepOutline(g, MakeContext(reply));
    StepOutline(r.graph, p);
    if Step(r.graph, p).outcome.Done? {
      NewSequence(r.graph, p);
      CreationWitness(c, host, reply, sequenceReply, h, HandleOf(Step(r.graph, p).outcome.value));
    }
  }

  lemma CreationWitness(c: Controller, host: HostRef, reply: Option<nat>, sequenceReply: Option<nat>,
                        h: Handle, s: Handle)
    requires c.graph.Some?
    requires
      var t := CreateContextTurn(c, Some(host), reply, sequenceReply);
      var o := OutlineOf(c.graph.value);
      && t.answer == Reference(Some(h)) && h !in o.contexts && s !in o.sequences && t.now.graph.Some?
      && OutlineOf(t.now.graph.value) == o.(contexts := o.contexts[h := ()], sequences := o.sequences[s := h])
      && t.now.synthetic == c.synthetic[h := s]
      && t.now.contextHosts == c.contextHosts[Ctx(h) := host]
    ensures BothCreated(c, CreateContextTurn(c, Some(host), reply, sequenceReply), host)
  {
    hide CreateContextTurn, OutlineOf, Inv;
  }

  // ---- Destruction

  ghost predicate BothDestroyed(c: Controller, t: Turn, context: Handle) {
    match t
    case Turn(now, _, _, _) =>
      && c.graph.Some? && now.graph.Some? && context in c.synthetic
      && (var o := OutlineOf(c.graph.value);
          OutlineOf(now.graph.value) ==
            o.(contexts := o.contexts - {context}, sequences := o.sequences - {c.synthetic[context]}))
      && now.synthetic == c.synthetic - {context}
      && now.contextHosts == c.contextHosts - {Ctx(context)}
  }

  // While contexts and sequences are paired, destroying a context takes its sequence with it, or does
  // nothing; and it does so exactly when the graph may be edited and no region is left in the sequence.
  lemma DestructionIsAllOrNothing(c: Controller, context: Handle)
    requires Tidy(c) && Together(c)
    ensures
      var t := DestroyContextTurn(c, context);
      if Editable(c) && context in c.synthetic && NoRegionIn(OutlineOf(c.graph.value), c.synthetic[context])
      then BothDestroyed(c, t, context)
      else NothingDone(c, t)
  {
    hide Inv, Step, OutlineOf, LeavesJobs, RespectsReaders, Asks, Performs, Tidy, NothingDone, BothDestroyed,
      NoRegionIn, NoSequenceIn;
    if Editable(c) {
      var g := c.graph.value;
      TidyGraph(c);
      OutlineGeneration(g);
      OnlyTombstones(c, g, Nothing);
      if context in c.synthetic {
        var q := DropSequence(c.synthetic[context]);
        DropSequenceOutline(g, c.synthetic[context]);
        if Step(g, q).outcome.Done? {
          SecondStepSucceeds(c, context);
        } else {
          OnlyTombstones(c, Step(g, q).graph, Nothing);
        }
      }
    } else {
      NothingAtAll(c);
    }
  }

  lemma NothingAtAll(c: Controller)
    ensures NothingDone(c, Quiet(c, Nothing))
  {
  }

  // After the sequence is gone the context has none left.
  lemma SecondStepSucceeds(c: Controller, context: Handle)
    requires c.graph.Some? && Inv(c.graph.value) && Together(c) && Editable(c) && context in c.synthetic
    requires Step(c.graph.value, DropSequence(c.synthetic[context])).outcome.Done?
    ensures BothDestroyed(c, DestroyContextTurn(c, context), context)
  {
    hide Inv, Step, OutlineOf, NoRegionIn, LeavesJobs, RespectsReaders, Asks, Performs;
    var g, s := c.graph.value, c.synthetic[context];
    var r := Step(g, DropSequence(s));
    OutlineGeneration(g);
    DropSequenceOutline(g, s);
    DropContextOutline(r.graph, context);
    assert NoSequenceIn(OutlineOf(r.graph), context);
    assert context in OutlineOf(r.graph).contexts;
  }

  // ---- Runs

  lemma CreationKeepsTogether(c: Controller, host: Option<HostRef>, reply: Option<nat>, sequenceReply: Option<nat>)
    requires Tidy(c) && Together(c)
    ensures Together(CreateContextTurn(c, host, reply, sequenceReply).now)
  {
    hide Inv, Tidy, Step, OutlineOf, Paired, CreateContextTurn;
    var t := CreateContextTurn(c, host, reply, sequenceReply);
    if c.graph.Some? {
      var g, o := c.graph.value, OutlineOf(c.graph.value);
      CreationIsAllOrNothing(c, host, reply, sequenceReply);
      OutlineGeneration(g);
      OutlineGeneration(t.now.graph.value);
      if t.answer != Reference(None) {
        var h, s :| && t.answer == Reference(Some(h)) && h !in o.contexts && s !in o.sequences
          && OutlineOf(t.now.graph.value) == o.(contexts := o.contexts[h := ()], sequences := o.sequences[s := h])
          && t.now.synthetic == c.synthetic[h := s];
        PairMore(c.synthetic, o.contexts.Keys, o.sequences, h, s);
        assert o.contexts[h := ()].Keys == o.contexts.Keys + {h};
      }
    } else {
      assert t.now == c by { CreateWithoutGraph(c, host, reply, sequenceReply); }
    }
  }

  lemma CreateWithoutGraph(c: Controller, host: Option<HostRef>, reply: Option<nat>, sequenceReply: Option<nat>)
    requires c.graph.None?
    ensures CreateContextTurn(c, host, reply, sequenceReply).now == c
  {
  }

  lemma DestructionKeepsTogether(c: Controller, context: Handle)
    requires Tidy(c) && Together(c)
    ensures Together(DestroyContextTurn(c, context).now)
  {
    hide Inv, Tidy, Step, OutlineOf, Paired, DestroyContextTurn, NoRegionIn;
    var t := DestroyContextTurn(c, context);
    DestructionIsAllOrNothing(c, context);
    if c.graph.Some? {
      OutlineGeneration(c.graph.value);
      OutlineGeneration(t.now.graph.value);
      if context in c.synthetic {
        var o := OutlineOf(c.graph.value);
        PairLess(c.synthetic, o.contexts.Keys, o.sequences, context);
        assert (o.contexts - {context}).Keys == o.contexts.Keys - {context};
      }
    }
  }

  lemma BeginRestoreKeepsTogether(c: Controller, reader: HostRef, readable: bool, begun: bool, restored: bool,
                                  ended: bool)
    requires Tidy(c) && Together(c)
    ensures Joined(c.synthetic, BeginRestoreEffect(c, reader, readable, begun, restored, ended).graph)
  {
    hide Tidy, Step, Joined;
    if Reachable(c) {
      ElsewhereKeeps(c, BeginEdit(begun));
      var c1 := WithGraph(c, Step(c.graph.value, BeginEdit(begun)).graph);
      NeutralKeeps(c, BeginEdit(begun));
      ElsewhereKeeps(c1, EndEdit(ended));
    }
  }

  lemma EndRestoreKeepsTogether(c: Controller, reader: HostRef, ended: bool)
    requires Tidy(c) && Together(c)
    ensures Joined(c.synthetic, EndRestoreEffect(c, reader, ended).graph)
  {
    hide Tidy, Step, Joined;
    if Reachable(c) {
      ElsewhereKeeps(c, EndEdit(ended));
    }
  }

  lemma EffectKeepsTogether(c: Controller, e: Effect)
    requires Joined(c.synthetic, e.graph)
    ensures Together(Restoring(c, e).now)
  {
    hide Joined, LeavesJobs, RespectsReaders;
  }

  lemma AskingKeepsTogether(c: Controller, t: Turn, q: Request)
    requires Tidy(c) && Together(c) && Asks(c, t, q) && Elsewhere(q)
    ensures Together(t.now)
  {
    hide Tidy, Step, Joined;
    if c.graph.Some? {
      ElsewhereKeeps(c, q);
    }
  }

  // Callbacks that leave the graph alone, or drop it.
  predicate Bystander(cb: Callback) {
    cb.DestroyController? || cb.NotifyUpdates? || cb.RequestAnalysis? || cb.CreateReader? || cb.DestroyReader?
    || cb.EmitProgress? || cb.EmitCompletion? || cb.EmitChange?
  }

  lemma BystandersKeepTogether(c: Controller, cb: Callback)
    requires Together(c) && Bystander(cb)
    ensures Together(Act(c, cb).now)
  {
    hide Paired, OutlineOf, LeavesJobs, RespectsReaders, Asks, Performs, NotifyModelUpdates, RequestAnalysisTurn,
      CreateReaderTurn, Updates.Marked;
  }

  // The callbacks that come to one request.
  predicate Single(cb: Callback) {
    !Bystander(cb) && !cb.CreateContext? && !cb.DestroyContext? && !cb.BeginRestore? && !cb.EndRestore?
  }

  lemma OneRequest(c: Controller, cb: Callback) returns (q: Request)
    requires Single(cb)
    ensures Asks(c, Act(c, cb), q) && !q.DropContext? && (Legacy(cb) ==> Elsewhere(q))
    ensures q.DropSequence? ==> cb == DestroySequence(q.sequence)
  {
    hide Act, Asks;
    if OfModificationOrSequence(cb) {
      q := OneLowerRequest(c, cb);
    } else {
      q := OneUpperRequest(c, cb);
    }
  }

  lemma OneUpperRequest(c: Controller, cb: Callback) returns (q: Request)
    requires Single(cb) && !OfModificationOrSequence(cb)
    ensures Asks(c, Act(c, cb), q) && Elsewhere(q)
  {
    hide LeavesJobs, CancelsJob, RespectsReaders, Asks, Performs, MayDestroySource, Edit, Interval, Step,
      CreateSourceTurn, DeactivateSourceTurn, EnableSamplesTurn, DestroySourceTurn;
    match cb
    case BeginEditing(accepted) => q := BeginEdit(accepted);
    case EndEditing(accepted) => q := EndEdit(accepted);
    case UpdateDocument(accepted) => q := EditDocument(accepted);
    case UpdateContext(h, accepted) => q := EditContext(h, accepted); QuietAsks(c, q);
    case CreateSource(_, reply) => q := MakeSource(reply);
    case UpdateSource(s, accepted) => q := EditSource(s, accepted); QuietAsks(c, q);
    case DeactivateSource(s, deactivated, accepted) => q := SwitchSource(s, deactivated, accepted);
    case EnableSamples(s, _, accepted) => q := EnableAccess(s, accepted);
    case DestroySource(s) => q := DropSource(s);
  }

  lemma OneLowerRequest(c: Controller, cb: Callback) returns (q: Request)
    requires OfModificationOrSequence(cb)
    ensures Asks(c, Act(c, cb), q) && !q.DropContext? && (Legacy(cb) ==> Elsewhere(q))
    ensures q.DropSequence? ==> cb == DestroySequence(q.sequence)
  {
    hide LeavesJobs, RespectsReaders, Asks, Performs, Edit, Step, CreateModificationTurn, DestroyModificationTurn,
      CreateSequenceTurn, CreateRegionTurn, UpdateRegionTurn, DestroyRegionTurn;
    match cb
    case CreateModification(s, _, reply) => q := MakeModification(s, reply);
    case CloneModification(m, _, reply) => q := CopyModification(m, reply);
    case UpdateModification(m, accepted) => q := EditModification(m, accepted);
    case DeactivateModification(m, deactivated, accepted) => q := SwitchModification(m, deactivated, accepted);
    case DestroyModification(m) => q := DropModification(m);
    case CreateSequence(_, _) => q := OneSequenceRequest(c, cb);
    case UpdateSequence(_, _, _) => q := OneSequenceRequest(c, cb);
    case DestroySequence(_) => q := OneSequenceRequest(c, cb);
    case _ => q := OneRegionRequest(c, cb);
  }

  lemma OneSequenceRequest(c: Controller, cb: Callback) returns (q: Request)
    requires cb.CreateSequence? || cb.UpdateSequence? || cb.DestroySequence?
    ensures Asks(c, Act(c, cb), q) && !q.DropContext?
    ensures q.DropSequence? ==> cb == DestroySequence(q.sequence)
  {
    hide LeavesJobs, RespectsReaders, Asks, Performs, Edit, Step, CreateSequenceTurn;
    match cb
    case CreateSequence(h, reply) => q := MakeSequence(h, h, reply);
    case UpdateSequence(s, h, accepted) => q := EditSequence(s, h, h, accepted);
    case DestroySequence(s) => q := DropSequence(s);
  }

  lemma OneRegionRequest(c: Controller, cb: Callback) returns (q: Request)
    requires cb.CreateRegion? || cb.UpdateRegion? || cb.DestroyRegion?
    ensures Asks(c, Act(c, cb), q) && Elsewhere(q)
  {
    hide LeavesJobs, RespectsReaders, Asks, Performs, Step, CreateRegionTurn, UpdateRegionTurn, DestroyRegionTurn,
      PlaceOf;
    match cb
    case CreateRegion(m, _, parent, _, reply) => q := RegionRequest(c, m, parent, reply);
    case UpdateRegion(region, parent, _, accepted) => q := MoveRequest(c, region, parent, accepted);
    case DestroyRegion(region) => q := DropRegion(region);
  }

  lemma QuietAsks(c: Controller, q: Request)
    ensures Asks(c, Quiet(c, Nothing), q)
  {
  }

  lemma LegacyKeepsTogether(c: Controller, cb: Callback)
    requires Tidy(c) && Together(c) && Legacy(cb)
    ensures Together(Act(c, cb).now)
  {
    hide Tidy, Together, Asks, Act;
    if Bystander(cb) {
      BystandersKeepTogether(c, cb);
    } else if Single(cb) {
      var q := OneRequest(c, cb);
      AskingKeepsTogether(c, Act(c, cb), q);
    } else {
      DoubleKeepsTogether(c, cb);
    }
  }

  // The callbacks of two requests.
  lemma DoubleKeepsTogether(c: Controller, cb: Callback)
    requires Tidy(c) && Together(c) && !Single(cb) && !Bystander(cb)
    ensures Together(Act(c, cb).now)
  {
    hide Tidy, Joined, LeavesJobs, RespectsReaders, Restoring, BeginRestoreEffect, EndRestoreEffect,
      CreateContextTurn, DestroyContextTurn;
    match cb
    case BeginRestore(reader, readable, begun, restored, ended) =>
      BeginRestoreKeepsTogether(c, reader, readable, begun, restored, ended);
      EffectKeepsTogether(c, BeginRestoreEffect(c, reader, readable, begun, restored, ended));
    case EndRestore(reader, ended) =>
      EndRestoreKeepsTogether(c, reader, ended);
      EffectKeepsTogether(c, EndRestoreEffect(c, reader, ended));
    case CreateContext(host, reply, sequenceReply) => CreationKeepsTogether(c, host, reply, sequenceReply);
    case DestroyContext(context) => DestructionKeepsTogether(c, context);
  }

  // In every ARA 1 run contexts and synthetic sequences are in bijection, each context's one child is
  // its synthetic sequence, and its counter says so.
  lemma LegacyRunsArePaired(generation: nat, session: nat, document: nat, hearsUpdates: bool,
                            analyzable: set<int>, cbs: seq<Callback>)
    requires generation < V2_DRAFT && (forall cb :: cb in cbs ==> Legacy(cb))
    ensures
      var c := After(NewController(NewGraph(generation, session, document), hearsUpdates, analyzable), cbs).now;
      c.graph.Some? ==>
        var g := c.graph.value;
        && c.synthetic.Keys == g.contexts.live.Keys
        && (forall h :: h in c.synthetic ==>
              && c.synthetic[h] in g.sequences.live && g.sequences.live[c.synthetic[h]].context == h
              && Kids(g.sequences.live, ContextOf, h) == {c.synthetic[h]}
              && g.contexts.live[h].children == 1)
        && (forall s :: s in g.sequences.live ==>
              g.sequences.live[s].context in c.synthetic && c.synthetic[g.sequences.live[s].context] == s)
  {
    hide Act, Tidy, Joined;
    var c0 := NewController(NewGraph(generation, session, document), hearsUpdates, analyzable);
    NewControllerTidy(generation, session, document, hearsUpdates, analyzable);
    NewControllerTogether(generation, session, document, hearsUpdates, analyzable);
    LegacyRunsStayTogether(c0, cbs);
    var c := After(c0, cbs).now;
    if c.graph.Some? {
      TogetherInWords(c);
    }
  }

  lemma NewControllerTogether(generation: nat, session: nat, document: nat, hearsUpdates: bool, analyzable: set<int>)
    requires generation < V2_DRAFT
    ensures Together(NewController(NewGraph(generation, session, document), hearsUpdates, analyzable))
  {
  }

  lemma {:induction false} LegacyRunsStayTogether(c: Controller, cbs: seq<Callback>)
    requires Tidy(c) && Together(c) && forall cb :: cb in cbs ==> Legacy(cb)
    ensures Tidy(After(c, cbs).now) && Together(After(c, cbs).now)
  {
    hide Tidy, Joined, Act;
    if cbs != [] {
      var init, last := cbs[..|cbs| - 1], cbs[|cbs| - 1];
      assert last in cbs;
      forall x | x in init ensures x in cbs {
      }
      LegacyRunsStayTogether(c, init);
      ActKeeps(After(c, init).now, last);
      LegacyKeepsTogether(After(c, init).now, last);
    }
  }

  lemma TogetherInWords(c: Controller)
    requires Tidy(c) && Together(c) && c.graph.Some?
    ensures
      var g := c.graph.value;
      && c.synthetic.Keys == g.contexts.live.Keys
      && (forall h :: h in c.synthetic ==>
            && c.synthetic[h] in g.sequences.live && g.sequences.live[c.synthetic[h]].context == h
            && Kids(g.sequences.live, ContextOf, h) == {c.synthetic[h]}
            && g.contexts.live[h].children == 1)
      && (forall s :: s in g.sequences.live ==>
            g.sequences.live[s].context in c.synthetic && c.synthetic[g.sequences.live[s].context] == s)
  {
    hide Inv, Tidy;
    var g := c.graph.value;
    TidyGraph(c);
    ContextChildren(g);
    PairedInWords(c.synthetic, g);
    forall h | h in c.synthetic ensures Kids(g.sequences.live, ContextOf, h) == {c.synthetic[h]} {
    }
  }

  lemma ContextChildren(g: Graph)
    requires Inv(g)
    ensures forall h :: h in g.contexts.live ==>
              g.contexts.live[h].children == |Kids(g.sequences.live, ContextOf, h)|
  {
    InvChildren(g);
  }

  lemma PairedInWords(synthetic: map<Handle, Handle>, g: Graph)
    requires Joined(synthetic, Some(g))
    ensures synthetic.Keys == g.contexts.live.Keys
    ensures forall h :: h in synthetic ==>
              synthetic[h] in g.sequences.live && g.sequences.live[synthetic[h]].context == h
    ensures forall s :: s in g.sequences.live ==>
              g.sequences.live[s].context in synthetic && synthetic[g.sequences.live[s].context] == s
  {
    var o := OutlineOf(g);
    assert o.contexts.Keys == g.contexts.live.Keys && o.sequences.Keys == g.sequences.live.Keys;
    assert forall s :: s in g.sequences.live ==> o.sequences[s] == g.sequences.live[s].context;
  }

  // ---- Outside ARA 1 runs

  // If the host also manages region sequences itself, destruction can stop half way: the synthetic
  // sequence is gone and the context stays.  It happens exactly when the context has another one.
  // `TornContexts` gives a run that does this, and shows that such a context stays for good.
  lemma TornExactly(c: Controller, context: Handle)
    requires Tidy(c) && Editable(c) && context in c.graph.value.contexts.live && context in c.synthetic
    requires c.synthetic[context] in c.graph.value.sequences.live
    ensures
      var g, s, g' := c.graph.value, c.synthetic[context], DestroyContextTurn(c, context).now.graph;
      g'.Some? && (s !in g'.value.sequences.live && context in g'.value.contexts.live <==>
                   && NoRegionIn(OutlineOf(g), s)
                   && exists other :: other != s && other in g.sequences.live
                                      && g.sequences.live[other].context == context)
  {
    hide Inv, Step, OutlineOf, LeavesJobs, RespectsReaders, Asks, Performs, Tidy, NoRegionIn;
    var g, s := c.graph.value, c.synthetic[context];
    TidyGraph(c);
    FirstStepAlone(g, s, context);
    if Step(g, DropSequence(s)).outcome.Done? {
      SecondStepAlone(g, s, context);
    }
  }

  lemma FirstStepAlone(g: Graph, s: Handle, context: Handle)
    requires Inv(g) && s in g.sequences.live && context in g.contexts.live
    ensures
      var r := Step(g, DropSequence(s));
      && (r.outcome.Done? <==> NoRegionIn(OutlineOf(g), s))
      && (r.outcome.Done? <==> s !in r.graph.sequences.live) && context in r.graph.contexts.live
  {
    hide Inv, Step, OutlineOf, NoRegionIn;
    LiveInOutline(g);
    DropSequenceOutline(g, s);
    LiveInOutline(Step(g, DropSequence(s)).graph);
  }

  lemma SecondStepAlone(g: Graph, s: Handle, context: Handle)
    requires Inv(g) && s in g.sequences.live && context in g.contexts.live
    requires Step(g, DropSequence(s)).outcome.Done?
    ensures
      var r := Step(g, DropSequence(s));
      var d := Step(r.graph, DropContext(context));
      && s !in d.graph.sequences.live
      && (context in d.graph.contexts.live <==> !d.outcome.Done?)
      && (!d.outcome.Done? <==> exists other :: other != s && other in g.sequences.live
                                                && g.sequences.live[other].context == context)
  {
    hide Inv, Step, OutlineOf, NoRegionIn, NoSequenceIn;
    LiveInOutline(g);
    DropSequenceOutline(g, s);
    var r := Step(g, DropSequence(s));
    LiveInOutline(r.graph);
    DropContextOutline(r.graph, context);
    LiveInOutline(Step(r.graph, DropContext(context)).graph);
    OtherSequences(OutlineOf(g), s, context);
    SameOthers(g, s, context);
  }

  lemma SameOthers(g: Graph, s: Handle, context: Handle)
    ensures (exists other :: other != s && other in OutlineOf(g).sequences && OutlineOf(g).sequences[other] == context)
            <==> exists other :: other != s && other in g.sequences.live && g.sequences.live[other].context == context
  {
    LiveInOutline(g);
  }

  lemma LiveInOutline(g: Graph)
    ensures OutlineOf(g).contexts.Keys == g.contexts.live.Keys
    ensures OutlineOf(g).sequences.Keys == g.sequences.live.Keys
    ensures forall s :: s in g.sequences.live ==> OutlineOf(g).sequences[s] == g.sequences.live[s].context
  {
    assert OutlineOf(g).contexts.Keys == g.contexts.live.Keys && OutlineOf(g).sequences.Keys == g.sequences.live.Keys;
  }

  lemma OtherSequences(o: Outline, s: Handle, context: Handle)
    ensures NoSequenceIn(o.(sequences := o.sequences - {s}), context) <==>
            !exists other :: other != s && other in o.sequences && o.sequences[other] == context
  {
    var o' := o.(sequences := o.sequences - {s});
    if exists other :: other != s && other in o.sequences && o.sequences[other] == context {
      var other :| other != s && other in o.sequences && o.sequences[other] == context;
      assert other in o'.sequences;
    }
  }
}
