// What the controller's side tables say about the graph, and that every callback keeps it so.  The
// graph enters only through a census of its live objects.
module ControllerInvariant {
  import opened Prelude
  import opened Registries
  import opened DocumentGraph
  import opened GraphInvariant
  import opened GraphTheorems
  import opened GraphOutline
  import opened Analysis
  import opened Controllers
  import Updates

  // ---- Which objects are live, and which sources are active

  datatype Census = Census(
    contexts: set<Handle>, sources: set<Handle>, modifications: set<Handle>, regions: set<Handle>,
    active: set<Handle>)

  ghost function CensusOf(g: Graph): Census {
    Census(g.contexts.live.Keys, g.sources.live.Keys, g.modifications.live.Keys, g.regions.live.Keys,
           set s | s in g.sources.live && g.sources.live[s].active)
  }

  // What a granted request does to the census.
  ghost function Recount(n: Census, q: Request, newcomer: Handle): Census {
    match q
    case MakeContext(_) => n.(contexts := n.contexts + {newcomer})
    case MakeSource(_) => n.(sources := n.sources + {newcomer}, active := n.active + {newcomer})
    case MakeModification(_, _) => n.(modifications := n.modifications + {newcomer})
    case CopyModification(_, _) => n.(modifications := n.modifications + {newcomer})
    case MakeRegion(_, _, _, _, _) => n.(regions := n.regions + {newcomer})
    case SwitchSource(s, deactivated, _) =>
      n.(active := if deactivated then n.active - {s} else n.active + {s})
    case DropRegion(r) => n.(regions := n.regions - {r})
    case DropModification(m) => n.(modifications := n.modifications - {m})
    case DropContext(c) => n.(contexts := n.contexts - {c})
    case DropSource(s) => n.(sources := n.sources - {s}, active := n.active - {s})
    case _ => n
  }

  ghost function CensusOfOutline(o: Outline): Census {
    Census(o.contexts.Keys, o.sources.Keys, o.modifications.Keys, o.regions.Keys,
           set s | s in o.sources && o.sources[s])
  }

  lemma CensusIsOutlined(g: Graph)
    ensures CensusOf(g) == CensusOfOutline(OutlineOf(g))
  {
    var o := OutlineOf(g);
    assert o.contexts.Keys == g.contexts.live.Keys && o.sources.Keys == g.sources.live.Keys;
    assert o.modifications.Keys == g.modifications.live.Keys && o.regions.Keys == g.regions.live.Keys;
  }

  lemma RecountApplies(o: Outline, q: Request, newcomer: Handle)
    requires Allowed(o, q)
    ensures CensusOfOutline(Apply(o, q, newcomer)) == Recount(CensusOfOutline(o), q, newcomer)
  {
    var o' := Apply(o, q, newcomer);
    var n, n' := CensusOfOutline(o), Recount(CensusOfOutline(o), q, newcomer);
    assert o'.contexts.Keys == n'.contexts && o'.sources.Keys == n'.sources;
    assert o'.modifications.Keys == n'.modifications && o'.regions.Keys == n'.regions;
  }

  // One request and the census: recounted when granted, and otherwise the same.
  lemma StepRecounts(g: Graph, q: Request)
    requires Inv(g)
    ensures Inv(Step(g, q).graph)
    ensures
      var r := Step(g, q);
      CensusOf(r.graph) == if r.outcome.Done? then Recount(CensusOf(g), q, HandleOf(r.outcome.value))
                           else CensusOf(g)
  {
    hide Inv, Step, OutlineOf, Apply, Allowed, Recount, CensusOf, CensusOfOutline;
    StepKeeps(g, q);
    StepRefines(g, q);
    CensusIsOutlined(g);
    CensusIsOutlined(Step(g, q).graph);
    if Step(g, q).outcome.Done? {
      RecountApplies(OutlineOf(g), q, HandleOf(Step(g, q).outcome.value));
    } else {
      RefusedChangesNothing(g, q);
    }
  }

  // ---- The side tables

  // The keys of a host table are the identities of the live objects of its kind.
  ghost predicate Keyed(hosts: map<RawHandle, HostRef>, kind: Kind, live: set<Handle>) {
    match kind
    case k => forall r :: r in hosts <==> r.kind == k && r.handle in live
  }

  lemma KeyedAdd(hosts: map<RawHandle, HostRef>, kind: Kind, live: set<Handle>, h: Handle, host: HostRef)
    requires Keyed(hosts, kind, live)
    ensures Keyed(hosts[RawHandle(kind, h) := host], kind, live + {h})
  {
  }

  lemma KeyedRemove(hosts: map<RawHandle, HostRef>, kind: Kind, live: set<Handle>, h: Handle)
    requires Keyed(hosts, kind, live)
    ensures Keyed(hosts - {RawHandle(kind, h)}, kind, live - {h})
  {
  }

  // Deferred starts are distinct active jobs that have not progressed.
  ghost predicate Pending(starts: seq<RawHandle>, jobs: Jobs) {
    match starts
    case s =>
      && (forall i, j :: 0 <= i < j < |s| ==> s[i] != s[j])
      && (forall i :: 0 <= i < |s| ==> s[i] in jobs && jobs[s[i]].progress == 0.0)
      && (forall r :: r in jobs ==> 0.0 <= jobs[r].progress < 1.0)
  }

  // Jobs run only on live active sources.
  ghost predicate Employed(jobs: Jobs, active: set<Handle>) {
    match active
    case a => forall r :: r in jobs ==> r.kind == AudioSourceKind && r.handle in a
  }

  ghost predicate Matches(c: Controller, n: Census) {
    match n
    case Census(contexts, sources, modifications, regions, active) =>
      && Keyed(c.contextHosts, MusicalContextKind, contexts)
      && Keyed(c.sourceHosts, AudioSourceKind, sources)
      && Keyed(c.modificationHosts, AudioModificationKind, modifications)
      && Keyed(c.regionHosts, PlaybackRegionKind, regions)
      && Employed(c.jobs, active)
  }

  ghost predicate Tidy(c: Controller) {
    match c.graph
    case None => Pending(c.pendingStarts, c.jobs) && |c.readers| <= 1
    case Some(g) =>
      && Pending(c.pendingStarts, c.jobs) && |c.readers| <= 1
      && Inv(g) && Matches(c, CensusOf(g))
  }

  // ---- Cancelling

  lemma {:induction false} RetainIsExact(sources: seq<RawHandle>, gone: RawHandle)
    requires forall i, j :: 0 <= i < j < |sources| ==> sources[i] != sources[j]
    ensures
      var r := Retain(sources, gone);
      && (forall s :: s in r <==> s in sources && s != gone)
      && forall i, j :: 0 <= i < j < |r| ==> r[i] != r[j]
  {
    if sources != [] {
      var init, last := sources[..|sources| - 1], sources[|sources| - 1];
      RetainIsExact(init, gone);
      assert sources == init + [last];
      assert last !in init;
    }
  }

  lemma CancelPending(starts: seq<RawHandle>, jobs: Jobs, source: RawHandle)
    requires Pending(starts, jobs)
    ensures Pending(Retain(starts, source), jobs - {source})
    ensures source !in Retain(starts, source)
    ensures forall s :: s != source ==> (s in Retain(starts, source) <==> s in starts)
  {
    RetainIsExact(starts, source);
    var r := Retain(starts, source);
    forall i | 0 <= i < |r| ensures r[i] in starts && r[i] != source {
      assert r[i] in r;
    }
  }

  lemma CancelEmployed(jobs: Jobs, active: set<Handle>, source: Handle)
    requires Employed(jobs, active)
    ensures Employed(jobs - {Src(source)}, active) && Employed(jobs - {Src(source)}, active - {source})
  {
  }

  lemma CancelTidy(c: Controller, source: Handle)
    requires Tidy(c)
    ensures Tidy(Cancel(c, Src(source)))
  {
    hide Pending, Employed, Keyed, Inv, CensusOf, Retain, Without;
    CancelPending(c.pendingStarts, c.jobs, Src(source));
    if c.graph.Some? {
      CancelEmployed(c.jobs, CensusOf(c.graph.value).active, source);
    }
  }

  // ---- The callbacks

  // Requests that change no census.
  predicate Neutral(q: Request) {
    q.BeginEdit? || q.EndEdit? || q.EditDocument? || q.EditContext? || q.EditSource? || q.EnableAccess?
    || q.EditModification? || q.SwitchModification? || q.EditSequence? || q.EditRegion?
    || q.MakeSequence? || q.DropSequence?
  }

  lemma NeutralKeeps(c: Controller, q: Request)
    requires Tidy(c) && c.graph.Some? && Neutral(q)
    ensures Tidy(WithGraph(c, Step(c.graph.value, q).graph))
    ensures CensusOf(Step(c.graph.value, q).graph) == CensusOf(c.graph.value)
  {
    hide Pending, Employed, Keyed, Inv, CensusOf, Step;
    StepRecounts(c.graph.value, q);
  }

  lemma EditKeeps(c: Controller, q: Request)
    requires Tidy(c) && Neutral(q) && !Creates(q)
    ensures Tidy(Edit(c, q).now) && Tidy(Interval(c, q).now)
  {
    hide Tidy, Step, LeavesJobs, RespectsReaders, Asks, Performs;
    if Reachable(c) {
      NeutralKeeps(c, q);
    }
  }

  lemma RefusedKeeps(c: Controller, q: Request)
    requires Tidy(c) && c.graph.Some? && !Step(c.graph.value, q).outcome.Done?
    ensures Tidy(WithGraph(c, Step(c.graph.value, q).graph))
  {
    hide Pending, Employed, Keyed, Inv, CensusOf, Step;
    StepRecounts(c.graph.value, q);
  }

  lemma RestoringKeeps(c: Controller, e: Effect)
    requires Tidy(c) && e.graph.Some? == c.graph.Some?
    requires c.graph.Some? ==> Inv(e.graph.value) && CensusOf(e.graph.value) == CensusOf(c.graph.value)
    ensures Tidy(Restoring(c, e).now)
  {
    hide Pending, Employed, Keyed, Inv, CensusOf, LeavesJobs, RespectsReaders;
  }

  lemma BeginRestoreIsNeutral(c: Controller, reader: HostRef, readable: bool, begun: bool, restored: bool, ended: bool)
    requires Tidy(c)
    ensures
      var e := BeginRestoreEffect(c, reader, readable, begun, restored, ended);
      && e.graph.Some? == c.graph.Some?
      && (c.graph.Some? ==> Inv(e.graph.value) && CensusOf(e.graph.value) == CensusOf(c.graph.value))
      && (c.readers != {} ==> e.graph == c.graph)
  {
    hide Pending, Employed, Keyed, Inv, CensusOf, Step, Matches, Recount;
    if c.graph.Some? {
      NeutralStep(c.graph.value, BeginEdit(begun));
      NeutralStep(Step(c.graph.value, BeginEdit(begun)).graph, EndEdit(ended));
    }
  }

  lemma EndRestoreIsNeutral(c: Controller, reader: HostRef, ended: bool)
    requires Tidy(c)
    ensures
      var e := EndRestoreEffect(c, reader, ended);
      && e.graph.Some? == c.graph.Some?
      && (c.graph.Some? ==> Inv(e.graph.value) && CensusOf(e.graph.value) == CensusOf(c.graph.value))
      && (c.readers != {} ==> e.graph == c.graph)
  {
    hide Pending, Employed, Keyed, Inv, CensusOf, Step, Matches, Recount;
    if c.graph.Some? {
      NeutralStep(c.graph.value, EndEdit(ended));
    }
  }

  lemma NeutralStep(g: Graph, q: Request)
    requires Inv(g) && Neutral(q)
    ensures Inv(Step(g, q).graph) && CensusOf(Step(g, q).graph) == CensusOf(g)
  {
    hide Inv, CensusOf, Step;
    StepRecounts(g, q);
  }

  lemma MadeContext(c: Controller, host: HostRef, reply: Option<nat>)
    requires Tidy(c) && c.graph.Some?
    ensures
      var r := Step(c.graph.value, MakeContext(reply));
      r.outcome.Done? ==>
        Tidy(WithGraph(c, r.graph).(contextHosts := c.contextHosts[Ctx(HandleOf(r.outcome.value)) := host]))
  {
    hide Pending, Employed, Keyed, Inv, CensusOf, Step;
    var n, r := CensusOf(c.graph.value), Step(c.graph.value, MakeContext(reply));
    StepRecounts(c.graph.value, MakeContext(reply));
    if r.outcome.Done? {
      KeyedAdd(c.contextHosts, MusicalContextKind, n.contexts, HandleOf(r.outcome.value), host);
    }
  }

  lemma SyntheticKeeps(c: Controller, synthetic: map<Handle, Handle>)
    requires Tidy(c)
    ensures Tidy(c.(synthetic := synthetic))
  {
    hide Pending, Employed, Keyed, Inv, CensusOf;
  }

  lemma CreateContextKeeps(c: Controller, host: Option<HostRef>, reply: Option<nat>, sequenceReply: Option<nat>)
    requires Tidy(c)
    ensures Tidy(CreateContextTurn(c, host, reply, sequenceReply).now)
  {
    hide Tidy, Step, LeavesJobs, RespectsReaders, Asks, Performs;
    if host.Some? && Editable(c) {
      MadeContext(c, host.value, reply);
      var r := Step(c.graph.value, MakeContext(reply));
      if !r.outcome.Done? {
        RefusedKeeps(c, MakeContext(reply));
      } else if c.graph.value.generation < V2_DRAFT {
        var h := HandleOf(r.outcome.value);
        var named := WithGraph(c, r.graph).(contextHosts := c.contextHosts[Ctx(h) := host.value]);
        NeutralKeeps(named, MakeSequence(h, h, sequenceReply));
        var s := Step(r.graph, MakeSequence(h, h, sequenceReply));
        if s.outcome.Done? {
          SyntheticKeeps(WithGraph(named, s.graph), c.synthetic[h := HandleOf(s.outcome.value)]);
        } else {
          RolledBackKeeps(c, reply, sequenceReply);
        }
      }
    }
  }

  lemma RolledBackKeeps(c: Controller, reply: Option<nat>, sequenceReply: Option<nat>)
    requires Tidy(c) && c.graph.Some? && Step(c.graph.value, MakeContext(reply)).outcome.Done?
    ensures
      var r := Step(c.graph.value, MakeContext(reply));
      var h := HandleOf(r.outcome.value);
      var s := Step(r.graph, MakeSequence(h, h, sequenceReply));
      !s.outcome.Done? ==> Tidy(WithGraph(c, Step(s.graph, DropContext(h)).graph))
  {
    hide Pending, Employed, Keyed, Inv, CensusOf, Step, Recount;
    var g := c.graph.value;
    var r := Step(g, MakeContext(reply));
    var h := HandleOf(r.outcome.value);
    StepRecounts(g, MakeContext(reply));
    StepRecounts(r.graph, MakeSequence(h, h, sequenceReply));
    var s := Step(r.graph, MakeSequence(h, h, sequenceReply));
    StepRecounts(s.graph, DropContext(h));
    NewcomerLeavesAgain(g, reply, sequenceReply);
  }

  // The rollback of a context whose synthetic sequence could not be made always succeeds, and takes
  // the census back to where it was.
  lemma NewcomerLeavesAgain(g: Graph, reply: Option<nat>, sequenceReply: Option<nat>)
    requires Inv(g) && Step(g, MakeContext(reply)).outcome.Done?
    ensures
      var r := Step(g, MakeContext(reply));
      var h := HandleOf(r.outcome.value);
      var s := Step(r.graph, MakeSequence(h, h, sequenceReply));
      !s.outcome.Done? ==>
        && Step(s.graph, DropContext(h)).outcome.Done?
        && OutlineOf(Step(s.graph, DropContext(h)).graph) == OutlineOf(g)
        && CensusOf(Step(s.graph, DropContext(h)).graph) == CensusOf(g)
  {
    hide Inv, Step, OutlineOf, CensusOf;
    var r := Step(g, MakeContext(reply));
    var h := HandleOf(r.outcome.value);
    var s := Step(r.graph, MakeSequence(h, h, sequenceReply));
    StepKeeps(g, MakeContext(reply));
    StepRefines(g, MakeContext(reply));
    StepKeeps(r.graph, MakeSequence(h, h, sequenceReply));
    if !s.outcome.Done? {
      RefusedChangesNothing(r.graph, MakeSequence(h, h, sequenceReply));
      NewcomerIsBare(g, reply);
      StepRefines(s.graph, DropContext(h));
      var d := Step(s.graph, DropContext(h));
      assert OutlineOf(d.graph).contexts == OutlineOf(g).contexts[h := ()] - {h} == OutlineOf(g).contexts;
      CensusIsOutlined(d.graph);
      CensusIsOutlined(g);
    }
  }

  // A new context is named by no sequence, and was not there before.
  lemma NewcomerIsBare(g: Graph, reply: Option<nat>)
    requires Inv(g) && Step(g, MakeContext(reply)).outcome.Done?
    ensures
      var r := Step(g, MakeContext(reply));
      var h := HandleOf(r.outcome.value);
      h !in OutlineOf(g).contexts && NoSequenceIn(OutlineOf(r.graph), h)
  {
    hide Kept;
    var r := Step(g, MakeContext(reply));
    var h := HandleOf(r.outcome.value);
    KeptBounds(g.contexts, ContextCommitted, g.liveContexts);
    InvParents(g);
    assert g.sequences == r.graph.sequences;
  }

  lemma DroppedContext(c: Controller, context: Handle)
    requires Tidy(c) && c.graph.Some?
    ensures
      var r := Step(c.graph.value, DropContext(context));
      r.outcome.Done? ==>
        Tidy(WithGraph(c, r.graph).(contextHosts := c.contextHosts - {Ctx(context)}))
  {
    hide Pending, Employed, Keyed, Inv, CensusOf, Step;
    StepRecounts(c.graph.value, DropContext(context));
    KeyedRemove(c.contextHosts, MusicalContextKind, CensusOf(c.graph.value).contexts, context);
  }

  lemma DestroyContextKeeps(c: Controller, context: Handle)
    requires Tidy(c)
    ensures Tidy(DestroyContextTurn(c, context).now)
  {
    hide Tidy, Step, LeavesJobs, RespectsReaders, Asks, Performs;
    if Editable(c) && context in c.graph.value.contexts.live {
      var g := c.graph.value;
      var r := if context in c.synthetic then Step(g, DropSequence(c.synthetic[context])) else Accept(g);
      if context in c.synthetic {
        NeutralKeeps(c, DropSequence(c.synthetic[context]));
      }
      var c1 := WithGraph(c, r.graph);
      assert Tidy(c1) by {
        if context !in c.synthetic { assert c1 == c; }
      }
      SecondDropKeeps(c1, context);
    }
  }

  lemma SecondDropKeeps(c: Controller, context: Handle)
    requires Tidy(c) && c.graph.Some?
    ensures
      var d := Step(c.graph.value, DropContext(context));
      Tidy(if d.outcome.Done?
           then WithGraph(c, d.graph).(contextHosts := c.contextHosts - {Ctx(context)},
                                       synthetic := c.synthetic - {context})
           else WithGraph(c, d.graph))
  {
    hide Tidy, Step;
    DroppedContext(c, context);
    var d := Step(c.graph.value, DropContext(context));
    if d.outcome.Done? {
      SyntheticKeeps(WithGraph(c, d.graph).(contextHosts := c.contextHosts - {Ctx(context)}), c.synthetic - {context});
    } else {
      RefusedKeeps(c, DropContext(context));
    }
  }

  lemma MadeSource(c: Controller, host: HostRef, reply: Option<nat>)
    requires Tidy(c) && c.graph.Some?
    ensures
      var r := Step(c.graph.value, MakeSource(reply));
      r.outcome.Done? ==>
        Tidy(WithGraph(c, r.graph).(sourceHosts := c.sourceHosts[Src(HandleOf(r.outcome.value)) := host]))
  {
    hide Pending, Employed, Keyed, Inv, CensusOf, Step;
    var n, r := CensusOf(c.graph.value), Step(c.graph.value, MakeSource(reply));
    StepRecounts(c.graph.value, MakeSource(reply));
    if r.outcome.Done? {
      KeyedAdd(c.sourceHosts, AudioSourceKind, n.sources, HandleOf(r.outcome.value), host);
      MoreEmployed(c.jobs, n.active, HandleOf(r.outcome.value));
    }
  }

  lemma CreateSourceKeeps(c: Controller, host: Option<HostRef>, reply: Option<nat>)
    requires Tidy(c)
    ensures Tidy(CreateSourceTurn(c, host, reply).now)
  {
    hide Tidy, Step, LeavesJobs, RespectsReaders, Asks, Performs;
    if host.Some? && Editable(c) {
      MadeSource(c, host.value, reply);
      if !Step(c.graph.value, MakeSource(reply)).outcome.Done? {
        RefusedKeeps(c, MakeSource(reply));
      }
    }
  }

  lemma Deactivated(c: Controller, source: Handle, accepted: bool)
    requires Tidy(c) && c.graph.Some?
    ensures
      var r := Step(c.graph.value, SwitchSource(source, true, accepted));
      r.outcome.Done? ==> Tidy(Cancel(WithGraph(c, r.graph), Src(source)))
  {
    hide Pending, Employed, Keyed, Inv, CensusOf, Step, Retain, Without;
    StepRecounts(c.graph.value, SwitchSource(source, true, accepted));
    CancelPending(c.pendingStarts, c.jobs, Src(source));
    CancelEmployed(c.jobs, CensusOf(c.graph.value).active, source);
  }

  lemma Reactivated(c: Controller, source: Handle, accepted: bool)
    requires Tidy(c) && c.graph.Some?
    ensures
      var r := Step(c.graph.value, SwitchSource(source, false, accepted));
      r.outcome.Done? ==> Tidy(WithGraph(c, r.graph))
  {
    hide Pending, Employed, Keyed, Inv, CensusOf, Step;
    StepRecounts(c.graph.value, SwitchSource(source, false, accepted));
    MoreEmployed(c.jobs, CensusOf(c.graph.value).active, source);
  }

  lemma DeactivateSourceKeeps(c: Controller, source: Handle, deactivated: bool, accepted: bool)
    requires Tidy(c)
    ensures Tidy(DeactivateSourceTurn(c, source, deactivated, accepted).now)
  {
    hide Tidy, Step, Cancel, RespectsReaders, Asks, Performs;
    if Editable(c) {
      Deactivated(c, source, accepted);
      Reactivated(c, source, accepted);
      if !Step(c.graph.value, SwitchSource(source, deactivated, accepted)).outcome.Done? {
        RefusedKeeps(c, SwitchSource(source, deactivated, accepted));
      }
    }
  }

  lemma DroppedSource(c: Controller, source: Handle)
    requires Tidy(c) && c.graph.Some?
    ensures
      var r := Step(c.graph.value, DropSource(source));
      r.outcome.Done? ==>
        Tidy(WithGraph(Cancel(c, Src(source)), r.graph).(sourceHosts := c.sourceHosts - {Src(source)}))
  {
    hide Pending, Employed, Keyed, Inv, CensusOf, Step, Retain, Without;
    var n := CensusOf(c.graph.value);
    StepRecounts(c.graph.value, DropSource(source));
    CancelPending(c.pendingStarts, c.jobs, Src(source));
    CancelEmployed(c.jobs, n.active, source);
    KeyedRemove(c.sourceHosts, AudioSourceKind, n.sources, source);
  }

  lemma DestroySourceKeeps(c: Controller, source: Handle)
    requires Tidy(c)
    ensures Tidy(DestroySourceTurn(c, source).now)
  {
    hide Tidy, Step, Retain, Without, ValidateSourceDestruction, LeavesJobs, CancelsJob;
    if c.graph.Some? {
      CancelTidy(c, source);
      DroppedSource(c, source);
      if !Step(c.graph.value, DropSource(source)).outcome.Done? {
        RefusedKeeps(Cancel(c, Src(source)), DropSource(source));
      }
    }
  }

  lemma MoreEmployed(jobs: Jobs, active: set<Handle>, h: Handle)
    requires Employed(jobs, active)
    ensures Employed(jobs, active + {h})
  {
  }

  lemma EnableSamplesKeeps(c: Controller, source: Handle, enable: bool, accepted: bool)
    requires Tidy(c)
    ensures Tidy(EnableSamplesTurn(c, source, enable, accepted).now)
  {
    hide Pending, Employed, Keyed, Inv, CensusOf, Step, Retain, Without;
    if c.graph.Some? {
      CancelTidy(c, source);
      NeutralKeeps(c, EnableAccess(source, accepted));
      NeutralKeeps(Cancel(c, Src(source)), EnableAccess(source, accepted));
    }
  }

  lemma RequestKeeps(c: Controller, source: Handle, types: seq<int>, accepted: bool)
    requires Tidy(c)
    ensures Tidy(RequestAnalysisTurn(c, source, types, accepted).now)
  {
    hide Inv, Keyed, RespectsReaders, Asks, Performs;
    var started := StartJob(c.jobs, Src(source), types);
    if started.Ok? {
      assert started.value - {Src(source)} == c.jobs;
    }
  }

  lemma MadeModification(c: Controller, host: HostRef, q: Request)
    requires Tidy(c) && c.graph.Some? && (q.MakeModification? || q.CopyModification?)
    ensures
      var r := Step(c.graph.value, q);
      r.outcome.Done? ==>
        Tidy(WithGraph(c, r.graph).(modificationHosts := c.modificationHosts[Mod(HandleOf(r.outcome.value)) := host]))
  {
    hide Pending, Employed, Keyed, Inv, CensusOf, Step;
    var n, r := CensusOf(c.graph.value), Step(c.graph.value, q);
    StepRecounts(c.graph.value, q);
    if r.outcome.Done? {
      KeyedAdd(c.modificationHosts, AudioModificationKind, n.modifications, HandleOf(r.outcome.value), host);
    }
  }

  lemma CreateModificationKeeps(c: Controller, host: Option<HostRef>, q: Request)
    requires Tidy(c) && (q.MakeModification? || q.CopyModification?)
    ensures Tidy(CreateModificationTurn(c, host, q).now)
  {
    hide Tidy, Step, LeavesJobs, RespectsReaders, Asks, Performs;
    if host.Some? && Editable(c) {
      MadeModification(c, host.value, q);
      if !Step(c.graph.value, q).outcome.Done? {
        RefusedKeeps(c, q);
      }
    }
  }

  lemma DestroyModificationKeeps(c: Controller, modification: Handle)
    requires Tidy(c)
    ensures Tidy(DestroyModificationTurn(c, modification).now)
  {
    hide Pending, Employed, Keyed, Inv, CensusOf, Step;
    if Editable(c) {
      var n := CensusOf(c.graph.value);
      StepRecounts(c.graph.value, DropModification(modification));
      KeyedRemove(c.modificationHosts, AudioModificationKind, n.modifications, modification);
    }
  }

  lemma MadeRegion(c: Controller, host: HostRef, q: Request)
    requires Tidy(c) && c.graph.Some? && q.MakeRegion?
    ensures
      var r := Step(c.graph.value, q);
      r.outcome.Done? ==>
        Tidy(WithGraph(c, r.graph).(regionHosts := c.regionHosts[Reg(HandleOf(r.outcome.value)) := host]))
  {
    hide Pending, Employed, Keyed, Inv, CensusOf, Step;
    var n, r := CensusOf(c.graph.value), Step(c.graph.value, q);
    StepRecounts(c.graph.value, q);
    if r.outcome.Done? {
      KeyedAdd(c.regionHosts, PlaybackRegionKind, n.regions, HandleOf(r.outcome.value), host);
    }
  }

  lemma CreateRegionKeeps(c: Controller, modification: Handle, host: Option<HostRef>, parent: Handle,
                          permitted: bool, reply: Option<nat>)
    requires Tidy(c)
    ensures Tidy(CreateRegionTurn(c, modification, host, parent, permitted, reply).now)
  {
    hide Tidy, Step, PlaceOf;
    var p := PlaceOf(c, parent);
    if Editable(c) && p.Some? && host.Some? {
      var q := RegionRequest(c, modification, parent, reply);
      MadeRegion(c, host.value, q);
      if !Step(c.graph.value, q).outcome.Done? {
        RefusedKeeps(c, q);
      }
    }
  }

  lemma UpdateRegionKeeps(c: Controller, region: Handle, parent: Handle, permitted: bool, accepted: bool)
    requires Tidy(c)
    ensures Tidy(UpdateRegionTurn(c, region, parent, permitted, accepted).now)
  {
    hide Tidy, Edit, PlaceOf;
    var p := PlaceOf(c, parent);
    if p.Some? {
      EditKeeps(c, MoveRequest(c, region, parent, accepted));
    }
  }

  lemma DestroyRegionKeeps(c: Controller, region: Handle)
    requires Tidy(c)
    ensures Tidy(DestroyRegionTurn(c, region).now)
  {
    hide Pending, Employed, Keyed, Inv, CensusOf, Step;
    if Editable(c) {
      var n := CensusOf(c.graph.value);
      StepRecounts(c.graph.value, DropRegion(region));
      KeyedRemove(c.regionHosts, PlaybackRegionKind, n.regions, region);
    }
  }

  lemma {:induction false} JobsAfterBounds(jobs: Jobs, queue: seq<Progress>)
    requires forall r :: r in jobs ==> 0.0 <= jobs[r].progress < 1.0
    ensures forall r :: r in JobsAfter(jobs, queue) ==>
              r in jobs && jobs[r].progress <= JobsAfter(jobs, queue)[r].progress < 1.0
  {
    if queue != [] {
      JobsAfterBounds(jobs, queue[..|queue| - 1]);
    }
  }

  lemma NotifyKeeps(c: Controller)
    requires Tidy(c)
    ensures Tidy(NotifyModelUpdates(c).now)
  {
    hide Keyed, Inv, CensusOf;
    JobsAfterBounds(c.jobs, c.queue);
  }

  lemma ReadersKeep(c: Controller, readers: set<Pointer>)
    requires Tidy(c) && |readers| <= 1
    ensures Tidy(c.(readers := readers)) && Tidy(c.(readers := readers, graph := None))
  {
    hide Pending, Employed, Keyed, Inv, CensusOf;
  }

  lemma FewerReaders(c: Controller, pointer: Pointer)
    requires Tidy(c)
    ensures Tidy(c.(readers := c.readers - {pointer}))
  {
    hide Pending, Employed, Keyed, Inv, CensusOf;
    if pointer !in c.readers {
      assert c.readers - {pointer} == c.readers;
    }
  }

  lemma OutsideKeeps(c: Controller, queue: seq<Progress>, tracker: Updates.Tracker)
    requires Tidy(c)
    ensures Tidy(c.(queue := queue)) && Tidy(c.(tracker := tracker))
  {
    hide Pending, Employed, Keyed, Inv, CensusOf;
  }

  lemma CreateSequenceKeeps(c: Controller, context: Handle, reply: Option<nat>)
    requires Tidy(c)
    ensures Tidy(CreateSequenceTurn(c, context, reply).now)
  {
    hide Tidy, Step, LeavesJobs, RespectsReaders, Asks, Performs;
    if Editable(c) {
      NeutralKeeps(c, MakeSequence(context, context, reply));
    }
  }

  lemma ActKeeps(c: Controller, cb: Callback)
    requires Tidy(c)
    ensures Tidy(Act(c, cb).now)
  {
    hide Tidy, Act;
    if OfContextOrSource(cb) {
      ContextsAndSourcesKeep(c, cb);
    } else if OfModificationOrSequence(cb) {
      ModificationsAndSequencesKeep(c, cb);
    } else {
      OthersKeep(c, cb);
    }
  }

  predicate OfContextOrSource(cb: Callback) {
    cb.CreateContext? || cb.UpdateContext? || cb.DestroyContext? || cb.CreateSource? || cb.UpdateSource?
    || cb.DeactivateSource? || cb.EnableSamples? || cb.DestroySource? || cb.RequestAnalysis?
  }

  predicate OfModificationOrSequence(cb: Callback) {
    cb.CreateModification? || cb.CloneModification? || cb.UpdateModification? || cb.DeactivateModification?
    || cb.DestroyModification? || cb.CreateSequence? || cb.UpdateSequence? || cb.DestroySequence?
    || cb.CreateRegion? || cb.UpdateRegion? || cb.DestroyRegion?
  }

  lemma ContextsAndSourcesKeep(c: Controller, cb: Callback)
    requires Tidy(c) && OfContextOrSource(cb)
    ensures Tidy(Act(c, cb).now)
  {
    hide Tidy, LeavesJobs, CancelsJob, RespectsReaders, Asks, Performs, KeepsGraph, MayDestroySource, Edit, Step,
      CreateContextTurn, DestroyContextTurn, CreateSourceTurn, DeactivateSourceTurn, EnableSamplesTurn,
      DestroySourceTurn, RequestAnalysisTurn;
    match cb
    case CreateContext(host, reply, sequenceReply) => CreateContextKeeps(c, host, reply, sequenceReply);
    case UpdateContext(context, accepted) => EditKeeps(c, EditContext(context, accepted));
    case DestroyContext(context) => DestroyContextKeeps(c, context);
    case CreateSource(host, reply) => CreateSourceKeeps(c, host, reply);
    case UpdateSource(source, accepted) => EditKeeps(c, EditSource(source, accepted));
    case DeactivateSource(source, d, accepted) => DeactivateSourceKeeps(c, source, d, accepted);
    case EnableSamples(source, enable, accepted) => EnableSamplesKeeps(c, source, enable, accepted);
    case DestroySource(source) => DestroySourceKeeps(c, source);
    case RequestAnalysis(source, types, accepted) => RequestKeeps(c, source, types, accepted);
  }

  lemma ModificationsAndSequencesKeep(c: Controller, cb: Callback)
    requires Tidy(c) && OfModificationOrSequence(cb)
    ensures Tidy(Act(c, cb).now)
  {
    hide Tidy, LeavesJobs, RespectsReaders, Asks, Performs, Edit, Step, CreateModificationTurn, DestroyModificationTurn,
      CreateRegionTurn, UpdateRegionTurn, DestroyRegionTurn, CreateSequenceTurn;
    match cb
    case UpdateModification(m, accepted) => EditKeeps(c, EditModification(m, accepted));
    case DeactivateModification(m, d, accepted) => EditKeeps(c, SwitchModification(m, d, accepted));
    case CreateModification(source, host, reply) =>
      CreateModificationKeeps(c, host, MakeModification(source, reply));
    case CloneModification(original, host, reply) =>
      CreateModificationKeeps(c, host, CopyModification(original, reply));
    case DestroyModification(m) => DestroyModificationKeeps(c, m);
    case _ => SequencesAndRegionsKeep(c, cb);
  }

  lemma SequencesAndRegionsKeep(c: Controller, cb: Callback)
    requires Tidy(c)
    requires cb.CreateSequence? || cb.UpdateSequence? || cb.DestroySequence? || cb.CreateRegion?
             || cb.UpdateRegion? || cb.DestroyRegion?
    ensures Tidy(Act(c, cb).now)
  {
    hide Tidy, LeavesJobs, RespectsReaders, Asks, Performs, Edit, Step, CreateRegionTurn, UpdateRegionTurn,
      DestroyRegionTurn, CreateSequenceTurn;
    match cb
    case CreateSequence(context, reply) => CreateSequenceKeeps(c, context, reply);
    case UpdateSequence(s, context, accepted) => EditKeeps(c, EditSequence(s, context, context, accepted));
    case DestroySequence(s) => EditKeeps(c, DropSequence(s));
    case CreateRegion(m, host, parent, permitted, reply) =>
      CreateRegionKeeps(c, m, host, parent, permitted, reply);
    case UpdateRegion(region, parent, permitted, accepted) =>
      UpdateRegionKeeps(c, region, parent, permitted, accepted);
    case DestroyRegion(region) => DestroyRegionKeeps(c, region);
  }

  lemma OthersKeep(c: Controller, cb: Callback)
    requires Tidy(c) && !OfContextOrSource(cb) && !OfModificationOrSequence(cb)
    ensures Tidy(Act(c, cb).now)
  {
    hide Tidy, LeavesJobs, RespectsReaders, Asks, Performs, KeepsGraph, Edit, Interval, Step,
      NotifyModelUpdates, Restoring,
      BeginRestoreEffect, EndRestoreEffect, Readable, Updates.Marked, Inv, CensusOf;
    match cb
    case BeginEditing(accepted) => EditKeeps(c, BeginEdit(accepted));
    case EndEditing(accepted) => EditKeeps(c, EndEdit(accepted));
    case NotifyUpdates => NotifyKeeps(c);
    case BeginRestore(reader, readable, begun, restored, ended) =>
      BeginRestoreIsNeutral(c, reader, readable, begun, restored, ended);
      RestoringKeeps(c, BeginRestoreEffect(c, reader, readable, begun, restored, ended));
    case EndRestore(reader, ended) =>
      EndRestoreIsNeutral(c, reader, ended);
      RestoringKeeps(c, EndRestoreEffect(c, reader, ended));
    case UpdateDocument(accepted) => EditKeeps(c, EditDocument(accepted));
    case DestroyController => ReadersKeep(c, {});
    case CreateReader(subject, cell) => if cell.Some? { ReadersKeep(c, {cell.value}); }
    case DestroyReader(pointer) => FewerReaders(c, pointer);
    case EmitProgress(about, p) => OutsideKeeps(c, c.queue + [Updated(about, p)], c.tracker);
    case EmitCompletion(about) => OutsideKeeps(c, c.queue + [Completed(about)], c.tracker);
    case EmitChange(mark) => OutsideKeeps(c, c.queue, Updates.Marked(c.tracker, mark));
  }

  lemma NewControllerTidy(generation: nat, session: nat, document: nat, hearsUpdates: bool, analyzable: set<int>)
    ensures Tidy(NewController(NewGraph(generation, session, document), hearsUpdates, analyzable))
  {
    NewGraphInv(generation, session, document);
  }

  lemma {:induction false} RunKeepsTidy(c: Controller, cbs: seq<Callback>)
    requires Tidy(c)
    ensures Tidy(After(c, cbs).now)
  {
    hide Tidy, Act;
    if cbs != [] {
      RunKeepsTidy(c, cbs[..|cbs| - 1]);
      ActKeeps(After(c, cbs[..|cbs| - 1]).now, cbs[|cbs| - 1]);
    }
  }
}
