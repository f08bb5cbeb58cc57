// The application's states: which one each live object carries.  The outline of `GraphOutline` leaves
// them out; this is the other half of what a request does.  The states come from the delegate's answers
// to the creations and go back to it with the destructions, and nothing else touches them.
module ApplicationStates {
  import opened Prelude
  import opened Registries
  import opened Edges
  import opened DocumentGraph
  import opened GraphInvariant
  import opened GraphTheorems
  import opened GraphOutline

  type Value = Option<nat>

  datatype States = States(
    document: Value,
    contexts: map<Handle, Value>,
    sequences: map<Handle, Value>,
    sources: map<Handle, Value>,
    modifications: map<Handle, Value>,
    regions: map<Handle, Value>)
  {
    function Of(kind: Kind): map<Handle, Value> {
      match kind
      case MusicalContextKind => contexts
      case RegionSequenceKind => sequences
      case AudioSourceKind => sources
      case AudioModificationKind => modifications
      case PlaybackRegionKind => regions
    }

    function With(kind: Kind, m: map<Handle, Value>): States {
      match kind
      case MusicalContextKind => this.(contexts := m)
      case RegionSequenceKind => this.(sequences := m)
      case AudioSourceKind => this.(sources := m)
      case AudioModificationKind => this.(modifications := m)
      case PlaybackRegionKind => this.(regions := m)
    }
  }

  function NodeState(n: Node): Value { n.value }
  function SequenceState(n: SequenceNode): Value { n.node.value }
  function ModificationState(n: ModificationNode): Value { n.node.value }
  function RegionState(n: RegionNode): Value { n.node.value }

  ghost function StatesOf(g: Graph): States {
    States(g.document,
           Project(g.contexts.live, NodeState), Project(g.sequences.live, SequenceState),
           Project(g.sources.live, NodeState), Project(g.modifications.live, ModificationState),
           Project(g.regions.live, RegionState))
  }

  // ---- What a request does to the states

  // The kind of object that a request creates, and the delegate's answer.
  datatype Gift = Gift(kind: Kind, reply: Option<nat>)

  function GiftOf(q: Request): Option<Gift> {
    match q
    case MakeContext(reply) => Some(Gift(MusicalContextKind, reply))
    case MakeSequence(_, _, reply) => Some(Gift(RegionSequenceKind, reply))
    case MakeSource(reply) => Some(Gift(AudioSourceKind, reply))
    case MakeModification(_, reply) => Some(Gift(AudioModificationKind, reply))
    case CopyModification(_, reply) => Some(Gift(AudioModificationKind, reply))
    case MakeRegion(_, _, _, _, reply) => Some(Gift(PlaybackRegionKind, reply))
    case _ => None
  }

  // The object that a request destroys.
  function VictimOf(q: Request): Option<RawHandle> {
    match q
    case DropContext(h) => Some(RawHandle(MusicalContextKind, h))
    case DropSequence(h) => Some(RawHandle(RegionSequenceKind, h))
    case DropSource(h) => Some(RawHandle(AudioSourceKind, h))
    case DropModification(h) => Some(RawHandle(AudioModificationKind, h))
    case DropRegion(h) => Some(RawHandle(PlaybackRegionKind, h))
    case _ => None
  }

  // A creation puts the delegate's own answer under the new handle; a destruction takes the object's
  // state out; nothing else changes.
  ghost function StatesAfter(n: States, q: Request, newcomer: Handle): States {
    match GiftOf(q)
    case Some(gift) => n.With(gift.kind, n.Of(gift.kind)[newcomer := gift.reply])
    case None =>
      match VictimOf(q)
      case Some(v) => n.With(v.kind, n.Of(v.kind) - {v.handle})
      case None => n
  }

  ghost predicate KeepsStates(g: Graph, q: Request) {
    match Step(g, q)
    case Reply(g', outcome) =>
      && StatesOf(g') == (if outcome.Done? then StatesAfter(StatesOf(g), q, HandleOf(outcome.value)) else StatesOf(g))
      && (outcome.Done? && VictimOf(q).Some? ==>
            var v := VictimOf(q).value;
            v.handle in StatesOf(g).Of(v.kind) && outcome.value == Released(StatesOf(g).Of(v.kind)[v.handle]))
  }

  lemma CreationStates(g: Graph, q: Request)
    requires q.MakeContext? || q.MakeSource? || q.MakeSequence?
    ensures KeepsStates(g, q)
  {
    if q.reply.Some? {
      var v := q.reply.value;
      ProjectPut(g.contexts.live, NodeState, g.contexts.Next(), Committed(v));
      ProjectPut(g.sources.live, NodeState, g.sources.Next(), Committed(v));
      if q.MakeSequence? && q.context in g.contexts.live {
        ProjectPut(g.sequences.live, SequenceState, g.sequences.Next(), SequenceNode(Committed(v), q.context));
        ProjectPut(g.contexts.live, NodeState, q.context, Raise(g.contexts.live[q.context]));
      }
    }
  }

  lemma ModificationStates(g: Graph, q: Request)
    requires Inv(g) && (q.MakeModification? || q.CopyModification?)
    ensures KeepsStates(g, q)
  {
    hide Linked, Kept;
    if q.CopyModification? {
      CloneModificationKeeps(g, q.original, q.reply);
    }
    if Step(g, q).outcome.Done? {
      var source := if q.MakeModification? then q.source else g.modifications.live[q.original].source;
      ProjectPut(g.sources.live, NodeState, source, Raise(g.sources.live[source]));
      ProjectPut(g.modifications.live, ModificationState, g.modifications.Next(),
                 ModificationNode(Committed(q.reply.value), source));
    }
  }

  lemma RegionStates(g: Graph, q: Request)
    requires q.MakeRegion?
    ensures KeepsStates(g, q)
  {
    if Step(g, q).outcome.Done? {
      var m, s := g.modifications.live[q.modification], g.sequences.live[q.sequence];
      ProjectPut(g.modifications.live, ModificationState, q.modification, m.(node := Raise(m.node)));
      ProjectPut(g.sequences.live, SequenceState, q.sequence, s.(node := Raise(s.node)));
      ProjectPut(g.regions.live, RegionState, g.regions.Next(),
                 RegionNode(Committed(q.reply.value), q.modification, q.sequence));
    }
  }

  lemma MoveStates(g: Graph, q: Request)
    requires q.EditSequence? || q.EditRegion?
    ensures KeepsStates(g, q)
  {
    if Step(g, q).outcome.Done? {
      if q.EditSequence? {
        var s := g.sequences.live[q.sequence];
        if s.context != q.context {
          var from := g.contexts.Put(s.context, Lower(g.contexts.live[s.context]));
          ProjectPut(g.contexts.live, NodeState, s.context, Lower(g.contexts.live[s.context]));
          ProjectPut(from.live, NodeState, q.context, Raise(g.contexts.live[q.context]));
          ProjectPut(g.sequences.live, SequenceState, q.sequence, s.(context := q.context));
        }
      } else {
        var r := g.regions.live[q.region];
        if r.sequence != q.sequence {
          var a, b := g.sequences.live[r.sequence], g.sequences.live[q.sequence];
          var from := g.sequences.Put(r.sequence, a.(node := Lower(a.node)));
          ProjectPut(g.sequences.live, SequenceState, r.sequence, a.(node := Lower(a.node)));
          ProjectPut(from.live, SequenceState, q.sequence, b.(node := Raise(b.node)));
          ProjectPut(g.regions.live, RegionState, q.region, r.(sequence := q.sequence));
        }
      }
    }
  }

  lemma SwitchStates(g: Graph, q: Request)
    requires q.SwitchSource? || q.SwitchModification?
    ensures KeepsStates(g, q)
  {
    if Step(g, q).outcome.Done? {
      if q.SwitchSource? {
        ProjectPut(g.sources.live, NodeState, q.source, g.sources.live[q.source].(active := !q.deactivated));
      } else {
        var m := g.modifications.live[q.modification];
        ProjectPut(g.modifications.live, ModificationState, q.modification,
                   m.(node := m.node.(active := !q.deactivated)));
      }
    }
  }

  lemma RegionDropStates(g: Graph, q: Request)
    requires Inv(g) && q.DropRegion?
    ensures KeepsStates(g, q)
  {
    hide Linked, Kept;
    DestroyRegionKeeps(g, q.region);
    if q.region in g.regions.live {
      var r := g.regions.live[q.region];
      var m, s := g.modifications.live[r.modification], g.sequences.live[r.sequence];
      ProjectRemove(g.regions.live, RegionState, q.region);
      ProjectPut(g.modifications.live, ModificationState, r.modification, m.(node := Lower(m.node)));
      ProjectPut(g.sequences.live, SequenceState, r.sequence, s.(node := Lower(s.node)));
    }
  }

  lemma ModificationDropStates(g: Graph, q: Request)
    requires Inv(g) && q.DropModification?
    ensures KeepsStates(g, q)
  {
    hide Linked, Kept, HasRegion;
    DestroyModificationKeeps(g, q.modification);
    if Step(g, q).outcome.Done? {
      var s := g.modifications.live[q.modification].source;
      ProjectRemove(g.modifications.live, ModificationState, q.modification);
      ProjectPut(g.sources.live, NodeState, s, Lower(g.sources.live[s]));
    }
  }

  lemma SequenceDropStates(g: Graph, q: Request)
    requires Inv(g) && q.DropSequence?
    ensures KeepsStates(g, q)
  {
    hide Linked, Kept, SequenceHasRegion;
    DestroySequenceKeeps(g, q.sequence);
    if Step(g, q).outcome.Done? {
      var c := g.sequences.live[q.sequence].context;
      ProjectRemove(g.sequences.live, SequenceState, q.sequence);
      ProjectPut(g.contexts.live, NodeState, c, Lower(g.contexts.live[c]));
    }
  }

  lemma RootDropStates(g: Graph, q: Request)
    requires Inv(g) && (q.DropContext? || q.DropSource?)
    ensures KeepsStates(g, q)
  {
    hide Linked, Kept, HasSequence, HasModification;
    if q.DropContext? {
      DestroyContextKeeps(g, q.context);
      ProjectRemove(g.contexts.live, NodeState, q.context);
    } else {
      DestroySourceKeeps(g, q.source);
      ProjectRemove(g.sources.live, NodeState, q.source);
    }
  }

  lemma PayloadStates(g: Graph, q: Request)
    requires q.BeginEdit? || q.EndEdit? || q.EditDocument? || q.EditContext? || q.EditSource?
             || q.EnableAccess? || q.EditModification?
    ensures KeepsStates(g, q)
  {
  }

  // Every request.
  lemma StepStates(g: Graph, q: Request)
    requires Inv(g)
    ensures KeepsStates(g, q)
  {
    hide Inv, KeepsStates;
    match q
    case MakeContext(_) => CreationStates(g, q);
    case MakeSource(_) => CreationStates(g, q);
    case MakeSequence(_, _, _) => CreationStates(g, q);
    case MakeModification(_, _) => ModificationStates(g, q);
    case CopyModification(_, _) => ModificationStates(g, q);
    case MakeRegion(_, _, _, _, _) => RegionStates(g, q);
    case EditSequence(_, _, _, _) => MoveStates(g, q);
    case EditRegion(_, _, _, _, _) => MoveStates(g, q);
    case SwitchSource(_, _, _) => SwitchStates(g, q);
    case SwitchModification(_, _, _) => SwitchStates(g, q);
    case DropRegion(_) => RegionDropStates(g, q);
    case DropModification(_) => ModificationDropStates(g, q);
    case DropSequence(_) => SequenceDropStates(g, q);
    case DropContext(_) => RootDropStates(g, q);
    case DropSource(_) => RootDropStates(g, q);
    case _ => PayloadStates(g, q);
  }

  // ---- Runs

  // The graph after the first `n` requests.
  ghost function At(g0: Graph, qs: seq<Request>, n: nat): Graph
    requires Inv(g0) && n <= |qs|
  {
    RunKeeps(g0, qs[..n]);
    Run(g0, qs[..n]).value
  }

  lemma {:induction false} RunOneMore(g: Graph, qs: seq<Request>, q: Request)
    requires Inv(g)
    ensures Run(g, qs).Done? && Run(g, qs + [q]) == Done(Step(Run(g, qs).value, q).graph)
    decreases |qs|
  {
    hide Inv, Step;
    if qs == [] {
      StepKeeps(g, q);
      assert ([q])[1..] == [];
    } else {
      StepKeeps(g, qs[0]);
      RunOneMore(Step(g, qs[0]).graph, qs[1..], q);
      assert (qs + [q])[1..] == qs[1..] + [q];
    }
  }

  lemma AtNext(g0: Graph, qs: seq<Request>, n: nat)
    requires Inv(g0) && n < |qs|
    ensures Inv(At(g0, qs, n)) && At(g0, qs, n + 1) == Step(At(g0, qs, n), qs[n]).graph
    ensures At(g0, qs, 0) == g0
  {
    hide Inv, Step;
    RunKeeps(g0, qs[..n]);
    RunOneMore(g0, qs[..n], qs[n]);
    assert qs[..n + 1] == qs[..n] + [qs[n]] && qs[..0] == [];
  }

  // A graph without objects, as a new document's is.
  ghost predicate Bare(g: Graph) {
    && g.contexts.live == map[] && g.sequences.live == map[] && g.sources.live == map[]
    && g.modifications.live == map[] && g.regions.live == map[]
  }

  lemma NewGraphIsBare(generation: nat, session: nat, document: nat)
    ensures Inv(NewGraph(generation, session, document)) && Bare(NewGraph(generation, session, document))
  {
    NewGraphInv(generation, session, document);
  }

  // The request `i` created the object, and the delegate answered with the state `v`.
  ghost predicate Given(g0: Graph, qs: seq<Request>, i: nat, r: RawHandle, v: nat)
    requires Inv(g0) && i < |qs|
  {
    && GiftOf(qs[i]) == Some(Gift(r.kind, Some(v)))
    && Step(At(g0, qs, i), qs[i]).outcome == Done(Created(r.handle))
  }

  ghost predicate Carries(g0: Graph, qs: seq<Request>, k: nat, r: RawHandle, v: nat)
    requires Inv(g0) && k <= |qs|
  {
    var m := StatesOf(At(g0, qs, k)).Of(r.kind);
    r.handle in m && m[r.handle] == Some(v)
  }

  // How one more request changes what an object carries.
  lemma CarriedOn(g: Graph, q: Request, r: RawHandle)
    requires Inv(g)
    requires r.handle in StatesOf(Step(g, q).graph).Of(r.kind)
    ensures
      var before, after := StatesOf(g).Of(r.kind), StatesOf(Step(g, q).graph).Of(r.kind);
      || (r.handle in before && after[r.handle] == before[r.handle])
      || (exists v: nat :: GiftOf(q) == Some(Gift(r.kind, Some(v))) && Step(g, q).outcome == Done(Created(r.handle))
                           && after[r.handle] == Some(v))
  {
    hide Inv, Step, StatesOf, Allowed, OutlineOf;
    StepStates(g, q);
    StepRefines(g, q);
  }

  // Whatever a live object carries in any run is what the delegate answered to its creation, and it has
  // carried that ever since.
  lemma {:induction false} StatesAreGiven(g0: Graph, qs: seq<Request>, n: nat, r: RawHandle) returns (i: nat, v: nat)
    requires Inv(g0) && Bare(g0) && n <= |qs|
    requires r.handle in StatesOf(At(g0, qs, n)).Of(r.kind)
    ensures i < n && Given(g0, qs, i, r, v)
    ensures forall k :: i < k <= n ==> Carries(g0, qs, k, r, v)
  {
    hide Inv, Step, StatesOf, At;
    if n == 0 {
      assert StatesOf(At(g0, qs, n)).Of(r.kind) == map[] by { NothingCarried(g0, qs, r.kind); }
    } else {
      AtNext(g0, qs, n - 1);
      var g := At(g0, qs, n - 1);
      CarriedOn(g, qs[n - 1], r);
      if w: nat :| GiftOf(qs[n - 1]) == Some(Gift(r.kind, Some(w)))
                   && Step(g, qs[n - 1]).outcome == Done(Created(r.handle))
                   && StatesOf(At(g0, qs, n)).Of(r.kind)[r.handle] == Some(w)
      {
        i, v := n - 1, w;
      } else {
        i, v := StatesAreGiven(g0, qs, n - 1, r);
        assert Carries(g0, qs, n - 1, r, v) by { CarriedBefore(g0, qs, n - 1, r, i, v); }
      }
    }
  }

  lemma CarriedBefore(g0: Graph, qs: seq<Request>, n: nat, r: RawHandle, i: nat, v: nat)
    requires Inv(g0) && i < n <= |qs| && forall k :: i < k <= n ==> Carries(g0, qs, k, r, v)
    ensures Carries(g0, qs, n, r, v)
  {
  }

  lemma NothingCarried(g0: Graph, qs: seq<Request>, kind: Kind)
    requires Inv(g0) && Bare(g0)
    ensures StatesOf(At(g0, qs, 0)).Of(kind) == map[]
  {
    hide Inv;
    assert qs[..0] == [];
  }

  // So a destruction hands back to the delegate exactly what it answered to the creation.
  lemma ReleasesReturnTheGift(g0: Graph, qs: seq<Request>, j: nat, r: RawHandle) returns (i: nat, v: nat)
    requires Inv(g0) && Bare(g0) && j < |qs| && VictimOf(qs[j]) == Some(r)
    requires Step(At(g0, qs, j), qs[j]).outcome.Done?
    ensures i < j && Given(g0, qs, i, r, v)
    ensures Step(At(g0, qs, j), qs[j]).outcome == Done(Released(Some(v)))
  {
    hide Inv, Step, StatesOf, At, Bare;
    AtNext(g0, qs, j);
    StepStates(At(g0, qs, j), qs[j]);
    i, v := StatesAreGiven(g0, qs, j, r);
    CarriedBefore(g0, qs, j, r, i, v);
  }

  lemma StepKeepsDocument(g: Graph, q: Request)
    requires Inv(g)
    ensures Step(g, q).graph.document == g.document
  {
    hide Inv, Step, StatesOf;
    StepStates(g, q);
    OfDocument(g);
    OfDocument(Step(g, q).graph);
  }

  lemma OfDocument(g: Graph)
    ensures StatesOf(g).document == g.document
  {
  }

  // And the document's own state is handed back when the runtime is destroyed.
  lemma {:induction false} DocumentIsKept(g: Graph, qs: seq<Request>)
    requires Inv(g)
    ensures Run(g, qs).Done? && Run(g, qs).value.document == g.document
    decreases |qs|
  {
    hide Inv, Step;
    if qs != [] {
      StepKeepsDocument(g, qs[0]);
      StepKeeps(g, qs[0]);
      DocumentIsKept(Step(g, qs[0]).graph, qs[1..]);
    }
  }

  lemma DocumentIsHandedBack(generation: nat, session: nat, document: nat, qs: seq<Request>)
    ensures
      var r := Run(NewGraph(generation, session, document), qs);
      r.Done? && (DestroyDocument(r.value) == Failed(InvalidState) || DestroyDocument(r.value) == Done(document))
  {
    hide Inv, Step;
    NewGraphIsBare(generation, session, document);
    DocumentIsKept(NewGraph(generation, session, document), qs);
  }
}
