// Identities are never reused: whatever a run does, a handle that has gone stale stays stale, and a
// creation answers a handle that no earlier state of the run ever knew.
module Identity {
  import opened Prelude
  import opened Registries
  import opened DocumentGraph
  import opened GraphInvariant
  import opened GraphTheorems

  // `later` has at least the cells of `r`, and what is live only in `later` is in a later cell.
  ghost predicate Extends<T>(r: Registry<T>, later: Registry<T>) {
    match r
    case Registry(session, capacity, count, live) =>
      && later.session == session && later.capacity == capacity && count <= later.count
      && forall h :: h in later.live && h !in live ==> count < h.index <= later.count
  }

  lemma ExtendsTransitive<T>(a: Registry<T>, b: Registry<T>, c: Registry<T>)
    requires Extends(a, b) && Extends(b, c)
    ensures Extends(a, c)
  {
  }

  ghost predicate GraphExtends(g: Graph, later: Graph) {
    match g
    case Graph(_, _, contexts, sequences, sources, modifications, regions, _, _, _, _, _, _) =>
      && Extends(contexts, later.contexts) && Extends(sequences, later.sequences)
      && Extends(sources, later.sources) && Extends(modifications, later.modifications)
      && Extends(regions, later.regions)
  }

  lemma StepExtends(g: Graph, q: Request)
    ensures GraphExtends(g, Step(g, q).graph)
  {
    hide Step;
    match q
    case MakeContext(_) => CreationExtends(g, q);
    case MakeSource(_) => CreationExtends(g, q);
    case MakeSequence(_, _, _) => CreationExtends(g, q);
    case MakeModification(_, _) => ModificationCreationExtends(g, q);
    case CopyModification(_, _) => ModificationCloneExtends(g, q);
    case MakeRegion(_, _, _, _, _) => RegionCreationExtends(g, q);
    case EditSequence(_, _, _, _) => MoveExtends(g, q);
    case EditRegion(_, _, _, _, _) => MoveExtends(g, q);
    case DropRegion(_) => RegionDropExtends(g, q);
    case DropModification(_) => ModificationDropExtends(g, q);
    case DropSequence(_) => SequenceDropExtends(g, q);
    case DropContext(_) => RootDropExtends(g, q);
    case DropSource(_) => RootDropExtends(g, q);
    case _ => InPlaceExtends(g, q);
  }

  lemma InPlaceExtends(g: Graph, q: Request)
    requires q.BeginEdit? || q.EndEdit? || q.EditDocument? || q.EditContext? || q.EditSource?
             || q.EnableAccess? || q.EditModification? || q.SwitchSource? || q.SwitchModification?
    ensures GraphExtends(g, Step(g, q).graph)
  {
  }

  lemma CreationExtends(g: Graph, q: Request)
    requires q.MakeContext? || q.MakeSource? || q.MakeSequence?
    ensures GraphExtends(g, Step(g, q).graph)
  {
  }

  lemma ModificationCreationExtends(g: Graph, q: Request)
    requires q.MakeModification?
    ensures GraphExtends(g, Step(g, q).graph)
  {
  }

  lemma ModificationCloneExtends(g: Graph, q: Request)
    requires q.CopyModification?
    ensures GraphExtends(g, Step(g, q).graph)
  {
  }

  lemma RegionCreationExtends(g: Graph, q: Request)
    requires q.MakeRegion?
    ensures GraphExtends(g, Step(g, q).graph)
  {
  }

  lemma MoveExtends(g: Graph, q: Request)
    requires q.EditSequence? || q.EditRegion?
    ensures GraphExtends(g, Step(g, q).graph)
  {
  }

  lemma ModificationDropExtends(g: Graph, q: Request)
    requires q.DropModification?
    ensures GraphExtends(g, Step(g, q).graph)
  {
  }

  lemma SequenceDropExtends(g: Graph, q: Request)
    requires q.DropSequence?
    ensures GraphExtends(g, Step(g, q).graph)
  {
  }

  lemma RootDropExtends(g: Graph, q: Request)
    requires q.DropContext? || q.DropSource?
    ensures GraphExtends(g, Step(g, q).graph)
  {
  }

  lemma RegionDropExtends(g: Graph, q: Request)
    requires q.DropRegion?
    ensures GraphExtends(g, Step(g, q).graph)
  {
  }

  lemma GraphExtendsTransitive(a: Graph, b: Graph, c: Graph)
    requires GraphExtends(a, b) && GraphExtends(b, c)
    ensures GraphExtends(a, c)
  {
    hide Extends;
    ExtendsTransitive(a.contexts, b.contexts, c.contexts);
    ExtendsTransitive(a.sequences, b.sequences, c.sequences);
    ExtendsTransitive(a.sources, b.sources, c.sources);
    ExtendsTransitive(a.modifications, b.modifications, c.modifications);
    ExtendsTransitive(a.regions, b.regions, c.regions);
  }

  lemma {:induction false} RunExtends(g: Graph, qs: seq<Request>)
    requires Run(g, qs).Done?
    ensures GraphExtends(g, Run(g, qs).value)
    decreases |qs|
  {
    hide GraphExtends, Step;
    if qs == [] {
      NothingExtends(g);
    } else {
      StepExtends(g, qs[0]);
      RunExtends(Step(g, qs[0]).graph, qs[1..]);
      GraphExtendsTransitive(g, Step(g, qs[0]).graph, Run(g, qs).value);
    }
  }

  lemma NothingExtends(g: Graph)
    ensures GraphExtends(g, g)
  {
  }

  // A handle that names a cell and is not live is stale.
  ghost predicate Stale<T>(r: Registry<T>, h: Handle) {
    r.Names(h) && h !in r.live
  }

  lemma StaleStaysStale<T>(r: Registry<T>, later: Registry<T>, h: Handle)
    requires Extends(r, later)
    ensures Stale(r, h) ==> Stale(later, h)
  {
  }

  // In every reachable graph a stale handle, of any kind, stays stale through every further run.
  lemma StaleForever(g: Graph, qs: seq<Request>, h: Handle)
    requires Inv(g)
    ensures Run(g, qs).Done?
    ensures
      var later := Run(g, qs).value;
      && (Stale(g.contexts, h) ==> Stale(later.contexts, h))
      && (Stale(g.sequences, h) ==> Stale(later.sequences, h))
      && (Stale(g.sources, h) ==> Stale(later.sources, h))
      && (Stale(g.modifications, h) ==> Stale(later.modifications, h))
      && (Stale(g.regions, h) ==> Stale(later.regions, h))
  {
    hide Inv, Extends, Stale, Run;
    RunKeeps(g, qs);
    RunExtends(g, qs);
    var later := Run(g, qs).value;
    StaleStaysStale(g.contexts, later.contexts, h);
    StaleStaysStale(g.sequences, later.sequences, h);
    StaleStaysStale(g.sources, later.sources, h);
    StaleStaysStale(g.modifications, later.modifications, h);
    StaleStaysStale(g.regions, later.regions, h);
  }
}
