// The checked scoped states of one document runtime (ara2-bridge-core/src/lifecycle.rs): what each
// begin and finish does to the locked state, and what the state means in terms of the guards that
// are still held.
module ScopedStates {
  import opened Prelude

  datatype RestoreMode = NoRestore | Ara1 | Ara2
  datatype Phase = Active | TearingDown | Destroyed

  datatype Guard =
    | EditGuard
    | RestoreGuard(ara2: bool)
    | SampleAccessGuard
    | ContentCallGuard
    | RenderActivationGuard
    | TeardownGuard

  datatype State = State(
    modelThread: nat,
    poisoned: bool,
    phase: Phase,
    editing: bool,
    restore: RestoreMode,
    sampleAccesses: nat,
    contentCall: bool,
    renderActivations: nat)

  function Initial(modelThread: nat): State {
    State(modelThread, false, Active, false, NoRestore, 0, false, 0)
  }

  function Mode(ara2: bool): RestoreMode {
    if ara2 then Ara2 else Ara1
  }

  // ---- Beginning

  // `require_usable`, and `require_model_operation` for guards of the model thread.
  function Refusal(s: State, g: Guard, caller: nat): Option<Error> {
    if !g.RenderActivationGuard? && caller != s.modelThread then Some(InvalidThread)
    else if g.TeardownGuard? then None
    else if s.poisoned then Some(Poisoned)
    else if s.phase != Active then Some(InvalidState)
    else None
  }

  // What happens under the lock once the check has passed.
  function Enter(s: State, g: Guard): Result<State> {
    match g
    case EditGuard =>
      if s.editing || s.restore != NoRestore then Err(InvalidState) else Ok(s.(editing := true))
    case RestoreGuard(ara2) =>
      if s.editing || s.restore != NoRestore then Err(InvalidState)
      else Ok(s.(editing := ara2, restore := Mode(ara2)))
    case SampleAccessGuard =>
      if s.sampleAccesses == USIZE_MAX then Err(InvalidState)
      else Ok(s.(sampleAccesses := s.sampleAccesses + 1))
    case ContentCallGuard =>
      if s.contentCall then Err(InvalidState) else Ok(s.(contentCall := true))
    case RenderActivationGuard =>
      if s.renderActivations == USIZE_MAX then Err(InvalidState)
      else Ok(s.(renderActivations := s.renderActivations + 1))
    case TeardownGuard =>
      if s.phase != Active then Err(InvalidState)
      else if s.editing || s.restore != NoRestore || s.sampleAccesses != 0 || s.contentCall
              || s.renderActivations != 0
      then Err(InvalidState)
      else Ok(s.(phase := TearingDown))
  }

  function Begin(s: State, g: Guard, caller: nat): Result<State> {
    var no := Refusal(s, g, caller);
    if no.Some? then Err(no.value) else Enter(s, g)
  }

  // ---- Finishing

  function Finish(s: State, g: Guard, caller: nat): Result<State> {
    if !g.RenderActivationGuard? && caller != s.modelThread then Err(InvalidThread)
    else match g
      case EditGuard =>
        if !s.editing || s.restore != NoRestore then Err(InvalidState) else Ok(s.(editing := false))
      case RestoreGuard(ara2) =>
        if s.restore != Mode(ara2) then Err(InvalidState)
        else Ok(s.(restore := NoRestore, editing := if ara2 then false else s.editing))
      case SampleAccessGuard =>
        if s.sampleAccesses == 0 then Err(InvalidState)
        else Ok(s.(sampleAccesses := s.sampleAccesses - 1))
      case ContentCallGuard =>
        if !s.contentCall then Err(InvalidState) else Ok(s.(contentCall := false))
      case RenderActivationGuard =>
        if s.renderActivations == 0 then Err(InvalidState)
        else Ok(s.(renderActivations := s.renderActivations - 1))
      case TeardownGuard =>
        if s.phase != TearingDown then Err(InvalidState) else Ok(s.(phase := Destroyed))
  }

  // ---- What the state means

  type Guards = multiset<Guard>

  function Scoped(held: Guards): nat {
    held[EditGuard] + held[RestoreGuard(false)] + held[RestoreGuard(true)] + held[SampleAccessGuard]
    + held[ContentCallGuard] + held[RenderActivationGuard]
  }

  // The locked fields as a function of the guards held.
  function Fields(base: State, held: Guards): State {
    base.(editing := held[EditGuard] + held[RestoreGuard(true)] > 0,
          restore := if held[RestoreGuard(true)] > 0 then Ara2
                     else if held[RestoreGuard(false)] > 0 then Ara1 else NoRestore,
          sampleAccesses := held[SampleAccessGuard],
          contentCall := held[ContentCallGuard] > 0,
          renderActivations := held[RenderActivationGuard])
  }

  // Editing and restoring exclude each other, a content call excludes another, the counts fit their
  // integers, one teardown runs exactly in its phase, and outside the active phase nothing scoped is held.
  ghost predicate Accounts(s: State, held: Guards) {
    && s == Fields(s, held)
    && held[EditGuard] + held[RestoreGuard(false)] + held[RestoreGuard(true)] <= 1
    && held[ContentCallGuard] <= 1
    && held[SampleAccessGuard] <= USIZE_MAX && held[RenderActivationGuard] <= USIZE_MAX
    && held[TeardownGuard] == (if s.phase == TearingDown then 1 else 0)
    && (s.phase != Active ==> Scoped(held) == 0)
  }

  lemma InitialAccounts(modelThread: nat)
    ensures Accounts(Initial(modelThread), multiset{})
  {
  }

  // ---- When a begin is granted, in terms of the guards held

  // The guards that are held leave room for one more of this kind.
  predicate Room(held: Guards, g: Guard) {
    match g
    case EditGuard => held[EditGuard] + held[RestoreGuard(false)] + held[RestoreGuard(true)] == 0
    case RestoreGuard(_) => held[EditGuard] + held[RestoreGuard(false)] + held[RestoreGuard(true)] == 0
    case SampleAccessGuard => held[SampleAccessGuard] < USIZE_MAX
    case ContentCallGuard => held[ContentCallGuard] == 0
    case RenderActivationGuard => held[RenderActivationGuard] < USIZE_MAX
    case TeardownGuard => Scoped(held) == 0
  }

  // The guard's thread, then poison, then the phase and the guards held; teardown is legal when poisoned,
  // and a render activation on any thread.
  function Objection(s: State, held: Guards, g: Guard, caller: nat): Option<Error> {
    if !g.RenderActivationGuard? && caller != s.modelThread then Some(InvalidThread)
    else if s.poisoned && !g.TeardownGuard? then Some(Poisoned)
    else if s.phase != Active || !Room(held, g) then Some(InvalidState)
    else None
  }

  // The locked state with one guard more, or one less.
  function Joined(s: State, held: Guards, g: Guard): State {
    Fields(if g.TeardownGuard? then s.(phase := TearingDown) else s, held + multiset{g})
  }

  function Parted(s: State, held: Guards, g: Guard): State {
    Fields(if g.TeardownGuard? then s.(phase := Destroyed) else s, held - multiset{g})
  }

  lemma EnterExactly(s: State, held: Guards, g: Guard)
    requires s == Fields(s, held)
    requires held[SampleAccessGuard] <= USIZE_MAX && held[RenderActivationGuard] <= USIZE_MAX
    requires g.TeardownGuard? || s.phase == Active || g.RenderActivationGuard?
    ensures Enter(s, g) == if Room(held, g) && (g.TeardownGuard? ==> s.phase == Active) then Ok(Joined(s, held, g))
                                           else Err(InvalidState)
  {
  }

  // A begin is granted exactly if nothing speaks against it, and then it changes the state by just its
  // own guard.
  lemma BeginExactly(s: State, held: Guards, g: Guard, caller: nat)
    requires Accounts(s, held)
    ensures Begin(s, g, caller) ==
            match Objection(s, held, g, caller)
            case None => Ok(Joined(s, held, g))
            case Some(e) => Err(e)
  {
    hide Enter, Fields, Joined, Room;
    AccountsFields(s, held);
    if g.TeardownGuard? || s.phase == Active {
      EnterExactly(s, held, g);
    }
  }

  lemma AccountsFields(s: State, held: Guards)
    requires Accounts(s, held)
    ensures s == Fields(s, held)
    ensures held[SampleAccessGuard] <= USIZE_MAX && held[RenderActivationGuard] <= USIZE_MAX
  {
  }

  lemma BeginKeeps(s: State, held: Guards, g: Guard, caller: nat)
    requires Accounts(s, held) && Begin(s, g, caller).Ok?
    ensures Accounts(Begin(s, g, caller).value, held + multiset{g})
  {
  }

  // A guard that is held can always be finished by a caller that may finish it, in whatever order.
  lemma HeldGuardsFinish(s: State, held: Guards, g: Guard, caller: nat)
    requires Accounts(s, held) && held[g] > 0
    ensures Finish(s, g, caller).Ok? <==> g.RenderActivationGuard? || caller == s.modelThread
    ensures Finish(s, g, caller).Ok? ==>
            Accounts(Finish(s, g, caller).value, held - multiset{g})
  {
  }

  // Finishing it changes the state by just that guard.
  lemma FinishExactly(s: State, held: Guards, g: Guard, caller: nat)
    requires Accounts(s, held) && held[g] > 0
    ensures Finish(s, g, caller) ==
            if g.RenderActivationGuard? || caller == s.modelThread then Ok(Parted(s, held, g)) else Err(InvalidThread)
  {
  }

  // Dropping a guard loses it even when finishing is refused.  The account stays right exactly when
  // the guard is a render activation or the drop happens on the model thread.
  function AfterDrop(s: State, g: Guard, caller: nat): State {
    var r := Finish(s, g, caller);
    if r.Ok? then r.value else s
  }

  lemma DropIsExact(s: State, held: Guards, g: Guard, caller: nat)
    requires Accounts(s, held) && held[g] > 0
    ensures Accounts(AfterDrop(s, g, caller), held - multiset{g}) <==>
            g.RenderActivationGuard? || caller == s.modelThread
  {
    HeldGuardsFinish(s, held, g, caller);
    if !(g.RenderActivationGuard? || caller == s.modelThread) {
      var left := held - multiset{g};
      assert left[g] == held[g] - 1;
      match g
      case RestoreGuard(ara2) => assert left[RestoreGuard(!ara2)] == 0;
      case _ =>
    }
  }

  // ---- Runs, with every call atomic

  datatype Call =
    | BeginCall(guard: Guard, caller: nat)
    | DropCall(guard: Guard, caller: nat)      // an explicit finish, or the drop at the end of scope
    | PoisonCall

  datatype World = World(state: State, held: Guards)

  function Rank(p: Phase): nat {
    match p case Active => 0 case TearingDown => 1 case Destroyed => 2
  }

  // A guard can be dropped only while it is held, and is then dropped where it may be finished.
  predicate Legal(w: World, c: Call) {
    match c
    case DropCall(g, caller) =>
      w.held[g] > 0 && (g.RenderActivationGuard? || caller == w.state.modelThread)
    case _ => true
  }

  function Next(w: World, c: Call): World
    requires Legal(w, c)
  {
    match c
    case BeginCall(g, caller) =>
      var r := Begin(w.state, g, caller);
      if r.Ok? then World(r.value, w.held + multiset{g}) else w
    case DropCall(g, caller) => World(AfterDrop(w.state, g, caller), w.held - multiset{g})
    case PoisonCall => w.(state := w.state.(poisoned := true))
  }

  ghost predicate IsRun(ws: seq<World>, cs: seq<Call>) {
    && |ws| == |cs| + 1
    && forall i :: 0 <= i < |cs| ==> Legal(ws[i], cs[i]) && ws[i + 1] == Next(ws[i], cs[i])
  }

  lemma NextKeeps(w: World, c: Call)
    requires Legal(w, c) && Accounts(w.state, w.held)
    ensures Accounts(Next(w, c).state, Next(w, c).held)
    ensures Rank(w.state.phase) <= Rank(Next(w, c).state.phase)
  {
    match c
    case BeginCall(g, caller) =>
      if Begin(w.state, g, caller).Ok? {
        BeginKeeps(w.state, w.held, g, caller);
      }
    case DropCall(g, caller) => HeldGuardsFinish(w.state, w.held, g, caller);
    case PoisonCall =>
  }

  // In every state of every run the fields are what the held guards make them, and the phase has
  // only advanced.
  lemma {:induction false} RunAccounts(ws: seq<World>, cs: seq<Call>, modelThread: nat, n: nat)
    requires IsRun(ws, cs) && ws[0] == World(Initial(modelThread), multiset{}) && n < |ws|
    ensures Accounts(ws[n].state, ws[n].held)
    ensures forall i :: 0 <= i <= n ==> Rank(ws[i].state.phase) <= Rank(ws[n].state.phase)
  {
    if n == 0 {
      InitialAccounts(modelThread);
    } else {
      RunAccounts(ws, cs, modelThread, n - 1);
      assert Legal(ws[n - 1], cs[n - 1]) && ws[n] == Next(ws[n - 1], cs[n - 1]);
      NextKeeps(ws[n - 1], cs[n - 1]);
    }
  }
}
