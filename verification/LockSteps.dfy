// The same runtime state at the granularity of its locks (ara2-bridge-core/src/lifecycle.rs): a begin
// first polls the poison flag, then checks the phase under the lock, lets go of it, and takes it again
// to enter.  Other threads run in between; the model thread is one thread.
module LockSteps {
  import opened Prelude
  import opened ScopedStates

  // Where the model thread is with a begin.
  datatype Stage = Idle | Polled(guard: Guard) | Checked(guard: Guard)

  // Of the render activations that other threads are beginning, `polledRenders` have seen no poison
  // and `checkedRenders` have passed the check of the phase as well.
  datatype Fine = Fine(state: State, held: Guards, stage: Stage, polledRenders: nat, checkedRenders: nat)

  datatype Move =
    | ModelPoll(guard: Guard)
    | ModelCheck
    | ModelEnter
    | BeginTeardown
    | ModelDrop(guard: Guard)
    | RenderPoll
    | RenderCheck
    | RenderEnter
    | RenderDrop
    | PoisonMove

  predicate ModelScoped(g: Guard) {
    !g.RenderActivationGuard? && !g.TeardownGuard?
  }

  predicate Possible(f: Fine, m: Move) {
    match m
    case ModelPoll(g) => ModelScoped(g) && f.stage.Idle?
    case ModelCheck => f.stage.Polled?
    case ModelEnter => f.stage.Checked?
    case BeginTeardown => f.stage.Idle?
    case ModelDrop(g) => !g.RenderActivationGuard? && f.stage.Idle? && f.held[g] > 0
    case RenderPoll => true
    case RenderCheck => f.polledRenders > 0
    case RenderEnter => f.checkedRenders > 0
    case RenderDrop => f.held[RenderActivationGuard] > 0
    case PoisonMove => true
  }

  function Moved(f: Fine, m: Move): Fine
    requires Possible(f, m)
  {
    match m
    case ModelPoll(g) => if f.state.poisoned then f else f.(stage := Polled(g))
    case ModelCheck => f.(stage := if f.state.phase == Active then Checked(f.stage.guard) else Idle)
    case ModelEnter =>
      var r := Enter(f.state, f.stage.guard);
      if r.Ok? then f.(state := r.value, held := f.held + multiset{f.stage.guard}, stage := Idle)
      else f.(stage := Idle)
    case BeginTeardown =>
      var r := Enter(f.state, TeardownGuard);
      if r.Ok? then f.(state := r.value, held := f.held + multiset{TeardownGuard}) else f
    case ModelDrop(g) =>
      f.(state := AfterDrop(f.state, g, f.state.modelThread), held := f.held - multiset{g})
    case RenderPoll => if f.state.poisoned then f else f.(polledRenders := f.polledRenders + 1)
    case RenderCheck =>
      f.(polledRenders := f.polledRenders - 1,
         checkedRenders := f.checkedRenders + if f.state.phase == Active then 1 else 0)
    case RenderEnter =>
      var r := Enter(f.state, RenderActivationGuard);
      if r.Ok? then f.(state := r.value, held := f.held + multiset{RenderActivationGuard},
                       checkedRenders := f.checkedRenders - 1)
      else f.(checkedRenders := f.checkedRenders - 1)
    case RenderDrop =>
      f.(state := AfterDrop(f.state, RenderActivationGuard, 0),
         held := f.held - multiset{RenderActivationGuard})
    case PoisonMove => f.(state := f.state.(poisoned := true))
  }

  // What survives at this granularity: everything, except that a render activation may be held
  // outside the active phase.
  ghost predicate ModelAccounts(f: Fine) {
    && f.state == Fields(f.state, f.held)
    && f.held[EditGuard] + f.held[RestoreGuard(false)] + f.held[RestoreGuard(true)] <= 1
    && f.held[ContentCallGuard] <= 1
    && f.held[SampleAccessGuard] <= USIZE_MAX && f.held[RenderActivationGuard] <= USIZE_MAX
    && f.held[TeardownGuard] == (if f.state.phase == TearingDown then 1 else 0)
    && (!f.stage.Idle? ==> ModelScoped(f.stage.guard))
    && (f.stage.Checked? ==> f.state.phase == Active)
    && (f.state.phase != Active ==> Scoped(f.held) == f.held[RenderActivationGuard])
  }

  ghost predicate NothingHeldOutsideActive(f: Fine) {
    f.state.phase != Active ==> Scoped(f.held) == 0
  }

  function Start(modelThread: nat): Fine {
    Fine(Initial(modelThread), multiset{}, Idle, 0, 0)
  }

  lemma MovedKeeps(f: Fine, m: Move)
    requires ModelAccounts(f) && Possible(f, m)
    ensures ModelAccounts(Moved(f, m))
    ensures Rank(f.state.phase) <= Rank(Moved(f, m).state.phase)
  {
    hide Enter, AfterDrop;
    match m
    case ModelEnter => EnterKeeps(f, f.stage.guard);
    case BeginTeardown => EnterKeeps(f, TeardownGuard);
    case ModelDrop(g) => DropKeeps(f, g, f.state.modelThread);
    case RenderEnter => EnterKeeps(f, RenderActivationGuard);
    case RenderDrop => DropKeeps(f, RenderActivationGuard, 0);
    case _ =>
  }

  lemma EnterKeeps(f: Fine, g: Guard)
    requires ModelAccounts(f)
    requires f.stage == Checked(g) || (g.TeardownGuard? && f.stage.Idle?) || g.RenderActivationGuard?
    ensures ModelAccounts(f.(stage := Idle))
    ensures
      var r := Enter(f.state, g);
      r.Ok? ==>
        && Rank(f.state.phase) <= Rank(r.value.phase)
        && ModelAccounts(f.(state := r.value, held := f.held + multiset{g},
                            stage := if g.RenderActivationGuard? then f.stage else Idle))
  {
  }

  lemma DropKeeps(f: Fine, g: Guard, caller: nat)
    requires ModelAccounts(f) && f.held[g] > 0
    requires g.RenderActivationGuard? || (caller == f.state.modelThread && f.stage.Idle?)
    ensures
      var s := AfterDrop(f.state, g, caller);
      && Rank(f.state.phase) <= Rank(s.phase)
      && ModelAccounts(f.(state := s, held := f.held - multiset{g}))
  {
  }

  ghost predicate IsFineRun(fs: seq<Fine>, ms: seq<Move>) {
    && |fs| == |ms| + 1
    && forall i :: 0 <= i < |ms| ==> Possible(fs[i], ms[i]) && fs[i + 1] == Moved(fs[i], ms[i])
  }

  // Over every interleaving the guards of the model thread are accounted for exactly.
  lemma {:induction false} FineRunAccounts(fs: seq<Fine>, ms: seq<Move>, modelThread: nat, n: nat)
    requires IsFineRun(fs, ms) && fs[0] == Start(modelThread) && n < |fs|
    ensures ModelAccounts(fs[n])
  {
    if n > 0 {
      FineRunAccounts(fs, ms, modelThread, n - 1);
      assert Possible(fs[n - 1], ms[n - 1]) && fs[n] == Moved(fs[n - 1], ms[n - 1]);
      MovedKeeps(fs[n - 1], ms[n - 1]);
    }
  }

  // What each move does, in terms of the guards held: an entry takes its guard exactly if the guards held
  // leave room for it, and every other move that is possible goes through.
  ghost predicate MovesExactly(f: Fine, m: Move)
    requires Possible(f, m)
  {
    Moved(f, m) ==
    match m
    case ModelPoll(g) => if f.state.poisoned then f else f.(stage := Polled(g))
    case ModelCheck => f.(stage := if f.state.phase == Active then Checked(f.stage.guard) else Idle)
    case ModelEnter =>
      var g := f.stage.guard;
      if Room(f.held, g) then Gained(f, g).(stage := Idle) else f.(stage := Idle)
    case BeginTeardown =>
      if f.state.phase == Active && Scoped(f.held) == 0 then Gained(f, TeardownGuard) else f
    case ModelDrop(g) => Lost(f, g)
    case RenderPoll => if f.state.poisoned then f else f.(polledRenders := f.polledRenders + 1)
    case RenderCheck =>
      f.(polledRenders := f.polledRenders - 1,
         checkedRenders := if f.state.phase == Active then f.checkedRenders + 1 else f.checkedRenders)
    case RenderEnter =>
      var f' := f.(checkedRenders := f.checkedRenders - 1);
      if Room(f.held, RenderActivationGuard) then Gained(f', RenderActivationGuard) else f'
    case RenderDrop => Lost(f, RenderActivationGuard)
    case PoisonMove => f.(state := f.state.(poisoned := true))
  }

  function Gained(f: Fine, g: Guard): Fine {
    f.(state := ScopedStates.Joined(f.state, f.held, g), held := f.held + multiset{g})
  }

  function Lost(f: Fine, g: Guard): Fine {
    f.(state := ScopedStates.Parted(f.state, f.held, g), held := f.held - multiset{g})
  }

  lemma MovedExactly(f: Fine, m: Move)
    requires ModelAccounts(f) && Possible(f, m)
    ensures MovesExactly(f, m)
  {
    hide Enter, AfterDrop, Fields, Joined, Parted;
    match m
    case ModelEnter =>
      ModelAccountsFields(f);
      EnterExactly(f.state, f.held, f.stage.guard);
    case BeginTeardown =>
      ModelAccountsFields(f);
      EnterExactly(f.state, f.held, TeardownGuard);
    case RenderEnter =>
      ModelAccountsFields(f);
      EnterExactly(f.state, f.held, RenderActivationGuard);
    case ModelDrop(g) => DroppedExactly(f, g, f.state.modelThread);
    case RenderDrop => DroppedExactly(f, RenderActivationGuard, 0);
    case _ =>
  }

  lemma ModelAccountsFields(f: Fine)
    requires ModelAccounts(f)
    ensures f.state == Fields(f.state, f.held)
    ensures f.held[SampleAccessGuard] <= USIZE_MAX && f.held[RenderActivationGuard] <= USIZE_MAX
    ensures !f.stage.Idle? ==> ModelScoped(f.stage.guard)
    ensures f.stage.Checked? ==> f.state.phase == Active
  {
  }

  lemma DroppedExactly(f: Fine, g: Guard, caller: nat)
    requires ModelAccounts(f) && f.held[g] > 0
    requires g.RenderActivationGuard? || caller == f.state.modelThread
    ensures AfterDrop(f.state, g, caller) == Parted(f.state, f.held, g)
  {
  }

  // A begin that nothing interrupts is the one step of `ScopedStates`.
  function Uninterrupted(f: Fine, g: Guard): Fine
    requires ModelScoped(g) && f.stage.Idle?
  {
    var polled := Moved(f, ModelPoll(g));
    if polled.stage.Idle? then polled else
    var checked := Moved(polled, ModelCheck);
    if checked.stage.Idle? then checked else Moved(checked, ModelEnter)
  }

  lemma UninterruptedIsBegin(f: Fine, g: Guard)
    requires ModelScoped(g) && f.stage.Idle?
    ensures
      var r := Begin(f.state, g, f.state.modelThread);
      Uninterrupted(f, g) == if r.Ok? then f.(state := r.value, held := f.held + multiset{g}) else f
  {
    assert f.(stage := Polled(g)).(stage := Checked(g)).(stage := Idle) == f;
  }

  // ---- The clause that is lost: outside the active phase nothing scoped is held

  predicate TearsDown(f: Fine, m: Move) {
    m.BeginTeardown? && Enter(f.state, TeardownGuard).Ok?
  }

  // No render activation is between its check of the phase and its entry when a teardown begins.
  ghost predicate TeardownsAreCalm(fs: seq<Fine>, ms: seq<Move>) {
    forall i :: 0 <= i < |ms| && i < |fs| && TearsDown(fs[i], ms[i]) ==> fs[i].checkedRenders == 0
  }

  ghost predicate Calm(f: Fine) {
    NothingHeldOutsideActive(f) && (f.state.phase != Active ==> f.checkedRenders == 0)
  }

  // The one step that breaks it: a render activation enters after the phase has moved on.
  lemma RenderEntryIsTheOnlyBreach(f: Fine, m: Move)
    requires ModelAccounts(f) && Possible(f, m) && NothingHeldOutsideActive(f)
    ensures NothingHeldOutsideActive(Moved(f, m)) <==> !(m.RenderEnter? && f.state.phase != Active)
  {
    hide ModelAccounts, Moved;
    MovedKeeps(f, m);
    OnlyRendersAreLeft(f);
    OnlyRendersAreLeft(Moved(f, m));
    RendersHeld(f, m);
  }

  lemma OnlyRendersAreLeft(f: Fine)
    requires ModelAccounts(f)
    ensures f.state.renderActivations == f.held[RenderActivationGuard]
    ensures f.state.phase != Active ==> Scoped(f.held) == f.held[RenderActivationGuard]
  {
  }

  // How the render activations held change while the phase is, or becomes, another than the active one.
  lemma RendersHeld(f: Fine, m: Move)
    requires ModelAccounts(f) && Possible(f, m) && NothingHeldOutsideActive(f)
    ensures
      var f' := Moved(f, m);
      f'.state.phase != Active ==>
        (f'.held[RenderActivationGuard] == 0 <==> !(m.RenderEnter? && f.state.phase != Active))
    ensures m.RenderEnter? ==> Moved(f, m).state.phase == f.state.phase
  {
    hide Fields;
    OnlyRendersAreLeft(f);
  }

  lemma CalmStays(f: Fine, m: Move)
    requires ModelAccounts(f) && Possible(f, m) && Calm(f)
    requires TearsDown(f, m) ==> f.checkedRenders == 0
    ensures Calm(Moved(f, m))
  {
    hide NothingHeldOutsideActive;
    RenderEntryIsTheOnlyBreach(f, m);
    if !TearsDown(f, m) {
      MovedKeeps(f, m);
      PhaseMovesOnlySo(f, m);
    }
  }

  lemma PhaseMovesOnlySo(f: Fine, m: Move)
    requires Possible(f, m) && !TearsDown(f, m)
    requires m.ModelEnter? ==> ModelScoped(f.stage.guard)
    ensures f.state.phase == Active ==> Moved(f, m).state.phase == Active || m == ModelDrop(TeardownGuard)
    ensures f.state.phase != Active ==> Moved(f, m).checkedRenders <= f.checkedRenders
  {
  }

  // In a run whose teardowns begin calm, the clause holds throughout.
  lemma {:induction false} CalmTeardownsSuffice(fs: seq<Fine>, ms: seq<Move>, n: nat)
    requires IsFineRun(fs, ms) && TeardownsAreCalm(fs, ms) && n < |fs|
    requires ModelAccounts(fs[0]) && Calm(fs[0])
    ensures ModelAccounts(fs[n]) && Calm(fs[n])
  {
    if n > 0 {
      CalmTeardownsSuffice(fs, ms, n - 1);
      assert Possible(fs[n - 1], ms[n - 1]) && fs[n] == Moved(fs[n - 1], ms[n - 1]);
      MovedKeeps(fs[n - 1], ms[n - 1]);
      CalmStays(fs[n - 1], ms[n - 1]);
    }
  }

  // A teardown that begins while one is there can be followed at once by its entry, which breaks it.
  lemma HastyTeardownBreaks(f: Fine)
    requires ModelAccounts(f) && Possible(f, BeginTeardown) && TearsDown(f, BeginTeardown) && f.checkedRenders > 0
    ensures
      var torn := Moved(f, BeginTeardown);
      Possible(torn, RenderEnter) && !NothingHeldOutsideActive(Moved(torn, RenderEnter))
  {
    MovedKeeps(f, BeginTeardown);
    RenderEntryIsTheOnlyBreach(f, BeginTeardown);
    RenderEntryIsTheOnlyBreach(Moved(f, BeginTeardown), RenderEnter);
  }

  ghost predicate SafeFrom(f: Fine) {
    forall fs, ms, n :: IsFineRun(fs, ms) && fs[0] == f && 0 <= n < |fs| ==> NothingHeldOutsideActive(fs[n])
  }

  // So, in any reachable state in which a teardown succeeds: whatever happens afterwards, nothing scoped
  // is held outside the active phase, if and only if no render activation has passed its check already.
  lemma TeardownIsSafeExactly(fs: seq<Fine>, ms: seq<Move>, modelThread: nat, n: nat)
    requires IsFineRun(fs, ms) && fs[0] == Start(modelThread) && n < |fs|
    requires Possible(fs[n], BeginTeardown) && TearsDown(fs[n], BeginTeardown)
    ensures SafeFrom(Moved(fs[n], BeginTeardown)) <==> fs[n].checkedRenders == 0
  {
    var f := fs[n];
    var torn := Moved(f, BeginTeardown);
    FineRunAccounts(fs, ms, modelThread, n);
    MovedKeeps(f, BeginTeardown);
    if f.checkedRenders == 0 {
      forall later, moves, k | IsFineRun(later, moves) && later[0] == torn && 0 <= k < |later|
        ensures NothingHeldOutsideActive(later[k])
      {
        NoSecondTeardown(later, moves);
        CalmTeardownsSuffice(later, moves, k);
      }
    } else {
      HastyTeardownBreaks(f);
      var later := [torn, Moved(torn, RenderEnter)];
      assert IsFineRun(later, [RenderEnter]) && later[0] == torn;
      assert !NothingHeldOutsideActive(later[1]);
    }
  }

  lemma {:induction false} PhaseAdvances(fs: seq<Fine>, ms: seq<Move>, n: nat)
    requires IsFineRun(fs, ms) && ModelAccounts(fs[0]) && n < |fs|
    ensures ModelAccounts(fs[n]) && Rank(fs[0].state.phase) <= Rank(fs[n].state.phase)
  {
    if n > 0 {
      PhaseAdvances(fs, ms, n - 1);
      assert Possible(fs[n - 1], ms[n - 1]) && fs[n] == Moved(fs[n - 1], ms[n - 1]);
      MovedKeeps(fs[n - 1], ms[n - 1]);
    }
  }

  lemma NoSecondTeardown(fs: seq<Fine>, ms: seq<Move>)
    requires IsFineRun(fs, ms) && ModelAccounts(fs[0]) && fs[0].state.phase != Active
    ensures TeardownsAreCalm(fs, ms)
  {
    forall i | 0 <= i < |ms| ensures !TearsDown(fs[i], ms[i]) {
      PhaseAdvances(fs, ms, i);
    }
  }

  // An interleaving in which it happens: the check on a render thread, the teardown on the model
  // thread, and then the entry.
  lemma RenderOutlivesTheCheck(modelThread: nat) returns (fs: seq<Fine>, ms: seq<Move>)
    ensures IsFineRun(fs, ms) && fs[0] == Start(modelThread)
    ensures ms == [RenderPoll, RenderCheck, BeginTeardown, RenderEnter]
    ensures fs[|fs| - 1].state.phase == TearingDown
    ensures fs[|fs| - 1].held[RenderActivationGuard] == 1
  {
    var f0 := Start(modelThread);
    var f1 := Moved(f0, RenderPoll);
    var f2 := Moved(f1, RenderCheck);
    var f3 := Moved(f2, BeginTeardown);
    var f4 := Moved(f3, RenderEnter);
    fs, ms := [f0, f1, f2, f3, f4], [RenderPoll, RenderCheck, BeginTeardown, RenderEnter];
  }
}
