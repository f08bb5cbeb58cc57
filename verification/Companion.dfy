// The one-shot binding of a companion processor to a document controller, and the lifecycle events
// that it admits (ara2-bridge-companion/src/binding.rs).
module Companion {
  import opened Prelude

  // A set of roles is the set of the bit positions of its flags.
  type Roles = set<nat>

  datatype Event =
    | StateLoad | Activate | Deactivate | Process | CreateView | BeginRendering | EndRendering | ModelMutation

  datatype Lifecycle = Lifecycle(
    bound: bool,
    boundaryObservedBeforeBinding: bool,
    active: bool,
    rendering: bool,
    processorAlive: bool,
    controllerAlive: bool,
    controller: Option<nat>,
    knownRoles: Roles,
    assignedRoles: Roles,
    enabledRoles: Roles)

  const UNBOUND := Lifecycle(false, false, false, false, true, false, None, {}, {}, {})

  // A role is enabled if it is supported and, where the host knows it, assigned.
  function Enabled(supported: Roles, knownRoles: Roles, assignedRoles: Roles): (r: Roles)
    ensures forall x :: x in r <==> x in supported && (x in knownRoles ==> x in assignedRoles)
  {
    (supported - knownRoles) + (supported * assignedRoles)
  }

  // `controller` is absent for a null reference.
  function Bind(l: Lifecycle, supported: Roles, modelThread: bool, controller: Option<nat>, knownRoles: Roles,
                assignedRoles: Roles): Result<Lifecycle>
  {
    if !modelThread then Err(InvalidState)
    else if controller.None? then Err(InvalidArgument)
    else if !(assignedRoles <= knownRoles) then Err(InvalidArgument)
    else if l.bound || l.boundaryObservedBeforeBinding then Err(InvalidState)
    else Ok(l.(bound := true, controllerAlive := true, controller := controller, knownRoles := knownRoles,
               assignedRoles := assignedRoles, enabledRoles := Enabled(supported, knownRoles, assignedRoles)))
  }

  // What an event needs and does while the binding is intact.
  function Admit(l: Lifecycle, e: Event, modelThread: bool): Result<Lifecycle> {
    match e
    case StateLoad => if l.active then Err(InvalidState) else Ok(l)
    case CreateView => if l.active then Err(InvalidState) else Ok(l)
    case Activate => if l.active then Err(InvalidState) else Ok(l.(active := true))
    case Deactivate => if !l.active || l.rendering then Err(InvalidState) else Ok(l.(active := false))
    case Process => if !l.active then Err(InvalidState) else Ok(l)
    case BeginRendering => if !l.active || l.rendering then Err(InvalidState) else Ok(l.(rendering := true))
    case EndRendering => if !l.rendering then Err(InvalidState) else Ok(l.(rendering := false))
    case ModelMutation => if !modelThread || l.rendering then Err(InvalidState) else Ok(l)
  }

  datatype Observation = Observation(now: Lifecycle, refused: Option<Error>)

  function Observe(l: Lifecycle, e: Event, modelThread: bool): Observation {
    if !l.processorAlive then Observation(l, Some(InvalidState))
    else if !l.bound then Observation(l.(boundaryObservedBeforeBinding := true), Some(InvalidState))
    else if !l.controllerAlive then Observation(l, Some(InvalidState))
    else
      var r := Admit(l, e, modelThread);
      if r.Ok? then Observation(r.value, None) else Observation(l, Some(r.error))
  }

  function DropController(l: Lifecycle): Lifecycle {
    l.(controllerAlive := false, controller := None, active := false, rendering := false)
  }

  function DropProcessor(l: Lifecycle): Lifecycle {
    l.(processorAlive := false)
  }

  // ---- In place: the state that both owners share

  class BindingState {
    const supported: Roles
    var lifecycle: Lifecycle

    constructor (supported: Roles)
      ensures this.supported == supported && lifecycle == UNBOUND
    {
      this.supported, lifecycle := supported, UNBOUND;
    }
  }

  class CompanionProcessorBinding {
    const state: BindingState

    constructor (supported: Roles)
      ensures fresh(state) && state.supported == supported && state.lifecycle == UNBOUND
    {
      state := new BindingState(supported);
    }

    // A processor needs at least one factory, and no two with the same identifier.
    static method Create(factories: seq<string>, supported: Roles) returns (r: Result<CompanionProcessorBinding>)
      ensures r.Ok? <==> factories != [] && forall i, j :: 0 <= i < j < |factories| ==> factories[i] != factories[j]
      ensures r.Ok? ==> fresh(r.value) && fresh(r.value.state) && r.value.state.supported == supported
                        && r.value.state.lifecycle == UNBOUND
    {
      if |factories| == 0 { return Err(InvalidArgument); }
      for index := 0 to |factories|
        invariant forall i, j :: 0 <= i < j < index ==> factories[i] != factories[j]
      {
        if exists i :: 0 <= i < index && factories[i] == factories[index] { return Err(InvalidArgument); }
      }
      var binding := new CompanionProcessorBinding(supported);
      return Ok(binding);
    }

    method BindController(modelThread: bool, controller: Option<nat>, knownRoles: Roles, assignedRoles: Roles)
      returns (r: Result<CompanionControllerBinding>)
      modifies state
      ensures r.Ok? ==> fresh(r.value) && r.value.state == state && r.value.active
      ensures Bind(old(state.lifecycle), state.supported, modelThread, controller, knownRoles, assignedRoles)
              == if r.Ok? then Ok(state.lifecycle) else Err(r.error)
      ensures r.Err? ==> state.lifecycle == old(state.lifecycle)
    {
      if !modelThread { return Err(InvalidState); }
      if controller.None? { return Err(InvalidArgument); }
      if !(assignedRoles <= knownRoles) { return Err(InvalidArgument); }
      var l := state.lifecycle;
      if l.bound { return Err(InvalidState); }
      if l.boundaryObservedBeforeBinding { return Err(InvalidState); }
      var enabledRoles := set x | x in state.supported && (x !in knownRoles || x in assignedRoles);
      assert enabledRoles == Enabled(state.supported, knownRoles, assignedRoles);
      state.lifecycle := l.(bound := true, controllerAlive := true, controller := controller, knownRoles := knownRoles,
                            assignedRoles := assignedRoles, enabledRoles := enabledRoles);
      var binding := new CompanionControllerBinding(state);
      return Ok(binding);
    }

    method ObserveEvent(e: Event, modelThread: bool) returns (refused: Option<Error>)
      modifies state
      ensures Observation(state.lifecycle, refused) == Observe(old(state.lifecycle), e, modelThread)
    {
      var l := state.lifecycle;
      if !l.processorAlive { return Some(InvalidState); }
      if !l.bound {
        state.lifecycle := l.(boundaryObservedBeforeBinding := true);
        return Some(InvalidState);
      }
      if !l.controllerAlive { return Some(InvalidState); }
      match e {
        case StateLoad | CreateView =>
          if l.active { return Some(InvalidState); }
        case Activate =>
          if l.active { return Some(InvalidState); }
          state.lifecycle := l.(active := true);
        case Deactivate =>
          if !l.active || l.rendering { return Some(InvalidState); }
          state.lifecycle := l.(active := false);
        case Process =>
          if !l.active { return Some(InvalidState); }
        case BeginRendering =>
          if !l.active || l.rendering { return Some(InvalidState); }
          state.lifecycle := l.(rendering := true);
        case EndRendering =>
          if !l.rendering { return Some(InvalidState); }
          state.lifecycle := l.(rendering := false);
        case ModelMutation =>
          if !modelThread { return Some(InvalidState); }
          if l.rendering { return Some(InvalidState); }
      }
      return None;
    }

    method Drop()
      modifies state
      ensures state.lifecycle == DropProcessor(old(state.lifecycle))
    {
      state.lifecycle := state.lifecycle.(processorAlive := false);
    }
  }

  class CompanionControllerBinding {
    const state: BindingState
    var active: bool

    constructor (state: BindingState)
      ensures this.state == state && active
    {
      this.state, active := state, true;
    }

    method Drop()
      modifies this, state
      ensures !active
      ensures state.lifecycle == if old(active) then DropController(old(state.lifecycle)) else old(state.lifecycle)
    {
      if active {
        state.lifecycle :=
          state.lifecycle.(controllerAlive := false, controller := None, active := false, rendering := false);
        active := false;
      }
    }
  }

  // ---- Runs of both owners, in any order

  datatype Action =
    | TryBind(modelThread: bool, controller: Option<nat>, knownRoles: Roles, assignedRoles: Roles)
    | See(event: Event, modelThread: bool)
    | LoseController
    | LoseProcessor

  // Binding needs the processor; the controller's owner exists once it is bound.
  predicate Legal(l: Lifecycle, a: Action) {
    match a
    case TryBind(_, _, _, _) => l.processorAlive
    case See(_, _) => true
    case LoseController => l.bound
    case LoseProcessor => l.processorAlive
  }

  predicate Succeeds(l: Lifecycle, supported: Roles, a: Action) {
    match a
    case TryBind(m, c, knownRoles, assignedRoles) => Bind(l, supported, m, c, knownRoles, assignedRoles).Ok?
    case See(e, m) => Observe(l, e, m).refused.None?
    case _ => true
  }

  function Next(l: Lifecycle, supported: Roles, a: Action): Lifecycle {
    match a
    case TryBind(m, c, knownRoles, assignedRoles) =>
      var r := Bind(l, supported, m, c, knownRoles, assignedRoles);
      if r.Ok? then r.value else l
    case See(e, m) => Observe(l, e, m).now
    case LoseController => DropController(l)
    case LoseProcessor => DropProcessor(l)
  }

  ghost predicate IsRun(ls: seq<Lifecycle>, supported: Roles, acts: seq<Action>) {
    && |ls| == |acts| + 1 && ls[0] == UNBOUND
    && forall i :: 0 <= i < |acts| ==> Legal(ls[i], acts[i]) && ls[i + 1] == Next(ls[i], supported, acts[i])
  }

  ghost predicate Ordered(l: Lifecycle, supported: Roles) {
    && (l.rendering ==> l.active)
    && (l.active ==> l.bound && l.controllerAlive)
    && (l.controllerAlive ==> l.bound)
    && (l.controllerAlive <==> l.controller.Some?)
    && l.assignedRoles <= l.knownRoles
    && (l.bound ==> forall x :: x in l.enabledRoles <==> x in supported && (x in l.knownRoles ==> x in l.assignedRoles))
    && !(l.bound && l.boundaryObservedBeforeBinding)
  }

  // In every state of every run: rendering implies active, active implies bound to a live controller,
  // and the enabled roles follow the formula.
  lemma {:induction false} RunOrdered(ls: seq<Lifecycle>, supported: Roles, acts: seq<Action>, n: nat)
    requires IsRun(ls, supported, acts) && n < |ls|
    ensures Ordered(ls[n], supported)
  {
    if n > 0 {
      RunOrdered(ls, supported, acts, n - 1);
      assert ls[n] == Next(ls[n - 1], supported, acts[n - 1]);
    }
  }

  // What a run never takes back.
  lemma {:induction false} RunAdvances(ls: seq<Lifecycle>, supported: Roles, acts: seq<Action>, i: nat, n: nat)
    requires IsRun(ls, supported, acts) && i <= n < |ls|
    ensures ls[i].bound ==> ls[n].bound
    ensures ls[i].boundaryObservedBeforeBinding ==> ls[n].boundaryObservedBeforeBinding
    ensures !ls[i].processorAlive ==> !ls[n].processorAlive
    ensures ls[i].bound && !ls[i].controllerAlive ==> !ls[n].controllerAlive
  {
    hide Next;
    if i < n {
      RunAdvances(ls, supported, acts, i, n - 1);
      assert ls[n] == Next(ls[n - 1], supported, acts[n - 1]);
      NextAdvances(ls[n - 1], supported, acts[n - 1]);
    }
  }

  lemma NextAdvances(l: Lifecycle, supported: Roles, a: Action)
    requires Legal(l, a)
    ensures l.bound ==> Next(l, supported, a).bound
    ensures l.boundaryObservedBeforeBinding ==> Next(l, supported, a).boundaryObservedBeforeBinding
    ensures !l.processorAlive ==> !Next(l, supported, a).processorAlive
    ensures l.bound && !l.controllerAlive ==> !Next(l, supported, a).controllerAlive
  {
  }

  // At most one binding ever succeeds, and none after an event that came too early.
  lemma BindsOnce(ls: seq<Lifecycle>, supported: Roles, acts: seq<Action>, i: nat, n: nat)
    requires IsRun(ls, supported, acts) && i < n < |acts| && acts[n].TryBind?
    requires (acts[i].TryBind? && Succeeds(ls[i], supported, acts[i]))
             || (acts[i].See? && ls[i].processorAlive && !ls[i].bound)
    ensures !Succeeds(ls[n], supported, acts[n])
  {
    assert ls[i + 1] == Next(ls[i], supported, acts[i]);
    RunAdvances(ls, supported, acts, i + 1, n);
  }

  // A binding succeeds exactly on the model thread, with a controller and with assigned roles that are
  // known, if none has succeeded before and no event was observed; and then it is the one that was asked
  // for.
  lemma BindsExactly(ls: seq<Lifecycle>, supported: Roles, acts: seq<Action>, n: nat)
    requires IsRun(ls, supported, acts) && n < |acts| && acts[n].TryBind?
    ensures
      var a, l := acts[n], ls[n + 1];
      && (Succeeds(ls[n], supported, a) <==>
            && a.modelThread && a.controller.Some? && a.assignedRoles <= a.knownRoles
            && forall i :: 0 <= i < n ==> !acts[i].See? && !(acts[i].TryBind? && Succeeds(ls[i], supported, acts[i])))
      && (if Succeeds(ls[n], supported, a) then
            && l.bound && l.controllerAlive && l.controller == a.controller && l.processorAlive
            && !l.active && !l.rendering && l.knownRoles == a.knownRoles && l.assignedRoles == a.assignedRoles
            && forall x :: x in l.enabledRoles <==> x in supported && (x in a.knownRoles ==> x in a.assignedRoles)
          else l == ls[n])
  {
    hide Enabled;
    assert Legal(ls[n], acts[n]) && ls[n + 1] == Next(ls[n], supported, acts[n]);
    RunOrdered(ls, supported, acts, n);
    WhyBound(ls, supported, acts, n);
    forall i | 0 <= i < n && (acts[i].See? || (acts[i].TryBind? && Succeeds(ls[i], supported, acts[i])))
      ensures ls[n].bound || ls[n].boundaryObservedBeforeBinding
    {
      assert ls[i + 1] == Next(ls[i], supported, acts[i]);
      RunAdvances(ls, supported, acts, i + 1, n);
      RunAdvances(ls, supported, acts, i, n);
    }
    EnabledIs(supported, acts[n].knownRoles, acts[n].assignedRoles);
  }

  lemma EnabledIs(supported: Roles, knownRoles: Roles, assignedRoles: Roles)
    ensures forall x :: x in Enabled(supported, knownRoles, assignedRoles) <==>
              x in supported && (x in knownRoles ==> x in assignedRoles)
  {
  }

  // What a bound or spoilt lifecycle has behind it.
  lemma {:induction false} WhyBound(ls: seq<Lifecycle>, supported: Roles, acts: seq<Action>, n: nat)
    requires IsRun(ls, supported, acts) && n < |ls|
    ensures ls[n].bound || ls[n].boundaryObservedBeforeBinding ==>
              exists i :: 0 <= i < n && (acts[i].See? || (acts[i].TryBind? && Succeeds(ls[i], supported, acts[i])))
    ensures !ls[n].bound ==> !ls[n].active && !ls[n].rendering
  {
    hide Enabled;
    if n > 0 {
      WhyBound(ls, supported, acts, n - 1);
      assert ls[n] == Next(ls[n - 1], supported, acts[n - 1]);
      if !(ls[n - 1].bound || ls[n - 1].boundaryObservedBeforeBinding)
         && (ls[n].bound || ls[n].boundaryObservedBeforeBinding) {
        assert acts[n - 1].See? || (acts[n - 1].TryBind? && Succeeds(ls[n - 1], supported, acts[n - 1]));
      }
    }
  }

  // The thread matters for model mutations alone.
  lemma OnlyMutationsNeedTheModelThread(l: Lifecycle, e: Event)
    ensures Observe(l, e, true).refused.None? && !e.ModelMutation? ==> Observe(l, e, false) == Observe(l, e, true)
    ensures Observe(l, ModelMutation, false).refused.Some?
    ensures Observe(l, e, false).refused.None? ==> Observe(l, e, false) == Observe(l, e, true)
  {
  }

  // After the processor or the controller is gone, no event is admitted any more.
  lemma NothingAfterLoss(ls: seq<Lifecycle>, supported: Roles, acts: seq<Action>, i: nat, n: nat)
    requires IsRun(ls, supported, acts) && i < n < |acts| && acts[n].See?
    requires acts[i].LoseController? || acts[i].LoseProcessor?
    ensures !Succeeds(ls[n], supported, acts[n])
    ensures acts[i].LoseController? ==> !ls[n].active && !ls[n].rendering
  {
    assert Legal(ls[i], acts[i]) && ls[i + 1] == Next(ls[i], supported, acts[i]);
    RunAdvances(ls, supported, acts, i + 1, n);
    RunOrdered(ls, supported, acts, n);
  }

  // ---- The language of admitted events

  // Between activation and deactivation: single events, and renderings, which do not nest.
  datatype Item = One(event: Event) | Rendering(length: nat)
  datatype Session = Outside(event: Event) | Span(items: seq<Item>)

  predicate GoodItem(i: Item) {
    i.One? ==> i.event.Process? || i.event.ModelMutation?
  }

  predicate GoodSession(s: Session) {
    match s
    case Outside(e) => e.StateLoad? || e.CreateView? || e.ModelMutation?
    case Span(items) => forall i :: 0 <= i < |items| ==> GoodItem(items[i])
  }

  predicate GoodItems(items: seq<Item>) {
    forall i :: 0 <= i < |items| ==> GoodItem(items[i])
  }

  predicate GoodSessions(ss: seq<Session>) {
    forall i :: 0 <= i < |ss| ==> GoodSession(ss[i])
  }

  function Repeat(n: nat): seq<Event> {
    if n == 0 then [] else Repeat(n - 1) + [Process]
  }

  function PrintItem(i: Item): seq<Event> {
    match i
    case One(e) => [e]
    case Rendering(n) => [BeginRendering] + Repeat(n) + [EndRendering]
  }

  function PrintItems(items: seq<Item>): seq<Event> {
    if items == [] then [] else PrintItems(items[..|items| - 1]) + PrintItem(items[|items| - 1])
  }

  function PrintSession(s: Session): seq<Event> {
    match s
    case Outside(e) => [e]
    case Span(items) => [Activate] + PrintItems(items) + [Deactivate]
  }

  function PrintSessions(ss: seq<Session>): seq<Event> {
    if ss == [] then [] else PrintSessions(ss[..|ss| - 1]) + PrintSession(ss[|ss| - 1])
  }

  // A bound processor and controller, on the model thread.
  predicate Intact(l: Lifecycle) {
    l.processorAlive && l.bound && l.controllerAlive
  }

  // The state after events that are all admitted; absent if one is refused.
  function After(l: Lifecycle, es: seq<Event>): Option<Lifecycle> {
    if es == [] then Some(l) else
    var before := After(l, es[..|es| - 1]);
    if before.None? then None else
    var o := Observe(before.value, es[|es| - 1], true);
    if o.refused.None? then Some(o.now) else None
  }

  lemma {:induction false} AfterAppend(l: Lifecycle, a: seq<Event>, b: seq<Event>)
    ensures After(l, a + b) == if After(l, a).Some? then After(After(l, a).value, b) else None
  {
    if b == [] {
      assert a + b == a;
    } else {
      AfterAppend(l, a, b[..|b| - 1]);
      assert (a + b)[..|a + b| - 1] == a + b[..|b| - 1];
    }
  }

  lemma AfterOne(l: Lifecycle, e: Event)
    ensures After(l, [e]) == if Observe(l, e, true).refused.None? then Some(Observe(l, e, true).now) else None
  {
    assert [e][..0] == [];
    assert After(l, []) == Some(l);
  }

  lemma {:induction false} RepeatAdmitted(l: Lifecycle, n: nat)
    requires Intact(l) && l.active
    ensures After(l, Repeat(n)) == Some(l)
  {
    if n > 0 {
      RepeatAdmitted(l, n - 1);
      assert Repeat(n)[..|Repeat(n)| - 1] == Repeat(n - 1);
    }
  }

  // The stages of a sequence, one after the other.
  lemma AfterThen(l: Lifecycle, a: seq<Event>, m: Lifecycle, b: seq<Event>, n: Lifecycle)
    requires After(l, a) == Some(m) && After(m, b) == Some(n)
    ensures After(l, a + b) == Some(n)
  {
    AfterAppend(l, a, b);
  }

  lemma EventAdmitted(l: Lifecycle, e: Event)
    requires Intact(l)
    ensures Admit(l, e, true).Ok? ==> After(l, [e]) == Some(Admit(l, e, true).value)
  {
    AfterOne(l, e);
  }

  lemma ItemAdmitted(l: Lifecycle, i: Item)
    requires Intact(l) && l.active && !l.rendering && GoodItem(i)
    ensures After(l, PrintItem(i)) == Some(l)
  {
    hide After, Repeat;
    match i
    case One(e) => EventAdmitted(l, e);
    case Rendering(n) =>
      var m := l.(rendering := true);
      EventAdmitted(l, BeginRendering);
      RepeatAdmitted(m, n);
      AfterThen(l, [BeginRendering], m, Repeat(n), m);
      EventAdmitted(m, EndRendering);
      AfterThen(l, [BeginRendering] + Repeat(n), m, [EndRendering], l);
  }

  lemma {:induction false} ItemsAdmitted(l: Lifecycle, items: seq<Item>)
    requires Intact(l) && l.active && !l.rendering && GoodItems(items)
    ensures After(l, PrintItems(items)) == Some(l)
  {
    hide Observe, PrintItem, GoodItem;
    if items != [] {
      var init, last := items[..|items| - 1], items[|items| - 1];
      ItemsAdmitted(l, init);
      ItemAdmitted(l, last);
      AfterThen(l, PrintItems(init), l, PrintItem(last), l);
    }
  }

  lemma SessionAdmitted(l: Lifecycle, s: Session)
    requires Intact(l) && !l.active && !l.rendering && GoodSession(s)
    ensures After(l, PrintSession(s)) == Some(l)
  {
    hide After, PrintItems;
    match s
    case Outside(e) => EventAdmitted(l, e);
    case Span(items) =>
      var m := l.(active := true);
      EventAdmitted(l, Activate);
      ItemsAdmitted(m, items);
      AfterThen(l, [Activate], m, PrintItems(items), m);
      EventAdmitted(m, Deactivate);
      AfterThen(l, [Activate] + PrintItems(items), m, [Deactivate], l);
  }

  // Every nested sequence of events is admitted, and leaves the processor inactive.
  lemma {:induction false} NestedIsAdmitted(l: Lifecycle, ss: seq<Session>)
    requires Intact(l) && !l.active && !l.rendering && GoodSessions(ss)
    ensures After(l, PrintSessions(ss)) == Some(l)
  {
    hide Observe, PrintSession, GoodSession;
    if ss != [] {
      var init, last := ss[..|ss| - 1], ss[|ss| - 1];
      NestedIsAdmitted(l, init);
      SessionAdmitted(l, last);
      AfterThen(l, PrintSessions(init), l, PrintSession(last), l);
    }
  }

  // What has been read of an admitted sequence: closed sessions, and what is still open.
  datatype Open = Shut | InSpan(items: seq<Item>) | InRendering(items: seq<Item>, length: nat)

  function PrintOpen(o: Open): seq<Event> {
    match o
    case Shut => []
    case InSpan(items) => [Activate] + PrintItems(items)
    case InRendering(items, n) => [Activate] + PrintItems(items) + [BeginRendering] + Repeat(n)
  }

  predicate GoodOpen(o: Open) {
    match o
    case Shut => true
    case InSpan(items) => GoodItems(items)
    case InRendering(items, _) => GoodItems(items)
  }

  function StateAt(l: Lifecycle, o: Open): Lifecycle {
    l.(active := !o.Shut?, rendering := o.InRendering?)
  }

  // Reading one more admitted event.
  lemma ReadNext(l: Lifecycle, ss: seq<Session>, o: Open, e: Event) returns (ss': seq<Session>, o': Open)
    requires Intact(l) && !l.active && !l.rendering && GoodSessions(ss) && GoodOpen(o)
    requires Admit(StateAt(l, o), e, true).Ok?
    ensures GoodSessions(ss') && GoodOpen(o')
    ensures PrintSessions(ss') + PrintOpen(o') == PrintSessions(ss) + PrintOpen(o) + [e]
    ensures StateAt(l, o') == Admit(StateAt(l, o), e, true).value
  {
    hide PrintItems, PrintSessions, PrintOpen, Admit, GoodOpen;
    match o
    case Shut => ss', o' := ReadOutside(l, ss, o, e);
    case InSpan(_) => ss', o' := ReadInSpan(l, ss, o, e);
    case InRendering(_, _) => ss', o' := ReadInRendering(l, ss, o, e);
  }

  lemma ReadOutside(l: Lifecycle, ss: seq<Session>, o: Open, e: Event) returns (ss': seq<Session>, o': Open)
    requires Intact(l) && !l.active && !l.rendering && GoodSessions(ss) && GoodOpen(o) && o.Shut?
    requires Admit(StateAt(l, o), e, true).Ok?
    ensures GoodSessions(ss') && GoodOpen(o')
    ensures PrintSessions(ss') + PrintOpen(o') == PrintSessions(ss) + PrintOpen(o) + [e]
    ensures StateAt(l, o') == Admit(StateAt(l, o), e, true).value
  {
    hide PrintItems, PrintSessions;
    ss', o' := ss, o;
    if e.Activate? {
      o' := InSpan([]);
      NoItems();
      assert PrintOpen(o') == [e];
    } else {
      SessionsGrow(ss, Outside(e));
      ss' := ss + [Outside(e)];
      assert PrintOpen(Shut) == [];
    }
  }

  lemma ReadInSpan(l: Lifecycle, ss: seq<Session>, o: Open, e: Event) returns (ss': seq<Session>, o': Open)
    requires Intact(l) && !l.active && !l.rendering && GoodSessions(ss) && GoodOpen(o) && o.InSpan?
    requires Admit(StateAt(l, o), e, true).Ok?
    ensures GoodSessions(ss') && GoodOpen(o')
    ensures PrintSessions(ss') + PrintOpen(o') == PrintSessions(ss) + PrintOpen(o) + [e]
    ensures StateAt(l, o') == Admit(StateAt(l, o), e, true).value
  {
    hide PrintItems, PrintSessions;
    var p, q := PrintSessions(ss), PrintOpen(o);
    assert p + q + [e] == p + (q + [e]);
    ss', o' := ss, o;
    if e.Deactivate? {
      SessionsGrow(ss, Span(o.items));
      ss', o' := ss + [Span(o.items)], Shut;
      assert PrintOpen(o') == [] && PrintSession(Span(o.items)) == q + [e];
    } else if e.BeginRendering? {
      NoItems();
      o' := InRendering(o.items, 0);
      assert PrintOpen(o') == q + [e];
    } else {
      ItemsGrow(o.items, One(e));
      o' := InSpan(o.items + [One(e)]);
      assert PrintOpen(o') == q + [e];
    }
  }

  lemma ReadInRendering(l: Lifecycle, ss: seq<Session>, o: Open, e: Event) returns (ss': seq<Session>, o': Open)
    requires Intact(l) && !l.active && !l.rendering && GoodSessions(ss) && GoodOpen(o) && o.InRendering?
    requires Admit(StateAt(l, o), e, true).Ok?
    ensures GoodSessions(ss') && GoodOpen(o')
    ensures PrintSessions(ss') + PrintOpen(o') == PrintSessions(ss) + PrintOpen(o) + [e]
    ensures StateAt(l, o') == Admit(StateAt(l, o), e, true).value
  {
    hide PrintItems, PrintSessions, Repeat;
    var p, q := PrintSessions(ss), PrintOpen(o);
    assert p + q + [e] == p + (q + [e]);
    ss', o' := ss, o;
    if e.EndRendering? {
      ItemsGrow(o.items, Rendering(o.length));
      o' := InSpan(o.items + [Rendering(o.length)]);
      assert PrintOpen(o') == q + [e];
    } else {
      OneMore(o.length);
      o' := InRendering(o.items, o.length + 1);
      assert PrintOpen(o') == q + [e];
    }
  }

  lemma NoItems()
    ensures PrintItems([]) == [] && Repeat(0) == []
  {
  }

  lemma OneMore(n: nat)
    ensures Repeat(n + 1) == Repeat(n) + [Process]
  {
  }

  // Conversely every admitted sequence is nested, up to what is still open at its end.
  lemma {:induction false} AdmittedIsNested(l: Lifecycle, es: seq<Event>) returns (ss: seq<Session>, o: Open)
    requires Intact(l) && !l.active && !l.rendering && After(l, es).Some?
    ensures GoodSessions(ss) && GoodOpen(o)
    ensures es == PrintSessions(ss) + PrintOpen(o) && After(l, es) == Some(StateAt(l, o))
  {
    hide GoodSessions, GoodOpen, PrintOpen, Admit;
    if es == [] {
      ss, o := [], Shut;
      NothingRead();
    } else {
      var init, e := es[..|es| - 1], es[|es| - 1];
      ss, o := AdmittedIsNested(l, init);
      assert es == init + [e];
      ss, o := ReadNext(l, ss, o, e);
    }
  }

  lemma NothingRead()
    ensures GoodSessions([]) && GoodOpen(Shut) && PrintSessions([]) == [] && PrintOpen(Shut) == []
  {
  }

  lemma ItemsGrow(items: seq<Item>, i: Item)
    ensures PrintItems(items + [i]) == PrintItems(items) + PrintItem(i)
  {
    assert (items + [i])[..|items + [i]| - 1] == items;
  }

  lemma SessionsGrow(ss: seq<Session>, s: Session)
    ensures PrintSessions(ss + [s]) == PrintSessions(ss) + PrintSession(s)
  {
    assert (ss + [s])[..|ss + [s]| - 1] == ss;
  }

  // So the sequences that leave the processor inactive are exactly the nested ones.
  lemma InactiveExactlyWhenNested(l: Lifecycle, es: seq<Event>)
    requires Intact(l) && !l.active && !l.rendering
    ensures After(l, es) == Some(l) <==> exists ss :: GoodSessions(ss) && es == PrintSessions(ss)
  {
    if After(l, es) == Some(l) {
      var ss, o := AdmittedIsNested(l, es);
      assert PrintOpen(Shut) == [];
      assert GoodSessions(ss) && es == PrintSessions(ss);
    }
    if ss :| GoodSessions(ss) && es == PrintSessions(ss) {
      NestedIsAdmitted(l, ss);
    }
  }

  // A refused event changes nothing while the binding is intact, so what matters of a run between
  // binding and loss is its admitted events.
  lemma RefusedChangesNothing(l: Lifecycle, e: Event, modelThread: bool)
    requires Intact(l) && Observe(l, e, modelThread).refused.Some?
    ensures Observe(l, e, modelThread).now == l
  {
  }

  function Admitted(l: Lifecycle, sees: seq<(Event, bool)>): seq<Event> {
    if sees == [] then [] else
    var (e, m) := sees[|sees| - 1];
    var before := sees[..|sees| - 1];
    Admitted(l, before) + if Observe(Seen(l, before), e, m).refused.None? then [e] else []
  }

  function Seen(l: Lifecycle, sees: seq<(Event, bool)>): Lifecycle {
    if sees == [] then l else Observe(Seen(l, sees[..|sees| - 1]), sees[|sees| - 1].0, sees[|sees| - 1].1).now
  }

  lemma {:induction false} AdmittedTellsAll(l: Lifecycle, sees: seq<(Event, bool)>)
    requires Intact(l)
    ensures Intact(Seen(l, sees)) && After(l, Admitted(l, sees)) == Some(Seen(l, sees))
  {
    hide Observe, After;
    if sees == [] {
      AfterNothing(l);
    } else {
      var before, last := sees[..|sees| - 1], sees[|sees| - 1];
      AdmittedTellsAll(l, before);
      SeenNext(l, Admitted(l, before), Seen(l, before), last.0, last.1);
      assert Admitted(l, before) + [] == Admitted(l, before);
    }
  }

  lemma AfterNothing(l: Lifecycle)
    ensures After(l, []) == Some(l)
  {
  }

  lemma SeenNext(l: Lifecycle, a: seq<Event>, m: Lifecycle, e: Event, modelThread: bool)
    requires After(l, a) == Some(m) && Intact(m)
    ensures
      var o := Observe(m, e, modelThread);
      Intact(o.now) && After(l, if o.refused.None? then a + [e] else a) == Some(o.now)
  {
    if Observe(m, e, modelThread).refused.Some? {
      RefusedChangesNothing(m, e, modelThread);
    } else {
      assert (a + [e])[..|a + [e]| - 1] == a;
    }
  }
}
