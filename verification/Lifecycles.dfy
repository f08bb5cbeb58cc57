// The lifecycle object and its guards (ara2-bridge-core/src/lifecycle.rs), updated in place.
module Lifecycles {
  import opened Prelude
  import opened ScopedStates

  class Lifecycle {
    const modelThread: nat
    var poisoned: bool
    var phase: Phase
    var editing: bool
    var restore: RestoreMode
    var sampleAccesses: nat
    var contentCall: bool
    var renderActivations: nat

    function View(): State
      reads this
    {
      State(modelThread, poisoned, phase, editing, restore, sampleAccesses, contentCall,
            renderActivations)
    }

    constructor (currentThread: nat)
      ensures View() == Initial(currentThread)
    {
      modelThread := currentThread;
      poisoned, phase, editing, restore := false, Active, false, NoRestore;
      sampleAccesses, contentCall, renderActivations := 0, false, 0;
    }

    method RequireUsable() returns (e: Option<Error>)
      ensures e == Refusal(View(), RenderActivationGuard, modelThread)
    {
      if poisoned { return Some(Poisoned); }
      if phase != Active { return Some(InvalidState); }
      return None;
    }

    method RequireModelOperation(caller: nat) returns (e: Option<Error>)
      ensures e == Refusal(View(), EditGuard, caller)
    {
      if caller != modelThread { return Some(InvalidThread); }
      e := RequireUsable();
    }

    method BeginEditing(caller: nat) returns (e: Option<Error>)
      modifies this
      ensures var r := Begin(old(View()), EditGuard, caller);
              e == (if r.Err? then Some(r.error) else None) && View() == (if r.Ok? then r.value else old(View()))
    {
      e := RequireModelOperation(caller);
      if e.Some? { return; }
      if editing { return Some(InvalidState); }
      if restore != NoRestore { return Some(InvalidState); }
      editing := true;
    }

    method BeginRestore(ara2: bool, caller: nat) returns (e: Option<Error>)
      modifies this
      ensures var r := Begin(old(View()), RestoreGuard(ara2), caller);
              e == (if r.Err? then Some(r.error) else None) && View() == (if r.Ok? then r.value else old(View()))
    {
      e := RequireModelOperation(caller);
      if e.Some? { return; }
      if editing || restore != NoRestore { return Some(InvalidState); }
      if ara2 {
        editing := true;
        restore := Ara2;
      } else {
        restore := Ara1;
      }
    }

    method BeginSampleAccess(caller: nat) returns (e: Option<Error>)
      modifies this
      ensures var r := Begin(old(View()), SampleAccessGuard, caller);
              e == (if r.Err? then Some(r.error) else None) && View() == (if r.Ok? then r.value else old(View()))
    {
      e := RequireModelOperation(caller);
      if e.Some? { return; }
      if sampleAccesses == USIZE_MAX { return Some(InvalidState); }
      sampleAccesses := sampleAccesses + 1;
    }

    method BeginContentCall(caller: nat) returns (e: Option<Error>)
      modifies this
      ensures var r := Begin(old(View()), ContentCallGuard, caller);
              e == (if r.Err? then Some(r.error) else None) && View() == (if r.Ok? then r.value else old(View()))
    {
      e := RequireModelOperation(caller);
      if e.Some? { return; }
      if contentCall { return Some(InvalidState); }
      contentCall := true;
    }

    method BeginRenderActivation(caller: nat) returns (e: Option<Error>)
      modifies this
      ensures var r := Begin(old(View()), RenderActivationGuard, caller);
              e == (if r.Err? then Some(r.error) else None) && View() == (if r.Ok? then r.value else old(View()))
    {
      e := RequireUsable();
      if e.Some? { return; }
      if renderActivations == USIZE_MAX { return Some(InvalidState); }
      renderActivations := renderActivations + 1;
    }

    method BeginTeardown(caller: nat) returns (e: Option<Error>)
      modifies this
      ensures var r := Begin(old(View()), TeardownGuard, caller);
              e == (if r.Err? then Some(r.error) else None) && View() == (if r.Ok? then r.value else old(View()))
    {
      if caller != modelThread { return Some(InvalidThread); }
      if phase != Active { return Some(InvalidState); }
      if editing || restore != NoRestore || sampleAccesses != 0 || contentCall || renderActivations != 0 {
        return Some(InvalidState);
      }
      phase := TearingDown;
      return None;
    }

    method FinishGuard(g: Guard, caller: nat) returns (e: Option<Error>)
      modifies this
      ensures var r := Finish(old(View()), g, caller);
              e == (if r.Err? then Some(r.error) else None) && View() == (if r.Ok? then r.value else old(View()))
    {
      if !g.RenderActivationGuard? && caller != modelThread { return Some(InvalidThread); }
      match g {
        case EditGuard =>
          if !editing || restore != NoRestore { return Some(InvalidState); }
          editing := false;
        case RestoreGuard(ara2) =>
          if restore != Mode(ara2) { return Some(InvalidState); }
          restore := NoRestore;
          if ara2 { editing := false; }
        case SampleAccessGuard =>
          if sampleAccesses == 0 { return Some(InvalidState); }
          sampleAccesses := sampleAccesses - 1;
        case ContentCallGuard =>
          if !contentCall { return Some(InvalidState); }
          contentCall := false;
        case RenderActivationGuard =>
          if renderActivations == 0 { return Some(InvalidState); }
          renderActivations := renderActivations - 1;
        case TeardownGuard =>
          if phase != TearingDown { return Some(InvalidState); }
          phase := Destroyed;
      }
      return None;
    }
  }

  // One guard of a lifecycle.
  class HeldGuard {
    const lifecycle: Lifecycle
    const kind: Guard
    var active: bool

    constructor (lifecycle: Lifecycle, kind: Guard)
      ensures this.lifecycle == lifecycle && this.kind == kind && active
    {
      this.lifecycle := lifecycle;
      this.kind := kind;
      active := true;
    }

    // The end of the guard's scope; a finished guard does nothing.
    method Drop(caller: nat)
      modifies this, lifecycle
      ensures !active
      ensures lifecycle.View() ==
              if old(active) then AfterDrop(old(lifecycle.View()), kind, caller) else old(lifecycle.View())
    {
      if active {
        var ignored := lifecycle.FinishGuard(kind, caller);
        active := false;
      }
    }

    // An explicit finish reports a refusal.  It consumes the guard either way, so a refused guard is
    // dropped, and the second attempt that this makes is refused as well.
    method FinishNow(caller: nat) returns (e: Option<Error>)
      requires active
      modifies this, lifecycle
      ensures !active && lifecycle.View() == AfterDrop(old(lifecycle.View()), kind, caller)
      ensures e.None? <==> Finish(old(lifecycle.View()), kind, caller).Ok?
    {
      e := lifecycle.FinishGuard(kind, caller);
      active := e.Some?;
      Drop(caller);
    }
  }
}
