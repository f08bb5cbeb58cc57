// The coordinator of assertion function-pointer cells and its guards (ara2-bridge-core/src/assertions.rs).
// Its entries are the same table of counted uses; what differs is that the coordinator owns the cell,
// so an acquisition brings no address of its own.
module AssertCoordinators {
  import opened Prelude
  import opened SharedAssertions

  // The cell that an acquisition gets: the generation's, or a new one.
  function CellOf(t: Table, generation: nat, newCell: nat): nat {
    if generation in t then t[generation].address else newCell
  }

  function CellAcquired(t: Table, generation: nat, newCell: nat): Result<Table> {
    Acquire(t, Selection(generation, CellOf(t, generation, newCell)))
  }

  function CellReleased(t: Table, generation: nat): Result<Table> {
    if generation !in t || t[generation].users == 0 then Err(InvalidState)
    else Ok(Release(t, Selection(generation, t[generation].address)))
  }

  class AssertCoordinator {
    var entries: Table

    constructor ()
      ensures entries == map[]
    {
      entries := map[];
    }

    method ActiveCount(generation: nat) returns (n: nat)
      ensures n == if generation in entries then entries[generation].users else 0
    {
      n := if generation in entries then entries[generation].users else 0;
    }

    // `newCell` is the address of the cell that is allocated if the generation has none.
    method AcquireCell(generation: nat, supported: bool, newCell: nat) returns (r: Result<nat>)
      modifies this
      ensures r.Ok? <==> supported && CellAcquired(old(entries), generation, newCell).Ok?
      ensures if r.Ok? then r.value == CellOf(old(entries), generation, newCell)
                            && Ok(entries) == CellAcquired(old(entries), generation, newCell)
              else entries == old(entries)
    {
      if !supported { return Err(Unsupported); }
      var entry := if generation in entries then entries[generation] else Shared(newCell, 0);
      if entry.users == USIZE_MAX { return Err(InvalidState); }
      entries := entries[generation := entry.(users := entry.users + 1)];
      return Ok(entry.address);
    }

    method ReleaseCell(generation: nat) returns (e: Option<Error>)
      modifies this
      ensures var r := CellReleased(old(entries), generation);
              e == (if r.Err? then Some(r.error) else None) && entries == (if r.Ok? then r.value else old(entries))
    {
      if generation !in entries { return Some(InvalidState); }
      var entry := entries[generation];
      if entry.users == 0 { return Some(InvalidState); }
      entries := entries[generation := entry.(users := entry.users - 1)];
      if entries[generation].users == 0 {
        entries := entries - {generation};
      }
      return None;
    }
  }

  class FactoryInitialization {
    const generation: nat
    const address: nat
    const coordinator: AssertCoordinator
    var active: bool

    // What `begin` builds once the coordinator has granted a cell.
    constructor (generation: nat, address: nat, coordinator: AssertCoordinator)
      ensures this.generation == generation && this.address == address && this.coordinator == coordinator && active
    {
      this.generation, this.address, this.coordinator, active := generation, address, coordinator, true;
    }

    // Balances the initialization once; a second attempt is reported.
    method Uninitialize() returns (e: Option<Error>)
      modifies this, coordinator
      ensures if old(active) then
                var r := CellReleased(old(coordinator.entries), generation);
                e == (if r.Err? then Some(r.error) else None) && active == r.Err?
                && coordinator.entries == (if r.Ok? then r.value else old(coordinator.entries))
              else e == Some(InvalidState) && !active && coordinator.entries == old(coordinator.entries)
    {
      if !active { return Some(InvalidState); }
      e := coordinator.ReleaseCell(generation);
      if e.None? {
        active := false;
      }
    }

    method Drop()
      modifies this, coordinator
      ensures !active
      ensures coordinator.entries ==
              var r := CellReleased(old(coordinator.entries), generation);
              if old(active) && r.Ok? then r.value else old(coordinator.entries)
    {
      if active {
        var ignored := coordinator.ReleaseCell(generation);
        active := false;
      }
    }
  }

  // ---- Runs: any number of guards, begun and ended in any order

  datatype World = World(table: Table, guards: map<nat, Selection>)

  datatype Event =
    | Begin(guard: nat, generation: nat, supported: bool, newCell: nat)
    | End(guard: nat)      // an explicit uninitialization, or the drop of an active guard

  predicate Possible(w: World, e: Event) {
    match e
    case Begin(guard, _, _, _) => guard !in w.guards
    case End(guard) => guard in w.guards
  }

  function Next(w: World, e: Event): World
    requires Possible(w, e)
  {
    match e
    case Begin(guard, generation, supported, newCell) =>
      var r := CellAcquired(w.table, generation, newCell);
      if supported && r.Ok?
      then World(r.value, w.guards[guard := Selection(generation, CellOf(w.table, generation, newCell))]) else w
    case End(guard) =>
      var r := CellReleased(w.table, w.guards[guard].generation);
      if r.Ok? then World(r.value, w.guards - {guard}) else w
  }

  ghost predicate IsRun(ws: seq<World>, es: seq<Event>) {
    && |ws| == |es| + 1 && ws[0] == World(map[], map[])
    && forall i :: 0 <= i < |es| ==> Possible(ws[i], es[i]) && ws[i + 1] == Next(ws[i], es[i])
  }

  // A live guard can always be ended.
  lemma GuardsEnd(w: World, guard: nat)
    requires Counts(w.table, w.guards) && guard in w.guards
    ensures CellReleased(w.table, w.guards[guard].generation) == Ok(Release(w.table, w.guards[guard]))
    ensures Counts(Release(w.table, w.guards[guard]), w.guards - {guard})
  {
    ReleaseCounts(w.table, w.guards, guard);
  }

  lemma {:induction false} RunCounts(ws: seq<World>, es: seq<Event>, n: nat)
    requires IsRun(ws, es) && n < |ws|
    ensures Counts(ws[n].table, ws[n].guards)
  {
    if n > 0 {
      RunCounts(ws, es, n - 1);
      var w, e := ws[n - 1], es[n - 1];
      assert Possible(w, e) && ws[n] == Next(w, e);
      match e
      case Begin(guard, generation, supported, newCell) =>
        if supported && CellAcquired(w.table, generation, newCell).Ok? {
          AcquireCounts(w.table, w.guards, guard, Selection(generation, CellOf(w.table, generation, newCell)));
        }
      case End(guard) => GuardsEnd(w, guard);
    }
  }

  // In every state of every run the active count of a generation is the number of its live guards, and
  // they all have the same cell.
  lemma ActiveCountsAreExact(ws: seq<World>, es: seq<Event>, n: nat, g: nat)
    requires IsRun(ws, es) && n < |ws|
    ensures |Holders(ws[n].guards, g)| == if g in ws[n].table then ws[n].table[g].users else 0
    ensures forall j, k :: j in Holders(ws[n].guards, g) && k in Holders(ws[n].guards, g) ==>
              ws[n].guards[j].address == ws[n].guards[k].address
  {
    RunCounts(ws, es, n);
    assert Counts(ws[n].table, ws[n].guards);
    if g !in ws[n].table {
      assert Holders(ws[n].guards, g) == {};
    }
  }

  // A guard begins exactly for a supported generation whose guards' number still fits, and gets their
  // cell, or the new one if there are none; an end always goes through.
  lemma GuardsBeginExactly(ws: seq<World>, es: seq<Event>, n: nat)
    requires IsRun(ws, es) && n < |es|
    ensures
      var w, guards := ws[n], ws[n + 1].guards;
      match es[n]
      case Begin(guard, generation, supported, newCell) =>
        if supported && |Holders(w.guards, generation)| < USIZE_MAX then
          && guard in guards && guards - {guard} == w.guards && guards[guard].generation == generation
          && (forall k :: k in Holders(w.guards, generation) ==> guards[guard].address == w.guards[k].address)
          && (Holders(w.guards, generation) == {} ==> guards[guard].address == newCell)
        else guards == w.guards
      case End(guard) => guards == w.guards - {guard}
  {
    hide Holders;
    RunCounts(ws, es, n);
    var w := ws[n];
    assert Possible(w, es[n]) && ws[n + 1] == Next(w, es[n]);
    match es[n]
    case Begin(guard, generation, supported, newCell) =>
      var s := Selection(generation, CellOf(w.table, generation, newCell));
      OneCell(w, generation);
      AcquireExactly(w.table, w.guards, s);
      assert w.guards[guard := s] - {guard} == w.guards;
    case End(guard) => GuardsEnd(w, guard);
  }

  lemma OneCell(w: World, generation: nat)
    requires Counts(w.table, w.guards)
    ensures forall k :: k in w.guards && w.guards[k].generation == generation ==>
              generation in w.table && w.guards[k].address == w.table[generation].address
    ensures forall k :: k in Holders(w.guards, generation) <==> k in w.guards && w.guards[k].generation == generation
    ensures generation in w.table ==> Holders(w.guards, generation) != {}
  {
    if generation in w.table {
      assert |Holders(w.guards, generation)| > 0;
    }
  }
}
