// The 64 callback slots that the factories of one process share (ara2-bridge-plugin/src/factory.rs).
// A slot holds a weak reference to the state of a factory.  A state is named by its allocation, which
// is not reused while a weak reference to it remains.
module FactorySlots {
  import opened Prelude

  const SLOT_COUNT: nat := 64

  type Id = nat

  // A slot can be taken when its weak reference is absent or dead.
  predicate Vacant(slot: Option<Id>, alive: set<Id>) {
    slot.None? || slot.value !in alive
  }

  // ---- The table, in place; `alive` are the states with strong references left

  class SlotTable {
    const slots: array<Option<Id>>

    ghost predicate Valid()
      reads this
    {
      slots.Length == SLOT_COUNT
    }

    constructor ()
      ensures Valid() && fresh(slots) && forall i :: 0 <= i < SLOT_COUNT ==> slots[i].None?
    {
      slots := new Option<Id>[SLOT_COUNT](_ => None);
    }

    // The first vacant slot; an error exactly when there is none.
    method Allocate(state: Id, alive: set<Id>) returns (r: Result<nat>)
      requires Valid()
      modifies slots
      ensures r.Ok? <==> exists i :: 0 <= i < SLOT_COUNT && Vacant(old(slots[i]), alive)
      ensures r.Ok? ==>
                && r.value < SLOT_COUNT && (old(slots[r.value]).None? || old(slots[r.value]).value !in alive)
                && (forall i :: 0 <= i < r.value ==> old(slots[i]).Some? && old(slots[i]).value in alive)
                && slots[..] == old(slots[..])[r.value := Some(state)]
      ensures r.Err? ==> slots[..] == old(slots[..]) && forall i :: 0 <= i < SLOT_COUNT ==>
                           slots[i].Some? && slots[i].value in alive
    {
      for index := 0 to SLOT_COUNT
        invariant forall i :: 0 <= i < index ==> !Vacant(slots[i], alive)
        invariant slots[..] == old(slots[..])
      {
        if Vacant(slots[index], alive) {
          slots[index] := Some(state);
          return Ok(index);
        }
      }
      return Err(Unsupported);
    }

    // The end of a registration clears its slot only if the slot is still its own.
    method Deregister(index: nat, state: Id)
      requires Valid() && index < SLOT_COUNT
      modifies slots
      ensures slots[..] == old(slots[..])[index := if old(slots[index]) == Some(state) then None else old(slots[index])]
    {
      if slots[index] == Some(state) {
        slots[index] := None;
      }
    }

    method CallbackState(slot: nat, alive: set<Id>) returns (state: Option<Id>)
      requires Valid()
      ensures state.Some? <==> slot < SLOT_COUNT && slots[slot].Some? && slots[slot].value in alive
      ensures state.Some? ==> state == slots[slot]
    {
      if slot >= SLOT_COUNT || slots[slot].None? || slots[slot].value !in alive { return None; }
      return slots[slot];
    }
  }

  // ---- Factories that come and go, one slot lock at a time

  datatype Stage =
    | Scanning(next: nat)       // its state exists; slots before `next` were found taken
    | Registered(slot: nat)     // constructed
    | Dropping(slot: nat)       // its entry is gone, its slot registration is still to be dropped

  datatype World = World(slots: map<nat, Id>, factories: map<Id, Stage>, calls: multiset<Id>, used: nat)

  // A state lives while its factory holds it, or a callback in progress does.
  predicate Alive(w: World, id: Id) {
    (id in w.factories && !w.factories[id].Dropping?) || w.calls[id] > 0
  }

  datatype Step =
    | Create
    | Scan(id: Id)
    | GiveUp(id: Id)
    | DropState(id: Id)
    | DropSlot(id: Id)
    | Call(slot: nat)
    | Return(id: Id)

  predicate Enabled(w: World, a: Step) {
    match a
    case Create => true
    case Scan(id) => id in w.factories && w.factories[id].Scanning? && w.factories[id].next < SLOT_COUNT
    case GiveUp(id) => id in w.factories && w.factories[id].Scanning? && w.factories[id].next >= SLOT_COUNT
    case DropState(id) => id in w.factories && w.factories[id].Registered?
    case DropSlot(id) => id in w.factories && w.factories[id].Dropping? && w.factories[id].slot < SLOT_COUNT
    case Call(_) => true
    case Return(id) => w.calls[id] > 0
  }

  // What a callback of the slot resolves to.
  function Resolved(w: World, slot: nat): Option<Id> {
    if slot < SLOT_COUNT && slot in w.slots && Alive(w, w.slots[slot]) then Some(w.slots[slot]) else None
  }

  function Next(w: World, a: Step): World
    requires Enabled(w, a)
  {
    match a
    case Create => w.(factories := w.factories[w.used := Scanning(0)], used := w.used + 1)
    case Scan(id) =>
      var i := w.factories[id].next;
      if i in w.slots && Alive(w, w.slots[i])
      then w.(factories := w.factories[id := Scanning(i + 1)])
      else w.(slots := w.slots[i := id], factories := w.factories[id := Registered(i)])
    case GiveUp(id) => w.(factories := w.factories - {id})
    case DropState(id) => w.(factories := w.factories[id := Dropping(w.factories[id].slot)])
    case DropSlot(id) =>
      var i := w.factories[id].slot;
      w.(slots := if i in w.slots && w.slots[i] == id then w.slots - {i} else w.slots, factories := w.factories - {id})
    case Call(slot) =>
      var r := Resolved(w, slot);
      if r.Some? then w.(calls := w.calls + multiset{r.value}) else w
    case Return(id) => w.(calls := w.calls - multiset{id})
  }

  // A constructed factory is in its slot; a slot names a factory that registered there.
  ghost predicate Sound(w: World) {
    && (forall id :: id in w.factories ==> id < w.used)
    && (forall id :: id in w.factories && w.factories[id].Registered? ==>
          w.factories[id].slot < SLOT_COUNT && w.factories[id].slot in w.slots && w.slots[w.factories[id].slot] == id)
    && (forall id :: id in w.factories && w.factories[id].Dropping? ==> w.factories[id].slot < SLOT_COUNT)
    && (forall i :: i in w.slots ==>
          var id := w.slots[i];
          id in w.factories && (w.factories[id] == Registered(i) || w.factories[id] == Dropping(i)))
  }

  const START := World(map[], map[], multiset{}, 0)

  ghost predicate IsRun(ws: seq<World>, steps: seq<Step>) {
    && |ws| == |steps| + 1 && ws[0] == START
    && forall i :: 0 <= i < |steps| ==> Enabled(ws[i], steps[i]) && ws[i + 1] == Next(ws[i], steps[i])
  }

  lemma NextSound(w: World, a: Step)
    requires Sound(w) && Enabled(w, a)
    ensures Sound(Next(w, a))
  {
  }

  lemma {:induction false} RunSound(ws: seq<World>, steps: seq<Step>, n: nat)
    requires IsRun(ws, steps) && n < |ws|
    ensures Sound(ws[n])
  {
    hide Next;
    if n > 0 {
      RunSound(ws, steps, n - 1);
      NextSound(ws[n - 1], steps[n - 1]);
    }
  }

  // In every state of every run constructed factories are in distinct slots, and a callback of a
  // constructed factory's slot resolves to that factory's own state.
  lemma SlotsAreExclusive(ws: seq<World>, steps: seq<Step>, n: nat, a: Id, b: Id)
    requires IsRun(ws, steps) && n < |ws|
    requires a in ws[n].factories && ws[n].factories[a].Registered?
    requires b in ws[n].factories && ws[n].factories[b].Registered?
    ensures a != b ==> ws[n].factories[a].slot != ws[n].factories[b].slot
    ensures Resolved(ws[n], ws[n].factories[a].slot) == Some(a)
  {
    RunSound(ws, steps, n);
  }

  // Whatever a callback resolves to registered in that very slot; and unless a callback of it is in
  // progress, its factory is still constructed.
  lemma CallbacksResolveToOwners(ws: seq<World>, steps: seq<Step>, n: nat, slot: nat)
    requires IsRun(ws, steps) && n < |ws| && Resolved(ws[n], slot).Some?
    ensures
      var w, id := ws[n], Resolved(ws[n], slot).value;
      && id in w.factories && (w.factories[id] == Registered(slot) || w.factories[id] == Dropping(slot))
      && (w.calls[id] == 0 ==> w.factories[id] == Registered(slot))
  {
    RunSound(ws, steps, n);
  }

  // The late drop of a registration never clears a slot that another factory has taken over, and
  // always frees its own.
  lemma LateDropsAreHarmless(ws: seq<World>, steps: seq<Step>, n: nat, id: Id, i: nat)
    requires IsRun(ws, steps) && n < |ws| && i < SLOT_COUNT
    requires Enabled(ws[n], DropSlot(id))
    ensures
      var w, w' := ws[n], Next(ws[n], DropSlot(id));
      if i in w.slots && w.slots[i] == id then i !in w'.slots && w.factories[id].slot == i
      else (i in w'.slots <==> i in w.slots) && (i in w.slots ==> w'.slots[i] == w.slots[i])
  {
    RunSound(ws, steps, n);
  }

  // So there are never more constructed factories than slots.
  ghost function Constructed(w: World): set<Id> {
    set id | id in w.factories && w.factories[id].Registered?
  }

  lemma AtMostSlotCount(ws: seq<World>, steps: seq<Step>, n: nat)
    requires IsRun(ws, steps) && n < |ws|
    ensures |Constructed(ws[n])| <= SLOT_COUNT
  {
    RunSound(ws, steps, n);
    OneEach(ws[n], Constructed(ws[n]), SLOT_COUNT);
  }

  lemma {:induction false} OneEach(w: World, ids: set<Id>, n: nat)
    requires Sound(w) && n <= SLOT_COUNT
    requires forall id :: id in ids ==> id in w.factories && w.factories[id].Registered? && w.factories[id].slot < n
    ensures |ids| <= n
    decreases n
  {
    if n == 0 {
      if id :| id in ids {
        assert false;
      }
    } else {
      var top := set id | id in ids && w.factories[id].slot == n - 1;
      OneEach(w, ids - top, n - 1);
      if id :| id in top {
        assert top == {id};
      }
      assert ids == (ids - top) + top;
    }
  }

  // ---- What a scan finds

  // A construction that scans without interruption.
  function Scanned(w: World, id: Id): World
    requires id in w.factories && w.factories[id].Scanning?
    decreases SLOT_COUNT - w.factories[id].next
  {
    if w.factories[id].next >= SLOT_COUNT then w else
    var w' := Next(w, Scan(id));
    if w'.factories[id].Scanning? then Scanned(w', id) else w'
  }

  // It registers in the first slot from which no callback would resolve to a living state, as
  // `SlotTable.Allocate` does, and otherwise finds none and changes no slot.
  lemma {:induction false} ScanTakesTheFirst(w: World, id: Id)
    requires id in w.factories && w.factories[id].Scanning?
    ensures
      var from, w' := w.factories[id].next, Scanned(w, id);
      && id in w'.factories && w'.calls == w.calls && w'.used == w.used
      && (forall other :: other in w.factories && other != id ==>
            other in w'.factories && w'.factories[other] == w.factories[other])
      && match w'.factories[id]
         case Registered(k) =>
           && from <= k < SLOT_COUNT && Resolved(w, k) == None && w'.slots == w.slots[k := id]
           && forall i :: from <= i < k ==> Resolved(w, i) != None
         case Scanning(_) =>
           w'.slots == w.slots && forall i :: from <= i < SLOT_COUNT ==> Resolved(w, i) != None
         case Dropping(_) => false
    decreases SLOT_COUNT - w.factories[id].next
  {
    var from := w.factories[id].next;
    if from < SLOT_COUNT {
      var w1 := Next(w, Scan(id));
      if w1.factories[id].Scanning? {
        ScanTakesTheFirst(w1, id);
        forall i ensures Resolved(w1, i) == Resolved(w, i) {
        }
      }
    }
  }
}
