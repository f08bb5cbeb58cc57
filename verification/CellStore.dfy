// The registry as the source keeps it (ara2-bridge-core/src/registry.rs): a vector of cells, each
// with a stable address of its own, and a search of that vector to recover a handle from an address.
module CellStore {
  import opened Prelude
  import opened Registries

  class Store<T> {
    const session: nat
    const capacity: nat
    var cells: seq<Option<T>>
    var addresses: seq<nat>     // of the cells; zero is the null pointer

    ghost predicate Valid()
      reads this
    {
      && |addresses| == |cells| <= capacity <= U32_MAX
      && 0 !in addresses
      && forall i, j :: 0 <= i < j < |addresses| ==> addresses[i] != addresses[j]
    }

    predicate Names(h: Handle)
      reads this
    {
      h.session == session && 1 <= h.index <= |cells|
    }

    ghost predicate Live(h: Handle)
      reads this
    {
      Names(h) && cells[h.index - 1].Some?
    }

    ghost function LiveHandles(): (s: set<Handle>)
      reads this
      ensures forall h :: h in s <==> Live(h)
    {
      set i | 0 <= i < |cells| && cells[i].Some? :: Handle(i + 1, session)
    }

    // The registry that this store represents.
    ghost function View(): Registry<T>
      reads this
    {
      Registry(session, capacity, |cells|, map h | h in LiveHandles() :: cells[h.index - 1].value)
    }

    constructor (session: nat, capacity: nat)
      ensures Valid() && View() == Empty(session, capacity)
    {
      this.session := session;
      this.capacity := if capacity < U32_MAX then capacity else U32_MAX;
      cells := [];
      addresses := [];
    }

    // `address` is where the allocator put the new cell: not null, and not the address of a cell
    // that is still there.  Only the capacity can refuse: the new index always fits its 32 bits.
    method Insert(value: T, address: nat) returns (r: Result<Handle>)
      requires Valid() && address != 0 && address !in addresses
      modifies this
      ensures Valid()
      ensures r == if old(View()).Full() then Err(CapacityExhausted) else Ok(old(View()).Next())
      ensures r.Err? <==> |old(cells)| >= capacity
      ensures r.Ok? ==> 1 <= r.value.index <= U32_MAX
      ensures View() == if r.Ok? then old(View()).Push(value) else old(View())
      ensures r.Ok? ==> addresses == old(addresses) + [address]
      ensures r.Err? ==> addresses == old(addresses)
    {
      if |cells| >= capacity || |cells| + 1 > U32_MAX {
        return Err(CapacityExhausted);
      }
      r := Ok(Handle(|cells| + 1, session));
      cells := cells + [Some(value)];
      addresses := addresses + [address];
      assert View().live.Keys == old(View()).Push(value).live.Keys;
    }

    method Get(h: Handle) returns (r: Result<T>)
      requires Valid()
      ensures r == if h in View().live then Ok(View().live[h]) else Err(View().Missing(h))
      ensures r.Ok? <==> h.session == session && 1 <= h.index <= |cells| && cells[h.index - 1].Some?
      ensures r.Err? ==>
                r.error == if h.session == session && 1 <= h.index <= |cells| then StaleHandle else ForeignHandle
    {
      if h.session != session || !(1 <= h.index <= |cells|) {
        return Err(ForeignHandle);
      }
      match cells[h.index - 1]
      case None => return Err(StaleHandle);
      case Some(v) => return Ok(v);
    }

    // A mutation through a mutable borrow of a live value.
    method Replace(h: Handle, v: T) returns (r: Result<()>)
      requires Valid()
      modifies this`cells
      ensures Valid()
      ensures r == if h in old(View()).live then Ok(()) else Err(old(View()).Missing(h))
      ensures View() == if r.Ok? then old(View()).Put(h, v) else old(View())
    {
      if h.session != session || !(1 <= h.index <= |cells|) {
        return Err(ForeignHandle);
      }
      if cells[h.index - 1].None? {
        return Err(StaleHandle);
      }
      cells := cells[h.index - 1 := Some(v)];
      assert View().live.Keys == old(View()).live.Keys;
      return Ok(());
    }

    // The cell is tombstoned before its value is handed out.
    method Remove(h: Handle) returns (r: Result<T>)
      requires Valid()
      modifies this`cells
      ensures Valid()
      ensures r == if h in old(View()).live then Ok(old(View()).live[h]) else Err(old(View()).Missing(h))
      ensures View() == if r.Ok? then old(View()).Remove(h) else old(View())
    {
      if h.session != session || !(1 <= h.index <= |cells|) {
        return Err(ForeignHandle);
      }
      match cells[h.index - 1] {
        case None => return Err(StaleHandle);
        case Some(v) =>
          cells := cells[h.index - 1 := None];
          assert View().live.Keys == old(View()).live.Keys - {h};
          return Ok(v);
      }
    }

    method OpaquePointer(h: Handle) returns (r: Result<nat>)
      requires Valid()
      ensures r.Ok? <==> h in View().live
      ensures r.Ok? ==> r.value == addresses[h.index - 1] && r.value != 0
      ensures r.Err? ==> r.error == View().Missing(h)
    {
      if h.session != session || !(1 <= h.index <= |cells|) {
        return Err(ForeignHandle);
      }
      if cells[h.index - 1].None? {
        return Err(StaleHandle);
      }
      return Ok(addresses[h.index - 1]);
    }

    // The inverse of `OpaquePointer` on exactly the live cells: it answers the handle whose cell has
    // that address, and nothing for the address of a tombstone or of no cell.
    method HandleFromOpaque(pointer: nat) returns (r: Result<Handle>)
      requires Valid()
      ensures forall h :: r == Ok(h) <==> h in View().live && addresses[h.index - 1] == pointer
      ensures r == Err(StaleHandle) <==>
              exists i :: 0 <= i < |cells| && addresses[i] == pointer && cells[i].None?
      ensures r.Err? ==> r.error == StaleHandle || r.error == ForeignHandle
    {
      if pointer == 0 {
        return Err(ForeignHandle);
      }
      for i := 0 to |cells|
        invariant pointer !in addresses[..i]
      {
        if addresses[i] == pointer {
          if cells[i].None? {
            return Err(StaleHandle);
          }
          assert Live(Handle(i + 1, session));
          return Ok(Handle(i + 1, session));
        }
      }
      return Err(ForeignHandle);
    }

    // Live handles in insertion order.
    method Handles() returns (hs: seq<Handle>)
      requires Valid()
      ensures forall h :: h in hs <==> h in View().live
      ensures forall i, j :: 0 <= i < j < |hs| ==> hs[i].index < hs[j].index
    {
      hs := [];
      for i := 0 to |cells|
        invariant forall h :: h in hs <==> Live(h) && h.index <= i
        invariant forall i, j :: 0 <= i < j < |hs| ==> hs[i].index < hs[j].index
      {
        if cells[i].Some? {
          hs := hs + [Handle(i + 1, session)];
        }
      }
    }
  }
}
