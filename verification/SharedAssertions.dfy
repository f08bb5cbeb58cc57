// The assert-function entries that factories of one process share, one per API generation
// (ara2-bridge-plugin/src/entry.rs): acquiring and releasing a use, and the factory state that does
// so, updated in place.
module SharedAssertions {
  import opened Prelude

  datatype Selection = Selection(generation: nat, address: nat)
  datatype Shared = Shared(address: nat, users: nat)

  type Table = map<nat, Shared>

  function Acquire(t: Table, s: Selection): Result<Table> {
    if s.generation in t then
      var shared := t[s.generation];
      if shared.address != s.address then Err(InvalidState)
      else if shared.users == USIZE_MAX then Err(InvalidState)
      else Ok(t[s.generation := shared.(users := shared.users + 1)])
    else Ok(t[s.generation := Shared(s.address, 1)])
  }

  // A release that finds no entry, or one with another address, does nothing.
  predicate Mismatched(t: Table, s: Selection) {
    s.generation !in t || t[s.generation].address != s.address
  }

  function Release(t: Table, s: Selection): Table {
    if Mismatched(t, s) then t
    else if t[s.generation].users > 1 then
      t[s.generation := t[s.generation].(users := t[s.generation].users - 1)]
    else t - {s.generation}
  }

  // ---- What the table means, for whoever holds uses of it

  // An entry exists for exactly the generations that someone holds, its count is the number of
  // holders, and all of them have its address.
  ghost predicate Counts<K>(t: Table, held: map<K, Selection>) {
    match t
    case table =>
      && (forall k :: k in held ==> held[k].generation in table && table[held[k].generation].address == held[k].address)
      && (forall g :: g in table ==> table[g].users == |Holders(held, g)| && 0 < table[g].users <= USIZE_MAX)
  }

  ghost function Holders<K>(held: map<K, Selection>, g: nat): set<K> {
    set k | k in held && held[k].generation == g
  }

  lemma HoldersAdded<K>(held: map<K, Selection>, k: K, s: Selection, g: nat)
    requires k !in held
    ensures Holders(held[k := s], g) == if g == s.generation then Holders(held, g) + {k} else Holders(held, g)
    ensures |Holders(held[k := s], g)| == |Holders(held, g)| + if g == s.generation then 1 else 0
  {
    assert Holders(held[k := s], g) == if g == s.generation then Holders(held, g) + {k} else Holders(held, g);
  }

  lemma AcquireCounts<K>(t: Table, held: map<K, Selection>, k: K, s: Selection)
    requires Counts(t, held) && k !in held && Acquire(t, s).Ok?
    ensures Counts(Acquire(t, s).value, held[k := s])
  {
    hide Holders;
    var t', held' := Acquire(t, s).value, held[k := s];
    forall g | g in t' ensures t'[g].users == |Holders(held', g)| {
      HoldersAdded(held, k, s, g);
      if g !in t {
        NobodyHolds(t, held, g);
      }
    }
  }

  lemma NobodyHolds<K>(t: Table, held: map<K, Selection>, g: nat)
    requires Counts(t, held) && g !in t
    ensures |Holders(held, g)| == 0
  {
    assert Holders(held, g) == {};
  }

  // An acquisition is granted exactly if every holder of the generation has the same address and their
  // number still fits.
  lemma AcquireExactly<K>(t: Table, held: map<K, Selection>, s: Selection)
    requires Counts(t, held)
    ensures Acquire(t, s).Ok? <==>
            && (forall k :: k in held && held[k].generation == s.generation ==> held[k].address == s.address)
            && |Holders(held, s.generation)| < USIZE_MAX
    ensures Acquire(t, s).Err? ==> Acquire(t, s).error == InvalidState
  {
    if s.generation in t {
      assert |Holders(held, s.generation)| > 0;
      var k :| k in Holders(held, s.generation);
    } else {
      NobodyHolds(t, held, s.generation);
    }
  }

  // A holder's release is never mismatched.
  lemma ReleaseCounts<K>(t: Table, held: map<K, Selection>, k: K)
    requires Counts(t, held) && k in held
    ensures !Mismatched(t, held[k]) && Counts(Release(t, held[k]), held - {k})
  {
    var s := held[k];
    var t', held' := Release(t, s), held - {k};
    assert Holders(held', s.generation) == Holders(held, s.generation) - {k};
    assert k in Holders(held, s.generation);
    forall g | g in t' ensures t'[g].users == |Holders(held', g)| {
      if g != s.generation {
        assert Holders(held', g) == Holders(held, g);
      }
    }
    forall j | j in held' ensures held'[j].generation in t' && t'[held'[j].generation].address == held'[j].address {
      if held[j].generation == s.generation {
        assert j in Holders(held', s.generation);
        assert |Holders(held', s.generation)| > 0;
      }
    }
  }

  // A use that changes hands is still one use.
  lemma HandOverCounts<K>(t: Table, held: map<K, Selection>, from: K, to: K)
    requires Counts(t, held) && from in held && to !in held
    ensures Counts(t, (held - {from})[to := held[from]])
  {
    var held' := (held - {from})[to := held[from]];
    var g0 := held[from].generation;
    assert Holders(held', g0) == Holders(held, g0) - {from} + {to};
    forall g | g in t && g != g0 ensures Holders(held', g) == Holders(held, g) {
    }
  }

  // ---- In place

  class AssertionTable {
    var entries: Table

    constructor ()
      ensures entries == map[]
    {
      entries := map[];
    }

    method AcquireAssertion(s: Selection) returns (e: Option<Error>)
      modifies this
      ensures var r := Acquire(old(entries), s);
              e == (if r.Err? then Some(r.error) else None) && entries == (if r.Ok? then r.value else old(entries))
    {
      if s.generation in entries {
        var shared := entries[s.generation];
        if shared.address != s.address { return Some(InvalidState); }
        if shared.users == USIZE_MAX { return Some(InvalidState); }
        entries := entries[s.generation := shared.(users := shared.users + 1)];
      } else {
        entries := entries[s.generation := Shared(s.address, 1)];
      }
      return None;
    }

    method ReleaseAssertion(s: Selection)
      modifies this
      ensures entries == Release(old(entries), s)
    {
      var remove := false;
      if s.generation in entries && entries[s.generation].address == s.address && entries[s.generation].users > 1 {
        var shared := entries[s.generation];
        entries := entries[s.generation := shared.(users := shared.users - 1)];
      } else if s.generation in entries && entries[s.generation].address == s.address {
        remove := true;
      }
      if remove {
        entries := entries - {s.generation};
      }
    }
  }

  class CallbackState {
    const lowest: nat
    const highest: nat
    const table: AssertionTable
    var selection: Option<Selection>

    constructor (lowest: nat, highest: nat, table: AssertionTable)
      ensures this.lowest == lowest && this.highest == highest && this.table == table && selection == None
    {
      this.lowest, this.highest, this.table, selection := lowest, highest, table, None;
    }

    // A null address is zero; `supported`: the generation is available on this target.
    method Initialize(s: Selection, supported: bool) returns (e: Option<Error>)
      modifies this, table
      ensures e.None? <==>
                && s.address != 0 && lowest <= s.generation <= highest && supported
                && old(selection).None? && Acquire(old(table.entries), s).Ok?
      ensures if e.None? then selection == Some(s) && Ok(table.entries) == Acquire(old(table.entries), s)
              else selection == old(selection) && table.entries == old(table.entries)
    {
      if s.address == 0 { return Some(InvalidArgument); }
      if s.generation < lowest || s.generation > highest { return Some(InvalidArgument); }
      if !supported { return Some(Unsupported); }
      if selection.Some? { return Some(InvalidState); }
      e := table.AcquireAssertion(s);
      if e.Some? { return; }
      selection := Some(s);
    }

    method Uninitialize() returns (e: Option<Error>)
      modifies this, table
      ensures e.None? <==> old(selection).Some?
      ensures selection == None
      ensures table.entries ==
              if old(selection).Some? then Release(old(table.entries), old(selection).value) else old(table.entries)
    {
      if selection.None? { return Some(InvalidState); }
      var selected := selection.value;
      selection := None;
      table.ReleaseAssertion(selected);
      return None;
    }
  }
}
