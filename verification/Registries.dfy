// Append-only storage with stable, never reused identities, as a value.
//
// A handle names a cell by its one-based index and its document session.  Of the cells only the
// live ones carry anything, so the value of a registry is how many cells were ever appended and a
// map from the handles of the live ones to their contents.  `CellStore.dfy` relates this to the
// vector of cells that the source keeps.
module Registries {
  import opened Prelude

  const U32_MAX: nat := 0xFFFF_FFFF
  const DEFAULT_CAPACITY: nat := 1_048_576

  datatype Handle = Handle(index: nat, session: nat)

  // An erased handle still knows which kind of object it names.
  datatype Kind =
    | MusicalContextKind | RegionSequenceKind | AudioSourceKind | AudioModificationKind
    | PlaybackRegionKind

  datatype RawHandle = RawHandle(kind: Kind, handle: Handle)

  datatype Registry<T> = Registry(session: nat, capacity: nat, count: nat, live: map<Handle, T>) {

    predicate Names(h: Handle) {
      h.session == session && 1 <= h.index <= count
    }

    // The error that a lookup of a handle without a live cell reports.
    function Missing(h: Handle): Error {
      if Names(h) then StaleHandle else ForeignHandle
    }

    predicate Full() {
      count >= capacity || count + 1 > U32_MAX
    }

    function Next(): Handle {
      Handle(count + 1, session)
    }

    function Push(v: T): Registry<T> {
      this.(count := count + 1, live := live[Next() := v])
    }

    // The registry after an insertion that was rolled back: one more tombstone.
    function Bury(): Registry<T> {
      this.(count := count + 1)
    }

    function Put(h: Handle, v: T): Registry<T>
      requires h in live
    {
      this.(live := live[h := v])
    }

    function Remove(h: Handle): Registry<T>
      requires h in live
    {
      this.(live := live - {h})
    }
  }

  function Empty<T>(session: nat, capacity: nat): Registry<T> {
    Registry(session, if capacity < U32_MAX then capacity else U32_MAX, 0, map[])
  }

  // A provisional record that is then committed, or rolled back.
  lemma PushThenPut<T>(r: Registry<T>, provisional: T, v: T)
    ensures r.Push(provisional).Put(r.Next(), v) == r.Push(v)
  {
    assert r.live[r.Next() := provisional][r.Next() := v] == r.live[r.Next() := v];
  }

  lemma PushThenRemove<T>(r: Registry<T>, provisional: T)
    requires r.Next() !in r.live
    ensures r.Push(provisional).Remove(r.Next()) == r.Bury()
  {
    assert r.live[r.Next() := provisional] - {r.Next()} == r.live;
  }
}
