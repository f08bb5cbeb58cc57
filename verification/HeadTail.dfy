// Realtime head and tail times (ara2-bridge-core/src/realtime.rs and ara2-bridge-plugin/src/realtime.rs):
// sorted immutable snapshots, looked up by binary search, and the adapter that publishes them.  Times
// are reals.
module HeadTail {
  import opened Prelude

  datatype Entry = Entry(key: nat, head: real, tail: real)

  type Times = (real, real)

  predicate SortedByKey(es: seq<Entry>) {
    forall i, j :: 0 <= i < j < |es| ==> es[i].key <= es[j].key
  }

  predicate DistinctKeys(es: seq<Entry>) {
    forall i, j :: 0 <= i < j < |es| ==> es[i].key != es[j].key
  }

  predicate Index(es: seq<Entry>) {
    forall i, j :: 0 <= i < j < |es| ==> es[i].key < es[j].key
  }

  // What a snapshot means: for each key, the times of its entry.
  ghost predicate Looks(es: seq<Entry>, key: nat, r: Option<Times>) {
    match r
    case Some((head, tail)) => Entry(key, head, tail) in es
    case None => forall e :: e in es ==> e.key != key
  }

  method NewEntry(key: nat, head: real, tail: real) returns (r: Result<Entry>)
    ensures r == if head < 0.0 || tail < 0.0 then Err(InvalidArgument) else Ok(Entry(key, head, tail))
  {
    if head < 0.0 || tail < 0.0 { return Err(InvalidArgument); }
    return Ok(Entry(key, head, tail));
  }

  method Insert(es: seq<Entry>, e: Entry) returns (r: seq<Entry>)
    requires SortedByKey(es)
    ensures SortedByKey(r) && multiset(r) == multiset(es) + multiset{e}
  {
    var i := |es|;
    while i > 0 && es[i - 1].key > e.key
      invariant 0 <= i <= |es| && forall j :: i <= j < |es| ==> es[j].key > e.key
    {
      i := i - 1;
    }
    r := es[..i] + [e] + es[i..];
    InsertedSorted(es, i, e);
    assert es == es[..i] + es[i..];
  }

  lemma InsertedSorted(es: seq<Entry>, i: nat, e: Entry)
    requires SortedByKey(es) && i <= |es|
    requires i > 0 ==> es[i - 1].key <= e.key
    requires i < |es| ==> e.key <= es[i].key
    ensures SortedByKey(es[..i] + [e] + es[i..])
  {
    var r := es[..i] + [e] + es[i..];
    forall j, k | 0 <= j < k < |r| ensures r[j].key <= r[k].key {
      assert r[j] == if j < i then es[j] else if j == i then e else es[j - 1];
      assert r[k] == if k < i then es[k] else if k == i then e else es[k - 1];
    }
  }

  // Any sort by key will do: where it matters the keys are distinct.
  method SortByKey(es: seq<Entry>) returns (r: seq<Entry>)
    ensures SortedByKey(r) && multiset(r) == multiset(es)
  {
    r := [];
    for i := 0 to |es|
      invariant SortedByKey(r) && multiset(r) == multiset(es[..i])
    {
      assert es[..i + 1] == es[..i] + [es[i]];
      r := Insert(r, es[i]);
    }
    assert es[..|es|] == es;
  }

  lemma SameEntries(a: seq<Entry>, b: seq<Entry>)
    requires multiset(a) == multiset(b)
    ensures |a| == |b| && forall e :: e in a <==> e in b
  {
    assert |multiset(a)| == |a| && |multiset(b)| == |b|;
    forall e ensures e in a <==> e in b {
      assert e in a <==> e in multiset(a);
      assert e in b <==> e in multiset(b);
    }
  }

  ghost function KeySet(es: seq<Entry>): set<nat> {
    set e | e in es :: e.key
  }

  // Distinctness of keys does not depend on the order.
  lemma {:induction false} DistinctByCount(es: seq<Entry>)
    ensures |KeySet(es)| <= |es|
    ensures DistinctKeys(es) <==> |KeySet(es)| == |es|
  {
    if es != [] {
      var init, last := es[..|es| - 1], es[|es| - 1];
      DistinctByCount(init);
      assert es == init + [last];
      assert KeySet(es) == KeySet(init) + {last.key};
      if last.key in KeySet(init) {
        var e :| e in init && e.key == last.key;
        var i :| 0 <= i < |init| && init[i] == e;
        assert es[i].key == es[|es| - 1].key;
        assert KeySet(es) == KeySet(init);
      } else {
        OneMoreKey(init, last);
      }
    }
  }

  lemma OneMoreKey(init: seq<Entry>, last: Entry)
    requires last.key !in KeySet(init)
    ensures DistinctKeys(init + [last]) <==> DistinctKeys(init)
  {
    forall i | 0 <= i < |init| ensures init[i].key != last.key {
      assert init[i] in init;
    }
    if DistinctKeys(init + [last]) {
      forall i, j | 0 <= i < j < |init| ensures init[i].key != init[j].key {
        assert (init + [last])[i].key != (init + [last])[j].key;
      }
    }
  }

  lemma DistinctAnyOrder(a: seq<Entry>, b: seq<Entry>)
    requires multiset(a) == multiset(b)
    ensures DistinctKeys(a) <==> DistinctKeys(b)
  {
    SameEntries(a, b);
    DistinctByCount(a);
    DistinctByCount(b);
    assert KeySet(a) == KeySet(b);
  }

  class HeadTailView {
    const entries: seq<Entry>

    constructor (entries: seq<Entry>)
      ensures this.entries == entries
    {
      this.entries := entries;
    }

    // A bounded snapshot without duplicate keys; it holds exactly the given entries, as an index.
    static method Create(given: seq<Entry>, capacity: nat) returns (r: Result<HeadTailView>)
      ensures r.Ok? <==> |given| <= capacity && DistinctKeys(given)
      ensures r.Ok? ==> fresh(r.value) && Index(r.value.entries) && multiset(r.value.entries) == multiset(given)
    {
      if |given| > capacity { return Err(InvalidArgument); }
      var sorted := SortByKey(given);
      DistinctAnyOrder(given, sorted);
      for i := 0 to |sorted|
        invariant forall j :: 0 < j < i ==> sorted[j - 1].key < sorted[j].key
      {
        if i > 0 && sorted[i - 1].key == sorted[i].key { return Err(InvalidArgument); }
      }
      StrictlyAdjacent(sorted);
      var view := new HeadTailView(sorted);
      return Ok(view);
    }

    method Query(key: nat) returns (r: Option<Times>)
      requires Index(entries)
      ensures Looks(entries, key, r)
    {
      var lo, hi := 0, |entries|;
      while lo < hi
        invariant 0 <= lo <= hi <= |entries|
        invariant forall i :: 0 <= i < lo ==> entries[i].key < key
        invariant forall i :: hi <= i < |entries| ==> key < entries[i].key
      {
        var mid := (lo + hi) / 2;
        if entries[mid].key == key {
          return Some((entries[mid].head, entries[mid].tail));
        } else if entries[mid].key < key {
          lo := mid + 1;
        } else {
          hi := mid;
        }
      }
      return None;
    }
  }

  lemma {:induction false} StrictlyAdjacent(es: seq<Entry>)
    requires forall j :: 0 < j < |es| ==> es[j - 1].key < es[j].key
    ensures Index(es)
    decreases |es|
  {
    if |es| > 1 {
      var init := es[..|es| - 1];
      StrictlyAdjacent(init);
      forall i | 0 <= i < |init| ensures es[i].key < es[|es| - 1].key {
        assert init[i].key <= init[|init| - 1].key;
      }
      forall i, j | 0 <= i < j < |es| ensures es[i].key < es[j].key {
        if j < |init| {
          assert init[i].key < init[j].key;
        }
      }
    }
  }

  // A query of a snapshot is the lookup of the key among the entries it was built from, and that has
  // one answer.
  lemma LookupIsUnique(given: seq<Entry>, es: seq<Entry>, key: nat, r: Option<Times>, s: Option<Times>)
    requires multiset(es) == multiset(given) && DistinctKeys(given)
    requires Looks(es, key, r)
    ensures Looks(given, key, s) <==> s == r
  {
    SameEntries(es, given);
    if r.Some? && s.Some? && Looks(given, key, s) {
      var i :| 0 <= i < |given| && given[i] == Entry(key, r.value.0, r.value.1);
      var j :| 0 <= j < |given| && given[j] == Entry(key, s.value.0, s.value.1);
      assert i == j;
    }
  }

  // ---- Publishing, with any number of installers at once

  // An installation pushes its snapshot under the lock of the storage, and stores the pointer to it
  // after letting go of the lock.  Snapshots are named by their place in the storage; `waiting` are the
  // pushed ones whose pointer is still to be stored.
  datatype Shelf = Shelf(count: nat, current: nat, waiting: set<nat>)

  datatype Step = Push | Store(snapshot: nat)

  const NEW_SHELF := Shelf(1, 0, {})

  predicate Possible(s: Shelf, step: Step) {
    match step
    case Push => true
    case Store(i) => i in s.waiting
  }

  function Stepped(s: Shelf, step: Step): Shelf
    requires Possible(s, step)
  {
    match step
    case Push => s.(count := s.count + 1, waiting := s.waiting + {s.count})
    case Store(i) => s.(current := i, waiting := s.waiting - {i})
  }

  ghost predicate IsRun(ss: seq<Shelf>, steps: seq<Step>) {
    && |ss| == |steps| + 1 && ss[0] == NEW_SHELF
    && forall i :: 0 <= i < |steps| ==> Possible(ss[i], steps[i]) && ss[i + 1] == Stepped(ss[i], steps[i])
  }

  // In every interleaving the published view is retained, and so is every view that was published
  // before and may still be read.
  lemma {:induction false} PublishedIsRetained(ss: seq<Shelf>, steps: seq<Step>, m: nat, n: nat)
    requires IsRun(ss, steps) && m <= n < |ss|
    ensures ss[m].current < ss[n].count
    ensures forall i :: i in ss[n].waiting ==> i < ss[n].count
    decreases n
  {
    if n > 0 {
      assert Possible(ss[n - 1], steps[n - 1]) && ss[n] == Stepped(ss[n - 1], steps[n - 1]);
      PublishedIsRetained(ss, steps, n - 1, n - 1);
      if m < n {
        PublishedIsRetained(ss, steps, m, n - 1);
      }
    }
  }

  // The published view is the newest exactly if nothing was installed yet, or the last to push has just
  // been the last to store.
  lemma NewestExactly(ss: seq<Shelf>, steps: seq<Step>, n: nat)
    requires IsRun(ss, steps) && n < |ss|
    ensures ss[n].count > 0
    ensures ss[n].current == ss[n].count - 1 <==> n == 0 || steps[n - 1] == Store(ss[n].count - 1)
  {
    if n > 0 {
      assert Possible(ss[n - 1], steps[n - 1]) && ss[n] == Stepped(ss[n - 1], steps[n - 1]);
      PublishedIsRetained(ss, steps, n - 1, n - 1);
    }
  }

  // Installations that do not overlap leave the newest view published whenever none is under way.
  lemma {:induction false} SerialInstallsPublishTheNewest(ss: seq<Shelf>, steps: seq<Step>, n: nat)
    requires IsRun(ss, steps) && n < |ss|
    requires forall i :: 0 <= i < |steps| && steps[i].Push? ==> ss[i].waiting == {}
    ensures ss[n].waiting == {} || ss[n].waiting == {ss[n].count - 1}
    ensures ss[n].waiting == {} ==> ss[n].current == ss[n].count - 1
  {
    if n > 0 {
      assert Possible(ss[n - 1], steps[n - 1]) && ss[n] == Stepped(ss[n - 1], steps[n - 1]);
      SerialInstallsPublishTheNewest(ss, steps, n - 1);
    }
  }

  // Overlapping ones may not: the first to push stores last, and its view stays published although a
  // newer one is retained and nobody is left to store it.
  lemma OlderViewWins() returns (ss: seq<Shelf>, steps: seq<Step>)
    ensures IsRun(ss, steps) && steps == [Push, Push, Store(2), Store(1)]
    ensures ss[4].waiting == {} && ss[4].count == 3 && ss[4].current == 1
  {
    var s1 := Stepped(NEW_SHELF, Push);
    var s2 := Stepped(s1, Push);
    var s3 := Stepped(s2, Store(2));
    ss, steps := [NEW_SHELF, s1, s2, s3, Stepped(s3, Store(1))], [Push, Push, Store(2), Store(1)];
  }

  // ---- The adapter

  datatype FailureCode = MissingRegion | InvalidLifecycle | PeerFailure

  class HeadTailAdapter {
    var snapshots: seq<HeadTailView>      // every snapshot ever installed
    var current: HeadTailView
    const capacity: nat
    var failures: seq<FailureCode>

    // The published view is a retained snapshot.
    ghost predicate Valid()
      reads this
    {
      && current in snapshots
      && (forall i :: 0 <= i < |snapshots| ==> Index(snapshots[i].entries))
      && |failures| <= capacity
    }

    // The storage and the pointer are those of `shelf`.
    ghost predicate Shows(shelf: Shelf)
      reads this
    {
      && shelf.count == |snapshots| && shelf.current < shelf.count && current == snapshots[shelf.current]
      && forall i :: i in shelf.waiting ==> i < shelf.count
    }

    // The capacity is nonzero.
    constructor (initial: HeadTailView, capacity: nat)
      requires initial.entries == [] && capacity > 0
      ensures Valid() && Shows(NEW_SHELF) && snapshots == [initial] && this.capacity == capacity && failures == []
    {
      snapshots, current, this.capacity, failures := [initial], initial, capacity, [];
    }

    static method Create(capacity: nat) returns (r: Result<HeadTailAdapter>)
      ensures r.Ok? <==> capacity > 0
      ensures r.Ok? ==>
                fresh(r.value) && r.value.Valid() && r.value.Shows(NEW_SHELF) && r.value.current.entries == []
    {
      if capacity == 0 { return Err(InvalidArgument); }
      var initial := new HeadTailView([]);
      var adapter := new HeadTailAdapter(initial, capacity);
      return Ok(adapter);
    }

    // The first step of an installation.  It keeps every snapshot that a concurrent query may still be
    // reading.
    method PushSnapshot(given: seq<Entry>, ghost shelf: Shelf) returns (view: Result<HeadTailView>)
      requires Valid() && Shows(shelf)
      modifies this`snapshots
      ensures Valid()
      ensures view.Ok? <==> |given| <= capacity && DistinctKeys(given)
      ensures view.Ok? ==> snapshots == old(snapshots) + [view.value] && multiset(view.value.entries) == multiset(given)
      ensures view.Err? ==> snapshots == old(snapshots)
      ensures Shows(if view.Ok? then Stepped(shelf, Push) else shelf)
    {
      view := HeadTailView.Create(given, capacity);
      if view.Ok? {
        snapshots := snapshots + [view.value];
      }
    }

    // The second step, however many others came between.
    method StoreSnapshot(view: HeadTailView, ghost place: nat, ghost shelf: Shelf)
      requires Valid() && Shows(shelf) && place in shelf.waiting && snapshots[place] == view
      modifies this`current
      ensures Valid() && current == view && Shows(Stepped(shelf, Store(place)))
    {
      current := view;
    }

    // An installation that nothing interrupts publishes the newest view.
    method Install(given: seq<Entry>, ghost shelf: Shelf) returns (e: Option<Error>)
      requires Valid() && Shows(shelf)
      modifies this`snapshots, this`current
      ensures Valid()
      ensures e.None? <==> |given| <= capacity && DistinctKeys(given)
      ensures e.None? ==>
                && snapshots == old(snapshots) + [current] && multiset(current.entries) == multiset(given)
                && Shows(Stepped(Stepped(shelf, Push), Store(shelf.count)))
      ensures e.Some? ==> snapshots == old(snapshots) && current == old(current)
    {
      var view := PushSnapshot(given, shelf);
      if view.Err? { return Some(view.error); }
      StoreSnapshot(view.value, shelf.count, Stepped(shelf, Push));
      return None;
    }

    // A missing region is reported, unless the queue is full.
    method Query(key: nat) returns (r: Option<Times>)
      requires Valid()
      modifies this`failures
      ensures Valid() && Looks(current.entries, key, r)
      ensures failures == old(failures) + if r.None? && |old(failures)| < capacity then [MissingRegion] else []
    {
      r := current.Query(key);
      if r.None? && |failures| < capacity {
        failures := failures + [MissingRegion];
      }
    }

    method PopFailure() returns (code: Option<FailureCode>)
      requires Valid()
      modifies this`failures
      ensures Valid()
      ensures if old(failures) == [] then code == None && failures == []
              else code == Some(old(failures)[0]) && failures == old(failures)[1..]
    {
      if failures == [] { return None; }
      code := Some(failures[0]);
      failures := failures[1..];
    }
  }
}
