// Factories that are initialized, uninitialized and dropped by any number of threads, lock by lock
// (ara2-bridge-plugin/src/entry.rs): each factory's selection has a lock, and the shared table has one.
module EntryLocks {
  import opened Prelude
  import opened SharedAssertions

  // Where a thread is.  Which locks it holds follows from that.
  datatype Place =
    | Idle
    | WantsInit(factory: nat, selected: Selection)      // blocked on the factory's lock
    | WantsUninit(factory: nat)
    | Initializing(factory: nat, selected: Selection)   // holds the factory's lock
    | Acquiring(factory: nat, selected: Selection)      // holds both locks
    | Acquired(factory: nat, selected: Selection)       // holds the factory's lock and a use
    | Uninitializing(factory: nat)                      // holds the factory's lock
    | Taken(factory: nat, selected: Selection)          // holds the factory's lock and a use
    | Dropping(selected: Selection)                     // holds a use; the factory is gone
    | Releasing(origin: Option<nat>, selected: Selection)   // holds the table's lock and a use

  datatype World = World(
    selections: map<nat, Option<Selection>>,   // the factories that exist
    table: Table,
    threads: map<nat, Place>)
  {
    function At(t: nat): Place {
      if t in threads then threads[t] else Idle
    }
  }

  predicate HoldsTable(p: Place) {
    p.Acquiring? || p.Releasing?
  }

  predicate HoldsFactory(p: Place, f: nat) {
    match p
    case Initializing(g, _) => g == f
    case Acquiring(g, _) => g == f
    case Acquired(g, _) => g == f
    case Uninitializing(g) => g == f
    case Taken(g, _) => g == f
    case Releasing(g, _) => g == Some(f)
    case _ => false
  }

  predicate Refers(p: Place, f: nat) {
    HoldsFactory(p, f) || (p.WantsInit? && p.factory == f) || (p.WantsUninit? && p.factory == f)
  }

  ghost predicate TableFree(w: World) {
    forall t :: t in w.threads ==> !HoldsTable(w.threads[t])
  }

  ghost predicate FactoryFree(w: World, f: nat) {
    forall t :: t in w.threads ==> !HoldsFactory(w.threads[t], f)
  }

  // ---- Steps

  datatype Action =
    | Construct(factory: nat)
    | StartInit(factory: nat, selected: Selection)
    | StartUninit(factory: nat)
    | StartDrop(factory: nat)        // the last reference to the factory's state goes
    | Continue

  function Put(w: World, t: nat, p: Place): World {
    w.(threads := w.threads[t := p])
  }

  ghost predicate Enabled(w: World, t: nat, a: Action) {
    match a
    case Construct(f) => f !in w.selections && forall u :: u in w.threads ==> !Refers(w.threads[u], f)
    case StartInit(f, _) => w.At(t).Idle? && f in w.selections
    case StartUninit(f) => w.At(t).Idle? && f in w.selections
    case StartDrop(f) =>
      w.At(t).Idle? && f in w.selections && forall u :: u in w.threads ==> !Refers(w.threads[u], f)
    case Continue =>
      match w.At(t)
      case Idle => false
      case WantsInit(f, _) => FactoryFree(w, f)
      case WantsUninit(f) => FactoryFree(w, f)
      case Initializing(f, _) => f in w.selections && (w.selections[f].Some? || TableFree(w))
      case Acquired(f, _) => f in w.selections
      case Uninitializing(f) => f in w.selections
      case Taken(_, _) => TableFree(w)
      case Dropping(_) => TableFree(w)
      case _ => true
  }

  ghost function Next(w: World, t: nat, a: Action): World
    requires Enabled(w, t, a)
  {
    match a
    case Construct(f) => w.(selections := w.selections[f := None])
    case StartInit(f, s) => Put(w, t, WantsInit(f, s))
    case StartUninit(f) => Put(w, t, WantsUninit(f))
    case StartDrop(f) =>
      var w' := w.(selections := w.selections - {f});
      if w.selections[f].Some? then Put(w', t, Dropping(w.selections[f].value)) else w'
    case Continue =>
      match w.At(t)
      case WantsInit(f, s) => Put(w, t, Initializing(f, s))
      case WantsUninit(f) => Put(w, t, Uninitializing(f))
      case Initializing(f, s) => if w.selections[f].Some? then Put(w, t, Idle) else Put(w, t, Acquiring(f, s))
      case Acquiring(f, s) =>
        var r := Acquire(w.table, s);
        if r.Ok? then Put(w.(table := r.value), t, Acquired(f, s)) else Put(w, t, Idle)
      case Acquired(f, s) => Put(w.(selections := w.selections[f := Some(s)]), t, Idle)
      case Uninitializing(f) =>
        if w.selections[f].None? then Put(w, t, Idle)
        else Put(w.(selections := w.selections[f := None]), t, Taken(f, w.selections[f].value))
      case Taken(f, s) => Put(w, t, Releasing(Some(f), s))
      case Dropping(s) => Put(w, t, Releasing(None, s))
      case Releasing(_, s) => Put(w.(table := Release(w.table, s)), t, Idle)
  }

  // ---- Who holds a use: an initialized factory, or a thread between the table and the selection

  datatype Holder = OfFactory(factory: nat) | OfThread(thread: nat)

  predicate Carries(p: Place) {
    p.Acquired? || p.Taken? || p.Dropping? || p.Releasing?
  }

  predicate Has(w: World, h: Holder) {
    match h
    case OfFactory(f) => f in w.selections && w.selections[f].Some?
    case OfThread(t) => t in w.threads && Carries(w.threads[t])
  }

  function Use(w: World, h: Holder): Selection
    requires Has(w, h)
  {
    match h
    case OfFactory(f) => w.selections[f].value
    case OfThread(t) => w.threads[t].selected
  }

  ghost function Names(w: World): set<Holder> {
    (set f | f in w.selections :: OfFactory(f)) + (set t | t in w.threads :: OfThread(t))
  }

  ghost function Held(w: World): map<Holder, Selection> {
    map h | h in Names(w) && Has(w, h) :: Use(w, h)
  }

  lemma HeldIs(w: World)
    ensures forall h {:trigger h in Held(w)} :: h in Held(w) <==> Has(w, h)
    ensures forall h {:trigger Held(w)[h]} :: h in Held(w) ==> Held(w)[h] == Use(w, h)
  {
    forall h | Has(w, h) ensures h in Names(w) {
    }
  }

  // Locks exclude; a factory with a thread in it exists, and has no selection yet while a thread that
  // initializes it is past its check.
  ghost predicate Locked(selections: map<nat, Option<Selection>>, threads: map<nat, Place>) {
    match threads
    case at =>
      && (forall t, u :: t in at && u in at && HoldsTable(at[t]) && HoldsTable(at[u]) ==> t == u)
      && (forall t, u :: t in at && u in at && t != u ==> !Clash(at[t], at[u]))
      && (forall t :: t in at ==> InOrder(selections, at[t]))
  }

  // Both hold the lock of the same factory.
  ghost predicate Clash(p: Place, q: Place) {
    exists f :: HoldsFactory(p, f) && HoldsFactory(q, f)
  }

  ghost predicate InOrder(selections: map<nat, Option<Selection>>, p: Place) {
    && (forall f :: Refers(p, f) ==> f in selections)
    && (p.Acquiring? || p.Acquired? ==> p.factory in selections && selections[p.factory].None?)
  }

  // The table counts the holders.
  ghost predicate Sound(w: World) {
    match w
    case World(selections, table, threads) => Counts(table, Held(w)) && Locked(selections, threads)
  }

  // ---- How a step changes who holds what

  lemma ThreadMoves(w: World, t: nat, p: Place)
    ensures
      var held, held' := Held(w), Held(Put(w, t, p));
      if Carries(p) then held' == held[OfThread(t) := p.selected]
      else held' == held - {OfThread(t)}
  {
    hide Held;
    HeldIs(w);
    HeldIs(Put(w, t, p));
  }

  lemma NotHolding(w: World, t: nat)
    requires !Carries(w.At(t))
    ensures OfThread(t) !in Held(w) && Held(w) - {OfThread(t)} == Held(w)
  {
    hide Held;
    HeldIs(w);
  }

  lemma Holding(w: World, t: nat)
    requires t in w.threads && Carries(w.threads[t])
    ensures OfThread(t) in Held(w) && Held(w)[OfThread(t)] == w.threads[t].selected
  {
    hide Held;
    HeldIs(w);
  }

  lemma FactoryHolds(w: World, f: nat)
    ensures OfFactory(f) in Held(w) <==> f in w.selections && w.selections[f].Some?
    ensures OfFactory(f) in Held(w) ==> Held(w)[OfFactory(f)] == w.selections[f].value
    ensures OfFactory(f) !in Held(w) ==> Held(w) - {OfFactory(f)} == Held(w)
  {
    hide Held;
    HeldIs(w);
  }

  // The selection of a factory set or cleared.
  lemma FactoryChanges(w: World, f: nat, s: Option<Selection>)
    ensures
      var held' := Held(w.(selections := w.selections[f := s]));
      if s.Some? then held' == Held(w)[OfFactory(f) := s.value] else held' == Held(w) - {OfFactory(f)}
  {
    hide Held;
    HeldIs(w);
    HeldIs(w.(selections := w.selections[f := s]));
  }

  lemma FactoryGoes(w: World, f: nat)
    ensures Held(w.(selections := w.selections - {f})) == Held(w) - {OfFactory(f)}
  {
    hide Held;
    HeldIs(w);
    HeldIs(w.(selections := w.selections - {f}));
  }

  lemma TableApart(w: World, table: Table)
    ensures Held(w.(table := table)) == Held(w)
  {
    hide Held;
    HeldIs(w);
    HeldIs(w.(table := table));
  }

  // ---- The counts

  lemma NextCounts(w: World, t: nat, a: Action)
    requires Sound(w) && Enabled(w, t, a)
    ensures Counts(Next(w, t, a).table, Held(Next(w, t, a)))
  {
    hide Counts, Held, Holders;
    match a
    case Construct(f) => ConstructCounts(w, f);
    case StartInit(f, s) => PassiveCounts(w, t, WantsInit(f, s));
    case StartUninit(f) => PassiveCounts(w, t, WantsUninit(f));
    case StartDrop(f) => DropCounts(w, t, f);
    case Continue => ContinueCounts(w, t);
  }

  lemma PassiveCounts(w: World, t: nat, p: Place)
    requires Counts(w.table, Held(w)) && !Carries(w.At(t)) && !Carries(p)
    ensures Counts(w.table, Held(Put(w, t, p)))
  {
    hide Held, Counts;
    ThreadMoves(w, t, p);
    NotHolding(w, t);
  }

  lemma ConstructCounts(w: World, f: nat)
    requires Counts(w.table, Held(w)) && f !in w.selections
    ensures Counts(w.table, Held(w.(selections := w.selections[f := None])))
  {
    hide Held, Counts;
    FactoryChanges(w, f, None);
    FactoryHolds(w, f);
  }

  lemma DropCounts(w: World, t: nat, f: nat)
    requires Counts(w.table, Held(w)) && w.At(t).Idle? && f in w.selections
    ensures
      var w' := w.(selections := w.selections - {f});
      Counts(w.table, Held(if w.selections[f].Some? then Put(w', t, Dropping(w.selections[f].value)) else w'))
  {
    hide Held, Counts;
    var w' := w.(selections := w.selections - {f});
    FactoryGoes(w, f);
    FactoryHolds(w, f);
    NotHolding(w, t);
    if w.selections[f].Some? {
      ThreadMoves(w', t, Dropping(w.selections[f].value));
      HandOverCounts(w.table, Held(w), OfFactory(f), OfThread(t));
    }
  }

  lemma ContinueCounts(w: World, t: nat)
    requires Counts(w.table, Held(w)) && Locked(w.selections, w.threads) && Enabled(w, t, Continue)
    ensures Counts(Next(w, t, Continue).table, Held(Next(w, t, Continue)))
  {
    hide Counts, Held, Holders, Acquire, Release, Locked, Clash;
    InOrderAt(w, t);
    match w.At(t)
    case WantsInit(f, s) => PassiveCounts(w, t, Initializing(f, s));
    case WantsUninit(f) => PassiveCounts(w, t, Uninitializing(f));
    case Initializing(f, s) =>
      PassiveCounts(w, t, if w.selections[f].Some? then Idle else Acquiring(f, s));
    case Acquiring(f, s) => AcquiringCounts(w, t, f, s);
    case Acquired(f, s) => StoreCounts(w, t, f, s);
    case Uninitializing(f) => TakeCounts(w, t, f);
    case Taken(f, s) => KeepCounts(w, t, Releasing(Some(f), s));
    case Dropping(s) => KeepCounts(w, t, Releasing(None, s));
    case Releasing(_, s) => ReleasingCounts(w, t, s);
  }

  lemma AcquiringCounts(w: World, t: nat, f: nat, s: Selection)
    requires Counts(w.table, Held(w)) && w.At(t) == Acquiring(f, s)
    ensures
      var r := Acquire(w.table, s);
      if r.Ok? then Counts(r.value, Held(Put(w.(table := r.value), t, Acquired(f, s))))
      else Counts(w.table, Held(Put(w, t, Idle)))
  {
    hide Held, Counts, Acquire;
    NotHolding(w, t);
    ThreadMoves(w, t, Idle);
    var r := Acquire(w.table, s);
    if r.Ok? {
      ThreadMoves(w.(table := r.value), t, Acquired(f, s));
      TableApart(w, r.value);
      AcquireCounts(w.table, Held(w), OfThread(t), s);
    }
  }

  lemma StoreCounts(w: World, t: nat, f: nat, s: Selection)
    requires Counts(w.table, Held(w)) && w.At(t) == Acquired(f, s) && f in w.selections && w.selections[f].None?
    ensures Counts(w.table, Held(Put(w.(selections := w.selections[f := Some(s)]), t, Idle)))
  {
    hide Held, Counts;
    Holding(w, t);
    FactoryHolds(w, f);
    FactoryChanges(w, f, Some(s));
    ThreadMoves(w.(selections := w.selections[f := Some(s)]), t, Idle);
    HandOverCounts(w.table, Held(w), OfThread(t), OfFactory(f));
    assert Held(w)[OfFactory(f) := s] - {OfThread(t)} == (Held(w) - {OfThread(t)})[OfFactory(f) := s];
  }

  lemma TakeCounts(w: World, t: nat, f: nat)
    requires Counts(w.table, Held(w)) && w.At(t) == Uninitializing(f) && f in w.selections
    ensures
      if w.selections[f].None? then Counts(w.table, Held(Put(w, t, Idle)))
      else
        Counts(w.table, Held(Put(w.(selections := w.selections[f := None]), t, Taken(f, w.selections[f].value))))
  {
    hide Held, Counts;
    NotHolding(w, t);
    FactoryHolds(w, f);
    if w.selections[f].None? {
      ThreadMoves(w, t, Idle);
    } else {
      FactoryChanges(w, f, None);
      ThreadMoves(w.(selections := w.selections[f := None]), t, Taken(f, w.selections[f].value));
      HandOverCounts(w.table, Held(w), OfFactory(f), OfThread(t));
    }
  }

  lemma KeepCounts(w: World, t: nat, p: Place)
    requires Counts(w.table, Held(w)) && Carries(w.At(t)) && Carries(p) && p.selected == w.At(t).selected
    ensures Counts(w.table, Held(Put(w, t, p)))
  {
    hide Held, Counts;
    Holding(w, t);
    ThreadMoves(w, t, p);
    assert Held(w)[OfThread(t) := p.selected] == Held(w);
  }

  lemma ReleasingCounts(w: World, t: nat, s: Selection)
    requires Counts(w.table, Held(w)) && w.At(t).Releasing? && w.At(t).selected == s
    ensures !Mismatched(w.table, s)
    ensures Counts(Release(w.table, s), Held(Put(w.(table := Release(w.table, s)), t, Idle)))
  {
    hide Held, Counts, Release;
    Holding(w, t);
    ReleaseCounts(w.table, Held(w), OfThread(t));
    ThreadMoves(w.(table := Release(w.table, s)), t, Idle);
    TableApart(w, Release(w.table, s));
  }

  // ---- The locks

  // A thread may move where it takes no lock that another holds.
  lemma PutLocked(selections: map<nat, Option<Selection>>, threads: map<nat, Place>, t: nat, p: Place)
    requires Locked(selections, threads) && InOrder(selections, p)
    requires HoldsTable(p) ==> forall u :: u in threads && u != t ==> !HoldsTable(threads[u])
    requires forall u :: u in threads && u != t ==> !Clash(p, threads[u])
    ensures Locked(selections, threads[t := p])
  {
    hide Clash, InOrder;
    assert forall u :: u in threads ==> (Clash(threads[u], p) <==> Clash(p, threads[u])) by {
      forall u | u in threads ensures Clash(threads[u], p) <==> Clash(p, threads[u]) {
        ClashIsMutual(threads[u], p);
      }
    }
  }

  lemma ClashIsMutual(p: Place, q: Place)
    ensures Clash(p, q) <==> Clash(q, p)
  {
  }

  lemma FactoryLock(threads: map<nat, Place>, f: nat, p: Place)
    requires forall t :: t in threads ==> !HoldsFactory(threads[t], f)
    requires forall g :: HoldsFactory(p, g) ==> g == f
    ensures forall u :: u in threads ==> !Clash(p, threads[u])
  {
  }

  // The same factory lock as before, or none.
  lemma SameLock(selections: map<nat, Option<Selection>>, threads: map<nat, Place>, t: nat, p: Place)
    requires Locked(selections, threads)
    requires t in threads && forall f :: HoldsFactory(p, f) ==> HoldsFactory(threads[t], f)
    ensures forall u :: u in threads && u != t ==> !Clash(p, threads[u])
  {
    forall u | u in threads && u != t ensures !Clash(p, threads[u]) {
      assert !Clash(threads[t], threads[u]);
    }
  }

  lemma NoLock(threads: map<nat, Place>, p: Place)
    requires forall f :: !HoldsFactory(p, f)
    ensures forall u :: u in threads ==> !Clash(p, threads[u])
  {
  }

  // A selection is written by the thread that holds the factory's lock.
  lemma SelectionLocked(selections: map<nat, Option<Selection>>, threads: map<nat, Place>, t: nat, f: nat,
                        s: Option<Selection>, p: Place)
    requires Locked(selections, threads) && t in threads && HoldsFactory(threads[t], f) && f in selections
    requires p.Idle? || (p.Taken? && p.factory == f)
    ensures Locked(selections[f := s], threads[t := p])
  {
    forall u | u in threads && u != t ensures InOrder(selections[f := s], threads[u]) {
      assert !Clash(threads[t], threads[u]);
      assert !HoldsFactory(threads[u], f);
      assert InOrder(selections, threads[u]);
    }
    SameLock(selections, threads, t, p);
    forall u | u in threads && u != t ensures !Clash(threads[u], p) {
      ClashIsMutual(threads[u], p);
    }
  }

  lemma ContinueLocked(w: World, t: nat)
    requires Locked(w.selections, w.threads) && Enabled(w, t, Continue)
    ensures Locked(Next(w, t, Continue).selections, Next(w, t, Continue).threads)
  {
    hide Clash, Locked, Acquire, Release;
    assert InOrder(w.selections, w.At(t)) by {
      InOrderAt(w, t);
    }
    var at := w.threads;
    match w.At(t)
    case WantsInit(f, s) =>
      FactoryLock(at, f, Initializing(f, s));
      PutLocked(w.selections, at, t, Initializing(f, s));
    case WantsUninit(f) =>
      FactoryLock(at, f, Uninitializing(f));
      PutLocked(w.selections, at, t, Uninitializing(f));
    case Initializing(f, s) =>
      var p := if w.selections[f].Some? then Idle else Acquiring(f, s);
      SameLock(w.selections, at, t, p);
      PutLocked(w.selections, at, t, p);
    case Acquiring(f, s) =>
      var p := if Acquire(w.table, s).Ok? then Acquired(f, s) else Idle;
      SameLock(w.selections, at, t, p);
      PutLocked(w.selections, at, t, p);
    case Acquired(f, s) => SelectionLocked(w.selections, at, t, f, Some(s), Idle);
    case Uninitializing(f) =>
      if w.selections[f].None? {
        SameLock(w.selections, at, t, Idle);
        PutLocked(w.selections, at, t, Idle);
      } else {
        SelectionLocked(w.selections, at, t, f, None, Taken(f, w.selections[f].value));
      }
    case Taken(f, s) =>
      SameLock(w.selections, at, t, Releasing(Some(f), s));
      PutLocked(w.selections, at, t, Releasing(Some(f), s));
    case Dropping(s) =>
      NoLock(at, Releasing(None, s));
      PutLocked(w.selections, at, t, Releasing(None, s));
    case Releasing(_, _) =>
      SameLock(w.selections, at, t, Idle);
      PutLocked(w.selections, at, t, Idle);
  }

  lemma InOrderAt(w: World, t: nat)
    requires Locked(w.selections, w.threads)
    ensures InOrder(w.selections, w.At(t))
  {
  }

  lemma StartLocked(w: World, t: nat, a: Action)
    requires Locked(w.selections, w.threads) && Enabled(w, t, a) && !a.Continue?
    ensures Locked(Next(w, t, a).selections, Next(w, t, a).threads)
  {
    hide Clash;
    var at := w.threads;
    match a
    case Construct(f) =>
      forall u | u in at ensures InOrder(w.selections[f := None], at[u]) {
        assert InOrder(w.selections, at[u]);
      }
    case StartInit(f, s) =>
      NoLock(at, WantsInit(f, s));
      PutLocked(w.selections, at, t, WantsInit(f, s));
    case StartUninit(f) =>
      NoLock(at, WantsUninit(f));
      PutLocked(w.selections, at, t, WantsUninit(f));
    case StartDrop(f) =>
      forall u | u in at ensures InOrder(w.selections - {f}, at[u]) {
        assert InOrder(w.selections, at[u]) && !Refers(at[u], f);
      }
      if w.selections[f].Some? {
        var p := Dropping(w.selections[f].value);
        NoLock(at, p);
        PutLocked(w.selections - {f}, at, t, p);
      }
  }

  lemma NextSound(w: World, t: nat, a: Action)
    requires Sound(w) && Enabled(w, t, a)
    ensures Sound(Next(w, t, a))
  {
    hide Counts, Held, Acquire, Release, Locked, Next, Enabled;
    NextCounts(w, t, a);
    if a.Continue? {
      ContinueLocked(w, t);
    } else {
      StartLocked(w, t, a);
    }
  }

  // ---- Every run

  datatype Event = Event(thread: nat, action: Action)

  const START := World(map[], map[], map[])

  ghost predicate IsRun(ws: seq<World>, es: seq<Event>) {
    && |ws| == |es| + 1 && ws[0] == START
    && forall i :: 0 <= i < |es| ==>
         Enabled(ws[i], es[i].thread, es[i].action) && ws[i + 1] == Next(ws[i], es[i].thread, es[i].action)
  }

  lemma {:induction false} RunSound(ws: seq<World>, es: seq<Event>, n: nat)
    requires IsRun(ws, es) && n < |ws|
    ensures Sound(ws[n])
  {
    hide Next, Enabled;
    if n == 0 {
      StartSound();
    } else {
      RunSound(ws, es, n - 1);
      NextSound(ws[n - 1], es[n - 1].thread, es[n - 1].action);
    }
  }

  lemma StartSound()
    ensures Sound(START)
  {
    assert Held(START) == map[] by {
      HeldIs(START);
    }
  }

  ghost function SelectedOn(w: World, g: nat): set<nat> {
    set f | f in w.selections && w.selections[f].Some? && w.selections[f].value.generation == g
  }

  // Threads whose use is on its way from the table into a selection, or from a selection back.
  ghost function InFlight(w: World, g: nat): set<nat> {
    set t | t in w.threads && Carries(w.threads[t]) && w.threads[t].selected.generation == g
  }

  // In every state of every run the entry of a generation exists exactly when a factory or a thread
  // holds a use of it; its count is the number of selections on it plus the uses in flight; and all of
  // them have its address.
  lemma EntriesAreExact(ws: seq<World>, es: seq<Event>, n: nat, g: nat)
    requires IsRun(ws, es) && n < |ws|
    ensures
      var w := ws[n];
      && (g in w.table <==> SelectedOn(w, g) != {} || InFlight(w, g) != {})
      && (g in w.table ==> w.table[g].users == |SelectedOn(w, g)| + |InFlight(w, g)|)
      && (forall f :: f in SelectedOn(w, g) ==> g in w.table && w.selections[f].value.address == w.table[g].address)
      && (forall t :: t in InFlight(w, g) ==> g in w.table && w.threads[t].selected.address == w.table[g].address)
  {
    hide Held, Next, Enabled, Counts;
    var w := ws[n];
    RunSound(ws, es, n);
    HeldIs(w);
    HoldersSplit(w, g);
    CountsInWords(w.table, Held(w), g);
    forall f | f in SelectedOn(w, g)
      ensures g in w.table && w.selections[f].value.address == w.table[g].address
      ensures OfFactory(f) in Holders(Held(w), g)
    {
      assert OfFactory(f) in Held(w);
    }
    forall t | t in InFlight(w, g)
      ensures g in w.table && w.threads[t].selected.address == w.table[g].address
      ensures OfThread(t) in Holders(Held(w), g)
    {
      assert OfThread(t) in Held(w);
    }
  }

  lemma CountsInWords<K>(t: Table, held: map<K, Selection>, g: nat)
    requires Counts(t, held)
    ensures g in t ==> t[g].users == |Holders(held, g)| && Holders(held, g) != {}
    ensures forall k :: k in held && held[k].generation == g ==> g in t && t[g].address == held[k].address
  {
  }

  lemma HoldersAre(w: World, g: nat, a: set<Holder>, b: set<Holder>)
    requires a == set f | f in SelectedOn(w, g) :: OfFactory(f)
    requires b == set t | t in InFlight(w, g) :: OfThread(t)
    ensures Holders(Held(w), g) == a + b
  {
    hide Held;
    HeldIs(w);
    forall h ensures h in Holders(Held(w), g) <==> h in a + b {
      match h
      case OfFactory(f) => assert h in a <==> f in SelectedOn(w, g);
      case OfThread(t) => assert h in b <==> t in InFlight(w, g);
    }
  }

  lemma HoldersSplit(w: World, g: nat)
    ensures |Holders(Held(w), g)| == |SelectedOn(w, g)| + |InFlight(w, g)|
  {
    hide Held, Holders, SelectedOn, InFlight;
    var a, b := set f | f in SelectedOn(w, g) :: OfFactory(f), set t | t in InFlight(w, g) :: OfThread(t);
    HoldersAre(w, g, a, b);
    FactoryImage(SelectedOn(w, g));
    ThreadImage(InFlight(w, g));
    assert a * b == {};
  }

  lemma {:induction false} FactoryImage(s: set<nat>)
    ensures |set f | f in s :: OfFactory(f)| == |s|
    decreases |s|
  {
    var image := set f | f in s :: OfFactory(f);
    if f :| f in s {
      FactoryImage(s - {f});
      assert image == (set x | x in s - {f} :: OfFactory(x)) + {OfFactory(f)};
    }
  }

  lemma {:induction false} ThreadImage(s: set<nat>)
    ensures |set t | t in s :: OfThread(t)| == |s|
    decreases |s|
  {
    var image := set t | t in s :: OfThread(t);
    if t :| t in s {
      ThreadImage(s - {t});
      assert image == (set x | x in s - {t} :: OfThread(x)) + {OfThread(t)};
    }
  }

  // A thread that has the table's lock to acquire a use gets one exactly if every selection and every use
  // in flight of the generation has its address, and their number still fits.
  lemma AcquisitionsAreExact(ws: seq<World>, es: seq<Event>, n: nat, t: nat)
    requires IsRun(ws, es) && n < |ws| && ws[n].At(t).Acquiring?
    ensures
      var w, s := ws[n], ws[n].At(t).selected;
      && Next(w, t, Continue).At(t) ==
           (if AllHave(w, s) && |SelectedOn(w, s.generation)| + |InFlight(w, s.generation)| < USIZE_MAX
            then Acquired(ws[n].At(t).factory, s) else Idle)
      && Next(w, t, Continue).selections == w.selections
  {
    hide Held, Counts, Acquire, AllHave, SelectedOn, InFlight;
    var w, s := ws[n], ws[n].At(t).selected;
    RunSound(ws, es, n);
    AcquireExactly(w.table, Held(w), s);
    HoldersSplit(w, s.generation);
    AllHaveInHeld(w, s);
  }

  ghost predicate AllHave(w: World, s: Selection) {
    && (forall f :: f in SelectedOn(w, s.generation) ==> w.selections[f].value.address == s.address)
    && (forall u :: u in InFlight(w, s.generation) ==> w.threads[u].selected.address == s.address)
  }

  lemma AllHaveInHeld(w: World, s: Selection)
    ensures AllHave(w, s) <==>
            forall k :: k in Held(w) && Held(w)[k].generation == s.generation ==> Held(w)[k].address == s.address
  {
    hide Held;
    HeldIs(w);
    forall f | f in SelectedOn(w, s.generation)
      ensures OfFactory(f) in Held(w) && Held(w)[OfFactory(f)] == w.selections[f].value
    {
      assert Has(w, OfFactory(f));
    }
    forall u | u in InFlight(w, s.generation)
      ensures OfThread(u) in Held(w) && Held(w)[OfThread(u)] == w.threads[u].selected
    {
      assert Has(w, OfThread(u));
    }
    forall h | h in Held(w) && Held(w)[h].generation == s.generation
      ensures match h case OfFactory(f) => f in SelectedOn(w, s.generation)
                      case OfThread(u) => u in InFlight(w, s.generation)
    {
      assert Has(w, h);
    }
  }

  // An initialization or an uninitialization that nothing interrupts does what the factory's own methods
  // do in one step.
  ghost function Alone(w: World, t: nat, fuel: nat): World
    decreases fuel
  {
    if fuel > 0 && Enabled(w, t, Continue) then Alone(Next(w, t, Continue), t, fuel - 1) else w
  }

  lemma PutOver(w: World, t: nat, p: Place, q: Place)
    ensures Put(Put(w, t, p), t, q) == Put(w, t, q) && Put(w, t, p).At(t) == p
  {
    assert w.threads[t := p][t := q] == w.threads[t := q];
  }

  lemma UninterruptedInitialize(w: World, t: nat, f: nat, s: Selection)
    requires w.At(t).Idle? && f in w.selections && FactoryFree(w, f) && TableFree(w)
    ensures
      var w' := Alone(Put(w, t, WantsInit(f, s)), t, 4);
      if w.selections[f].None? && Acquire(w.table, s).Ok?
      then w' == Put(World(w.selections[f := Some(s)], Acquire(w.table, s).value, w.threads), t, Idle)
      else w' == Put(w, t, Idle)
  {
    hide Acquire, Alone, Enabled, Next;
    InitStages(w, t, f, s);
    AloneNext(Put(w, t, WantsInit(f, s)), t, 3);
    AloneNext(Put(w, t, Initializing(f, s)), t, 2);
    AloneNext(Put(w, t, Acquiring(f, s)), t, 1);
    AloneIdle(Put(w, t, Idle), t, 1);
    AloneIdle(Put(w, t, Idle), t, 2);
    PutOver(w, t, Idle, Idle);
    if w.selections[f].None? && Acquire(w.table, s).Ok? {
      var used := w.(table := Acquire(w.table, s).value);
      StoreStage(used, t, f, s);
      AloneNext(Put(used, t, Acquired(f, s)), t, 0);
      AloneIdle(Next(Put(used, t, Acquired(f, s)), t, Continue), t, 0);
    }
  }

  lemma InitStages(w: World, t: nat, f: nat, s: Selection)
    requires w.At(t).Idle? && f in w.selections && FactoryFree(w, f) && TableFree(w)
    ensures
      var wants, holds, both := Put(w, t, WantsInit(f, s)), Put(w, t, Initializing(f, s)), Put(w, t, Acquiring(f, s));
      && Enabled(wants, t, Continue) && Next(wants, t, Continue) == holds
      && Enabled(holds, t, Continue)
      && Next(holds, t, Continue) == (if w.selections[f].Some? then Put(w, t, Idle) else both)
      && Enabled(both, t, Continue)
      && Next(both, t, Continue) ==
           var r := Acquire(w.table, s);
           if r.Ok? then Put(w.(table := r.value), t, Acquired(f, s)) else Put(w, t, Idle)
  {
    hide Acquire;
    PutOver(w, t, WantsInit(f, s), Initializing(f, s));
    PutOver(w, t, Initializing(f, s), Idle);
    PutOver(w, t, Initializing(f, s), Acquiring(f, s));
    PutOver(w, t, Acquiring(f, s), Idle);
    if Acquire(w.table, s).Ok? {
      PutOver(w.(table := Acquire(w.table, s).value), t, Acquiring(f, s), Acquired(f, s));
    }
  }

  lemma StoreStage(w: World, t: nat, f: nat, s: Selection)
    requires f in w.selections
    ensures
      var has := Put(w, t, Acquired(f, s));
      && Enabled(has, t, Continue)
      && Next(has, t, Continue) == Put(w.(selections := w.selections[f := Some(s)]), t, Idle)
  {
    PutOver(w.(selections := w.selections[f := Some(s)]), t, Acquired(f, s), Idle);
  }

  lemma UninterruptedUninitialize(w: World, t: nat, f: nat)
    requires w.At(t).Idle? && f in w.selections && FactoryFree(w, f) && TableFree(w)
    ensures
      var w' := Alone(Put(w, t, WantsUninit(f)), t, 4);
      if w.selections[f].Some?
      then w' == Put(World(w.selections[f := None], Release(w.table, w.selections[f].value), w.threads), t, Idle)
      else w' == Put(w, t, Idle)
  {
    hide Release, Alone, Enabled, Next;
    UninitStages(w, t, f);
    AloneNext(Put(w, t, WantsUninit(f)), t, 3);
    AloneNext(Put(w, t, Uninitializing(f)), t, 2);
    AloneIdle(Put(w, t, Idle), t, 2);
    PutOver(w, t, Idle, Idle);
    if w.selections[f].Some? {
      var s, bare := w.selections[f].value, w.(selections := w.selections[f := None]);
      ReleaseStages(bare, t, f, s);
      AloneNext(Put(bare, t, Taken(f, s)), t, 1);
      AloneNext(Put(bare, t, Releasing(Some(f), s)), t, 0);
      AloneIdle(Next(Put(bare, t, Releasing(Some(f), s)), t, Continue), t, 0);
    }
  }

  lemma UninitStages(w: World, t: nat, f: nat)
    requires w.At(t).Idle? && f in w.selections && FactoryFree(w, f)
    ensures
      var wants, holds := Put(w, t, WantsUninit(f)), Put(w, t, Uninitializing(f));
      && Enabled(wants, t, Continue) && Next(wants, t, Continue) == holds
      && Enabled(holds, t, Continue)
      && Next(holds, t, Continue) ==
           if w.selections[f].None? then Put(w, t, Idle)
           else Put(w.(selections := w.selections[f := None]), t, Taken(f, w.selections[f].value))
  {
    PutOver(w, t, WantsUninit(f), Uninitializing(f));
    PutOver(w, t, Uninitializing(f), Idle);
    if w.selections[f].Some? {
      PutOver(w.(selections := w.selections[f := None]), t, Uninitializing(f), Taken(f, w.selections[f].value));
    }
  }

  lemma ReleaseStages(w: World, t: nat, f: nat, s: Selection)
    requires w.At(t).Idle? && TableFree(w)
    ensures
      var taken, last := Put(w, t, Taken(f, s)), Put(w, t, Releasing(Some(f), s));
      && Enabled(taken, t, Continue) && Next(taken, t, Continue) == last
      && Enabled(last, t, Continue) && Next(last, t, Continue) == Put(w.(table := Release(w.table, s)), t, Idle)
  {
    hide Release;
    PutOver(w, t, Taken(f, s), Releasing(Some(f), s));
    PutOver(w.(table := Release(w.table, s)), t, Releasing(Some(f), s), Idle);
  }

  lemma AloneNext(w: World, t: nat, fuel: nat)
    ensures Alone(w, t, fuel + 1) == if Enabled(w, t, Continue) then Alone(Next(w, t, Continue), t, fuel) else w
    ensures Alone(w, t, 0) == w
  {
  }

  lemma AloneIdle(w: World, t: nat, fuel: nat)
    requires w.At(t).Idle?
    ensures Alone(w, t, fuel) == w
  {
  }

  // The arm of a release that finds no matching entry is never taken.
  lemma ReleasesMatch(ws: seq<World>, es: seq<Event>, n: nat, t: nat)
    requires IsRun(ws, es) && n < |ws| && ws[n].At(t).Releasing?
    ensures !Mismatched(ws[n].table, ws[n].At(t).selected)
  {
    hide Held, Next, Enabled, Counts, Release;
    RunSound(ws, es, n);
    ReleasingCounts(ws[n], t, ws[n].At(t).selected);
  }

  // ---- Lock order

  predicate Waits(p: Place) {
    p.WantsInit? || p.WantsUninit? || p.Initializing? || p.Taken? || p.Dropping?
  }

  // The table's lock comes last: who holds it waits for nothing, and who waits for a factory's lock
  // holds none.  So in every state in which some thread is not idle, some thread can go on.
  lemma NeverDeadlocked(ws: seq<World>, es: seq<Event>, n: nat, t: nat) returns (u: nat)
    requires IsRun(ws, es) && n < |ws| && !ws[n].At(t).Idle?
    ensures Enabled(ws[n], u, Continue)
    ensures forall v :: v in ws[n].threads && HoldsTable(ws[n].threads[v]) ==>
              !Waits(ws[n].threads[v]) && Enabled(ws[n], v, Continue)
    ensures forall v, f :: v in ws[n].threads && (ws[n].threads[v].WantsInit? || ws[n].threads[v].WantsUninit?) ==>
              !HoldsTable(ws[n].threads[v]) && !HoldsFactory(ws[n].threads[v], f)
  {
    hide Held, Next, Counts;
    RunSound(ws, es, n);
    u := SomeoneCanGoOn(ws[n], t);
  }

  lemma SomeoneCanGoOn(w: World, t: nat) returns (u: nat)
    requires Locked(w.selections, w.threads) && !w.At(t).Idle?
    ensures Enabled(w, u, Continue)
  {
    hide Clash;
    if v :| v in w.threads && HoldsTable(w.threads[v]) {
      u := v;
    } else {
      u := t;
      var p := w.At(t);
      if p.WantsInit? || p.WantsUninit? {
        if v :| v in w.threads && HoldsFactory(w.threads[v], p.factory) {
          u := v;
        }
      }
      assert InOrder(w.selections, w.At(u));
    }
  }
}
