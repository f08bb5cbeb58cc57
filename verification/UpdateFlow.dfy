// Marking, taking and flushing over whole runs (ara2-bridge-plugin/src/updates.rs): the tracker as
// the source mutates it, and the conservation of marks across any interleaving of them.
module UpdateFlow {
  import opened Registries
  import opened Updates

  // ---- Runs

  // The marks since the last flush are open; a flush closes them into a batch with its notifications.
  datatype Batch = Batch(marks: seq<Mark>, notes: seq<Notification>)
  datatype Ledger = Ledger(tracker: Tracker, open: seq<Mark>, closed: seq<Batch>)

  // `during` is what is marked while the flush delivers: by the receiver of a notification, or by
  // another thread once the pending tracker has been taken.
  datatype Event = Issue(mark: Mark) | Flush(during: seq<Mark>)

  function Advance(l: Ledger, e: Event): Ledger {
    match e
    case Issue(m) => l.(tracker := Marked(l.tracker, m), open := l.open + [m])
    case Flush(during) =>
      Ledger(MarkedAll(EMPTY, during), during, l.closed + [Batch(l.open, Delivery(l.tracker))])
  }

  function After(es: seq<Event>): Ledger {
    if es == [] then Ledger(EMPTY, [], []) else Advance(After(es[..|es| - 1]), es[|es| - 1])
  }

  function Issued(es: seq<Event>): seq<Mark> {
    if es == [] then []
    else Issued(es[..|es| - 1]) +
         match es[|es| - 1] case Issue(m) => [m] case Flush(during) => during
  }

  function MarksOf(bs: seq<Batch>): seq<Mark> {
    if bs == [] then [] else MarksOf(bs[..|bs| - 1]) + bs[|bs| - 1].marks
  }

  // Every mark ever issued is in exactly one place, in order: a closed batch, or the open marks;
  // the tracker holds exactly the open ones, and each batch was notified from exactly its own.
  lemma {:induction false} MarksAreConserved(es: seq<Event>)
    ensures MarksOf(After(es).closed) + After(es).open == Issued(es)
    ensures After(es).tracker == MarkedAll(EMPTY, After(es).open)
    ensures forall b :: b in After(es).closed ==> b.notes == Delivery(MarkedAll(EMPTY, b.marks))
  {
    if es != [] {
      var init, last := es[..|es| - 1], es[|es| - 1];
      MarksAreConserved(init);
      var l := After(init);
      match last
      case Issue(m) =>
        assert (l.open + [m])[..|l.open + [m]| - 1] == l.open;
        assert MarksOf(l.closed) + (l.open + [m]) == MarksOf(l.closed) + l.open + [m];
      case Flush(during) =>
        var b := Batch(l.open, Delivery(l.tracker));
        assert (l.closed + [b])[..|l.closed + [b]| - 1] == l.closed;
    }
  }

  // ---- Delivery

  ghost predicate Concerns(n: Notification, category: Category, subject: RawHandle) {
    match category
    case Source => n.SourceChanged? && n.source == subject
    case Modification => n.ModificationChanged? && n.modification == subject
    case Region => n.RegionChanged? && n.region == subject
  }

  // `c` tells the receiver at least what `d` would: it reaches as far, and promises no more scopes.
  ghost predicate Covers(c: Change, d: Change) {
    && (c.range.Some? ==> d.range.Some? && c.range.value.start <= d.range.value.start
                                        && d.range.value.End() <= c.range.value.End())
    && c.flags <= d.flags
  }

  function Offset(t: Tracker, category: Category): nat {
    match category
    case Source => 0
    case Modification => |t.sources|
    case Region => |t.sources| + |t.modifications|
  }

  lemma DeliveryAt(t: Tracker, category: Category, i: nat)
    requires i < |t.Of(category)|
    ensures Offset(t, category) + i < |Delivery(t)|
    ensures Delivery(t)[Offset(t, category) + i] == Notify(category, t.Of(category)[i])
  {
  }

  // A notification about an object comes from an entry of that object's list.
  lemma DeliveryFrom(t: Tracker, category: Category, subject: RawHandle, k: nat)
    requires k < |Delivery(t)| && Concerns(Delivery(t)[k], category, subject)
    ensures 0 <= k - Offset(t, category) < |t.Of(category)|
    ensures t.Of(category)[k - Offset(t, category)].subject == subject
  {
    var a, b, c := |t.sources|, |t.modifications|, |t.regions|;
    if k < a {
      DeliveryAt(t, Source, k);
    } else if k < a + b {
      DeliveryAt(t, Modification, k - a);
    } else if k < a + b + c {
      DeliveryAt(t, Region, k - a - b);
    }
  }

  lemma CoalescedCovers(c: Change, parts: set<Change>, d: Change)
    requires Coalesces(c, parts) && d in parts
    ensures Covers(c, d)
  {
  }

  // The place in a tracker of the entry for an accepted mark.
  lemma MarkHasEntry(ms: seq<Mark>, m: Mark) returns (i: nat)
    requires m in ms && m.MarkObject? && m.origin.ShouldNotify()
    ensures
      var list := MarkedAll(EMPTY, ms).Of(m.category);
      && i < |list| && list[i].subject == m.subject && Covers(list[i].change, m.change)
      && forall j :: 0 <= j < |list| && list[j].subject == m.subject ==> j == i
  {
    MarkedAllRepresents(ms);
    var list := MarkedAll(EMPTY, ms).Of(m.category);
    assert ListRepresents(list, ms, m.category);
    assert m.change in Contributions(ms, m.category, m.subject);
    i :| 0 <= i < |list| && list[i].subject == m.subject;
    assert Has(list, m.subject, list[i].change);
    CoalescedCovers(list[i].change, Contributions(ms, m.category, m.subject), m.change);
  }

  // What a flush of the marks `ms` delivers about an accepted one of them.
  lemma DeliveredOnce(ms: seq<Mark>, m: Mark) returns (k: nat)
    requires m in ms && m.MarkObject? && m.origin.ShouldNotify()
    ensures
      var notes := Delivery(MarkedAll(EMPTY, ms));
      && k < |notes| && Concerns(notes[k], m.category, m.subject) && Covers(ChangeOf(notes[k]), m.change)
      && forall j :: 0 <= j < |notes| && Concerns(notes[j], m.category, m.subject) ==> j == k
  {
    hide Covers, MarkedAll, Delivery;
    var t := MarkedAll(EMPTY, ms);
    var i := MarkHasEntry(ms, m);
    DeliveryAt(t, m.category, i);
    k := Offset(t, m.category) + i;
    forall j | 0 <= j < |Delivery(t)| && Concerns(Delivery(t)[j], m.category, m.subject) ensures j == k {
      DeliveryFrom(t, m.category, m.subject, j);
    }
  }

  // In every run, each accepted mark of a flushed batch is covered by exactly one of the batch's
  // notifications about its object.
  lemma EachMarkIsDeliveredOnce(es: seq<Event>, b: Batch, m: Mark) returns (k: nat)
    requires b in After(es).closed && m in b.marks
    requires m.MarkObject? && m.origin.ShouldNotify()
    ensures k < |b.notes| && Concerns(b.notes[k], m.category, m.subject)
    ensures Covers(ChangeOf(b.notes[k]), m.change)
    ensures forall j :: 0 <= j < |b.notes| && Concerns(b.notes[j], m.category, m.subject) ==> j == k
  {
    hide Covers, MarkedAll, Delivery;
    MarksAreConserved(es);
    k := DeliveredOnce(b.marks, m);
  }

  function ChangeOf(n: Notification): Change
    requires !n.DocumentChanged?
  {
    match n
    case SourceChanged(_, c) => c
    case ModificationChanged(_, c) => c
    case RegionChanged(_, c) => c
  }

  lemma DeliversOnlyMarks(ms: seq<Mark>, k: nat, category: Category, subject: RawHandle)
    requires k < |Delivery(MarkedAll(EMPTY, ms))|
    requires Concerns(Delivery(MarkedAll(EMPTY, ms))[k], category, subject)
    ensures Contributions(ms, category, subject) != {}
    ensures Coalesces(ChangeOf(Delivery(MarkedAll(EMPTY, ms))[k]), Contributions(ms, category, subject))
  {
    hide MarkedAll, Delivery, Coalesces;
    MarkedAllRepresents(ms);
    var t := MarkedAll(EMPTY, ms);
    DeliveryFrom(t, category, subject, k);
    var i := k - Offset(t, category);
    DeliveryAt(t, category, i);
    var list := t.Of(category);
    assert ListRepresents(list, ms, category);
    assert Mentions(list, subject) && Has(list, subject, list[i].change);
  }

  // Conversely a notification tells of nothing but accepted marks: its change is the coalescing of
  // the accepted marks of its object, of which there is at least one.  Marks that the host or a
  // restored archive caused are never among them.
  lemma NothingElseIsDelivered(es: seq<Event>, b: Batch, k: nat, category: Category, subject: RawHandle)
    requires b in After(es).closed && k < |b.notes| && Concerns(b.notes[k], category, subject)
    ensures Contributions(b.marks, category, subject) != {}
    ensures Coalesces(ChangeOf(b.notes[k]), Contributions(b.marks, category, subject))
  {
    hide MarkedAll, Delivery, Coalesces;
    MarksAreConserved(es);
    DeliversOnlyMarks(b.marks, k, category, subject);
  }

  // The document is reported in a flush, once and last, exactly when one of the flushed marks said so.
  lemma DocumentIsToldOnce(es: seq<Event>, b: Batch, i: nat)
    requires b in After(es).closed && i < |b.notes|
    ensures b.notes[i].DocumentChanged? <==> DocumentMarked(b.marks) && i == |b.notes| - 1
    ensures DocumentMarked(b.marks) ==> b.notes[|b.notes| - 1].DocumentChanged?
  {
    hide MarkedAll, Coalesces, DocumentMarked, Delivery;
    MarksAreConserved(es);
    MarkedAllRepresents(b.marks);
    DocumentComesLast(MarkedAll(EMPTY, b.marks), i);
  }

  lemma DocumentComesLast(t: Tracker, i: nat)
    requires i < |Delivery(t)|
    ensures Delivery(t)[i].DocumentChanged? <==> t.document && i == |Delivery(t)| - 1
    ensures t.document ==> Delivery(t)[|Delivery(t)| - 1].DocumentChanged?
  {
    var a, b, c := |t.sources|, |t.modifications|, |t.regions|;
    if i < a {
      DeliveryAt(t, Source, i);
    } else if i < a + b {
      DeliveryAt(t, Modification, i - a);
    } else if i < a + b + c {
      DeliveryAt(t, Region, i - a - b);
    }
  }

  // ---- The tracker as an object

  function Echoes(echo: nat -> seq<Mark>, n: nat): seq<Mark> {
    if n == 0 then [] else Echoes(echo, n - 1) + echo(n - 1)
  }

  lemma {:induction false} MarkedAllAppend(t: Tracker, a: seq<Mark>, b: seq<Mark>)
    ensures MarkedAll(MarkedAll(t, a), b) == MarkedAll(t, a + b)
  {
    if b == [] {
      assert a + b == a;
    } else {
      MarkedAllAppend(t, a, b[..|b| - 1]);
      assert (a + b)[..|a + b| - 1] == a + b[..|b| - 1];
    }
  }

  lemma EchoesBegin(echo: nat -> seq<Mark>)
    ensures MarkedAll(EMPTY, Echoes(echo, 0)) == EMPTY
  {
  }

  lemma EchoesNext(echo: nat -> seq<Mark>, n: nat)
    ensures MarkedAll(MarkedAll(EMPTY, Echoes(echo, n)), echo(n)) == MarkedAll(EMPTY, Echoes(echo, n + 1))
  {
    MarkedAllAppend(EMPTY, Echoes(echo, n), echo(n));
  }

  class UpdateTracker {
    var sources: seq<Entry>
    var modifications: seq<Entry>
    var regions: seq<Entry>
    var document: bool

    function State(): Tracker
      reads this
    {
      Tracker(sources, modifications, regions, document)
    }

    constructor ()
      ensures State() == EMPTY
    {
      sources, modifications, regions, document := [], [], [], false;
    }

    method MarkSource(source: RawHandle, change: Change, origin: Origin)
      modifies this
      ensures State() == Marked(old(State()), MarkObject(Source, source, change, origin))
    {
      if origin.ShouldNotify() {
        sources := Merge(sources, source, change);
      }
    }

    method MarkModification(modification: RawHandle, change: Change, origin: Origin)
      modifies this
      ensures State() == Marked(old(State()), MarkObject(Modification, modification, change, origin))
    {
      if origin.ShouldNotify() {
        modifications := Merge(modifications, modification, change);
      }
    }

    method MarkRegion(region: RawHandle, change: Change, origin: Origin)
      modifies this
      ensures State() == Marked(old(State()), MarkObject(Region, region, change, origin))
    {
      if origin.ShouldNotify() {
        regions := Merge(regions, region, change);
      }
    }

    method MarkDocumentChanged(origin: Origin)
      modifies this
      ensures State() == Marked(old(State()), MarkDocument(origin))
    {
      document := document || origin.ShouldNotify();
    }

    method PendingCount() returns (n: nat)
      ensures n == |Delivery(State())|
    {
      n := |sources| + |modifications| + |regions| + if document then 1 else 0;
    }

    method Apply(m: Mark)
      modifies this
      ensures State() == Marked(old(State()), m)
    {
      match m
      case MarkDocument(origin) => MarkDocumentChanged(origin);
      case MarkObject(Source, subject, change, origin) => MarkSource(subject, change, origin);
      case MarkObject(Modification, subject, change, origin) => MarkModification(subject, change, origin);
      case MarkObject(Region, subject, change, origin) => MarkRegion(subject, change, origin);
    }

    method ApplyAll(ms: seq<Mark>)
      modifies this
      ensures State() == MarkedAll(old(State()), ms)
    {
      assert ms[..|ms|] == ms;
      for i := 0 to |ms|
        invariant State() == MarkedAll(old(State()), ms[..i])
      {
        assert ms[..i + 1][..i] == ms[..i];
        Apply(ms[i]);
      }
    }

    // One category's deliveries; `echo(i)` is what the receiver marks during the i-th delivery.
    method DeliverAll(category: Category, entries: seq<Entry>, delivered: seq<Notification>,
                      echo: nat -> seq<Mark>) returns (now: seq<Notification>)
      requires State() == MarkedAll(EMPTY, Echoes(echo, |delivered|))
      modifies this
      ensures now == delivered + NotifyAll(category, entries)
      ensures State() == MarkedAll(EMPTY, Echoes(echo, |now|))
    {
      hide MarkedAll, Echoes;
      now := delivered;
      for i := 0 to |entries|
        invariant now == delivered + NotifyAll(category, entries[..i])
        invariant State() == MarkedAll(EMPTY, Echoes(echo, |now|))
      {
        EchoesNext(echo, |now|);
        ApplyAll(echo(|now|));
        now := now + [Notify(category, entries[i])];
      }
      assert entries[..|entries|] == entries;
    }

    // The pending state is taken before the first delivery, so what is marked during a flush waits
    // for the next one.
    method FlushWith(echo: nat -> seq<Mark>) returns (delivered: seq<Notification>)
      modifies this
      ensures delivered == Delivery(old(State()))
      ensures State() == MarkedAll(EMPTY, Echoes(echo, |delivered|))
    {
      hide MarkedAll, Echoes;
      EchoesBegin(echo);
      var takenSources, takenModifications := sources, modifications;
      var takenRegions, takenDocument := regions, document;
      sources, modifications, regions, document := [], [], [], false;
      delivered := DeliverAll(Source, takenSources, [], echo);
      delivered := DeliverAll(Modification, takenModifications, delivered, echo);
      delivered := DeliverAll(Region, takenRegions, delivered, echo);
      if takenDocument {
        EchoesNext(echo, |delivered|);
        ApplyAll(echo(|delivered|));
        delivered := delivered + [DocumentChanged];
      }
    }
  }

  // The application's side of the tracker: `TakePending` swaps the shared tracker for an empty one.
  class UpdateEmitter {
    const pending: UpdateTracker

    constructor ()
      ensures fresh(pending) && pending.State() == EMPTY
    {
      pending := new UpdateTracker();
    }

    method TakePending() returns (taken: UpdateTracker)
      modifies pending
      ensures fresh(taken) && taken.State() == old(pending.State())
      ensures pending.State() == EMPTY
    {
      taken := new UpdateTracker();
      taken.sources, taken.modifications := pending.sources, pending.modifications;
      taken.regions, taken.document := pending.regions, pending.document;
      pending.sources, pending.modifications, pending.regions, pending.document := [], [], [], false;
    }
  }
}
