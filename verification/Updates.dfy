// Coalescing of persistent-change marks into one pending entry per object
// (ara2-bridge-plugin/src/updates.rs).  Times are reals: rounding is not part of this model.
module Updates {
  import opened Prelude
  import opened Registries

  datatype TimeRange = TimeRange(start: real, duration: real) {
    function End(): real { start + duration }
  }

  // What `ContentTimeRange::new` admits.
  type Span = r: TimeRange | r.duration >= 0.0 witness TimeRange(0.0, 0.0)

  // The scopes that a change is known to leave alone, one number per flag bit.
  type Scopes = set<nat>

  datatype Change = Change(range: Option<Span>, flags: Scopes)

  datatype Origin = Application | Host | Restore | Recovery {
    predicate ShouldNotify() { Application? || Recovery? }
  }

  datatype Category = Source | Modification | Region

  datatype Mark =
    | MarkObject(category: Category, subject: RawHandle, change: Change, origin: Origin)
    | MarkDocument(origin: Origin)

  datatype Entry = Entry(subject: RawHandle, change: Change)

  datatype Notification =
    | SourceChanged(source: RawHandle, change: Change)
    | ModificationChanged(modification: RawHandle, change: Change)
    | RegionChanged(region: RawHandle, change: Change)
    | DocumentChanged

  // ---- Merging one change into another

  function Min(a: real, b: real): real { if a <= b then a else b }
  function Max(a: real, b: real): real { if a >= b then a else b }

  function Hull(a: Span, b: Span): Span {
    var start := Min(a.start, b.start);
    TimeRange(start, Max(a.End(), b.End()) - start)
  }

  function Combine(existing: Change, incoming: Change): Change {
    Change(if existing.range.Some? && incoming.range.Some?
           then Some(Hull(existing.range.value, incoming.range.value)) else None,
           existing.flags * incoming.flags)
  }

  // The list after a change to `subject`: merged into its entry, or appended.
  function MergeInto(pending: seq<Entry>, subject: RawHandle, change: Change): seq<Entry> {
    if pending == [] then [Entry(subject, change)]
    else if pending[0].subject == subject then
      [Entry(subject, Combine(pending[0].change, change))] + pending[1..]
    else [pending[0]] + MergeInto(pending[1..], subject, change)
  }

  // The source's merge: find the entry and rewrite it in place, or push a new one.
  method Merge(pending: seq<Entry>, subject: RawHandle, change: Change) returns (merged: seq<Entry>)
    ensures merged == MergeInto(pending, subject, change)
  {
    var i := 0;
    while i < |pending| && pending[i].subject != subject
      invariant 0 <= i <= |pending|
      invariant MergeInto(pending, subject, change) == pending[..i] + MergeInto(pending[i..], subject, change)
    {
      i := i + 1;
    }
    if i < |pending| {
      var existing := pending[i].change;
      var range: Option<Span> := None;
      if existing.range.Some? && change.range.Some? {
        var a, b := existing.range.value, change.range.value;
        var start := Min(a.start, b.start);
        var end := Max(a.End(), b.End());
        assert end - start >= 0.0;     // so building the new range cannot fail
        range := Some(TimeRange(start, end - start));
      }
      merged := pending[i := Entry(subject, Change(range, existing.flags * change.flags))];
    } else {
      merged := pending + [Entry(subject, change)];
    }
  }

  // ---- The tracker

  datatype Tracker = Tracker(
    sources: seq<Entry>, modifications: seq<Entry>, regions: seq<Entry>, document: bool)
  {
    function Of(c: Category): seq<Entry> {
      match c
      case Source => sources
      case Modification => modifications
      case Region => regions
    }
  }

  const EMPTY := Tracker([], [], [], false)

  function Marked(t: Tracker, m: Mark): Tracker {
    if !m.origin.ShouldNotify() then t
    else match m
      case MarkDocument(_) => t.(document := true)
      case MarkObject(Source, subject, change, _) =>
        t.(sources := MergeInto(t.sources, subject, change))
      case MarkObject(Modification, subject, change, _) =>
        t.(modifications := MergeInto(t.modifications, subject, change))
      case MarkObject(Region, subject, change, _) =>
        t.(regions := MergeInto(t.regions, subject, change))
  }

  // Of the origins of a change only the application and recovery count: what the host did itself, or a
  // restored archive brought, is not told to it.  A mark that counts is merged into its object's entry.
  lemma OriginsThatCount(t: Tracker, m: Mark)
    ensures m.origin.Host? || m.origin.Restore? ==> Marked(t, m) == t
    ensures (m.origin.Application? || m.origin.Recovery?) && m.MarkDocument? ==>
              Marked(t, m) == t.(document := true)
    ensures (m.origin.Application? || m.origin.Recovery?) && m.MarkObject? ==>
              && Marked(t, m).Of(m.category) == MergeInto(t.Of(m.category), m.subject, m.change)
              && (forall other :: other != m.category ==> Marked(t, m).Of(other) == t.Of(other))
              && Marked(t, m).document == t.document
  {
  }

  function MarkedAll(t: Tracker, ms: seq<Mark>): Tracker {
    if ms == [] then t else Marked(MarkedAll(t, ms[..|ms| - 1]), ms[|ms| - 1])
  }

  function Notify(c: Category, e: Entry): Notification {
    match c
    case Source => SourceChanged(e.subject, e.change)
    case Modification => ModificationChanged(e.subject, e.change)
    case Region => RegionChanged(e.subject, e.change)
  }

  function NotifyAll(c: Category, es: seq<Entry>): seq<Notification> {
    seq(|es|, i requires 0 <= i < |es| => Notify(c, es[i]))
  }

  // What a flush delivers, in category order.
  function Delivery(t: Tracker): seq<Notification> {
    NotifyAll(Source, t.sources) + NotifyAll(Modification, t.modifications)
    + NotifyAll(Region, t.regions) + if t.document then [DocumentChanged] else []
  }

  // ---- What coalescing means

  // `c` is the coalescing of the changes `parts`: the hull of their ranges, or the whole object if
  // any of them is unbounded, and the scopes that every one of them leaves alone.
  ghost predicate Coalesces(c: Change, parts: set<Change>) {
    && (c.range.None? <==> exists p :: p in parts && p.range.None?)
    && (c.range.Some? ==>
          && (forall p :: p in parts ==>
                c.range.value.start <= p.range.value.start && p.range.value.End() <= c.range.value.End())
          && (exists p :: p in parts && p.range.value.start == c.range.value.start)
          && (exists p :: p in parts && p.range.value.End() == c.range.value.End()))
    && (forall f :: f in c.flags <==> forall p :: p in parts ==> f in p.flags)
  }

  lemma CombineCoalesces(c: Change, parts: set<Change>, incoming: Change)
    requires parts != {} && Coalesces(c, parts)
    ensures Coalesces(Combine(c, incoming), parts + {incoming})
  {
    var all := parts + {incoming};
    var d := Combine(c, incoming);
    if d.range.Some? {
      var low :| low in parts && low.range.value.start == c.range.value.start;
      var high :| high in parts && high.range.value.End() == c.range.value.End();
      assert low in all && high in all && incoming in all;
    } else if c.range.None? {
      var p :| p in parts && p.range.None?;
      assert p in all;
    } else {
      assert incoming in all;
    }
  }

  lemma SingleCoalesces(c: Change)
    ensures Coalesces(c, {c})
  {
    assert c in {c};
  }

  // The meaning fixes the entry, so neither the order of the marks nor repetition matters.
  lemma CoalescedIsUnique(c: Change, d: Change, parts: set<Change>)
    requires parts != {} && Coalesces(c, parts) && Coalesces(d, parts)
    ensures c == d
  {
    assert c.flags == d.flags;
    if c.range.Some? {
      assert c.range.value.start == d.range.value.start;
      assert c.range.value.End() == d.range.value.End();
    }
  }

  // ---- Lists as maps

  ghost predicate Distinct(es: seq<Entry>) {
    forall i, j :: 0 <= i < j < |es| ==> es[i].subject != es[j].subject
  }

  ghost predicate Has(es: seq<Entry>, subject: RawHandle, change: Change) {
    Entry(subject, change) in es
  }

  ghost predicate Mentions(es: seq<Entry>, subject: RawHandle) {
    exists i :: 0 <= i < |es| && es[i].subject == subject
  }

  // Merging changes the entry of one object and keeps one entry per object.
  lemma {:induction false} MergeIntoFacts(es: seq<Entry>, subject: RawHandle, change: Change)
    requires Distinct(es)
    ensures Distinct(MergeInto(es, subject, change))
    ensures forall o :: Mentions(MergeInto(es, subject, change), o) <==> Mentions(es, o) || o == subject
    ensures forall o, c :: o != subject ==> (Has(MergeInto(es, subject, change), o, c) <==> Has(es, o, c))
    ensures forall c :: Has(es, subject, c) ==> Has(MergeInto(es, subject, change), subject, Combine(c, change))
    ensures !Mentions(es, subject) ==> Has(MergeInto(es, subject, change), subject, change)
  {
    var merged := MergeInto(es, subject, change);
    if es == [] {
      assert merged[0].subject == subject;
    } else if es[0].subject == subject {
      forall i | 0 < i < |merged| ensures merged[i] == es[i] { }
      assert merged[0].subject == subject;
    } else {
      MergeIntoFacts(es[1..], subject, change);
      var rest := MergeInto(es[1..], subject, change);
      assert merged == [es[0]] + rest && es == [es[0]] + es[1..];
      assert !Mentions(es[1..], es[0].subject);
      assert !Mentions(rest, es[0].subject);
      forall o, c ensures Has(merged, o, c) <==> Entry(o, c) == es[0] || Has(rest, o, c) { }
      forall o, c ensures Has(es, o, c) <==> Entry(o, c) == es[0] || Has(es[1..], o, c) { }
      forall o ensures Mentions(merged, o) <==> o == es[0].subject || Mentions(rest, o) {
        MentionsCons(es[0], rest, o);
      }
      forall o ensures Mentions(es, o) <==> o == es[0].subject || Mentions(es[1..], o) {
        MentionsCons(es[0], es[1..], o);
      }
    }
  }

  lemma MentionsCons(e: Entry, es: seq<Entry>, o: RawHandle)
    ensures Mentions([e] + es, o) <==> e.subject == o || Mentions(es, o)
  {
    var all := [e] + es;
    if e.subject == o {
      assert all[0].subject == o;
    }
    if i :| 0 <= i < |es| && es[i].subject == o {
      assert all[i + 1].subject == o;
    }
    if i :| 0 <= i < |all| && all[i].subject == o && e.subject != o {
      assert es[i - 1].subject == o;
    }
  }

  // ---- What a tracker stands for

  ghost predicate Accepts(m: Mark, category: Category, subject: RawHandle) {
    m.MarkObject? && m.origin.ShouldNotify() && m.category == category && m.subject == subject
  }

  ghost predicate AcceptsDocument(m: Mark) {
    m.MarkDocument? && m.origin.ShouldNotify()
  }

  ghost predicate DocumentMarked(ms: seq<Mark>) {
    exists m :: m in ms && AcceptsDocument(m)
  }

  lemma DocumentMarkedAppend(ms: seq<Mark>, m: Mark)
    ensures DocumentMarked(ms + [m]) <==> DocumentMarked(ms) || AcceptsDocument(m)
  {
    if x :| x in ms && AcceptsDocument(x) {
      assert x in ms + [m];
    }
    if AcceptsDocument(m) {
      assert m in ms + [m];
    }
  }

  // The accepted changes to one object.
  ghost function Contributions(ms: seq<Mark>, category: Category, subject: RawHandle): set<Change> {
    set m | m in ms && Accepts(m, category, subject) :: m.change
  }

  // One entry for each object with an accepted mark, holding the coalescing of its accepted marks.
  ghost predicate ListRepresents(es: seq<Entry>, ms: seq<Mark>, category: Category) {
    && Distinct(es)
    && (forall o :: Mentions(es, o) <==> Contributions(ms, category, o) != {})
    && (forall o, c :: Has(es, o, c) ==> Coalesces(c, Contributions(ms, category, o)))
  }

  ghost predicate Represents(t: Tracker, ms: seq<Mark>) {
    && ListRepresents(t.sources, ms, Source)
    && ListRepresents(t.modifications, ms, Modification)
    && ListRepresents(t.regions, ms, Region)
    && (t.document <==> DocumentMarked(ms))
  }

  lemma ContributionsAppend(ms: seq<Mark>, m: Mark, category: Category, subject: RawHandle)
    ensures Contributions(ms + [m], category, subject) ==
            Contributions(ms, category, subject)
            + if Accepts(m, category, subject) then {m.change} else {}
  {
    var before, after := Contributions(ms, category, subject), Contributions(ms + [m], category, subject);
    forall c | c in before ensures c in after {
      var x :| x in ms && Accepts(x, category, subject) && x.change == c;
      assert x in ms + [m];
    }
    if Accepts(m, category, subject) {
      assert m in ms + [m];
    }
  }

  lemma HasImpliesMentions(es: seq<Entry>, o: RawHandle)
    ensures Mentions(es, o) <==> exists c :: Has(es, o, c)
  {
    if i :| 0 <= i < |es| && es[i].subject == o {
      assert Has(es, o, es[i].change);
    }
  }

  lemma OneChangeEach(es: seq<Entry>, o: RawHandle, c: Change, d: Change)
    requires Distinct(es) && Has(es, o, c) && Has(es, o, d)
    ensures c == d
  {
  }

  // The list that a mark of its category is merged into.
  lemma AcceptedMark(es: seq<Entry>, ms: seq<Mark>, m: Mark)
    requires m.MarkObject? && m.origin.ShouldNotify() && ListRepresents(es, ms, m.category)
    ensures ListRepresents(MergeInto(es, m.subject, m.change), ms + [m], m.category)
  {
    var merged := MergeInto(es, m.subject, m.change);
    MergeIntoFacts(es, m.subject, m.change);
    forall o ensures Mentions(merged, o) <==> Contributions(ms + [m], m.category, o) != {} {
      ContributionsAppend(ms, m, m.category, o);
    }
    forall o, c | Has(merged, o, c) ensures Coalesces(c, Contributions(ms + [m], m.category, o)) {
      ContributionsAppend(ms, m, m.category, o);
      if o == m.subject {
        AcceptedMarkCoalesces(es, ms, m, c);
      } else {
        assert Contributions(ms + [m], m.category, o) == Contributions(ms, m.category, o);
      }
    }
  }

  lemma AcceptedMarkCoalesces(es: seq<Entry>, ms: seq<Mark>, m: Mark, c: Change)
    requires m.MarkObject? && m.origin.ShouldNotify() && ListRepresents(es, ms, m.category)
    requires Has(MergeInto(es, m.subject, m.change), m.subject, c)
    ensures Coalesces(c, Contributions(ms, m.category, m.subject) + {m.change})
  {
    var merged := MergeInto(es, m.subject, m.change);
    MergeIntoFacts(es, m.subject, m.change);
    HasImpliesMentions(es, m.subject);
    if Mentions(es, m.subject) {
      var former :| Has(es, m.subject, former);
      OneChangeEach(merged, m.subject, c, Combine(former, m.change));
      CombineCoalesces(former, Contributions(ms, m.category, m.subject), m.change);
    } else {
      OneChangeEach(merged, m.subject, c, m.change);
      SingleCoalesces(m.change);
      assert Contributions(ms, m.category, m.subject) + {m.change} == {m.change};
    }
  }

  // A mark that is not accepted for a category leaves its list right.
  lemma UnrelatedMark(es: seq<Entry>, ms: seq<Mark>, m: Mark, category: Category)
    requires ListRepresents(es, ms, category)
    requires !m.origin.ShouldNotify() || m.MarkDocument? || m.category != category
    ensures ListRepresents(es, ms + [m], category)
  {
    forall o ensures Contributions(ms + [m], category, o) == Contributions(ms, category, o) {
      ContributionsAppend(ms, m, category, o);
    }
  }

  lemma MarkedRepresents(t: Tracker, ms: seq<Mark>, m: Mark)
    requires Represents(t, ms)
    ensures Represents(Marked(t, m), ms + [m])
  {
    var related := m.MarkObject? && m.origin.ShouldNotify();
    if related { AcceptedMark(t.Of(m.category), ms, m); }
    if !related || m.category != Source { UnrelatedMark(t.sources, ms, m, Source); }
    if !related || m.category != Modification { UnrelatedMark(t.modifications, ms, m, Modification); }
    if !related || m.category != Region { UnrelatedMark(t.regions, ms, m, Region); }
    DocumentMarkedAppend(ms, m);
  }

  // After any sequence of marks.
  lemma {:induction false} MarkedAllRepresents(ms: seq<Mark>)
    ensures Represents(MarkedAll(EMPTY, ms), ms)
  {
    if ms != [] {
      var init, last := ms[..|ms| - 1], ms[|ms| - 1];
      MarkedAllRepresents(init);
      MarkedRepresents(MarkedAll(EMPTY, init), init, last);
      assert ms == init + [last];
    }
  }

  // The order in which the same marks arrive does not matter: the same objects are pending, with
  // the same entries.
  lemma OrderDoesNotMatter(ms: seq<Mark>, shuffled: seq<Mark>, category: Category, o: RawHandle, c: Change)
    requires multiset(ms) == multiset(shuffled)
    ensures Has(MarkedAll(EMPTY, ms).Of(category), o, c) <==>
            Has(MarkedAll(EMPTY, shuffled).Of(category), o, c)
  {
    assert forall m :: m in ms <==> m in multiset(ms);
    assert forall m :: m in shuffled <==> m in multiset(shuffled);
    assert Contributions(ms, category, o) == Contributions(shuffled, category, o);
    SameEntry(ms, shuffled, category, o, c);
    SameEntry(shuffled, ms, category, o, c);
  }

  lemma SameEntry(ms: seq<Mark>, others: seq<Mark>, category: Category, o: RawHandle, c: Change)
    requires Contributions(ms, category, o) == Contributions(others, category, o)
    ensures Has(MarkedAll(EMPTY, ms).Of(category), o, c) ==>
            Has(MarkedAll(EMPTY, others).Of(category), o, c)
  {
    MarkedAllRepresents(ms);
    MarkedAllRepresents(others);
    var es, fs := MarkedAll(EMPTY, ms).Of(category), MarkedAll(EMPTY, others).Of(category);
    assert ListRepresents(es, ms, category) && ListRepresents(fs, others, category);
    if Has(es, o, c) {
      HasImpliesMentions(es, o);
      HasImpliesMentions(fs, o);
      var d :| Has(fs, o, d);
      CoalescedIsUnique(c, d, Contributions(ms, category, o));
    }
  }
}
