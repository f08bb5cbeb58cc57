// What becomes of the changes that the application reports, over whole runs of the controller: every
// mark waits for the next notification that the host may be given, and is covered there by exactly one
// notice if its object is still live, and by none if it is not.
module ChangeDelivery {
  import opened Prelude
  import opened Registries
  import opened DocumentGraph
  import opened Analysis
  import opened Controllers
  import opened ControllerInvariant
  import opened ControllerTheorems
  import opened ContextCallbacks
  import opened CallbackEffects
  import opened AnalysisProtocol
  import opened Updates
  import Flow = UpdateFlow

  // ---- One callback

  predicate Flushes(c: Controller, cb: Callback) {
    cb.NotifyUpdates? && Tellable(c)
  }

  // Only the application's reports and a flush touch the tracker, and only a flush tells of changes.
  lemma MarksAfter(c: Controller, cb: Callback)
    requires Tidy(c)
    ensures
      var t := Act(c, cb);
      if cb.EmitChange? then t.now.tracker == Marked(c.tracker, cb.mark) && t.notices == []
      else if Flushes(c, cb) then t.now.tracker == EMPTY && t.notices == NoticesOf(c, Delivery(c.tracker))
      else t.now.tracker == c.tracker && t.notices == []
  {
    hide Tidy, Act, Marked, Delivery, NoticesOf;
    WhatStays(c, cb);
  }

  // ---- Runs

  // A flush takes the marks since the one before; `teller` is the controller that makes it.
  datatype Telling = Telling(marks: seq<Mark>, teller: Controller, notices: seq<Notice>)
  datatype Account = Account(open: seq<Mark>, told: seq<Telling>)

  ghost function AccountOf(c: Controller, cbs: seq<Callback>): Account {
    if cbs == [] then Account([], []) else
    var before, a := After(c, cbs[..|cbs| - 1]).now, AccountOf(c, cbs[..|cbs| - 1]);
    var cb := cbs[|cbs| - 1];
    if cb.EmitChange? then a.(open := a.open + [cb.mark])
    else if Flushes(before, cb) then Account([], a.told + [Telling(a.open, before, Act(before, cb).notices)])
    else a
  }

  function Emitted(cbs: seq<Callback>): seq<Mark> {
    if cbs == [] then [] else
    var cb := cbs[|cbs| - 1];
    Emitted(cbs[..|cbs| - 1]) + if cb.EmitChange? then [cb.mark] else []
  }

  function MarksTold(told: seq<Telling>): seq<Mark> {
    if told == [] then [] else MarksTold(told[..|told| - 1]) + told[|told| - 1].marks
  }

  function NoticesTold(told: seq<Telling>): seq<Notice> {
    if told == [] then [] else NoticesTold(told[..|told| - 1]) + told[|told| - 1].notices
  }

  // A flush is made by a tidy controller that may tell the host, of exactly its marks.
  ghost predicate Faithful(b: Telling) {
    && Tidy(b.teller) && Tellable(b.teller)
    && b.notices == NoticesOf(b.teller, Delivery(MarkedAll(EMPTY, b.marks)))
  }

  lemma ToldMore(told: seq<Telling>, b: Telling)
    ensures MarksTold(told + [b]) == MarksTold(told) + b.marks
    ensures NoticesTold(told + [b]) == NoticesTold(told) + b.notices
  {
    assert (told + [b])[..|told + [b]| - 1] == told;
  }

  // In every run each mark that the application makes is taken by exactly one flush, in order, or is
  // still open; the tracker holds just the open ones; and what the host is told are the flushes.
  lemma {:induction false} RunTells(c: Controller, cbs: seq<Callback>)
    requires Tidy(c) && c.tracker == EMPTY
    ensures
      var a, w := AccountOf(c, cbs), After(c, cbs);
      && MarksTold(a.told) + a.open == Emitted(cbs)
      && w.now.tracker == MarkedAll(EMPTY, a.open)
      && w.notices == NoticesTold(a.told)
      && forall b :: b in a.told ==> Faithful(b)
  {
    hide Act, Tidy, Delivery, Flushes, NoticesOf, Marked;
    if cbs != [] {
      var init, cb := cbs[..|cbs| - 1], cbs[|cbs| - 1];
      var before, a := After(c, init).now, AccountOf(c, init);
      RunTells(c, init);
      RunKeepsTidy(c, init);
      MarksAfter(before, cb);
      if cb.EmitChange? {
        assert (a.open + [cb.mark])[..|a.open + [cb.mark]| - 1] == a.open;
        assert MarksTold(a.told) + (a.open + [cb.mark]) == MarksTold(a.told) + a.open + [cb.mark];
      } else if Flushes(before, cb) {
        ToldMore(a.told, Telling(a.open, before, Act(before, cb).notices));
        FlushesWhenTellable(before, cb);
      }
    }
  }

  lemma FlushesWhenTellable(c: Controller, cb: Callback)
    ensures Flushes(c, cb) ==> Tellable(c)
  {
  }

  // ---- What one flush tells

  ghost predicate About(x: Notice, category: Category, subject: RawHandle) {
    x.ObjectChanged? && Flow.Concerns(x.notification, category, subject)
  }

  ghost predicate LiveObject(c: Controller, category: Category, subject: RawHandle) {
    c.graph.Some? &&
    match category
    case Source => subject.kind == AudioSourceKind && subject.handle in c.graph.value.sources.live
    case Modification => subject.kind == AudioModificationKind && subject.handle in c.graph.value.modifications.live
    case Region => subject.kind == PlaybackRegionKind && subject.handle in c.graph.value.regions.live
  }

  lemma LiveHasHost(c: Controller, n: Notification, category: Category, subject: RawHandle)
    requires Tidy(c) && c.graph.Some? && Flow.Concerns(n, category, subject)
    ensures HostFor(c, n).Some? <==> LiveObject(c, category, subject)
  {
    hide Employed, Pending;
    TidyTables(c);
  }

  // Filtering keeps the one notification about an object, or drops it.
  lemma {:induction false} NoneAbout(c: Controller, ns: seq<Notification>, category: Category, subject: RawHandle)
    requires forall i :: 0 <= i < |ns| ==> !(Flow.Concerns(ns[i], category, subject) && HostFor(c, ns[i]).Some?)
    ensures forall j :: 0 <= j < |NoticesOf(c, ns)| ==> !About(NoticesOf(c, ns)[j], category, subject)
  {
    if ns != [] {
      NoneAbout(c, ns[..|ns| - 1], category, subject);
    }
  }

  lemma {:induction false} OneAbout(c: Controller, ns: seq<Notification>, i: nat, category: Category,
                                    subject: RawHandle) returns (k: nat)
    requires i < |ns| && HostFor(c, ns[i]).Some?
    requires forall j :: 0 <= j < |ns| ==> (Flow.Concerns(ns[j], category, subject) <==> j == i)
    ensures k < |NoticesOf(c, ns)| && NoticesOf(c, ns)[k] == ObjectChanged(HostFor(c, ns[i]).value, ns[i])
    ensures forall j :: 0 <= j < |NoticesOf(c, ns)| && About(NoticesOf(c, ns)[j], category, subject) ==> j == k
  {
    var init := ns[..|ns| - 1];
    if i == |ns| - 1 {
      NoneAbout(c, init, category, subject);
      k := |NoticesOf(c, init)|;
    } else {
      k := OneAbout(c, init, i, category, subject);
    }
  }

  // A notice of the change, to the host's own reference, and no other notice about the object.
  ghost predicate ToldOnce(b: Telling, m: Mark, k: nat)
    requires m.MarkObject?
  {
    && k < |b.notices| && About(b.notices[k], m.category, m.subject)
    && HostFor(b.teller, b.notices[k].notification) == Some(b.notices[k].host)
    && !b.notices[k].notification.DocumentChanged?
    && Flow.Covers(Flow.ChangeOf(b.notices[k].notification), m.change)
    && forall j :: 0 <= j < |b.notices| && About(b.notices[j], m.category, m.subject) ==> j == k
  }

  // Of the accepted marks that a flush takes, each one of an object that is then live is covered by
  // exactly one of its notices; about an object that is no longer live the host is told nothing.
  lemma EachMarkIsToldOnce(c: Controller, cbs: seq<Callback>, b: Telling, m: Mark)
    requires Tidy(c) && c.tracker == EMPTY && b in AccountOf(c, cbs).told
    requires m in b.marks && m.MarkObject? && m.origin.ShouldNotify()
    ensures if LiveObject(b.teller, m.category, m.subject) then exists k: nat :: ToldOnce(b, m, k)
            else forall x :: x in b.notices ==> !About(x, m.category, m.subject)
  {
    hide Delivery, MarkedAll, Tidy, Flow.Covers, AccountOf, NoticesOf, HostFor;
    RunTells(c, cbs);
    var ns := Delivery(MarkedAll(EMPTY, b.marks));
    var i := Flow.DeliveredOnce(b.marks, m);
    LiveHasHost(b.teller, ns[i], m.category, m.subject);
    if LiveObject(b.teller, m.category, m.subject) {
      var k := OneAbout(b.teller, ns, i, m.category, m.subject);
      assert ToldOnce(b, m, k);
    } else {
      NoneAbout(b.teller, ns, m.category, m.subject);
    }
  }

  function SubjectOf(n: Notification): (Category, RawHandle)
    requires !n.DocumentChanged?
  {
    match n
    case SourceChanged(s, _) => (Source, s)
    case ModificationChanged(m, _) => (Modification, m)
    case RegionChanged(r, _) => (Region, r)
  }

  // Conversely every notice about an object goes to a live one, under the host's reference, and is the
  // coalescing of the accepted marks of that object that the flush took.
  lemma NothingElseIsTold(c: Controller, cbs: seq<Callback>, b: Telling, h: HostRef, n: Notification)
    requires Tidy(c) && c.tracker == EMPTY && b in AccountOf(c, cbs).told && ObjectChanged(h, n) in b.notices
    ensures !n.DocumentChanged? && HostFor(b.teller, n) == Some(h)
    ensures
      var (category, subject) := SubjectOf(n);
      && LiveObject(b.teller, category, subject)
      && Contributions(b.marks, category, subject) != {}
      && Coalesces(Flow.ChangeOf(n), Contributions(b.marks, category, subject))
  {
    hide Delivery, MarkedAll, Tidy, Coalesces, AccountOf, NoticesOf;
    RunTells(c, cbs);
    var ns := Delivery(MarkedAll(EMPTY, b.marks));
    NoticesAreFiltered(b.teller, ns, ObjectChanged(h, n));
    var (category, subject) := SubjectOf(n);
    LiveHasHost(b.teller, n, category, subject);
    var i :| 0 <= i < |ns| && ns[i] == n;
    Flow.DeliversOnlyMarks(b.marks, i, category, subject);
  }

  // The document's own change is told exactly if it was marked.
  lemma DocumentIsTold(c: Controller, cbs: seq<Callback>, b: Telling)
    requires Tidy(c) && c.tracker == EMPTY && b in AccountOf(c, cbs).told
    ensures DocumentDataChanged in b.notices <==> DocumentMarked(b.marks)
  {
    hide MarkedAll, Delivery, Tidy, AccountOf, NoticesOf, DocumentMarked, ListRepresents;
    RunTells(c, cbs);
    NoticesAreFiltered(b.teller, Delivery(MarkedAll(EMPTY, b.marks)), DocumentDataChanged);
    MarkedAllRepresents(b.marks);
    DocumentInDelivery(MarkedAll(EMPTY, b.marks));
  }

  lemma DocumentInDelivery(t: Tracker)
    ensures DocumentChanged in Delivery(t) <==> t.document
  {
    var ns := Delivery(t);
    if t.document {
      assert ns[|ns| - 1] == DocumentChanged;
    }
    forall i | 0 <= i < |ns| && ns[i] == DocumentChanged ensures t.document {
      Flow.DocumentComesLast(t, i);
    }
  }
}
