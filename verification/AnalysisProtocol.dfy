// The notification protocol of analysis jobs, over every run of the controller: what the host hears
// about a source is always a legal history, and it always matches the job that is there.
module AnalysisProtocol {
  import opened Prelude
  import opened Registries
  import opened DocumentGraph
  import opened GraphInvariant
  import opened Analysis
  import opened Controllers
  import opened ControllerInvariant
  import Updates

  // ---- The protocol as an automaton, for one source

  datatype Phase = Idle | Running(progress: real) | Broken

  function Move(p: Phase, e: Signal): Phase {
    match e
    case Started(_, _) => if p.Idle? then Running(0.0) else Broken
    case Advanced(_, _, v) => if p.Running? && p.progress <= v < 1.0 then Running(v) else Broken
    case Finished(_, _) => if p.Running? then Idle else Broken
    case Cancelled(_) => if p.Broken? then Broken else Idle
  }

  function Watch(p: Phase, trace: seq<Signal>, s: RawHandle): Phase {
    if trace == [] then p else
    var before, e := Watch(p, trace[..|trace| - 1], s), trace[|trace| - 1];
    if e.source == s then Move(before, e) else before
  }

  lemma {:induction false} WatchAppend(p: Phase, a: seq<Signal>, b: seq<Signal>, s: RawHandle)
    ensures Watch(p, a + b, s) == Watch(Watch(p, a, s), b, s)
  {
    if b == [] {
      assert a + b == a;
    } else {
      WatchAppend(p, a, b[..|b| - 1], s);
      assert (a + b)[..|a + b| - 1] == a + b[..|b| - 1];
    }
  }

  lemma WatchOne(p: Phase, e: Signal, s: RawHandle)
    ensures Watch(p, [e], s) == if e.source == s then Move(p, e) else p
  {
    assert [e][..0] == [];
  }

  // ---- Where the automaton stands: a job is running for the host once its start was announced

  function JobPhase(jobs: Jobs, s: RawHandle): Phase {
    if s in jobs then Running(jobs[s].progress) else Idle
  }

  function Expected(c: Controller, s: RawHandle): Phase {
    if s in c.pendingStarts then Idle else JobPhase(c.jobs, s)
  }

  ghost predicate Follows(c: Controller, t: Turn) {
    match t
    case Turn(now, signals, _, _) => forall s :: Watch(Expected(c, s), signals, s) == Expected(now, s)
  }

  lemma {:induction false} StartsFollow(starts: seq<RawHandle>, hosts: map<RawHandle, HostRef>, p: Phase, s: RawHandle)
    requires forall i, j :: 0 <= i < j < |starts| ==> starts[i] != starts[j]
    requires forall i :: 0 <= i < |starts| ==> starts[i] in hosts
    requires s in starts ==> p == Idle
    ensures Watch(p, StartSignals(starts, hosts), s) == if s in starts then Running(0.0) else p
  {
    if starts != [] {
      var init, last := starts[..|starts| - 1], starts[|starts| - 1];
      assert starts == init + [last] && last !in init;
      StartsFollow(init, hosts, p, s);
      WatchAppend(p, StartSignals(init, hosts), [Started(last, hosts[last])], s);
      WatchOne(Watch(p, StartSignals(init, hosts), s), Started(last, hosts[last]), s);
    }
  }

  lemma {:induction false} ProgressFollows(jobs: Jobs, queue: seq<Progress>, hosts: map<RawHandle, HostRef>,
                                           s: RawHandle)
    requires forall r :: r in jobs ==> r in hosts
    ensures Watch(JobPhase(jobs, s), ProgressSignals(jobs, queue, hosts), s) == JobPhase(JobsAfter(jobs, queue), s)
    ensures forall r :: r in JobsAfter(jobs, queue) ==> r in hosts
  {
    if queue != [] {
      var init, e := queue[..|queue| - 1], queue[|queue| - 1];
      ProgressFollows(jobs, init, hosts, s);
      if Advance(JobsAfter(jobs, init), e).Ok? {
        var told := ProgressSignal(e, hosts[e.source]);
        WatchAppend(JobPhase(jobs, s), ProgressSignals(jobs, init, hosts), [told], s);
        WatchOne(JobPhase(JobsAfter(jobs, init), s), told, s);
      } else {
        assert ProgressSignals(jobs, queue, hosts) == ProgressSignals(jobs, init, hosts);
      }
    }
  }

  // Jobs have a host reference, so nothing about them is ever withheld from the host.
  lemma JobsAreHosted(c: Controller)
    requires Tidy(c) && c.graph.Some?
    ensures forall r :: r in c.jobs ==> r in c.sourceHosts
  {
    var n := CensusOf(c.graph.value);
    assert n.active <= n.sources;
    assert Keyed(c.sourceHosts, AudioSourceKind, n.sources) && Employed(c.jobs, n.active);
  }

  lemma NotifyFollows(c: Controller)
    requires Tidy(c)
    ensures Follows(c, NotifyModelUpdates(c))
  {
    hide Inv, CensusOf, Keyed, Employed, StartSignals, ProgressSignals, JobsAfter, Watch;
    var t := NotifyModelUpdates(c);
    if MayNotify(c) {
      JobsAreHosted(c);
      assert Pending(c.pendingStarts, c.jobs);
      forall s ensures Watch(Expected(c, s), t.signals, s) == Expected(t.now, s) {
        var starts := StartSignals(c.pendingStarts, c.sourceHosts);
        StartsFollow(c.pendingStarts, c.sourceHosts, Expected(c, s), s);
        WatchAppend(Expected(c, s), starts, ProgressSignals(c.jobs, c.queue, c.sourceHosts), s);
        ProgressFollows(c.jobs, c.queue, c.sourceHosts, s);
      }
    } else {
      QuietFollows(c, t);
    }
  }

  // Turns that leave the jobs alone, and turns that cancel one.
  lemma QuietFollows(c: Controller, t: Turn)
    requires LeavesJobs(c, t)
    ensures Follows(c, t)
  {
  }

  lemma CancelTurnFollows(c: Controller, t: Turn, source: RawHandle)
    requires Tidy(c) && CancelsJob(c, t, source)
    ensures Follows(c, t)
  {
    hide Tidy, CancelSignals, Watch, Retain, Without;
    forall s ensures Watch(Expected(c, s), t.signals, s) == Expected(t.now, s) {
      CancelFollows(c, source, s);
    }
  }

  lemma CancelFollows(c: Controller, source: RawHandle, s: RawHandle)
    requires Tidy(c)
    ensures Watch(Expected(c, s), CancelSignals(c, source), s) == Expected(Cancel(c, source), s)
  {
    hide Inv, CensusOf, Keyed, Employed, Without, Retain;
    CancelPending(c.pendingStarts, c.jobs, source);
    assert s !in c.jobs ==> s !in c.pendingStarts;
  }

  lemma RequestFollows(c: Controller, source: Handle, types: seq<int>, accepted: bool)
    requires Tidy(c)
    ensures Follows(c, RequestAnalysisTurn(c, source, types, accepted))
  {
    hide Inv, CensusOf, Keyed, Employed, Without, Retain;
    var t := RequestAnalysisTurn(c, source, types, accepted);
    var started := StartJob(c.jobs, Src(source), types);
    if started.Ok? {
      assert Src(source) !in c.pendingStarts;
      assert started.value - {Src(source)} == c.jobs;
      forall s ensures Watch(Expected(c, s), t.signals, s) == Expected(t.now, s) {
      }
    }
  }

  lemma DeactivateSourceFollows(c: Controller, source: Handle, deactivated: bool, accepted: bool)
    requires Tidy(c)
    ensures Follows(c, DeactivateSourceTurn(c, source, deactivated, accepted))
  {
    hide Tidy, Step, CancelSignals, Retain, Without, Follows;
    var t := DeactivateSourceTurn(c, source, deactivated, accepted);
    if Editable(c) && Src(source) in c.sourceHosts && deactivated
       && Step(c.graph.value, SwitchSource(source, deactivated, accepted)).outcome.Done?
    {
      CancelTurnFollows(c, t, Src(source));
    } else {
      QuietFollows(c, t);
    }
  }

  lemma EnableSamplesFollows(c: Controller, source: Handle, enable: bool, accepted: bool)
    requires Tidy(c)
    ensures Follows(c, EnableSamplesTurn(c, source, enable, accepted))
  {
    hide Tidy, Step, CancelSignals, Retain, Without, Follows;
    var t := EnableSamplesTurn(c, source, enable, accepted);
    if c.graph.None? || source !in c.graph.value.sources.live || enable {
      QuietFollows(c, t);
    } else {
      CancelTurnFollows(c, t, Src(source));
    }
  }

  lemma DestroySourceFollows(c: Controller, source: Handle)
    requires Tidy(c)
    ensures Follows(c, DestroySourceTurn(c, source))
  {
    hide Tidy, DestroySourceTurn, MayDestroySource, CancelsJob, LeavesJobs, Follows;
    var t := DestroySourceTurn(c, source);
    if MayDestroySource(c, source) {
      CancelTurnFollows(c, t, Src(source));
    } else {
      QuietFollows(c, t);
    }
  }

  // No other callback touches the jobs or their announcements.
  predicate Unconcerned(cb: Callback) {
    !cb.NotifyUpdates? && !cb.DeactivateSource? && !cb.EnableSamples? && !cb.DestroySource?
    && !cb.RequestAnalysis?
  }

  lemma OutsideLeavesJobs(c: Controller, readers: set<Pointer>, queue: seq<Progress>, tracker: Updates.Tracker,
                          g: Option<Graph>)
    ensures LeavesJobs(c, Quiet(c.(readers := readers, queue := queue, tracker := tracker, graph := g), Nothing))
    ensures LeavesJobs(c, Quiet(c, Nothing))
  {
  }

  lemma UnconcernedLeavesJobs(c: Controller, cb: Callback)
    requires Unconcerned(cb)
    ensures LeavesJobs(c, Act(c, cb))
  {
    hide Act, LeavesJobs;
    if OfContextOrSource(cb) {
      ContextsAndSourcesLeaveJobs(c, cb);
    } else if OfModificationOrSequence(cb) {
      ModificationsAndSequencesLeaveJobs(c, cb);
    } else {
      OthersLeaveJobs(c, cb);
    }
  }

  lemma ContextsAndSourcesLeaveJobs(c: Controller, cb: Callback)
    requires Unconcerned(cb) && OfContextOrSource(cb)
    ensures LeavesJobs(c, Act(c, cb))
  {
    hide LeavesJobs, RespectsReaders, Asks, Performs, Edit, CreateContextTurn, DestroyContextTurn, CreateSourceTurn;
    OutsideLeavesJobs(c, c.readers, c.queue, c.tracker, c.graph);
  }

  lemma ModificationsAndSequencesLeaveJobs(c: Controller, cb: Callback)
    requires OfModificationOrSequence(cb)
    ensures LeavesJobs(c, Act(c, cb))
  {
    hide LeavesJobs, RespectsReaders, Asks, Performs, Edit, CreateModificationTurn, DestroyModificationTurn,
      CreateRegionTurn, UpdateRegionTurn, DestroyRegionTurn, CreateSequenceTurn;
  }

  lemma OthersLeaveJobs(c: Controller, cb: Callback)
    requires Unconcerned(cb) && !OfContextOrSource(cb) && !OfModificationOrSequence(cb)
    ensures LeavesJobs(c, Act(c, cb))
  {
    hide LeavesJobs, RespectsReaders, Asks, Performs, KeepsGraph, Edit, Interval, Restoring, BeginRestoreEffect,
      EndRestoreEffect, CreateReaderTurn, Updates.Marked;
    match cb
    case DestroyController => OutsideLeavesJobs(c, {}, c.queue, c.tracker, None);
    case DestroyReader(pointer) => OutsideLeavesJobs(c, c.readers - {pointer}, c.queue, c.tracker, c.graph);
    case EmitProgress(about, p) =>
      OutsideLeavesJobs(c, c.readers, c.queue + [Updated(about, p)], c.tracker, c.graph);
    case EmitCompletion(about) =>
      OutsideLeavesJobs(c, c.readers, c.queue + [Completed(about)], c.tracker, c.graph);
    case EmitChange(mark) =>
      OutsideLeavesJobs(c, c.readers, c.queue, Updates.Marked(c.tracker, mark), c.graph);
    case _ =>
  }

  lemma ActFollows(c: Controller, cb: Callback)
    requires Tidy(c)
    ensures Follows(c, Act(c, cb))
  {
    hide Tidy, LeavesJobs, CancelsJob, RespectsReaders, Asks, Performs, MayDestroySource, Follows, Edit,
      Interval, Step, NotifyModelUpdates, Restoring, CreateContextTurn,
      DestroyContextTurn, CreateSourceTurn, DeactivateSourceTurn, EnableSamplesTurn, DestroySourceTurn,
      RequestAnalysisTurn, CreateModificationTurn, DestroyModificationTurn, CreateRegionTurn,
      UpdateRegionTurn, DestroyRegionTurn, CreateSequenceTurn, CreateReaderTurn;
    match cb
    case NotifyUpdates => NotifyFollows(c);
    case DeactivateSource(source, d, accepted) => DeactivateSourceFollows(c, source, d, accepted);
    case EnableSamples(source, enable, accepted) => EnableSamplesFollows(c, source, enable, accepted);
    case DestroySource(source) => DestroySourceFollows(c, source);
    case RequestAnalysis(source, types, accepted) => RequestFollows(c, source, types, accepted);
    case _ => UnconcernedFollows(c, cb);
  }

  lemma UnconcernedFollows(c: Controller, cb: Callback)
    requires Unconcerned(cb)
    ensures Follows(c, Act(c, cb))
  {
    hide Act, LeavesJobs, Follows;
    UnconcernedLeavesJobs(c, cb);
    QuietFollows(c, Act(c, cb));
  }

  // ---- Every run

  // After any run the host's picture of every source is exactly its job: it believes that analysis
  // is running, at this progress, just when it is and the start has been announced.
  lemma {:induction false} HostViewIsExact(c: Controller, cbs: seq<Callback>, s: RawHandle)
    requires Tidy(c) && c.jobs == map[] && c.pendingStarts == []
    ensures Watch(Idle, After(c, cbs).trace, s) == Expected(After(c, cbs).now, s)
  {
    hide Tidy, Act;
    if cbs != [] {
      var w, cb := After(c, cbs[..|cbs| - 1]), cbs[|cbs| - 1];
      HostViewIsExact(c, cbs[..|cbs| - 1], s);
      RunKeepsTidy(c, cbs[..|cbs| - 1]);
      ActFollows(w.now, cb);
      WatchAppend(Idle, w.trace, Act(w.now, cb).signals, s);
    }
  }

  lemma {:induction false} BrokenForever(p: Phase, trace: seq<Signal>, s: RawHandle)
    requires p == Broken
    ensures Watch(p, trace, s) == Broken
  {
    if trace != [] {
      BrokenForever(p, trace[..|trace| - 1], s);
    }
  }

  lemma ExpectedIsSound(c: Controller, s: RawHandle)
    ensures Expected(c, s) != Broken
  {
  }

  lemma NeverBroken(c: Controller, cbs: seq<Callback>, s: RawHandle, n: nat)
    requires Tidy(c) && c.jobs == map[] && c.pendingStarts == []
    requires n <= |After(c, cbs).trace|
    ensures Watch(Idle, After(c, cbs).trace[..n], s) != Broken
  {
    hide After, Tidy;
    var trace := After(c, cbs).trace;
    HostViewIsExact(c, cbs, s);
    ExpectedIsSound(After(c, cbs).now, s);
    assert trace == trace[..n] + trace[n..];
    WatchAppend(Idle, trace[..n], trace[n..], s);
    if Watch(Idle, trace[..n], s) == Broken {
      BrokenForever(Broken, trace[n..], s);
    }
  }

  // ---- The protocol in words

  // Since `j` nothing but progress was told of `s`, in nondecreasing steps up to `top`.
  ghost predicate RunsSince(trace: seq<Signal>, s: RawHandle, j: nat, n: nat, top: real) {
    && j < n <= |trace| && trace[j].Started? && trace[j].source == s
    && 0.0 <= top < 1.0
    && (forall k :: j < k < n && trace[k].source == s ==>
          trace[k].Advanced? && 0.0 <= trace[k].progress <= top)
    && (forall k, l :: j < k < l < n && trace[k].source == s && trace[l].source == s ==>
          trace[k].Advanced? && trace[l].Advanced? && trace[k].progress <= trace[l].progress)
  }

  lemma {:induction false} RunningHasStart(trace: seq<Signal>, s: RawHandle, n: nat) returns (j: nat)
    requires n <= |trace| && Watch(Idle, trace[..n], s).Running?
    ensures RunsSince(trace, s, j, n, Watch(Idle, trace[..n], s).progress)
    decreases n
  {
    assert trace[..n][..n - 1] == trace[..n - 1];
    if trace[n - 1].source == s && trace[n - 1].Started? {
      j := n - 1;
    } else {
      j := RunningHasStart(trace, s, n - 1);
    }
  }

  // Every progress and completion that is told follows a start, with nothing in between but progress
  // of that source in nondecreasing steps; the progress told now is no smaller, and below one.
  lemma ProgressHasStart(c: Controller, cbs: seq<Callback>, n: nat) returns (j: nat)
    requires Tidy(c) && c.jobs == map[] && c.pendingStarts == []
    requires
      var trace := After(c, cbs).trace;
      n < |trace| && (trace[n].Advanced? || trace[n].Finished?)
    ensures
      var trace := After(c, cbs).trace;
      exists top :: RunsSince(trace, trace[n].source, j, n, top)
                    && (trace[n].Advanced? ==> top <= trace[n].progress < 1.0)
  {
    hide Tidy;
    var trace := After(c, cbs).trace;
    var s := trace[n].source;
    NeverBroken(c, cbs, s, n);
    NeverBroken(c, cbs, s, n + 1);
    assert trace[..n + 1][..n] == trace[..n];
    var p := Watch(Idle, trace[..n], s);
    assert Watch(Idle, trace[..n + 1], s) == Move(p, trace[n]);
    j := RunningHasStart(trace, s, n);
    assert RunsSince(trace, s, j, n, p.progress);
  }

  // Between two starts of a source there is a completion or a cancellation of it.
  lemma StartsAreSeparated(c: Controller, cbs: seq<Callback>, i: nat, n: nat) returns (k: nat)
    requires Tidy(c) && c.jobs == map[] && c.pendingStarts == []
    requires
      var trace := After(c, cbs).trace;
      i < n < |trace| && trace[i].Started? && trace[n].Started? && trace[i].source == trace[n].source
    ensures
      var trace := After(c, cbs).trace;
      i < k < n && trace[k].source == trace[n].source && (trace[k].Finished? || trace[k].Cancelled?)
  {
    hide Tidy;
    var trace := After(c, cbs).trace;
    var s := trace[n].source;
    NeverBroken(c, cbs, s, n + 1);
    assert trace[..n + 1][..n] == trace[..n];
    k := LastEnd(trace, s, i, n);
  }

  // A source that was started and is idle again was ended in between.
  lemma {:induction false} LastEnd(trace: seq<Signal>, s: RawHandle, i: nat, n: nat) returns (k: nat)
    requires i < n <= |trace| && trace[i].Started? && trace[i].source == s
    requires Watch(Idle, trace[..n], s) == Idle
    ensures i < k < n && trace[k].source == s && (trace[k].Finished? || trace[k].Cancelled?)
    decreases n
  {
    assert trace[..n][..n - 1] == trace[..n - 1];
    if trace[n - 1].source == s && (trace[n - 1].Finished? || trace[n - 1].Cancelled?) {
      k := n - 1;
    } else {
      k := LastEnd(trace, s, i, n - 1);
    }
  }

  // ---- What one flush says

  lemma {:induction false} StartsNameTheHost(starts: seq<RawHandle>, hosts: map<RawHandle, HostRef>)
    ensures forall e :: e in StartSignals(starts,
      hosts) ==> e.Started? && e.source in hosts && e.host == hosts[e.source]
  {
    if starts != [] {
      StartsNameTheHost(starts[..|starts| - 1], hosts);
    }
  }

  lemma {:induction false} ProgressNamesTheHost(jobs: Jobs, queue: seq<Progress>, hosts: map<RawHandle, HostRef>)
    ensures forall e :: e in ProgressSignals(jobs, queue, hosts) ==>
              (e.Advanced? || e.Finished?) && e.source in hosts && e.host == hosts[e.source]
  {
    if queue != [] {
      ProgressNamesTheHost(jobs, queue[..|queue| - 1], hosts);
    }
  }

  // Every notification carries the reference that the host gave for its source.
  lemma SignalsNameTheHost(c: Controller, e: Signal)
    requires e in NotifyModelUpdates(c).signals
    ensures !e.Cancelled? && e.source in c.sourceHosts && e.host == c.sourceHosts[e.source]
  {
    StartsNameTheHost(c.pendingStarts, c.sourceHosts);
    ProgressNamesTheHost(c.jobs, c.queue, c.sourceHosts);
  }

  function HostFor(c: Controller, n: Updates.Notification): Option<HostRef> {
    match n
    case SourceChanged(s, _) => if s in c.sourceHosts then Some(c.sourceHosts[s]) else None
    case ModificationChanged(m, _) => if m in c.modificationHosts then Some(c.modificationHosts[m]) else None
    case RegionChanged(r, _) => if r in c.regionHosts then Some(c.regionHosts[r]) else None
    case DocumentChanged => None
  }

  lemma NoticeIsFiltered(c: Controller, n: Updates.Notification, x: Notice)
    ensures x in NoticeOf(c, n) <==>
            match x
            case DocumentDataChanged => n.DocumentChanged?
            case ObjectChanged(h, m) => m == n && HostFor(c, n) == Some(h)
  {
  }

  // Of the coalesced changes the host hears exactly those of objects that it has a reference for.
  lemma {:induction false} NoticesAreFiltered(c: Controller, ns: seq<Updates.Notification>, x: Notice)
    ensures x in NoticesOf(c, ns) <==>
            match x
            case DocumentDataChanged => Updates.DocumentChanged in ns
            case ObjectChanged(h, n) => n in ns && HostFor(c, n) == Some(h)
  {
    hide NoticeOf, HostFor;
    if ns != [] {
      var init, last := ns[..|ns| - 1], ns[|ns| - 1];
      assert ns == init + [last];
      NoticesAreFiltered(c, init, x);
      NoticeIsFiltered(c, last, x);
    }
  }
}
