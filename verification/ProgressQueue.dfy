// What draining the queue of analysis progress comes to, without the step-by-step rules: a job ends at
// the greatest progress that was reported for it, and the host is told of each report that was not
// overtaken by an earlier one.
module ProgressQueue {
  import opened Prelude
  import opened Registries
  import opened Analysis
  import opened Controllers
  import opened ControllerTheorems

  // A job without a completion in the queue stays, for the same contents, at the greatest admissible
  // progress of its own and of the queue.
  lemma {:induction false} ProgressIsTheGreatest(jobs: Jobs, queue: seq<Progress>, s: RawHandle)
    requires s in jobs && Completed(s) !in queue
    ensures
      var after := JobsAfter(jobs, queue);
      && s in after && after[s].contentTypes == jobs[s].contentTypes
      && jobs[s].progress <= after[s].progress
      && (forall v :: Updated(s, v) in queue && v < 1.0 ==> v <= after[s].progress)
      && (after[s].progress == jobs[s].progress || (Updated(s, after[s].progress) in queue && after[s].progress < 1.0))
  {
    if queue != [] {
      var init, last := queue[..|queue| - 1], queue[|queue| - 1];
      assert queue == init + [last];
      ProgressIsTheGreatest(jobs, init, s);
      forall v | Updated(s, v) in queue && v < 1.0 ensures v <= JobsAfter(jobs, queue)[s].progress {
        assert Updated(s, v) in init || Updated(s, v) == last;
      }
    }
  }

  // The report concerns a job that has not completed yet, and no earlier report went further.
  ghost predicate Counts(jobs: Jobs, before: seq<Progress>, e: Progress) {
    && e.source in jobs && Completed(e.source) !in before
    && match e
       case Updated(s, v) =>
         jobs[s].progress <= v < 1.0 && forall w :: Updated(s, w) in before && w < 1.0 ==> w <= v
       case Completed(_) => true
  }

  function Report(e: Progress, host: HostRef): Signal {
    match e
    case Updated(s, v) => Advanced(s, host, v)
    case Completed(s) => Finished(s, host)
  }

  // The host is told of exactly these reports, in order, with their own progress.
  lemma EachReportIsToldOrOvertaken(jobs: Jobs, queue: seq<Progress>, hosts: map<RawHandle, HostRef>, i: nat)
    requires i < |queue| && forall r :: r in jobs ==> r in hosts
    ensures ProgressSignals(jobs, queue[..i + 1], hosts) ==
            ProgressSignals(jobs, queue[..i], hosts)
            + if Counts(jobs, queue[..i], queue[i]) then [Report(queue[i], hosts[queue[i].source])] else []
  {
    hide JobsAfter;
    var before, e := queue[..i], queue[i];
    assert queue[..i + 1][..i] == before && queue[..i + 1][i] == e;
    if e.source in jobs {
      CompletionEnds(jobs, before, e.source);
      if Completed(e.source) !in before {
        ProgressIsTheGreatest(jobs, before, e.source);
      }
    } else {
      ProgressBeginsNothing(jobs, before, e.source);
    }
  }
}
