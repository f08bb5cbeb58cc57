// Analysis jobs and the queue of their progress (ara2-bridge-plugin/src/analysis.rs).  Progress is a
// real number: the rounding of `f32` and its non-finite values are not part of this model.
module Analysis {
  import opened Prelude
  import opened Registries

  // What the application queues, from any thread.
  datatype Progress = Updated(source: RawHandle, progress: real) | Completed(source: RawHandle)

  datatype Job = Job(contentTypes: set<int>, progress: real)

  type Jobs = map<RawHandle, Job>

  function Unique(types: seq<int>): bool {
    forall i, j :: 0 <= i < j < |types| ==> types[i] != types[j]
  }

  function StartJob(jobs: Jobs, source: RawHandle, types: seq<int>): Result<Jobs> {
    if types == [] || !Unique(types) then Err(InvalidArgument)
    else if source in jobs then Err(InvalidState)
    else Ok(jobs[source := Job(set t | t in types, 0.0)])
  }

  function Advance(jobs: Jobs, e: Progress): Result<Jobs> {
    if e.source !in jobs then Err(InvalidState)
    else match e
      case Updated(source, progress) =>
        if jobs[source].progress <= progress < 1.0
        then Ok(jobs[source := jobs[source].(progress := progress)])
        else Err(InvalidArgument)
      case Completed(source) => Ok(jobs - {source})
  }

  // The queue without the events of one source.
  function Without(queue: seq<Progress>, source: RawHandle): seq<Progress> {
    Filter(queue, (e: Progress) => e.source != source)
  }

  lemma {:induction false} WithoutIsExact(queue: seq<Progress>, source: RawHandle)
    ensures multiset(Without(queue, source)) <= multiset(queue)
    ensures forall e :: multiset(Without(queue, source))[e] ==
                        if e.source == source then 0 else multiset(queue)[e]
  {
    if queue != [] {
      WithoutIsExact(queue[..|queue| - 1], source);
      assert queue == queue[..|queue| - 1] + [queue[|queue| - 1]];
    }
  }

  class AnalysisEmitter {
    var pending: seq<Progress>

    constructor ()
      ensures pending == []
    {
      pending := [];
    }

    method Update(source: RawHandle, progress: real) returns (r: Option<Error>)
      modifies this
      ensures r.None? <==> 0.0 <= progress < 1.0
      ensures pending == old(pending) + if r.None? then [Updated(source, progress)] else []
    {
      if !(0.0 <= progress < 1.0) { return Some(InvalidArgument); }
      pending := pending + [Updated(source, progress)];
      return None;
    }

    method Complete(source: RawHandle)
      modifies this
      ensures pending == old(pending) + [Completed(source)]
    {
      pending := pending + [Completed(source)];
    }

    method TakePending() returns (taken: seq<Progress>)
      modifies this
      ensures taken == old(pending) && pending == []
    {
      taken := pending;
      pending := [];
    }

    method Cancel(source: RawHandle)
      modifies this
      ensures pending == Without(old(pending), source)
    {
      var kept := [];
      assert pending[..|pending|] == pending;
      for i := 0 to |pending|
        invariant kept == Without(pending[..i], source)
      {
        assert pending[..i + 1][..i] == pending[..i];
        if pending[i].source != source {
          kept := kept + [pending[i]];
        }
      }
      pending := kept;
    }
  }

  class AnalysisCoordinator {
    var jobs: Jobs

    constructor ()
      ensures jobs == map[]
    {
      jobs := map[];
    }

    method Start(source: RawHandle, types: seq<int>) returns (e: Option<Error>)
      modifies this
      ensures var r := StartJob(old(jobs), source, types);
              e == (if r.Err? then Some(r.error) else None) && jobs == (if r.Ok? then r.value else old(jobs))
    {
      // Collecting into a set loses nothing exactly when there are no duplicates.
      var seen: set<int> := {};
      var unique := true;
      for i := 0 to |types|
        invariant seen == set k | 0 <= k < i :: types[k]
        invariant unique <==> forall j, k :: 0 <= j < k < i ==> types[j] != types[k]
      {
        unique := unique && types[i] !in seen;
        seen := seen + {types[i]};
      }
      if |types| == 0 || !unique { return Some(InvalidArgument); }
      if source in jobs { return Some(InvalidState); }
      assert seen == set t | t in types;
      jobs := jobs[source := Job(seen, 0.0)];
      return None;
    }

    method Update(source: RawHandle, progress: real) returns (e: Option<Error>)
      modifies this
      ensures var r := Advance(old(jobs), Updated(source, progress));
              e == (if r.Err? then Some(r.error) else None) && jobs == (if r.Ok? then r.value else old(jobs))
    {
      if source !in jobs { return Some(InvalidState); }
      if !(jobs[source].progress <= progress < 1.0) { return Some(InvalidArgument); }
      jobs := jobs[source := jobs[source].(progress := progress)];
      return None;
    }

    method Complete(source: RawHandle) returns (e: Option<Error>)
      modifies this
      ensures var r := Advance(old(jobs), Completed(source));
              e == (if r.Err? then Some(r.error) else None) && jobs == (if r.Ok? then r.value else old(jobs))
    {
      if source !in jobs { return Some(InvalidState); }
      jobs := jobs - {source};
      return None;
    }

    // Whether there was a job to cancel.
    method Cancel(source: RawHandle) returns (cancelled: bool)
      modifies this
      ensures cancelled <==> source in old(jobs)
      ensures jobs == old(jobs) - {source}
    {
      cancelled := source in jobs;
      jobs := jobs - {source};
    }

    method Contains(source: RawHandle, contentType: int) returns (r: bool)
      ensures r <==> source in jobs && contentType in jobs[source].contentTypes
    {
      r := source in jobs && contentType in jobs[source].contentTypes;
    }
  }
}
