/**
 The rows of one project, and the transactions and tasks that update them: locking an upload,
 checking encoding sizes, queueing runs and starting them.

 Each method is what one request or task does while nothing else runs. How these steps interleave
 is the subject of the two protocols; the contracts here say which of their steps a method takes.
 */
module ProjectDatabase {
  import opened Collections
  import opened EncodingSizes
  import opened Runs
  import opened UploadProtocol
  import opened Wrappers

  datatype RunRow = RunRow(state: RunState, stage: nat)

  /** What is left of the uploads when some providers are marked as invalid. */
  ghost predicate Invalidated(before: seq<seq<Row>>, after: seq<seq<Row>>, invalid: set<nat>) {
    && |after| == |before|
    && forall d: nat | d < |before| :: after[d] == if d in invalid then SetAll(before[d], Error) else before[d]
  }

  /** The size of the project after a check that records this one. */
  function WithRecord(project: Option<nat>, record: Option<nat>): Option<nat> {
    if record.Some? then record else project
  }

  /**
   What checking the sizes of all uploads concludes, and what it leaves behind. It agrees exactly if
   all uploads have the size that is asked and that size is in order, and finds a mismatch exactly
   if one of them does not; the size asked is recorded for a project that has none, unless there is
   a mismatch or no size at all.
   */
  ghost predicate SizesChecked(before: seq<seq<Row>>, project: Option<nat>, limits: Limits, after: seq<seq<Row>>,
                               project': Option<nat>, r: SizeCheck) {
    var sizes := SizesOf(before);
    && r == Verdict(sizes, project, limits)
    && (r.SizesAgree? <==> Fit(sizes, project, limits)) && (r.Mismatch? <==> Deviates(sizes, project, limits))
    && (r.SizesAgree? || r.NotWholeWords? || r.Crash? ==> after == before)
    && (r.Mismatch? ==> Invalidated(before, after, {r.dp}))
    && (r.OutOfBounds? ==> Invalidated(before, after, Indices(|before|)))
    && Invalidated(before, after, set d | d in Invalid(sizes, r))
    && (if r.Mismatch? || r.Crash? || project.Some? then project' == project
        else Asked(sizes, None, limits, project'))
    && (!r.Crash? ==> project' == WithRecord(project, Recorded(sizes, project, limits)))
  }

  lemma {:induction false} AllInvalid(before: seq<seq<Row>>, after: seq<seq<Row>>)
    requires Invalidated(before, after, Indices(|before|))
    ensures Invalidated(before, after, set d | d in Invalid(SizesOf(before), OutOfBounds))
  {
    var ones := set d | d in Invalid(SizesOf(before), OutOfBounds);
    forall d: nat | d < |before| ensures after[d] == if d in ones then SetAll(before[d], Error) else before[d] {
      InvalidHasRows(before, d);
      assert after[d] == SetAll(before[d], Error);
    }
  }

  lemma {:induction false} InvalidHasRows(uploads: seq<seq<Row>>, d: nat)
    requires d < |uploads|
    ensures d in Invalid(SizesOf(uploads), OutOfBounds) <==> uploads[d] != []
  {
    OwnersHaveRows(SizesOf(uploads), 0, d);
  }

  /** What the check invalidates are the uploads that checks of the protocol invalidate one by one. */
  lemma {:induction false} InvalidatedOnes(before: seq<seq<Row>>, after: seq<seq<Row>>, r: SizeCheck)
    requires match r
             case Mismatch(d) => Invalidated(before, after, {d})
             case OutOfBounds => Invalidated(before, after, Indices(|before|))
             case _ => after == before
    ensures Invalidated(before, after, set d | d in Invalid(SizesOf(before), r))
  {
    match r
    case Mismatch(d) => assert (set e | e in [d]) == {d};
    case OutOfBounds => AllInvalid(before, after);
    case _ => assert (set d: nat | d in []) == {};
  }

  /** That this holds of what the check does. */
  lemma {:induction false} CheckedSizes(before: seq<seq<Row>>, project: Option<nat>, limits: Limits,
                                        after: seq<seq<Row>>, project': Option<nat>, r: SizeCheck)
    requires r == Verdict(SizesOf(before), project, limits)
    requires match r
             case Mismatch(d) => Invalidated(before, after, {d})
             case OutOfBounds => Invalidated(before, after, Indices(|before|))
             case _ => after == before
    requires project' == if r.Mismatch? || r.Crash? || project.Some? then project
                         else Expected(SizesOf(before), None, limits)
    ensures SizesChecked(before, project, limits, after, project', r)
  {
    AgreeIffFit(SizesOf(before), project, limits);
    RecordedIsAsked(SizesOf(before), limits);
    InvalidatedOnes(before, after, r);
  }

  // ----- Runs -----

  function RunsIn(runs: map<nat, RunRow>, states: set<RunState>): set<nat> {
    set r | r in runs && runs[r].state in states
  }

  /** Created runs are queued and reach the next stage; all other runs stay as they are. */
  ghost predicate CreatedAreQueued(before: map<nat, RunRow>, after: map<nat, RunRow>) {
    && after.Keys == before.Keys
    && forall r | r in before ::
        after[r] == if before[r].state.Created? then RunRow(Queued, before[r].stage + 1) else before[r]
  }

  ghost predicate AllAreFailed(before: map<nat, RunRow>, after: map<nat, RunRow>) {
    after.Keys == before.Keys && forall r | r in before :: after[r] == RunRow(Errored, before[r].stage)
  }

  /** The tables of a project. */
  datatype Tables = Tables(
    uploaded: seq<Uploaded>,
    uploads: seq<seq<Row>>,
    encodingSize: Option<nat>,
    limits: Limits,
    runs: map<nat, RunRow>)

  /** The state of the upload protocol that the tables stand for, with the given processes. */
  function StateOf(t: Tables, procs: map<nat, Process>): State {
    State(t.uploaded, t.uploads, RunsIn(t.runs, {Created}), RunsIn(t.runs, {Queued, Running, Completed}),
          RunsIn(t.runs, {Errored}), t.encodingSize, t.limits, procs)
  }

  /** What a check records for the project. */
  function WithSize(t: Tables, record: Option<nat>): Tables {
    t.(encodingSize := WithRecord(t.encodingSize, record))
  }

  /** Queueing all created runs is the last step of a check that has accepted all sizes, and rouses no one else. */
  lemma {:induction false} QueueingIsAStep(t: Tables, after: map<nat, RunRow>, record: Option<nat>,
                                           procs: map<nat, Process>, p: nat)
    requires CreatedAreQueued(t.runs, after) && p in procs && procs[p] == Check(Accepted(record))
    ensures CheckStep(StateOf(t, procs), QueueAll(p), StateOf(WithSize(t, record).(runs := after), procs - {p}))
  {
    assert forall r :: r in after <==> r in t.runs;
    assert RunsIn(after, {Created}) == {};
    assert RunsIn(after, {Errored}) == RunsIn(t.runs, {Errored});
    assert RunsIn(after, {Queued, Running, Completed}) ==
        RunsIn(t.runs, {Queued, Running, Completed}) + RunsIn(t.runs, {Created});
  }

  /** Marking the uploads of a provider as invalid is a step of a check that is failing. */
  lemma {:induction false} InvalidatingIsAStep(t: Tables, procs: map<nat, Process>, p: nat, dp: nat,
                                               record: Option<nat>, todo: seq<nat>)
    requires dp < |t.uploads| && p in procs && procs[p] == Check(Failing(record, [dp] + todo))
    ensures CheckStep(StateOf(t, procs), Invalidate(p),
                      StateOf(t.(uploads := t.uploads[dp := SetAll(t.uploads[dp], Error)]),
                              procs[p := Check(Failing(record, todo))]))
  {
    assert ([dp] + todo)[1..] == todo;
  }

  /** Failing all runs is the last step of a check that has found an invalid encoding size. */
  lemma {:induction false} FailingIsAStep(t: Tables, after: map<nat, RunRow>, record: Option<nat>,
                                          procs: map<nat, Process>, p: nat)
    requires AllAreFailed(t.runs, after) && p in procs && procs[p] == Check(Failing(record, []))
    ensures CheckStep(StateOf(t, procs), FailAll(p), StateOf(WithSize(t, record).(runs := after), procs - {p}))
  {
    var before := t.runs;
    assert forall r :: r in after <==> r in before;
    assert RunsIn(after, {Created}) == {} && RunsIn(after, {Queued, Running, Completed}) == {};
    var all := RunsIn(before, {Errored}) + RunsIn(before, {Created}) + RunsIn(before, {Queued, Running, Completed});
    forall r | r in before ensures r in all {
      assert before[r].state.Errored? || before[r].state.Created? || before[r].state in {Queued, Running, Completed};
    }
    assert RunsIn(after, {Errored}) == all;
  }

  class Project {
    const limits: Limits
    var uploaded: seq<Uploaded>
    var uploads: seq<seq<Row>>
    var encodingSize: Option<nat>
    var runs: map<nat, RunRow>

    /** Runs for which a pre-run task, and runs for which comparison jobs, have been enqueued. */
    var prerunTasks: seq<nat>
    var comparisonTasks: seq<nat>

    /** Runs with a state in the cache. */
    var cached: set<nat>

    constructor (parties: nat, limits: Limits)
      requires 2 <= parties
      ensures Valid() && this.limits == limits && |uploaded| == parties && Init(View(map[]))
    {
      this.limits := limits;
      uploaded := seq(parties, i => NotStarted);
      uploads := seq(parties, i => []);
      encodingSize := None;
      runs := map[];
      prerunTasks, comparisonTasks, cached := [], [], {};
    }

    /** No run is enqueued twice, neither for the pre-run check nor for its comparisons. */
    ghost predicate Valid()
      reads this
    {
      && |uploaded| == |uploads|
      && Distinct(prerunTasks) && (forall r | r in prerunTasks :: r in runs && !runs[r].state.Created?)
      && Distinct(comparisonTasks) && (forall r | r in comparisonTasks :: r in runs && r in cached)
    }

    ghost function View(procs: map<nat, Process>): State
      reads this
    {
      StateOf(Tables(uploaded, uploads, encodingSize, limits, runs), procs)
    }

    /** One conditional update takes the upload lock of a provider. */
    method LockForUpload(dp: nat) returns (ok: bool)
      requires Valid()
      modifies `uploaded
      ensures Valid() && ok == CanLock(old(View(map[])), dp)
      ensures uploaded == if ok then old(uploaded)[dp := InProgress] else old(uploaded)
      ensures forall p, token, size, json, procs: map<nat, Process> | ok && p !in procs ::
                LockStep(old(View(procs)), Begin(p, dp, token, size, json),
                         View(procs[p := Handler(dp, token, size, Demanded(encodingSize, limits), json, Holding)]))
    {
      ok := dp < |uploaded| && uploaded[dp] != Done && uploaded[dp] != InProgress;
      if ok {
        uploaded := uploaded[dp := InProgress];
      }
    }

    /**
     An upload has failed. Where a request can be told what was wrong with it, and may simply be repeated,
     the provider is as if it had not started; otherwise it shows an error.
     */
    method ReleaseLock(dp: nat, mayRepeat: bool, told: bool)
      requires Valid() && dp < |uploaded|
      modifies `uploaded
      ensures Valid()
      ensures forall p, procs: map<nat, Process> | Holds(procs, p, dp, {Holding, Inserted, Described, Stored}) ::
                procs[p].json == mayRepeat ==> LockStep(old(View(procs)), Fail(p, told), View(procs - {p}))
    {
      if mayRepeat && told {
        uploaded := uploaded[dp := NotStarted];
      } else {
        uploaded := uploaded[dp := Failed];
      }
    }

    /** An upload has been stored, or given to a task. */
    method MarkDone(dp: nat)
      requires Valid() && dp < |uploaded|
      modifies `uploaded
      ensures Valid()
      ensures forall p, procs: map<nat, Process> | Holds(procs, p, dp, {Stored}) ::
                LockStep(old(View(procs)), Finish(p), View(procs[p := procs[p].(hs := Finished)]))
    {
      uploaded := uploaded[dp := Done];
    }

    /** Count the upload rows of providers that are done, all of them or those that are ready. */
    method PartiesContributed(checkDataReady: bool) returns (n: nat)
      requires Valid()
      ensures n == if checkDataReady then CountReady(uploaded, uploads) else CountUploaded(uploaded, uploads)
      ensures (n == |uploaded|) == ClksUploaded(View(map[]), checkDataReady)
    {
      n := 0;
      for d := 0 to |uploaded|
        invariant n + CountReady(uploaded[d..], uploads[d..]) == CountReady(uploaded, uploads) || !checkDataReady
        invariant n + CountUploaded(uploaded[d..], uploads[d..]) == CountUploaded(uploaded, uploads) || checkDataReady
      {
        assert uploaded[d..][1..] == uploaded[d + 1..] && uploads[d..][1..] == uploads[d + 1..];
        if uploaded[d] == Done {
          var ready := CountRows(uploads[d], checkDataReady);
          n := n + ready;
        }
      }
    }

    /** Rows of a provider are marked as invalid in a transaction of their own. */
    method HandleInvalidEncodingData(dp: nat)
      requires dp < |uploads|
      modifies `uploads
      ensures uploads == old(uploads)[dp := SetAll(old(uploads)[dp], Error)]
    {
      uploads := uploads[dp := SetAll(uploads[dp], Error)];
    }

    /** Mark all providers as invalid. */
    method InvalidateAll()
      modifies `uploads
      ensures Invalidated(old(uploads), uploads, Indices(|old(uploads)|))
    {
      for d := 0 to |uploads|
        invariant Invalidated(old(uploads), uploads, Indices(d))
      {
        HandleInvalidEncodingData(d);
      }
    }

    /**
     Check that all uploads have the size that is expected of them, within its bounds and a
     multiple of eight bytes, and record that size for the project. The first provider with another
     size is marked as invalid; all are, if the size is out of bounds.
     */
    method CheckAndSetProjectEncodingSize() returns (r: SizeCheck)
      modifies `uploads, `encodingSize
      ensures SizesChecked(old(uploads), old(encodingSize), limits, uploads, encodingSize, r)
    {
      ghost var uploads0, project := uploads, encodingSize;
      var first := FirstOf(uploads);
      if first.None? {
        CheckedSizes(uploads0, project, limits, uploads, encodingSize, Crash);
        return Crash;
      }
      var size := Preferred(encodingSize, Demanded(encodingSize, limits), first.value);
      var other := FirstMismatch(uploads, size);
      if other.Some? {
        HandleInvalidEncodingData(other.value);
        CheckedSizes(uploads0, project, limits, uploads, encodingSize, Mismatch(other.value));
        return Mismatch(other.value);
      }
      if size.None? {
        CheckedSizes(uploads0, project, limits, uploads, encodingSize, Crash);
        return Crash;
      }
      if encodingSize.None? {
        encodingSize := size;
      }
      if !(limits.minSize <= size.value <= limits.maxSize) {
        InvalidateAll();
        CheckedSizes(uploads0, project, limits, uploads, encodingSize, OutOfBounds);
        return OutOfBounds;
      }
      r := if size.value % 8 != 0 then NotWholeWords else SizesAgree;
      CheckedSizes(uploads0, project, limits, uploads, encodingSize, r);
    }

    /** All runs of the project fail, whatever their state. */
    method MarkAllRunsFailed()
      requires Valid()
      modifies `runs
      ensures Valid() && AllAreFailed(old(runs), runs)
    {
      runs := map r | r in runs :: RunRow(Errored, runs[r].stage);
    }

    /** Created runs become queued, and are returned in some order. */
    method GetCreatedRunsAndQueue() returns (queued: seq<nat>)
      modifies `runs
      ensures Distinct(queued) && forall r :: r in queued <==> r in RunsIn(old(runs), {Created})
      ensures runs.Keys == old(runs).Keys
      ensures forall r | r in runs ::
          runs[r] == if old(runs)[r].state.Created? then RunRow(Queued, old(runs)[r].stage) else old(runs)[r]
    {
      queued := [];
      var todo := RunsIn(runs, {Created});
      while todo != {}
        invariant todo <= RunsIn(old(runs), {Created}) && runs.Keys == old(runs).Keys && Distinct(queued)
        invariant forall r :: r in queued <==> r in RunsIn(old(runs), {Created}) - todo
        invariant forall r | r in runs ::
            runs[r] == if r in queued then RunRow(Queued, old(runs)[r].stage) else old(runs)[r]
      {
        var r :| r in todo;
        DistinctConcat(queued, [r]);
        queued := queued + [r];
        runs := runs[r := RunRow(Queued, runs[r].stage)];
        todo := todo - {r};
      }
    }

    /** Queued runs progress to the next stage. */
    method ProgressRunStages(queued: seq<nat>)
      requires Distinct(queued) && forall r | r in queued :: r in runs
      modifies `runs
      ensures runs.Keys == old(runs).Keys
      ensures forall r | r in runs ::
          runs[r] == if r in queued then RunRow(old(runs)[r].state, old(runs)[r].stage + 1) else old(runs)[r]
    {
      for i := 0 to |queued|
        invariant runs.Keys == old(runs).Keys
        invariant forall r | r in runs ::
            runs[r] == if r in queued[..i] then RunRow(old(runs)[r].state, old(runs)[r].stage + 1) else old(runs)[r]
      {
        var r := queued[i];
        TakeNext(queued, i);
        assert r !in queued[..i];
        assert r in queued;
        runs := runs[r := RunRow(runs[r].state, runs[r].stage + 1)];
      }
      assert queued[..|queued|] == queued;
    }

    /**
     Check for executable runs. If the data of all parties is ready and all encodings fit, exactly
     the created runs are queued, reach their second stage and are enqueued once. If the encodings
     do not fit, all runs of the project fail. Otherwise nothing happens.
     */
    method CheckForExecutableRuns() returns (r: Option<SizeCheck>)
      requires Valid()
      modifies `uploads, `encodingSize, `runs, `prerunTasks
      ensures Valid()
      ensures r.Some? <==> old(ClksUploaded(View(map[]), true))
      ensures r.None? ==> uploads == old(uploads) && encodingSize == old(encodingSize)
      ensures r.Some? ==> SizesChecked(old(uploads), old(encodingSize), limits, uploads, encodingSize, r.value)
      ensures r.None? || r.value.Crash? ==> runs == old(runs) && prerunTasks == old(prerunTasks)
      ensures r == Some(SizesAgree) ==> CreatedAreQueued(old(runs), runs)
      ensures r == Some(SizesAgree) ==> Enqueued(old(prerunTasks), prerunTasks, RunsIn(old(runs), {Created}))
      ensures r.Some? && !r.value.SizesAgree? && !r.value.Crash? ==>
          AllAreFailed(old(runs), runs) && prerunTasks == old(prerunTasks)
    {
      var parties := PartiesContributed(true);
      if parties != |uploaded| {
        return None;
      }
      var check := CheckAndSetProjectEncodingSize();
      if check.Crash? {
        return Some(check);
      }
      if !check.SizesAgree? {
        MarkAllRunsFailed();
        return Some(check);
      }
      QueueRuns();
      return Some(check);
    }

    /** Queue all created runs, take them to their next stage, and enqueue a pre-run task for each. */
    method QueueRuns()
      requires Valid()
      modifies `runs, `prerunTasks
      ensures Valid() && CreatedAreQueued(old(runs), runs)
      ensures Enqueued(old(prerunTasks), prerunTasks, RunsIn(old(runs), {Created}))
    {
      var newRuns := GetCreatedRunsAndQueue();
      ProgressRunStages(newRuns);
      DistinctConcat(prerunTasks, newRuns);
      prerunTasks := prerunTasks + newRuns;
    }

    /** A new run is created in its first stage; a check enqueues it later. */
    method InsertRun(run: nat)
      requires Valid() && run !in runs
      modifies `runs
      ensures Valid() && runs == old(runs)[run := RunRow(Created, 1)]
    {
      runs := runs[run := RunRow(Created, 1)];
    }

    /**
     Start a run, unless it is in the cache, its row is locked by another task, or it has been
     started before. Its comparisons are enqueued at most once, however often this is called.
     */
    method PrerunCheck(run: nat, lockedByOther: bool) returns (started: bool)
      requires Valid()
      modifies `runs, `cached, `comparisonTasks
      ensures Valid()
      ensures started <==>
                && run !in old(cached) && run in old(runs) && !lockedByOther
                && (old(runs)[run].state.Created? || old(runs)[run].state.Queued?)
      ensures started ==> runs == old(runs)[run := RunRow(Running, old(runs)[run].stage)]
      ensures started ==> cached == old(cached) + {run}
      ensures started ==> run !in old(comparisonTasks) && comparisonTasks == old(comparisonTasks) + [run]
      ensures !started ==> runs == old(runs) && cached == old(cached) && comparisonTasks == old(comparisonTasks)
    {
      if run in cached || run !in runs || lockedByOther {
        return false;
      }
      var state := runs[run].state;
      if state == Running || state == Completed || state == Errored {
        return false;
      }
      runs := runs[run := RunRow(Running, runs[run].stage)];
      cached := cached + {run};
      DistinctConcat(comparisonTasks, [run]);
      comparisonTasks := comparisonTasks + [run];
      started := true;
    }
  }

  /** Process `p` is a request of this provider, at one of these stages. */
  predicate Holds(procs: map<nat, Process>, p: nat, dp: nat, stages: set<HandlerStage>) {
    p in procs && procs[p].Handler? && procs[p].dp == dp && procs[p].hs in stages
  }

  /** The created runs have been enqueued, each of them once. */
  ghost predicate Enqueued(before: seq<nat>, after: seq<nat>, created: set<nat>) {
    before <= after && Distinct(after[|before|..]) && forall r :: r in after[|before|..] <==> r in created
  }

  lemma {:induction false} FirstOtherIs(sizes: seq<seq<Option<nat>>>, size: Option<nat>, d: nat)
    requires d < |sizes| && AllUniform(sizes[..d], size) && !Uniform(sizes[d], size)
    ensures FirstOther(sizes, size) == Some(d)
  {
    if d > 0 {
      assert sizes[..d][0] == sizes[0] && sizes[1..][..d - 1] == sizes[..d][1..];
      FirstOtherIs(sizes[1..], size, d - 1);
    }
  }

  /** The rows are compared with the size one after the other, provider by provider. */
  method FirstMismatch(uploads: seq<seq<Row>>, size: Option<nat>) returns (r: Option<nat>)
    ensures r == FirstOther(SizesOf(uploads), size)
  {
    ghost var sizes := SizesOf(uploads);
    for d := 0 to |uploads|
      invariant AllUniform(sizes[..d], size)
    {
      for j := 0 to |uploads[d]|
        invariant forall i | 0 <= i < j :: sizes[d][i] == size
      {
        if uploads[d][j].size != size {
          assert sizes[d][j] in sizes[d];
          FirstOtherIs(sizes, size, d);
          return Some(d);
        }
      }
    }
    assert sizes[..|uploads|] == sizes;
    r := None;
  }

  /** The size in the first row, if there is a row. */
  method FirstOf(uploads: seq<seq<Row>>) returns (first: Option<Option<nat>>)
    ensures first == if AllSizes(SizesOf(uploads)) == [] then None else Some(AllSizes(SizesOf(uploads))[0])
  {
    ghost var sizes := SizesOf(uploads);
    for d := 0 to |uploads|
      invariant AllSizes(sizes[d..]) == AllSizes(sizes)
    {
      assert sizes[d..][1..] == sizes[d + 1..];
      if uploads[d] != [] {
        return Some(uploads[d][0].size);
      }
    }
    assert sizes[|uploads|..] == [];
    first := None;
  }

  method CountRows(rows: seq<Row>, checkDataReady: bool) returns (n: nat)
    ensures n == if checkDataReady then ReadyRows(rows) else |rows|
  {
    n := 0;
    for i := 0 to |rows|
      invariant if checkDataReady then n + ReadyRows(rows[i..]) == ReadyRows(rows) else n == i
    {
      assert rows[i..][1..] == rows[i + 1..];
      if !checkDataReady || rows[i].state == Ready {
        n := n + 1;
      }
    }
  }
}
