/**
 Encoding sizes over whole histories. As long as each provider has one upload row, whatever lets a
 check go ahead is settled for good: the sizes do not change any more, so that all checks of a
 project come to the same conclusion, and a project either queues runs or fails them, never both.
 */
module SizeAgreement {
  import opened EncodingSizes
  import opened PartyCounts
  import opened UploadProtocol
  import opened Wrappers

  // ----- Who may still change a row -----

  /** Will set the size of rows of provider `d` that are there, or make them ready. */
  predicate Fills(proc: Process, d: nat) {
    match proc
    case Handler(dp, _, _, _, _, hs) => dp == d && hs in {Inserted, Described}
    case Background(dp, _, _, external, ts) => dp == d && (ts.Prepared? || (ts.Working? && !external))
    case _ => false
  }

  /** One process at most is going to fill the row of the provider, and there is a row to be filled. */
  ghost predicate FillerOk(s: State, d: nat) {
    && (forall p, q | p in s.procs && q in s.procs && Fills(s.procs[p], d) && Fills(s.procs[q], d) :: p == q)
    && (forall p | p in s.procs && Fills(s.procs[p], d) :: HasUnready(s.rows, d))
  }

  predicate HasUnready(rows: seq<seq<Row>>, d: nat) {
    d < |rows| && rows[d] != [] && !AllReady(rows[d])
  }

  ghost predicate FillersOk(s: State) {
    forall d: nat :: FillerOk(s, d)
  }

  ghost predicate NoFiller(s: State) {
    forall p, d: nat | p in s.procs :: !Fills(s.procs[p], d)
  }

  lemma {:induction false} SameFillers(s: State, s': State, d: nat)
    requires FillerOk(s, d)
    requires forall p | p in s'.procs && Fills(s'.procs[p], d) :: p in s.procs && Fills(s.procs[p], d)
    requires HasUnready(s.rows, d) ==> HasUnready(s'.rows, d)
    ensures FillerOk(s', d)
  {}

  lemma {:induction false} OnlyFiller(s': State, d: nat, p: nat)
    requires forall q | q in s'.procs && Fills(s'.procs[q], d) :: q == p
    requires p in s'.procs && Fills(s'.procs[p], d) ==> HasUnready(s'.rows, d)
    ensures FillerOk(s', d)
  {}

  /** A row is inserted for provider `d`, which has none. */
  lemma {:induction false} NobodyFills(s: State, s': State, d: nat, p: nat)
    requires FillerOk(s, d) && d < |s.rows| && s.rows[d] == []
    requires forall q | q != p && q in s'.procs :: q in s.procs && s.procs[q] == s'.procs[q]
    requires p in s'.procs && Fills(s'.procs[p], d) ==> HasUnready(s'.rows, d)
    ensures FillerOk(s', d)
  {
    OnlyFiller(s', d, p);
  }

  lemma {:induction false} LockKeepsFillers(s: State, a: Action, s': State, d: nat)
    requires FillerOk(s, d) && LockStep(s, a, s')
    ensures FillerOk(s', d)
  {
    SameFillers(s, s', d);
  }

  /** Inserting a row leaves one row only if there was none. */
  lemma {:induction false} WasEmpty(s: State, s': State, d: nat)
    requires OneRowEach(s') && d < |s.rows| == |s'.rows| && |s'.rows[d]| == |s.rows[d]| + 1
    ensures s.rows[d] == []
  {}

  lemma {:induction false} HandlerKeepsFillers(s: State, a: Action, s': State, d: nat)
    requires FillerOk(s, d) && HandlerStep(s, a, s') && OneRowEach(s')
    ensures FillerOk(s', d)
  {
    if (a.InsertRow? || a.DescribeRaw?) && s.procs[a.p].dp == d {
      WasEmpty(s, s', d);
      assert s'.rows[d][0].state.Pending?;
      NobodyFills(s, s', d, a.p);
    } else if a.SpawnRaw? && s.procs[a.p].dp == d {
      assert Fills(s.procs[a.p], d);
      OnlyFiller(s', d, a.q);
    } else if a.StoreReady? && s.procs[a.p].dp == d {
      assert Fills(s.procs[a.p], d);
      OnlyFiller(s', d, a.p);
    } else {
      SameFillers(s, s', d);
    }
  }

  lemma {:induction false} TaskKeepsFillers(s: State, a: Action, s': State, d: nat)
    requires FillerOk(s, d) && TaskStep(s, a, s') && OneRowEach(s')
    ensures FillerOk(s', d)
  {
    if a.RawReady? || a.PullReady? {
      FillingEnds(s, s', a.p, d);
    } else if a.PullInserts? || a.PullAtOnce? {
      PullKeepsFillers(s, s', a.p, d);
    } else {
      OthersFillNothing(s, a, s', d);
    }
  }

  lemma {:induction false} OthersFillNothing(s: State, a: Action, s': State, d: nat)
    requires FillerOk(s, d) && TaskStep(s, a, s')
    requires !a.RawReady? && !a.PullReady? && !a.PullInserts? && !a.PullAtOnce?
    ensures FillerOk(s', d)
  {
    if a.RawChecked? && s.procs[a.p].dp == d {
      assert Fills(s.procs[a.p], d);
      CheckedRows(s, s', a.p);
    } else if a.ErrorRecorded? && s.procs[a.p].dp == d {
      UpsertError(s.rows[d], s.procs[a.p].token);
    }
    SameFillers(s, s', d);
  }

  lemma {:induction false} CheckedRows(s: State, s': State, p: nat)
    requires TaskStep(s, RawChecked(p), s') && HasUnready(s.rows, s.procs[p].dp)
    ensures HasUnready(s'.rows, s.procs[p].dp)
  {
    var d := s.procs[p].dp;
    if !Accepts(s.limits, Demanded(s.encodingSize, s.limits), s.procs[p].size) {
      assert s'.rows[d][0].state.Error?;
    }
  }

  lemma {:induction false} FillingEnds(s: State, s': State, p: nat, d: nat)
    requires FillerOk(s, d) && (TaskStep(s, RawReady(p), s') || TaskStep(s, PullReady(p), s'))
    ensures FillerOk(s', d)
  {
    if s.procs[p].dp == d {
      assert Fills(s.procs[p], d);
      OnlyFiller(s', d, p);
    } else {
      SameFillers(s, s', d);
    }
  }

  lemma {:induction false} PullKeepsFillers(s: State, s': State, p: nat, d: nat)
    requires FillerOk(s, d) && OneRowEach(s') && (TaskStep(s, PullInserts(p), s') || TaskStep(s, PullAtOnce(p), s'))
    ensures FillerOk(s', d)
  {
    if s.procs[p].dp == d {
      WasEmpty(s, s', d);
      if s'.procs[p].ts.Prepared? {
        assert s'.rows[d][0].state.Pending?;
      }
      NobodyFills(s, s', d, p);
    } else {
      SameFillers(s, s', d);
    }
  }

  /** After an error was recorded, the provider has a row that is not ready. */
  lemma {:induction false} UpsertError(rows: seq<Row>, token: nat)
    ensures Upsert(rows, token, Error) != [] && !AllReady(Upsert(rows, token, Error))
  {
    UpsertPresent(rows, token, Error);
  }

  /** Recording an error for the only row of a provider changes no sizes, unless it inserts another. */
  lemma {:induction false} UpsertKeepsSizes(rows: seq<Row>, token: nat)
    requires |rows| == 1 && |Upsert(rows, token, Error)| == 1
    ensures RowSizes(Upsert(rows, token, Error)) == RowSizes(rows)
  {
    assert rows[1..] == [];
    assert Upsert(rows, token, Error)[0].size == rows[0].size;
  }

  lemma {:induction false} CheckKeepsFillers(s: State, a: Action, s': State, d: nat)
    requires FillerOk(s, d) && CheckStep(s, a, s')
    ensures FillerOk(s', d)
  {
    if a.Invalidate? && s.procs[a.p].cs.todo[0] == d && s.rows[d] != [] {
      assert s'.rows[d][0].state.Error?;
    }
    SameFillers(s, s', d);
  }

  lemma {:induction false} StepKeepsFillers(s: State, a: Action, s': State)
    requires FillersOk(s) && Step(s, a, s') && OneRowEach(s')
    ensures FillersOk(s')
  {
    forall d: nat ensures FillerOk(s', d) {
      assert FillerOk(s, d);
      if LockStep(s, a, s') {
        LockKeepsFillers(s, a, s', d);
      } else if HandlerStep(s, a, s') {
        HandlerKeepsFillers(s, a, s', d);
      } else if TaskStep(s, a, s') {
        TaskKeepsFillers(s, a, s', d);
      } else {
        CheckKeepsFillers(s, a, s', d);
      }
    }
  }

  // ----- What a passed check finds does not change any more -----

  /** Every party is done and has a row, and no process is going to change sizes. */
  ghost predicate Frozen(s: State) {
    && |s.uploaded| == |s.rows|
    && (forall d: nat | d < |s.uploaded| :: s.uploaded[d].Done? && s.rows[d] != [])
    && NoFiller(s)
  }

  lemma {:induction false} SettledIsFrozen(s: State)
    requires Settled(s) && FillersOk(s)
    ensures Frozen(s)
  {
    forall p, d: nat | p in s.procs ensures !Fills(s.procs[p], d) {
      assert FillerOk(s, d);
    }
  }

  lemma {:induction false} NobodyHolds(s: State, p: nat)
    requires Exclusive(s) && Frozen(s)
    ensures !HandlerAt(s, p, {Holding, Inserted, Described, Stored})
  {
    if HandlerAt(s, p, {Holding, Inserted, Described, Stored}) {
      var d := s.procs[p].dp;
      assert s.uploaded[d].Done?;
      assert HoldsLock(s.procs[p], d);
    }
  }

  ghost predicate SameSizes(s: State, s': State) {
    SizesOf(s'.rows) == SizesOf(s.rows) && s'.limits == s.limits
  }

  lemma {:induction false} UploadsAreOver(s: State, a: Action, s': State)
    requires Exclusive(s) && Frozen(s) && (LockStep(s, a, s') || HandlerStep(s, a, s'))
    ensures a.HandlerReads? || a.HandlerTriggers?
    ensures Frozen(s') && SameSizes(s, s') && s'.encodingSize == s.encodingSize
  {
    NobodyHolds(s, a.p);
  }

  lemma {:induction false} TasksAreOver(s: State, a: Action, s': State)
    requires Frozen(s) && TaskStep(s, a, s') && OneRowEach(s')
    ensures Frozen(s') && SameSizes(s, s') && s'.encodingSize == s.encodingSize
  {
    var p := a.p;
    var d := if a.RawChecked? || a.RawReady? || a.PullReady? || a.PullInserts? || a.PullAtOnce? || a.ErrorRecorded?
             then s.procs[p].dp else 0;
    if a.RawChecked? || a.RawReady? || a.PullReady? {
      assert Fills(s.procs[p], d);
    } else if a.ErrorRecorded? {
      assert |s.rows[d]| <= |s'.rows[d]| <= 1 by {
        UpsertKeepsRows(s.rows[d], s.procs[p].token, Error);
      }
      UpsertKeepsSizes(s.rows[d], s.procs[p].token);
      assert SizesOf(s'.rows) == SizesOf(s.rows);
    }
  }

  lemma {:induction false} ChecksChangeNoSizes(s: State, a: Action, s': State)
    requires Frozen(s) && CheckStep(s, a, s')
    ensures Frozen(s') && SameSizes(s, s')
    ensures a.FailAll? || a.QueueAll? || s'.encodingSize == s.encodingSize
  {
    if a.Invalidate? {
      var d := s.procs[a.p].cs.todo[0];
      assert RowSizes(s'.rows[d]) == RowSizes(s.rows[d]);
      assert SizesOf(s'.rows) == SizesOf(s.rows);
    }
  }

  // ----- All checks come to the same conclusion -----

  /** What a check has concluded is right, and stays so. */
  ghost predicate Right(cs: CheckStage, sizes: seq<seq<Option<nat>>>, project: Option<nat>, limits: Limits) {
    match cs
    case Waiting => true
    case Passed => true
    case Sized(read) => read == sizes
    case Accepted(record) =>
      Fit(sizes, project, limits) && (record.Some? ==> record == Expected(sizes, project, limits))
    case Failing(record, _) =>
      !Fit(sizes, project, limits) && (record.Some? ==> record == Expected(sizes, project, limits))
  }

  ghost predicate RunsRight(s: State) {
    && (s.queued != {} ==> Fit(SizesOf(s.rows), s.encodingSize, s.limits))
    && (s.failed != {} ==> !Fit(SizesOf(s.rows), s.encodingSize, s.limits))
  }

  ghost predicate ChecksRight(s: State) {
    forall p | p in s.procs && s.procs[p].Check? :: Right(s.procs[p].cs, SizesOf(s.rows), s.encodingSize, s.limits)
  }

  /** Some check has gone ahead, or runs were queued or failed. */
  ghost predicate Committed(s: State) {
    || (exists p | p in s.procs :: s.procs[p].Check? && !s.procs[p].cs.Waiting?)
    || s.queued != {} || s.failed != {}
  }

  ghost predicate Orderly(s: State) {
    FillersOk(s) && ChecksRight(s) && RunsRight(s) && (Committed(s) ==> Frozen(s))
  }

  /** Recording the expected size changes no conclusion. */
  lemma {:induction false} StaysRight(cs: CheckStage, sizes: seq<seq<Option<nat>>>, project: Option<nat>,
                                      project': Option<nat>, limits: Limits)
    requires Right(cs, sizes, project, limits)
    requires project' == project || (project'.Some? && project' == Expected(sizes, project, limits))
    ensures Right(cs, sizes, project', limits)
    ensures Fit(sizes, project', limits) <==> Fit(sizes, project, limits)
  {
    if project' != project {
      RecordingKeepsExpected(sizes, project, limits);
      AgreeIffFit(sizes, project, limits);
      AgreeIffFit(sizes, project', limits);
    }
  }

  lemma {:induction false} JudgedRight(sizes: seq<seq<Option<nat>>>, project: Option<nat>, limits: Limits)
    ensures var verdict := Verdict(sizes, project, limits);
            var record := Recorded(sizes, project, limits);
            && (verdict.SizesAgree? ==> Right(Accepted(record), sizes, project, limits))
            && (!verdict.SizesAgree? ==> Right(Failing(record, Invalid(sizes, verdict)), sizes, project, limits))
  {
    AgreeIffFit(sizes, project, limits);
  }

  /** Process `p` ends or becomes a check that is right, another process may become a new check. */
  lemma {:induction false} OneCheckMoves(s: State, s': State, p: nat)
    requires ChecksRight(s) && SameSizes(s, s') && s'.encodingSize == s.encodingSize
    requires forall q | q in s'.procs && q != p && s'.procs[q].Check? && !s'.procs[q].cs.Waiting? ::
               q in s.procs && s.procs[q] == s'.procs[q]
    requires p in s'.procs && s'.procs[p].Check? ==>
               Right(s'.procs[p].cs, SizesOf(s.rows), s.encodingSize, s.limits)
    ensures ChecksRight(s')
  {
    forall q | q in s'.procs && s'.procs[q].Check?
      ensures Right(s'.procs[q].cs, SizesOf(s'.rows), s'.encodingSize, s'.limits)
    {
      if q != p && !s'.procs[q].cs.Waiting? {
        assert Right(s.procs[q].cs, SizesOf(s.rows), s.encodingSize, s.limits);
      }
    }
  }

  /** The last step of a check, which may set the size of the project. */
  lemma {:induction false} CheckEnds(s: State, a: Action, s': State)
    requires ChecksRight(s) && RunsRight(s) && CheckStep(s, a, s') && (a.FailAll? || a.QueueAll?)
    ensures ChecksRight(s') && RunsRight(s')
  {
    var cs, sizes := s.procs[a.p].cs, SizesOf(s.rows);
    assert Right(cs, sizes, s.encodingSize, s.limits);
    StaysRight(cs, sizes, s.encodingSize, s'.encodingSize, s.limits);
    forall q | q in s'.procs && s'.procs[q].Check? ensures Right(s'.procs[q].cs, sizes, s'.encodingSize, s'.limits) {
      assert Right(s.procs[q].cs, sizes, s.encodingSize, s.limits);
      StaysRight(s.procs[q].cs, sizes, s.encodingSize, s'.encodingSize, s.limits);
    }
  }

  lemma {:induction false} CheckStaysRight(s: State, a: Action, s': State)
    requires Frozen(s) && ChecksRight(s) && RunsRight(s) && CheckStep(s, a, s')
    ensures ChecksRight(s') && RunsRight(s')
  {
    ChecksChangeNoSizes(s, a, s');
    if a.FailAll? || a.QueueAll? {
      CheckEnds(s, a, s');
    } else {
      if a.Judge? {
        JudgedRight(SizesOf(s.rows), s.encodingSize, s.limits);
      }
      OneCheckMoves(s, s', if a.DeliverCheck? then a.q else a.p);
    }
  }

  lemma {:induction false} FrozenStep(s: State, a: Action, s': State)
    requires Exclusive(s) && Frozen(s) && ChecksRight(s) && RunsRight(s) && Step(s, a, s') && OneRowEach(s')
    ensures Frozen(s') && ChecksRight(s') && RunsRight(s')
    ensures SameSizes(s, s')
  {
    if CheckStep(s, a, s') {
      ChecksChangeNoSizes(s, a, s');
      CheckStaysRight(s, a, s');
    } else {
      if TaskStep(s, a, s') {
        TasksAreOver(s, a, s');
      } else {
        UploadsAreOver(s, a, s');
      }
      NoCheckMoves(s, a, s');
      OneCheckMoves(s, s', a.p);
    }
  }

  /** No check moves on, and runs stay as they are. */
  ghost predicate ChecksAndRunsStay(s: State, a: Action, s': State) {
    && s'.created == s.created && s'.queued == s.queued && s'.failed == s.failed
    && (forall q | q in s'.procs && s'.procs[q].Check? && !s'.procs[q].cs.Waiting? ::
          q in s.procs && s.procs[q] == s'.procs[q])
    && !a.DeliverCheck? && (a.p in s'.procs ==> !s'.procs[a.p].Check?)
  }

  lemma {:induction false} TaskLeavesChecks(s: State, a: Action, s': State)
    requires TaskStep(s, a, s')
    ensures ChecksAndRunsStay(s, a, s')
  {}

  lemma {:induction false} NoCheckMoves(s: State, a: Action, s': State)
    requires LockStep(s, a, s') || HandlerStep(s, a, s') || TaskStep(s, a, s')
    ensures ChecksAndRunsStay(s, a, s')
  {
    if TaskStep(s, a, s') {
      TaskLeavesChecks(s, a, s');
    }
  }

  /** Before any check has gone ahead, the only step that changes this is a check that finds all data ready. */
  lemma {:induction false} FirstCommitment(s: State, a: Action, s': State)
    requires !Committed(s) && Step(s, a, s')
    ensures Committed(s') ==> a.CheckReads? && CheckStep(s, a, s') && ClksUploaded(s, true)
    ensures ChecksRight(s') && RunsRight(s')
  {
    if LockStep(s, a, s') || HandlerStep(s, a, s') || TaskStep(s, a, s') {
      NoCheckMoves(s, a, s');
    }
  }

  lemma {:induction false} StepStaysOrderly(s: State, a: Action, s': State)
    requires Exclusive(s) && Orderly(s) && Step(s, a, s') && OneRowEach(s')
    ensures Orderly(s')
  {
    StepKeepsFillers(s, a, s');
    if Committed(s) {
      FrozenStep(s, a, s');
    } else {
      FirstCommitment(s, a, s');
      if Committed(s') {
        OneRowBefore(s, a, s');
        CheckPassesIffSettled(s);
        SettledIsFrozen(s);
        ChecksChangeNoSizes(s, a, s');
      }
    }
  }

  lemma {:induction false} InitiallyOrderly(s: State)
    requires Init(s)
    ensures Exclusive(s) && Orderly(s)
  {}

  lemma {:induction false} OrderlyAt(ss: seq<State>, acts: seq<Action>, k: nat)
    requires Trace(ss, acts) && k < |ss|
    ensures Exclusive(ss[k]) && (OneRowEach(ss[k]) ==> Orderly(ss[k]))
    decreases k
  {
    if k == 0 {
      InitiallyOrderly(ss[0]);
    } else {
      OrderlyAt(ss, acts, k - 1);
      assert Step(ss[k - 1], acts[k - 1], ss[k]);
      StepKeepsExclusive(ss[k - 1], acts[k - 1], ss[k]);
      if OneRowEach(ss[k]) {
        OneRowBefore(ss[k - 1], acts[k - 1], ss[k]);
        StepStaysOrderly(ss[k - 1], acts[k - 1], ss[k]);
      }
    }
  }

  // ----- Histories in which each provider has one row -----

  lemma {:induction false} OneRowBeforeAt(ss: seq<State>, acts: seq<Action>, i: nat)
    requires Trace(ss, acts) && i < |acts| && OneRowEach(ss[i + 1])
    ensures OneRowEach(ss[i])
  {
    assert Step(ss[i], acts[i], ss[i + 1]);
    OneRowBefore(ss[i], acts[i], ss[i + 1]);
  }

  ghost predicate OneRowBackAt(ss: seq<State>, i: nat)
    requires i + 1 < |ss|
  {
    OneRowEach(ss[i + 1]) ==> OneRowEach(ss[i])
  }

  lemma {:induction false} OneRowAllTheWay(ss: seq<State>, j: nat, k: nat)
    requires j <= k < |ss| && OneRowEach(ss[k]) && forall i: nat | i + 1 < |ss| :: OneRowBackAt(ss, i)
    ensures OneRowEach(ss[j])
    decreases k
  {
    if j < k {
      assert OneRowBackAt(ss, k - 1);
      OneRowAllTheWay(ss, j, k - 1);
    }
  }

  lemma {:induction false} OneRowEarlier(ss: seq<State>, acts: seq<Action>, j: nat, k: nat)
    requires Trace(ss, acts) && j <= k < |ss| && OneRowEach(ss[k])
    ensures OneRowEach(ss[j])
  {
    forall i: nat | i < |acts| ensures OneRowBackAt(ss, i) {
      if OneRowEach(ss[i + 1]) {
        OneRowBeforeAt(ss, acts, i);
      }
    }
    OneRowAllTheWay(ss, j, k);
  }

  /**
   Runs are queued only when every party has uploaded its data, and when all encodings have the
   size that the project expects, a multiple of eight bytes within the bounds.
   */
  lemma {:induction false} QueuedWithAllData(ss: seq<State>, acts: seq<Action>, k: nat)
    requires Trace(ss, acts) && k < |acts| && acts[k].QueueAll? && OneRowEach(ss[k])
    ensures |ss[k].uploaded| == |ss[k].rows|
    ensures forall d: nat | d < |ss[k].uploaded| :: ss[k].uploaded[d].Done? && |ss[k].rows[d]| == 1
    ensures Fit(SizesOf(ss[k].rows), ss[k].encodingSize, ss[k].limits)
  {
    OrderlyAt(ss, acts, k);
    assert Step(ss[k], acts[k], ss[k + 1]);
    assert Committed(ss[k]);
  }

  lemma {:induction false} RunsStay(s: State, a: Action, s': State)
    requires Orderly(s) && Step(s, a, s')
    ensures s.queued <= s'.queued && s.failed <= s'.failed
  {
    if a.FailAll? {
      assert Right(s.procs[a.p].cs, SizesOf(s.rows), s.encodingSize, s.limits);
    } else if LockStep(s, a, s') || HandlerStep(s, a, s') || TaskStep(s, a, s') {
      NoCheckMoves(s, a, s');
    }
  }

  lemma {:induction false} RunsStayAt(ss: seq<State>, acts: seq<Action>, i: nat, k: nat)
    requires Trace(ss, acts) && i < k < |ss| && OneRowEach(ss[k])
    ensures ss[i].queued <= ss[i + 1].queued && ss[i].failed <= ss[i + 1].failed
  {
    OneRowEarlier(ss, acts, i, k);
    OrderlyAt(ss, acts, i);
    assert Step(ss[i], acts[i], ss[i + 1]);
    RunsStay(ss[i], acts[i], ss[i + 1]);
  }

  lemma {:induction false} NeverBoth(s: State)
    requires RunsRight(s)
    ensures s.queued == {} || s.failed == {}
  {}

  lemma {:induction false} SetsGrow(sets: seq<set<nat>>, j: nat, k: nat)
    requires j <= k < |sets| && forall i: nat | i < k :: sets[i] <= sets[i + 1]
    ensures sets[j] <= sets[k]
    decreases k
  {
    if j < k {
      SetsGrow(sets, j, k - 1);
    }
  }

  /**
   A project queues runs or fails them, never both: a run that was queued is not failed by any later
   check, and a run that was failed before it was queued stays so.
   */
  lemma {:induction false} QueuedRunsAreNotFailed(ss: seq<State>, acts: seq<Action>, j: nat, k: nat)
    requires Trace(ss, acts) && j <= k < |ss| && OneRowEach(ss[k])
    ensures ss[j].queued <= ss[k].queued && ss[j].failed <= ss[k].failed
    ensures ss[k].queued == {} || ss[k].failed == {}
  {
    var queued := seq(|ss|, i requires 0 <= i < |ss| => ss[i].queued);
    var failed := seq(|ss|, i requires 0 <= i < |ss| => ss[i].failed);
    forall i: nat | i < k ensures queued[i] <= queued[i + 1] && failed[i] <= failed[i + 1] {
      RunsStayAt(ss, acts, i, k);
    }
    SetsGrow(queued, j, k);
    SetsGrow(failed, j, k);
    OrderlyAt(ss, acts, k);
    NeverBoth(ss[k]);
  }
}
