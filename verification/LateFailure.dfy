/**
 How a completed run comes to be failed, and a failed run completed, when a provider has a second
 upload row. Of three parties, the first has two rows after a repeated attempt and the second has
 one, so that a check counts three. It queues a run, which compares the data of these two. The third
 party then describes a raw upload, whose size is unknown until its data is seen. The count is still
 three, and the next check rejects the sizes and fails all runs.
 */
module LateFailure {
  import opened EncodingSizes
  import opened FinalStates
  import opened PartyCounts
  import R = RunLifecycle
  import opened Runs
  import opened SecondRow
  import U = UploadProtocol
  import opened Wrappers

  // ----- Two of three parties upload -----

  /** The project when the first two parties have uploaded, and the third stands as given. */
  function Three(third: U.Uploaded, row: seq<U.Row>, procs: map<nat, U.Process>): U.State {
    U.State([U.Done, U.Done, third], [[ReadyRow(1), ReadyRow(2)], [ReadyRow(3)], row], {}, {}, {}, None,
            Fresh().limits, procs)
  }

  function NoneYet(): U.State {
    U.State([U.NotStarted, U.NotStarted, U.NotStarted], [[], [], []], {}, {}, {}, None, Fresh().limits, map[])
  }

  /** The first party has uploaded, at the second attempt. */
  function FirstUploaded(): U.State {
    NoneYet().(uploaded := [U.Done, U.NotStarted, U.NotStarted], rows := [[ReadyRow(1), ReadyRow(2)], [], []])
  }

  lemma {:induction false} FirstFails() returns (s: U.State)
    ensures SecondRow.CanReach(s)
    ensures s == NoneYet().(uploaded := [U.Failed, U.NotStarted, U.NotStarted],
                            rows := [[U.Row(1, U.Pending, Some(8))], [], []])
  {
    assert U.Trace([NoneYet()], []);
    s := FailsUpload(NoneYet(), 0, 1);
    assert U.SetSizes([] + [U.NewRow(1)], 8) == [U.Row(1, U.Pending, Some(8))];
    assert s.uploaded == [U.Failed, U.NotStarted, U.NotStarted];
    assert s.rows == [[U.Row(1, U.Pending, Some(8))], [], []];
  }

  lemma {:induction false} FirstRetries() returns (s: U.State)
    ensures SecondRow.CanReach(s)
    ensures s == FirstUploaded().(procs := map[0 := U.Handler(0, 2, 8, None, false, U.Finished)])
  {
    var s0 := FirstFails();
    s := Uploads(s0, 0, 2);
    assert U.MakeReady([U.Row(1, U.Pending, Some(8))] + [U.NewRow(2)], 8) == [ReadyRow(1), ReadyRow(2)];
    assert s.uploaded == FirstUploaded().uploaded && s.rows == FirstUploaded().rows;
  }

  function ReadyOf(u: U.Uploaded, rows: seq<U.Row>): nat {
    if u.Done? then U.ReadyRows(rows) else 0
  }

  function UploadedOf(u: U.Uploaded, rows: seq<U.Row>): nat {
    if u.Done? then |rows| else 0
  }

  lemma {:induction false} SumOfThree(u: seq<U.Uploaded>, r: seq<seq<U.Row>>)
    requires |u| == |r| == 3
    ensures U.CountReady(u, r) == ReadyOf(u[0], r[0]) + ReadyOf(u[1], r[1]) + ReadyOf(u[2], r[2])
    ensures U.CountUploaded(u, r) == UploadedOf(u[0], r[0]) + UploadedOf(u[1], r[1]) + UploadedOf(u[2], r[2])
  {
    var u1, r1 := u[1..], r[1..];
    var u2, r2 := u1[1..], r1[1..];
    assert u2[1..] == [] && r2[1..] == [];
    assert U.CountReady(u2, r2) == ReadyOf(u[2], r[2]) && U.CountUploaded(u2, r2) == UploadedOf(u[2], r[2]);
    assert U.CountReady(u1, r1) == ReadyOf(u[1], r[1]) + ReadyOf(u[2], r[2]);
    assert U.CountUploaded(u1, r1) == UploadedOf(u[1], r[1]) + UploadedOf(u[2], r[2]);
  }

  lemma {:induction false} CountOfThree(s: U.State)
    requires |s.uploaded| == |s.rows| == 3 && s.uploaded[0].Done? && s.rows[0] == [ReadyRow(1), ReadyRow(2)]
    requires !s.uploaded[2].Done? && (s.uploaded[1].Done? ==> s.rows[1] == [ReadyRow(3)])
    ensures U.ClksUploaded(s, true) <==> s.uploaded[1].Done?
    ensures U.ClksUploaded(s, false) <==> s.uploaded[1].Done?
  {
    SumOfThree(s.uploaded, s.rows);
    assert s.rows[0][1..] == [ReadyRow(2)] && U.ReadyRows([ReadyRow(2)]) == 1 && U.ReadyRows([ReadyRow(3)]) == 1;
  }

  lemma {:induction false} FirstIsQuiet() returns (s: U.State)
    ensures SecondRow.CanReach(s) && s == FirstUploaded()
  {
    var s0 := FirstRetries();
    CountOfThree(s0);
    s := U.End(s0, 0);
    NextOfUpload(s0, U.HandlerReads(0), s);
    assert s.procs == map[];
  }

  lemma {:induction false} SecondUploads() returns (s: U.State)
    ensures SecondRow.CanReach(s)
    ensures s == Three(U.NotStarted, [], map[0 := U.Handler(1, 3, 8, None, false, U.Finished)])
  {
    var s0 := FirstIsQuiet();
    s := Uploads(s0, 1, 3);
    assert U.MakeReady([] + [U.NewRow(3)], 8) == [ReadyRow(3)];
    assert s.uploaded == [U.Done, U.Done, U.NotStarted];
    assert s.rows == [[ReadyRow(1), ReadyRow(2)], [ReadyRow(3)], []];
  }

  // ----- A check accepts them -----

  function OneCheck(cs: U.CheckStage): U.State {
    Three(U.NotStarted, [], map[1 := U.Check(cs)])
  }

  lemma {:induction false} CheckIsRoused() returns (s: U.State)
    ensures SecondRow.CanReach(s) && s == OneCheck(U.Waiting)
  {
    var s0 := SecondUploads();
    CountOfThree(s0);
    var s1 := U.With(s0, 0, U.Handler(1, 3, 8, None, false, U.Rousing));
    NextOfUpload(s0, U.HandlerReads(0), s1);
    s := U.With(U.End(s1, 0), 1, U.Check(U.Waiting));
    NextOfUpload(s1, U.HandlerTriggers(0, 1), s);
    assert s.procs == map[1 := U.Check(U.Waiting)];
  }

  lemma {:induction false} OneCheckMoves(cs: U.CheckStage, cs': U.CheckStage)
    ensures U.With(OneCheck(cs), 1, U.Check(cs')) == OneCheck(cs')
  {
    assert OneCheck(cs).procs[1 := U.Check(cs')] == map[1 := U.Check(cs')];
  }

  function Equal(): seq<seq<Option<nat>>> {
    [[Some(8), Some(8)], [Some(8)], []]
  }

  lemma {:induction false} EqualSizesFit()
    ensures U.SizesOf(OneCheck(U.Passed).rows) == Equal()
    ensures Verdict(Equal(), None, Fresh().limits).SizesAgree? && Recorded(Equal(), None, Fresh().limits) == Some(8)
  {
    assert U.RowSizes([ReadyRow(1), ReadyRow(2)]) == [Some(8), Some(8)] && U.RowSizes([ReadyRow(3)]) == [Some(8)];
    assert AllSizes(Equal()) == [Some(8), Some(8)] + AllSizes(Equal()[1..]);
    AgreeIffFit(Equal(), None, Fresh().limits);
    assert AllUniform(Equal(), Some(8));
  }

  lemma {:induction false} CheckPasses()
    ensures U.CheckStep(OneCheck(U.Waiting), U.CheckReads(1), OneCheck(U.Passed))
  {
    CountOfThree(OneCheck(U.Waiting));
    OneCheckMoves(U.Waiting, U.Passed);
  }

  lemma {:induction false} CheckReads()
    ensures U.CheckStep(OneCheck(U.Passed), U.ReadSizes(1), OneCheck(U.Sized(Equal())))
  {
    EqualSizesFit();
    OneCheckMoves(U.Passed, U.Sized(Equal()));
  }

  lemma {:induction false} CheckJudges()
    ensures U.CheckStep(OneCheck(U.Sized(Equal())), U.Judge(1), OneCheck(U.Accepted(Some(8))))
  {
    EqualSizesFit();
    OneCheckMoves(U.Sized(Equal()), U.Accepted(Some(8)));
  }

  lemma {:induction false} CheckAccepts() returns (s: U.State)
    ensures SecondRow.CanReach(s) && s == OneCheck(U.Accepted(Some(8)))
  {
    s := CheckIsRoused();
    CheckPasses();
    SecondRow.NextOfCheck(s, U.CheckReads(1), OneCheck(U.Passed));
    CheckReads();
    SecondRow.NextOfCheck(OneCheck(U.Passed), U.ReadSizes(1), OneCheck(U.Sized(Equal())));
    CheckJudges();
    s := OneCheck(U.Accepted(Some(8)));
    SecondRow.NextOfCheck(OneCheck(U.Sized(Equal())), U.Judge(1), s);
  }

  // ----- A run is posted and queued -----

  /** The check has queued run 7; the request that has posted the run is still going to trigger one, too. */
  function RunQueued(third: U.Uploaded, row: seq<U.Row>, procs: map<nat, U.Process>): U.State {
    Three(third, row, procs).(encodingSize := Some(8), queued := {7})
  }

  function Queued0(): U.State {
    RunQueued(U.NotStarted, [], map[2 := U.RunPost])
  }

  lemma {:induction false} QueuesTheRun(s: U.State)
    requires s == OneCheck(U.Accepted(Some(8))).(created := {7}, procs := s.procs)
    requires s.procs == map[1 := U.Check(U.Accepted(Some(8))), 2 := U.RunPost]
    ensures U.CheckStep(s, U.QueueAll(1), Queued0())
  {
    assert s.procs - {1} == map[2 := U.RunPost];
    assert s.queued + s.created == {7};
  }

  lemma {:induction false} RunIsQueued(pj: R.Project)
    ensures FinalStates.CanReach(pj, 7, World(Queued0(), R.JustQueued()))
  {
    var s0 := CheckAccepts();
    ProjectReached(pj, 7, s0);
    var s1 := U.With(s0.(created := {7}), 2, U.RunPost);
    assert s0.created + {7} == {7};
    NextOfProject(pj, 7, s0, R.Initial(), U.PostRun(2, 7), s1);
    R.RunIsQueued(pj);
    QueuesTheRun(s1);
    FinalStates.Next(pj, 7, World(s1, R.Initial()), Queueing(1, 1), World(Queued0(), R.JustQueued()));
  }

  /** The run compares the data of the two parties that are done. */
  lemma {:induction false} RunIsAtTheEnd(pj: R.Project)
    requires !pj.similarityScores && !pj.permutations && pj.total == 1
    ensures FinalStates.CanReach(pj, 7, World(Queued0(), R.AtTheEnd()))
  {
    RunIsQueued(pj);
    assert R.Todos([1]) == [R.Todo(1)] && R.SizeSum([R.Todo(1)]) == 1;
    TwoAreDone(Queued0());
    RunIsPacked(pj, 7, Queued0(), [1]);
    R.RunToTheEnd(pj);
    RunGoesOn(pj, 7, Queued0(), R.WithPackages([R.Todo(1)]), R.AtTheEnd());
  }

  lemma {:induction false} TwoAreDone(s: U.State)
    requires |s.uploaded| == 3 && s.uploaded[0].Done? && s.uploaded[1].Done?
    ensures CanPack(s)
  {
    assert s.uploaded[1..][0] == s.uploaded[1];
  }

  // ----- The third party describes a raw upload -----

  function ThirdAt(hs: U.HandlerStage): U.Process {
    U.Handler(2, 4, 8, Some(8), true, hs)
  }

  function Described0(): U.State {
    RunQueued(U.InProgress, [U.NewRow(4)], map[2 := U.RunPost, 3 := ThirdAt(U.Described)])
  }

  lemma {:induction false} ThirdBegins()
    ensures U.LockStep(Queued0(), U.Begin(3, 2, 4, 8, true),
                       RunQueued(U.InProgress, [], map[2 := U.RunPost, 3 := ThirdAt(U.Holding)]))
  {
    var s := Queued0();
    assert s.uploaded[2 := U.InProgress] == [U.Done, U.Done, U.InProgress];
    assert s.procs[3 := ThirdAt(U.Holding)] == map[2 := U.RunPost, 3 := ThirdAt(U.Holding)];
  }

  lemma {:induction false} ThirdDescribes()
    ensures U.HandlerStep(RunQueued(U.InProgress, [], map[2 := U.RunPost, 3 := ThirdAt(U.Holding)]), U.DescribeRaw(3),
                          Described0())
  {
    var s := RunQueued(U.InProgress, [], map[2 := U.RunPost, 3 := ThirdAt(U.Holding)]);
    assert s.rows[2] + [U.NewRow(4)] == [U.NewRow(4)];
    assert s.rows[2 := [U.NewRow(4)]] == Described0().rows;
    assert s.procs[3 := ThirdAt(U.Described)] == Described0().procs;
  }

  /** The check that the posted run has triggered stands here. */
  function Checking(cs: U.CheckStage): U.State {
    RunQueued(U.InProgress, [U.NewRow(4)], map[3 := ThirdAt(U.Described), 4 := U.Check(cs)])
  }

  lemma {:induction false} RunTriggers()
    ensures U.CheckStep(Described0(), U.RunTriggers(2, 4), Checking(U.Waiting))
  {
    assert (Described0().procs - {2})[4 := U.Check(U.Waiting)] == Checking(U.Waiting).procs;
  }

  lemma {:induction false} ChecksMove(cs: U.CheckStage, cs': U.CheckStage)
    ensures U.With(Checking(cs), 4, U.Check(cs')) == Checking(cs')
  {
    assert Checking(cs).procs[4 := U.Check(cs')] == Checking(cs').procs;
  }

  // ----- A check rejects the sizes -----

  function Mixed(): seq<seq<Option<nat>>> {
    [[Some(8), Some(8)], [Some(8)], [None]]
  }

  lemma {:induction false} MixedSizesDiffer()
    ensures U.SizesOf(Checking(U.Passed).rows) == Mixed()
    ensures Verdict(Mixed(), Some(8), Fresh().limits) == Mismatch(2)
  {
    assert U.RowSizes([ReadyRow(1), ReadyRow(2)]) == [Some(8), Some(8)] && U.RowSizes([ReadyRow(3)]) == [Some(8)];
    assert U.RowSizes([U.NewRow(4)]) == [None];
    assert AllSizes(Mixed()) == [Some(8), Some(8)] + AllSizes(Mixed()[1..]);
    var e := FirstOther(Mixed(), Some(8));
    assert None in Mixed()[2] && Uniform(Mixed()[0], Some(8)) && Uniform(Mixed()[1], Some(8));
    assert e.Some?;
    assert e.value == 2;
  }

  lemma {:induction false} StillCounted()
    ensures U.CheckStep(Checking(U.Waiting), U.CheckReads(4), Checking(U.Passed))
  {
    CountOfThree(Checking(U.Waiting));
    ChecksMove(U.Waiting, U.Passed);
  }

  lemma {:induction false} SizesAreRead()
    ensures U.CheckStep(Checking(U.Passed), U.ReadSizes(4), Checking(U.Sized(Mixed())))
  {
    MixedSizesDiffer();
    ChecksMove(U.Passed, U.Sized(Mixed()));
  }

  lemma {:induction false} SizesAreJudged()
    ensures U.CheckStep(Checking(U.Sized(Mixed())), U.Judge(4), Checking(U.CheckStage.Failing(None, [2])))
  {
    MixedSizesDiffer();
    ChecksMove(U.Sized(Mixed()), U.CheckStage.Failing(None, [2]));
  }

  /** It marks the upload of the third party as invalid, and is about to fail all runs. */
  function AboutToFail(): U.State {
    RunQueued(U.InProgress, [U.Row(4, U.Error, None)],
              map[3 := ThirdAt(U.Described), 4 := U.Check(U.CheckStage.Failing(None, []))])
  }

  lemma {:induction false} ThirdIsInvalid()
    ensures U.CheckStep(Checking(U.CheckStage.Failing(None, [2])), U.Invalidate(4), AboutToFail())
  {
    var s := Checking(U.CheckStage.Failing(None, [2]));
    assert U.SetAll(s.rows[2], U.Error) == [U.Row(4, U.Error, None)];
    assert s.rows[2 := [U.Row(4, U.Error, None)]] == AboutToFail().rows;
    assert [2][1..] == [];
    assert s.procs[4 := U.Check(U.CheckStage.Failing(None, []))] == AboutToFail().procs;
  }

  /** A step of an upload request or of a check, with the run where it is. */
  lemma {:induction false} Goes(pj: R.Project, s: U.State, r: R.State, a: U.Action, s': U.State)
    requires FinalStates.CanReach(pj, 7, World(s, r)) && !a.QueueAll? && !a.FailAll?
    requires U.LockStep(s, a, s') || U.HandlerStep(s, a, s') || U.CheckStep(s, a, s')
    ensures FinalStates.CanReach(pj, 7, World(s', r))
  {
    NextOfProject(pj, 7, s, r, a, s');
  }

  lemma {:induction false} ThirdIsDescribed(pj: R.Project, r: R.State)
    requires FinalStates.CanReach(pj, 7, World(Queued0(), r))
    ensures FinalStates.CanReach(pj, 7, World(Checking(U.Waiting), r))
  {
    var s := RunQueued(U.InProgress, [], map[2 := U.RunPost, 3 := ThirdAt(U.Holding)]);
    ThirdBegins();
    Goes(pj, Queued0(), r, U.Begin(3, 2, 4, 8, true), s);
    ThirdDescribes();
    Goes(pj, s, r, U.DescribeRaw(3), Described0());
    RunTriggers();
    Goes(pj, Described0(), r, U.RunTriggers(2, 4), Checking(U.Waiting));
  }

  lemma {:induction false} CheckRejects(pj: R.Project, r: R.State)
    requires FinalStates.CanReach(pj, 7, World(Checking(U.Waiting), r))
    ensures FinalStates.CanReach(pj, 7, World(AboutToFail(), r))
  {
    var failing := Checking(U.CheckStage.Failing(None, [2]));
    StillCounted();
    Goes(pj, Checking(U.Waiting), r, U.CheckReads(4), Checking(U.Passed));
    SizesAreRead();
    Goes(pj, Checking(U.Passed), r, U.ReadSizes(4), Checking(U.Sized(Mixed())));
    SizesAreJudged();
    Goes(pj, Checking(U.Sized(Mixed())), r, U.Judge(4), failing);
    ThirdIsInvalid();
    Goes(pj, failing, r, U.Invalidate(4), AboutToFail());
  }

  /** What is left of the project when the check has failed all runs. */
  function AllFailed(): U.State {
    U.End(AboutToFail().(failed := {7}, queued := {}), 4)
  }

  lemma {:induction false} AllAreFailed()
    ensures U.CheckStep(AboutToFail(), U.FailAll(4), AllFailed())
  {
    var s := AboutToFail();
    assert s.failed + s.created + s.queued == {7};
  }

  lemma {:induction false} TwoRows()
    ensures !OneRowEach(AboutToFail()) && !OneRowEach(AllFailed())
  {
    assert |AboutToFail().rows[0]| == 2 && |AllFailed().rows[0]| == 2;
  }

  /** From wherever the run has got by then, the check fails it. */
  lemma {:induction false} RunIsFailed(pj: R.Project, r: R.State)
    requires FinalStates.CanReach(pj, 7, World(Queued0(), r)) && r.lock.None?
    ensures FinalStates.CanReach(pj, 7, World(AboutToFail(), r))
    ensures FinalStates.Step(pj, 7, World(AboutToFail(), r), Failing(4), World(AllFailed(), r.(run := Errored)))
  {
    ThirdIsDescribed(pj, r);
    CheckRejects(pj, r);
    AllAreFailed();
  }

  function MarkedComplete(): R.State {
    R.Advance(R.AtTheEnd().(run := Completed), 1, R.Marked)
  }

  lemma {:induction false} RunCompletes(pj: R.Project)
    requires FinalStates.CanReach(pj, 7, World(Queued0(), R.AtTheEnd()))
    ensures FinalStates.CanReach(pj, 7, World(Queued0(), MarkedComplete()))
  {
    assert R.FinishStep(pj, R.AtTheEnd(), R.MarkComplete(1), MarkedComplete());
    var before, after := World(Queued0(), R.AtTheEnd()), World(Queued0(), MarkedComplete());
    FinalStates.Next(pj, 7, before, OnRun(R.MarkComplete(1)), after);
  }

  /** A completed run is marked as failed. */
  lemma {:induction false} CompletedRunFails() returns (pj: R.Project, w: World, m: Move, w': World)
    ensures FinalStates.CanReach(pj, 7, w) && w.run.run.Completed?
    ensures FinalStates.Step(pj, 7, w, m, w') && w'.run.run.Errored? && !OneRowEach(w.project)
  {
    pj, m := R.Project(false, false, 3, 1), Failing(4);
    RunIsAtTheEnd(pj);
    RunCompletes(pj);
    var r := MarkedComplete();
    RunIsFailed(pj, r);
    w, w' := World(AboutToFail(), r), World(AllFailed(), r.(run := Errored));
    TwoRows();
  }

  /** A run that was failed while it was about to be marked as complete. */
  function FailedAtTheEnd(): R.State {
    R.AtTheEnd().(run := Errored)
  }

  lemma {:induction false} RunFailsAtTheEnd(pj: R.Project)
    requires !pj.similarityScores && !pj.permutations && pj.total == 1
    ensures FinalStates.CanReach(pj, 7, World(AllFailed(), FailedAtTheEnd()))
  {
    RunIsAtTheEnd(pj);
    RunIsFailed(pj, R.AtTheEnd());
    FinalStates.Next(pj, 7, World(AboutToFail(), R.AtTheEnd()), Failing(4), World(AllFailed(), FailedAtTheEnd()));
  }

  /** A failed run is marked as complete. */
  lemma {:induction false} FailedRunCompletes() returns (pj: R.Project, w: World, m: Move, w': World)
    ensures FinalStates.CanReach(pj, 7, w) && w.run.run.Errored?
    ensures FinalStates.Step(pj, 7, w, m, w') && w'.run.run.Completed? && !OneRowEach(w.project)
  {
    pj, m := R.Project(false, false, 3, 1), OnRun(R.MarkComplete(1));
    RunFailsAtTheEnd(pj);
    var r := R.Advance(FailedAtTheEnd().(run := Completed), 1, R.Marked);
    assert R.FinishStep(pj, FailedAtTheEnd(), R.MarkComplete(1), r);
    w, w' := World(AllFailed(), FailedAtTheEnd()), World(AllFailed(), r);
    TwoRows();
  }
}
