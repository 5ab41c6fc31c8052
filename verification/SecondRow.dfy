/**
 What a second upload row of one provider does to a project, in histories that the upload protocol
 allows. An upload that fails after inserting its row and is then repeated leaves two rows.
 */
module SecondRow {
  import opened EncodingSizes
  import opened PartyCounts
  import opened UploadProtocol
  import opened Wrappers

  // ----- Runs that are never queued -----

  /** Will neither change an upload row, nor go on without a check that counts again. */
  predicate Harmless(proc: Process) {
    match proc
    case Handler(_, _, _, _, _, hs) => hs in {Finished, Rousing}
    case Background(_, _, _, external, ts) => ts.Triggering? || (ts.Saved? && !external)
    case UploadError(_, _) => false
    case RunPost => true
    case Check(cs) => cs.Waiting?
  }

  /** All data is ready, but some provider has a second row, and no process is going to change that. */
  ghost predicate Blocked(s: State) {
    Settled(s) && !OneRowEach(s) && forall p | p in s.procs :: Harmless(s.procs[p])
  }

  lemma {:induction false} UploadLeavesBlocked(s: State, a: Action, s': State)
    requires Blocked(s) && (LockStep(s, a, s') || HandlerStep(s, a, s'))
    ensures Blocked(s') && s'.created == s.created && s'.queued == s.queued
  {
    if !a.Begin? {
      assert Harmless(s.procs[a.p]);
    }
  }

  lemma {:induction false} TaskLeavesBlocked(s: State, a: Action, s': State)
    requires Blocked(s) && TaskStep(s, a, s')
    ensures Blocked(s') && s'.created == s.created && s'.queued == s.queued
  {
    assert Harmless(s.procs[a.p]);
  }

  lemma {:induction false} CheckLeavesBlocked(s: State, a: Action, s': State)
    requires Blocked(s) && CheckStep(s, a, s')
    ensures Blocked(s') && s.created <= s'.created && s'.queued == s.queued
  {
    ExtraRowBlocksChecks(s);
    if !a.DeliverCheck? && !a.PostRun? {
      assert Harmless(s.procs[a.p]);
    }
  }

  lemma {:induction false} StepLeavesBlocked(s: State, a: Action, s': State)
    requires Blocked(s) && Step(s, a, s')
    ensures Blocked(s') && s.created <= s'.created && s'.queued == s.queued
  {
    if CheckStep(s, a, s') {
      CheckLeavesBlocked(s, a, s');
    } else if TaskStep(s, a, s') {
      TaskLeavesBlocked(s, a, s');
    } else {
      UploadLeavesBlocked(s, a, s');
    }
  }

  /**
   Once all data is ready, a provider has a second row, and neither an upload request, an upload
   task nor a check that has gone ahead is under way, no run is queued any more, however many are
   posted and however often checks are triggered: in every continuation, created runs stay created.
   */
  lemma {:induction false} BlockedForGood(ss: seq<State>, acts: seq<Action>, k: nat)
    requires Path(ss, acts) && k < |ss| && Blocked(ss[0])
    ensures Blocked(ss[k]) && ss[0].created <= ss[k].created && ss[k].queued == ss[0].queued
    decreases k
  {
    if k > 0 {
      BlockedForGood(ss, acts, k - 1);
      assert Step(ss[k - 1], acts[k - 1], ss[k]);
      StepLeavesBlocked(ss[k - 1], acts[k - 1], ss[k]);
    }
  }

  /** In every continuation, the run is still created, and not queued. */
  ghost predicate NeverQueued(s: State, run: nat) {
    forall ss: seq<State>, acts | Path(ss, acts) && ss[0] == s ::
      run in ss[|acts|].created && run !in ss[|acts|].queued
  }

  // ----- Histories -----

  /** Some run of the protocol leads to this state. */
  ghost predicate CanReach(s: State) {
    exists ss, acts :: Trace(ss, acts) && ss[|acts|] == s
  }

  lemma {:induction false} Next(s: State, a: Action, s': State)
    requires CanReach(s) && Step(s, a, s')
    ensures CanReach(s')
  {
    var ss, acts :| Trace(ss, acts) && ss[|acts|] == s;
    assert Trace(ss + [s'], acts + [a]);
  }

  lemma {:induction false} NextOfUpload(s: State, a: Action, s': State)
    requires CanReach(s) && (LockStep(s, a, s') || HandlerStep(s, a, s'))
    ensures CanReach(s')
  {
    Next(s, a, s');
  }

  lemma {:induction false} NextOfCheck(s: State, a: Action, s': State)
    requires CanReach(s) && CheckStep(s, a, s')
    ensures CanReach(s')
  {
    Next(s, a, s');
  }

  /** A project of two parties without a size in its schema. */
  function Fresh(): State {
    State([NotStarted, NotStarted], [[], []], {}, {}, {}, None, Limits(None, 1, 1024), map[])
  }

  function ReadyRow(token: nat): Row {
    Row(token, Ready, Some(8))
  }

  /** Two rows for the first provider, none for the second. */
  function Doubled(): State {
    Fresh().(uploaded := [Done, NotStarted], rows := [[ReadyRow(1), ReadyRow(2)], []])
  }

  /** Provider `d` takes the lock and records a row. */
  lemma {:induction false} RecordsRow(s: State, d: nat, token: nat) returns (s': State)
    requires CanReach(s) && d < |s.uploaded| == |s.rows| && CanLock(s, d) && s.procs == map[]
    requires s.limits == Fresh().limits && (s.encodingSize == None || s.encodingSize == Some(8))
    ensures CanReach(s')
    ensures s' == SetRows(SetUploaded(s, d, InProgress), d, SetSizes(s.rows[d] + [NewRow(token)], 8))
                  .(procs := map[0 := Handler(d, token, 8, s.encodingSize, false, Inserted)])
  {
    var h := Handler(d, token, 8, s.encodingSize, false, Holding);
    var s1 := With(SetUploaded(s, d, InProgress), 0, h);
    NextOfUpload(s, Begin(0, d, token, 8, false), s1);
    s' := With(SetRows(s1, d, SetSizes(s.rows[d] + [NewRow(token)], 8)), 0, h.(hs := Inserted));
    NextOfUpload(s1, InsertRow(0), s');
    assert s'.procs == map[0 := h.(hs := Inserted)];
  }

  /** The upload of provider `d` fails after recording its row. */
  lemma {:induction false} FailsUpload(s: State, d: nat, token: nat) returns (s': State)
    requires CanReach(s) && d < |s.uploaded| == |s.rows| && CanLock(s, d) && s.procs == map[]
    requires s.limits == Fresh().limits && (s.encodingSize == None || s.encodingSize == Some(8))
    ensures CanReach(s')
    ensures s' == SetRows(SetUploaded(s, d, Failed), d, SetSizes(s.rows[d] + [NewRow(token)], 8))
  {
    var s1 := RecordsRow(s, d, token);
    s' := End(SetUploaded(s1, d, Failed), 0);
    NextOfUpload(s1, UploadProtocol.Action.Fail(0, false), s');
    var after := SetRows(SetUploaded(s, d, Failed), d, SetSizes(s.rows[d] + [NewRow(token)], 8));
    assert s'.uploaded == after.uploaded && s'.procs == map[];
  }

  /** An upload that failed after recording its row. */
  lemma {:induction false} FailedUpload(token: nat) returns (s: State)
    ensures CanReach(s)
    ensures s == Fresh().(uploaded := [Failed, NotStarted], rows := [[Row(token, Pending, Some(8))], []])
  {
    assert Trace([Fresh()], []);
    s := FailsUpload(Fresh(), 0, token);
    assert SetSizes([] + [NewRow(token)], 8) == [Row(token, Pending, Some(8))];
    assert s.uploaded == [Failed, NotStarted] && s.rows == [[Row(token, Pending, Some(8))], []];
  }

  /** Provider `d` uploads with success: its former row, if it has one, becomes ready, too. */
  lemma {:induction false} Uploads(s: State, d: nat, token: nat) returns (s': State)
    requires CanReach(s) && d < |s.uploaded| == |s.rows| && CanLock(s, d) && s.procs == map[]
    requires s.limits == Fresh().limits && (s.encodingSize == None || s.encodingSize == Some(8))
    ensures CanReach(s')
    ensures s' == SetRows(SetUploaded(s, d, Done), d, MakeReady(s.rows[d] + [NewRow(token)], 8))
                  .(procs := map[0 := Handler(d, token, 8, s.encodingSize, false, Finished)])
  {
    var h := Handler(d, token, 8, s.encodingSize, false, Stored);
    var s2 := RecordsRow(s, d, token);
    var s3 := With(SetRows(s2, d, MakeReady(s2.rows[d], 8)), 0, h);
    NextOfUpload(s2, StoreReady(0), s3);
    s' := With(SetUploaded(s3, d, Done), 0, h.(hs := Finished));
    NextOfUpload(s3, Finish(0), s');
    assert MakeReady(s2.rows[d], 8) == MakeReady(s.rows[d] + [NewRow(token)], 8);
    var after := SetRows(SetUploaded(s, d, Done), d, MakeReady(s.rows[d] + [NewRow(token)], 8));
    assert s'.uploaded == after.uploaded && s'.rows == after.rows && s'.procs == map[0 := h.(hs := Finished)];
  }

  /** A failed upload is repeated with success. */
  lemma {:induction false} RetriedUpload() returns (s: State)
    ensures CanReach(s) && s == Doubled().(procs := map[0 := Handler(0, 2, 8, None, false, Finished)])
  {
    var s0 := FailedUpload(1);
    s := Uploads(s0, 0, 2);
    assert MakeReady([Row(1, Pending, Some(8))] + [NewRow(2)], 8) == [ReadyRow(1), ReadyRow(2)];
    assert s.uploaded == [Done, NotStarted] && s.rows == [[ReadyRow(1), ReadyRow(2)], []];
  }

  lemma {:induction false} SecondRowCounts(s: State)
    requires s.uploaded == [Done, NotStarted] && s.rows == [[ReadyRow(1), ReadyRow(2)], []]
    ensures ClksUploaded(s, true) && ClksUploaded(s, false)
  {
    assert s.uploaded[1..] == [NotStarted] && s.rows[1..] == [[]];
    assert s.uploaded[1..][1..] == [] && s.rows[1..][1..] == [];
    assert CountReady([NotStarted], [[]]) == 0 && CountUploaded([NotStarted], [[]]) == 0;
    assert s.rows[0][1..] == [ReadyRow(2)];
    assert ReadyRows([ReadyRow(2)]) == 1;
  }

  /** Then a check finds two rows for two parties. */
  lemma {:induction false} SecondRowPassesForAParty() returns (s: State)
    ensures CanReach(s) && s == Doubled().(procs := map[1 := Check(Passed)])
  {
    var s1 := RetriedUpload();
    SecondRowCounts(s1);
    var s2 := With(s1, 0, Handler(0, 2, 8, None, false, Rousing));
    NextOfUpload(s1, HandlerReads(0), s2);
    var s3 := With(End(s2, 0), 1, Check(Waiting));
    NextOfUpload(s2, HandlerTriggers(0, 1), s3);
    SecondRowCounts(s3);
    s := With(s3, 1, Check(Passed));
    NextOfCheck(s3, CheckReads(1), s);
    assert s.procs == map[1 := Check(Passed)];
  }

  /** The sizes of both rows agree. */
  lemma {:induction false} DoubledSizesFit()
    ensures SizesOf(Doubled().rows) == [[Some(8), Some(8)], []]
    ensures Verdict([[Some(8), Some(8)], []], None, Fresh().limits).SizesAgree?
    ensures Recorded([[Some(8), Some(8)], []], None, Fresh().limits) == Some(8)
  {
    var sizes: seq<seq<Option<nat>>> := [[Some(8), Some(8)], []];
    assert RowSizes(Doubled().rows[0]) == [Some(8), Some(8)] && RowSizes(Doubled().rows[1]) == [];
    var rest := sizes[1..];
    assert rest[0] == [] && rest[1..] == [];
    assert AllSizes(rest) == [];
    assert AllSizes(sizes) == sizes[0] + [];
    assert AllUniform(sizes, Some(8));
    AgreeIffFit(sizes, None, Fresh().limits);
  }

  /** And accepts them. */
  lemma {:induction false} SecondRowIsAccepted() returns (s: State)
    ensures CanReach(s) && s == Doubled().(procs := map[1 := Check(Accepted(Some(8)))])
  {
    var s0 := SecondRowPassesForAParty();
    DoubledSizesFit();
    var s1 := With(s0, 1, Check(Sized([[Some(8), Some(8)], []])));
    NextOfCheck(s0, ReadSizes(1), s1);
    s := With(s1, 1, Check(Accepted(Some(8))));
    NextOfCheck(s1, Judge(1), s);
    assert s.procs == map[1 := Check(Accepted(Some(8)))];
  }

  /** A run is queued although one of the two parties has not uploaded anything. */
  lemma {:induction false} StartsTooEarly() returns (s: State)
    ensures CanReach(s) && Parties(s) == |s.rows| == 2
    ensures s.queued != {} && s.uploaded[1].NotStarted? && s.rows[1] == []
  {
    var s0 := SecondRowIsAccepted();
    var s1 := With(s0.(created := s0.created + {7}), 2, RunPost);
    NextOfCheck(s0, PostRun(2, 7), s1);
    s := End(s1.(encodingSize := Some(8), queued := s1.queued + s1.created, created := {}), 1);
    NextOfCheck(s1, QueueAll(1), s);
    assert 7 in s.queued;
  }

  /** The check finds no runs and ends. */
  lemma {:induction false} QuietWithTwoRows() returns (s: State)
    ensures CanReach(s) && s == Doubled().(encodingSize := Some(8))
  {
    var s0 := SecondRowIsAccepted();
    s := End(s0.(encodingSize := Some(8)), 1);
    NextOfCheck(s0, QueueAll(1), s);
    assert s.procs == map[];
  }

  /** Both parties have uploaded, the first with two rows. */
  function Complete(): State {
    Fresh().(uploaded := [Done, Done], rows := [[ReadyRow(1), ReadyRow(2)], [ReadyRow(3)]], encodingSize := Some(8))
  }

  /** The other party uploads while the first has two rows: all data is ready. */
  lemma {:induction false} OtherUploads() returns (s: State)
    ensures CanReach(s) && s == Complete().(procs := map[0 := Handler(1, 3, 8, Some(8), false, Finished)])
  {
    var s0 := QuietWithTwoRows();
    s := Uploads(s0, 1, 3);
    assert MakeReady([] + [NewRow(3)], 8) == [ReadyRow(3)];
    assert s.uploaded == [Done, Done] && s.rows == [[ReadyRow(1), ReadyRow(2)], [ReadyRow(3)]];
  }

  lemma {:induction false} SettledButBlocked(s: State)
    requires s.uploaded == [Done, Done] && s.rows == [[ReadyRow(1), ReadyRow(2)], [ReadyRow(3)]]
    ensures Settled(s) && !OneRowEach(s) && !ClksUploaded(s, true) && !ClksUploaded(s, false)
  {
    assert |s.rows[0]| == 2;
    ExtraRowBlocksChecks(s);
  }

  /** That upload triggers no check, and a run is posted. */
  lemma {:induction false} RunIsPosted() returns (s: State)
    ensures CanReach(s) && s == Complete().(created := {8}, procs := map[0 := RunPost])
  {
    var s0 := OtherUploads();
    SettledButBlocked(s0);
    var s1 := End(s0, 0);
    NextOfUpload(s0, HandlerReads(0), s1);
    assert s1.procs == map[];
    s := With(s1.(created := s1.created + {8}), 0, RunPost);
    NextOfCheck(s1, PostRun(0, 8), s);
    assert s.created == {8} && s.procs == map[0 := RunPost];
  }

  /** The check for it finds three rows for two parties. */
  lemma {:induction false} RunIsLeftBehind() returns (s: State)
    ensures CanReach(s) && s == Complete().(created := {8})
  {
    var s0 := RunIsPosted();
    var s1 := With(End(s0, 0), 1, Check(Waiting));
    NextOfCheck(s0, RunTriggers(0, 1), s1);
    SettledButBlocked(s1);
    s := End(s1, 1);
    NextOfCheck(s1, CheckReads(1), s);
    assert s.procs == map[];
  }

  /** A created run is left behind for good, with all data ready and nothing under way. */
  lemma {:induction false} LostWakeUp() returns (s: State, run: nat)
    ensures CanReach(s) && Settled(s) && run in s.created && s.procs == map[]
    ensures NeverQueued(s, run)
  {
    s := RunIsLeftBehind();
    run := 8;
    SettledButBlocked(s);
    forall ss: seq<State>, acts | Path(ss, acts) && ss[0] == s
      ensures run in ss[|acts|].created && run !in ss[|acts|].queued
    {
      BlockedForGood(ss, acts, |acts|);
    }
  }
}
