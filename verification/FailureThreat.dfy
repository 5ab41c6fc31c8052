/**
 When a completed run can still be failed. Once no upload can change any more, this is so if and only
 if some check has rejected the sizes, or may come to judge sizes that it rejects. While some provider
 is not done, it is so whenever the count of ready uploads equals the number of parties.
 */
module FailureThreat {
  import opened Collections
  import opened EncodingSizes
  import F = FinalStates
  import opened PartyCounts
  import R = RunLifecycle
  import opened Runs
  import opened SecondRow
  import opened SizeAgreement
  import opened UploadProtocol
  import opened WakeUp
  import opened Wrappers

  // ----- What checks may come to -----

  /** Every provider is done, and no process changes upload rows but a check that has rejected them. */
  ghost predicate Closed(s: State) {
    && |s.uploaded| == |s.rows|
    && (forall d: nat | d < |s.uploaded| :: s.uploaded[d].Done?)
    && forall p | p in s.procs :: Harmless(s.procs[p]) || s.procs[p].Check?
  }

  /** Nor will the size of the project be chosen any more. */
  ghost predicate Fixed(s: State) {
    Closed(s) && s.encodingSize.Some?
  }

  predicate Rejects(sizes: seq<seq<Option<nat>>>, project: Option<nat>, limits: Limits) {
    var verdict := Verdict(sizes, project, limits);
    !verdict.SizesAgree? && !verdict.Crash?
  }

  ghost predicate SomeCheck(s: State, cs: CheckStage) {
    exists p | p in s.procs :: s.procs[p] == Check(cs)
  }

  ghost predicate SomeRejection(s: State) {
    exists p | p in s.procs :: s.procs[p].Check? && s.procs[p].cs.Failing?
  }

  /** The size of the project, or one that a check is about to record for it. */
  ghost predicate MayRecord(s: State, size: Option<nat>) {
    size == s.encodingSize || (size.Some? && SomeCheck(s, Accepted(size)))
  }

  /** The sizes that a check has read, or may still read. */
  ghost predicate MayJudge(s: State, sizes: seq<seq<Option<nat>>>)
    requires |s.uploaded| == |s.rows|
  {
    SomeCheck(s, Sized(sizes)) || (sizes == SizesOf(s.rows) && (ClksUploaded(s, true) || SomeCheck(s, Passed)))
  }

  ghost predicate Threat(s: State)
    requires |s.uploaded| == |s.rows|
  {
    SomeRejection(s) || exists sizes, size :: MayJudge(s, sizes) && MayRecord(s, size) && Rejects(sizes, size, s.limits)
  }

  // ----- Without a threat, no check ever rejects -----

  /** Whatever checks may come to was possible before. */
  ghost predicate NoNewThreat(s: State, s': State)
    requires |s.uploaded| == |s.rows| && |s'.uploaded| == |s'.rows|
  {
    && s'.limits == s.limits && (SomeRejection(s') ==> SomeRejection(s))
    && (forall size | MayRecord(s', size) :: MayRecord(s, size))
    && forall sizes | MayJudge(s', sizes) :: MayJudge(s, sizes)
  }

  lemma {:induction false} UploadsAddNoThreat(s: State, a: Action, s': State)
    requires Fixed(s) && (LockStep(s, a, s') || HandlerStep(s, a, s'))
    ensures Fixed(s') && s'.rows == s.rows && s'.uploaded == s.uploaded && s'.encodingSize == s.encodingSize
    ensures s'.limits == s.limits
  {}

  lemma {:induction false} TasksAddNoThreat(s: State, a: Action, s': State)
    requires Fixed(s) && TaskStep(s, a, s')
    ensures Fixed(s') && s'.rows == s.rows && s'.uploaded == s.uploaded && s'.encodingSize == s.encodingSize
    ensures s'.limits == s.limits
  {}

  /** Checks that are past their count are the same, and so is all that they look at. */
  lemma {:induction false} SameThreat(s: State, s': State)
    requires |s.uploaded| == |s.rows| && s'.rows == s.rows && s'.uploaded == s.uploaded
    requires s'.encodingSize == s.encodingSize && s'.limits == s.limits
    requires forall q | q in s'.procs && s'.procs[q].Check? && !s'.procs[q].cs.Waiting? ::
               q in s.procs && s.procs[q] == s'.procs[q]
    ensures NoNewThreat(s, s')
  {}

  /** A check that moves from one stage to another. */
  lemma {:induction false} MovedCheck(s: State, s': State, p: nat, cs: CheckStage)
    requires |s.uploaded| == |s.rows| && s'.rows == s.rows && s'.uploaded == s.uploaded
    requires s'.encodingSize == s.encodingSize && s'.limits == s.limits && s'.procs == s.procs[p := Check(cs)]
    requires cs.Sized? ==> MayJudge(s, cs.sizes)
    requires cs.Passed? ==> ClksUploaded(s, true)
    requires !cs.Failing? && (cs.Accepted? ==> cs.record == None)
    ensures NoNewThreat(s, s')
  {}

  lemma {:induction false} JudgedWithoutThreat(s: State, p: nat, s': State)
    requires Fixed(s) && !Threat(s) && CheckStep(s, Judge(p), s')
    ensures s' == End(s, p) || s' == With(s, p, Check(Accepted(None)))
  {
    var sizes := s.procs[p].cs.sizes;
    assert s.procs[p] == Check(Sized(sizes));
    assert MayJudge(s, sizes) && MayRecord(s, s.encodingSize);
  }

  lemma {:induction false} RecordedBefore(s: State, p: nat, s': State)
    requires Fixed(s) && CheckStep(s, QueueAll(p), s')
    ensures NoNewThreat(s, s') && Fixed(s')
  {
    assert s.procs[p] == Check(Accepted(s.procs[p].cs.record));
  }

  lemma {:induction false} ChecksAddNoThreat(s: State, a: Action, s': State)
    requires Fixed(s) && !Threat(s) && CheckStep(s, a, s')
    ensures Fixed(s') && NoNewThreat(s, s') && !a.FailAll?
  {
    match a
    case CheckReads(p) =>
      if ClksUploaded(s, true) {
        MovedCheck(s, s', p, Passed);
      } else {
        SameThreat(s, s');
      }
    case ReadSizes(p) =>
      assert SomeCheck(s, Passed);
      MovedCheck(s, s', p, Sized(SizesOf(s.rows)));
    case Judge(p) =>
      JudgedWithoutThreat(s, p, s');
      if p in s'.procs {
        MovedCheck(s, s', p, Accepted(None));
      } else {
        SameThreat(s, s');
      }
    case QueueAll(p) => RecordedBefore(s, p, s');
    case _ => OthersAddNoThreat(s, a, s');
  }

  lemma {:induction false} OthersAddNoThreat(s: State, a: Action, s': State)
    requires Fixed(s) && !Threat(s) && CheckStep(s, a, s')
    requires !a.CheckReads? && !a.ReadSizes? && !a.Judge? && !a.QueueAll?
    ensures Fixed(s') && NoNewThreat(s, s') && !a.FailAll?
  {
    assert !SomeRejection(s);
    if !a.Invalidate? && !a.FailAll? {
      SameThreat(s, s');
    }
  }

  lemma {:induction false} StillNoThreat(s: State, s': State)
    requires |s.uploaded| == |s.rows| && |s'.uploaded| == |s'.rows| && NoNewThreat(s, s') && !Threat(s)
    ensures !Threat(s')
  {}

  lemma {:induction false} StepWithoutThreat(s: State, a: Action, s': State)
    requires Fixed(s) && !Threat(s) && Step(s, a, s')
    ensures Fixed(s') && !Threat(s') && !a.FailAll?
  {
    if CheckStep(s, a, s') {
      ChecksAddNoThreat(s, a, s');
    } else {
      if TaskStep(s, a, s') {
        TasksAddNoThreat(s, a, s');
      } else {
        UploadsAddNoThreat(s, a, s');
      }
      NoCheckMoves(s, a, s');
      SameThreat(s, s');
    }
    StillNoThreat(s, s');
  }

  // ----- What holds in every history -----

  /** Checks look at the providers that there are, and a check that has accepted sizes knows one to record. */
  ghost predicate CheckOk(cs: CheckStage, parties: nat, project: Option<nat>) {
    match cs
    case Sized(sizes) => |sizes| == parties
    case Accepted(record) => record.Some? || project.Some?
    case Failing(_, todo) => forall d | d in todo :: d < parties
    case _ => true
  }

  ghost predicate ChecksOk(s: State) {
    |s.uploaded| == |s.rows| && forall p | CheckAt(s, p) :: CheckOk(s.procs[p].cs, |s.rows|, s.encodingSize)
  }

  lemma {:induction false} OwnersInRange(sizes: seq<seq<Option<nat>>>, first: nat)
    ensures forall d | d in Owners(sizes, first) :: d < first + |sizes|
  {
    if sizes != [] {
      OwnersInRange(sizes[1..], first + 1);
    }
  }

  lemma {:induction false} InvalidInRange(sizes: seq<seq<Option<nat>>>, project: Option<nat>, limits: Limits)
    ensures forall d | d in Invalid(sizes, Verdict(sizes, project, limits)) :: d < |sizes|
  {
    OwnersInRange(sizes, 0);
  }

  lemma {:induction false} JudgedOk(s: State, p: nat, s': State)
    requires ChecksOk(s) && CheckStep(s, Judge(p), s')
    ensures ChecksOk(s')
  {
    InvalidInRange(s.procs[p].cs.sizes, s.encodingSize, s.limits);
  }

  lemma {:induction false} InvalidatedOk(s: State, p: nat, s': State)
    requires ChecksOk(s) && CheckStep(s, Invalidate(p), s')
    ensures ChecksOk(s') && s'.encodingSize == s.encodingSize
  {
    var todo := s.procs[p].cs.todo;
    assert CheckOk(s.procs[p].cs, |s.rows|, s.encodingSize);
    assert forall d | d in todo[1..] :: d in todo;
  }

  lemma {:induction false} ChecksStayOk(s: State, a: Action, s': State)
    requires ChecksOk(s) && CheckStep(s, a, s')
    ensures ChecksOk(s') && (a.QueueAll? || s.encodingSize.Some? ==> s'.encodingSize.Some?)
  {
    if a.Judge? {
      JudgedOk(s, a.p, s');
    } else if a.Invalidate? {
      InvalidatedOk(s, a.p, s');
    } else if !a.PostRun? && !a.DeliverCheck? {
      assert CheckAt(s, a.p) ==> CheckOk(s.procs[a.p].cs, |s.rows|, s.encodingSize);
    }
  }

  lemma {:induction false} UploadsLeaveSize(s: State, a: Action, s': State)
    requires LockStep(s, a, s') || HandlerStep(s, a, s') || TaskStep(s, a, s')
    ensures s'.encodingSize == s.encodingSize && |s'.rows| == |s.rows| && |s'.uploaded| == |s.uploaded|
  {}

  lemma {:induction false} StepKeepsChecksOk(s: State, a: Action, s': State)
    requires ChecksOk(s) && Step(s, a, s')
    ensures ChecksOk(s') && (a.QueueAll? || s.encodingSize.Some? ==> s'.encodingSize.Some?)
  {
    if CheckStep(s, a, s') {
      ChecksStayOk(s, a, s');
    } else {
      UploadsLeaveSize(s, a, s');
      NoCheckMoves(s, a, s');
    }
  }

  /** The run was queued, and the project knows. */
  ghost predicate IsKnown(s: State, id: nat) {
    id in s.queued + s.failed && id !in s.created && s.encodingSize.Some?
  }

  lemma {:induction false} StaysKnown(s: State, id: nat, a: Action, s': State)
    requires ChecksOk(s) && Step(s, a, s') && (IsKnown(s, id) || (a.QueueAll? && id in s.created))
    ensures IsKnown(s', id)
  {
    StepKeepsChecksOk(s, a, s');
    if LockStep(s, a, s') || HandlerStep(s, a, s') || TaskStep(s, a, s') {
      NoCheckMoves(s, a, s');
    }
  }

  ghost predicate Kept(id: nat, w: F.World) {
    && |w.project.uploaded| >= 2 && ChecksOk(w.project) && SizesKnown(w.project)
    && (w.run.timesQueued > 0 ==> IsKnown(w.project, id))
  }

  lemma {:induction false} ProjectKeeps(id: nat, w: F.World, a: Action, w': F.World)
    requires Kept(id, w) && Step(w.project, a, w'.project)
    requires w'.run.timesQueued > w.run.timesQueued ==> a.QueueAll? && id in w.project.created
    requires w.run.timesQueued > 0 || w'.run.timesQueued == 0 || w'.run.timesQueued > w.run.timesQueued
    ensures Kept(id, w')
  {
    RowsAreKept(w.project, a, w'.project);
    StepKeepsChecksOk(w.project, a, w'.project);
    StepKeepsSizesKnown(w.project, a, w'.project);
    if w'.run.timesQueued > 0 {
      StaysKnown(w.project, id, a, w'.project);
    }
  }

  lemma {:induction false} StepKeeps(pj: R.Project, id: nat, w: F.World, m: F.Move, w': F.World)
    requires Kept(id, w) && F.Step(pj, id, w, m, w')
    ensures Kept(id, w')
  {
    match m
    case OnProject(a) => ProjectKeeps(id, w, a, w');
    case OnRun(b) => R.CountStep(pj, w.run, b, w'.run);
    case Queueing(p, q) => ProjectKeeps(id, w, QueueAll(p), w');
    case Failing(p) => ProjectKeeps(id, w, FailAll(p), w');
  }

  lemma {:induction false} AlwaysKept(pj: R.Project, id: nat, ws: seq<F.World>, ms: seq<F.Move>, k: nat)
    requires F.Trace(pj, id, ws, ms) && k < |ws|
    ensures Kept(id, ws[k]) && F.Inv(pj, id, ws[k])
    decreases k
  {
    F.Reachable(pj, id, ws, ms, k);
    if k > 0 {
      AlwaysKept(pj, id, ws, ms, k - 1);
      StepKeeps(pj, id, ws[k - 1], ms[k - 1], ws[k]);
    }
  }

  // ----- With a threat, a completed run can be failed -----

  /** Some continuation fails the run. */
  ghost predicate CanFail(pj: R.Project, id: nat, w: F.World) {
    exists ws: seq<F.World>, ms :: F.Path(pj, id, ws, ms) && ws[0] == w && ws[|ms|].run.run.Errored?
  }

  lemma {:induction false} FailsAfter(pj: R.Project, id: nat, w: F.World, m: F.Move, w': F.World)
    requires F.Step(pj, id, w, m, w') && CanFail(pj, id, w')
    ensures CanFail(pj, id, w)
  {
    var ws: seq<F.World>, ms :| F.Path(pj, id, ws, ms) && ws[0] == w' && ws[|ms|].run.run.Errored?;
    StepBefore(pj, id, w, m, ws, ms);
    assert ([w] + ws)[|[m] + ms|] == ws[|ms|];
  }

  lemma {:induction false} StepBefore(pj: R.Project, id: nat, w: F.World, m: F.Move, ws: seq<F.World>, ms: seq<F.Move>)
    requires F.Path(pj, id, ws, ms) && F.Step(pj, id, w, m, ws[0])
    ensures F.Path(pj, id, [w] + ws, [m] + ms)
  {
    forall i | 0 <= i < |[m] + ms| ensures F.Step(pj, id, ([w] + ws)[i], ([m] + ms)[i], ([w] + ws)[i + 1]) {
      if i > 0 {
        assert F.Step(pj, id, ws[i - 1], ms[i - 1], ws[i]);
      }
    }
  }

  /** A run that checks can fail, in a project whose checks are in order. */
  ghost predicate Exposed(id: nat, s: State, r: R.State) {
    ChecksOk(s) && IsKnown(s, id) && r.lock.None?
  }

  lemma {:induction false} FirstStep(pj: R.Project, id: nat, s: State, r: R.State, a: Action, s': State)
    requires Exposed(id, s, r) && Step(s, a, s') && !a.FailAll?
    ensures Exposed(id, s', r) && (CanFail(pj, id, F.World(s', r)) ==> CanFail(pj, id, F.World(s, r)))
  {
    StepKeepsChecksOk(s, a, s');
    StaysKnown(s, id, a, s');
    if CanFail(pj, id, F.World(s', r)) {
      FailsAfter(pj, id, F.World(s, r), F.OnProject(a), F.World(s', r));
    }
  }

  lemma {:induction false} FailsNow(pj: R.Project, id: nat, s: State, r: R.State, p: nat, s': State)
    requires Exposed(id, s, r) && CheckStep(s, FailAll(p), s')
    ensures CanFail(pj, id, F.World(s, r))
  {
    var w, w' := F.World(s, r), F.World(s', r.(run := Errored));
    assert F.Step(pj, id, w, F.Failing(p), w');
    assert F.Path(pj, id, [w'], []);
    assert [w'][0].run.run.Errored?;
    assert CanFail(pj, id, w');
    FailsAfter(pj, id, w, F.Failing(p), w');
  }

  lemma {:induction false} RejectionFails(pj: R.Project, id: nat, s: State, r: R.State, p: nat)
    requires Exposed(id, s, r) && CheckAt(s, p) && s.procs[p].cs.Failing?
    ensures CanFail(pj, id, F.World(s, r))
    decreases |s.procs[p].cs.todo|
  {
    var c := s.procs[p].cs;
    if c.todo == [] {
      var all := s.failed + s.created + s.queued;
      var s' := End(SetEncodingSize(s, c.record).(failed := all, created := {}, queued := {}), p);
      FailsNow(pj, id, s, r, p, s');
    } else {
      assert CheckOk(c, |s.rows|, s.encodingSize) && c.todo[0] in c.todo;
      var rows := SetAll(s.rows[c.todo[0]], RowState.Error);
      var s' := With(SetRows(s, c.todo[0], rows), p, Check(c.(todo := c.todo[1..])));
      FirstStep(pj, id, s, r, Invalidate(p), s');
      RejectionFails(pj, id, s', r, p);
    }
  }

  /** A check that judges sizes that it rejects. */
  lemma {:induction false} JudgingFails(pj: R.Project, id: nat, s: State, r: R.State, p: nat)
    requires Exposed(id, s, r) && CheckAt(s, p) && s.procs[p].cs.Sized?
    requires Rejects(s.procs[p].cs.sizes, s.encodingSize, s.limits)
    ensures CanFail(pj, id, F.World(s, r))
  {
    var s' := Judged(s, p, s.procs[p].cs.sizes);
    FirstStep(pj, id, s, r, Judge(p), s');
    RejectionFails(pj, id, s', r, p);
  }

  /** A check that has passed its count. */
  lemma {:induction false} PassingFails(pj: R.Project, id: nat, s: State, r: R.State, p: nat)
    requires Exposed(id, s, r) && At(s, p, Check(Passed)) && Rejects(SizesOf(s.rows), s.encodingSize, s.limits)
    ensures CanFail(pj, id, F.World(s, r))
  {
    var s' := With(s, p, Check(Sized(SizesOf(s.rows))));
    FirstStep(pj, id, s, r, ReadSizes(p), s');
    JudgingFails(pj, id, s', r, p);
  }

  /** A check that is delivered once more. */
  lemma {:induction false} CountingFails(pj: R.Project, id: nat, s: State, r: R.State)
    requires Exposed(id, s, r) && ClksUploaded(s, true) && Rejects(SizesOf(s.rows), s.encodingSize, s.limits)
    ensures CanFail(pj, id, F.World(s, r))
  {
    var q := NewId(s.procs.Keys);
    var s' := With(s, q, Check(Waiting));
    FirstStep(pj, id, s, r, DeliverCheck(q), s');
    WaitingFails(pj, id, s', r, q);
  }

  lemma {:induction false} WaitingFails(pj: R.Project, id: nat, s: State, r: R.State, p: nat)
    requires Exposed(id, s, r) && At(s, p, Check(Waiting)) && ClksUploaded(s, true)
    requires Rejects(SizesOf(s.rows), s.encodingSize, s.limits)
    ensures CanFail(pj, id, F.World(s, r))
  {
    var s' := With(s, p, Check(Passed));
    FirstStep(pj, id, s, r, CheckReads(p), s');
    PassingFails(pj, id, s', r, p);
  }

  lemma {:induction false} RejectedFails(pj: R.Project, id: nat, s: State, r: R.State, sizes: seq<seq<Option<nat>>>)
    requires Exposed(id, s, r) && MayJudge(s, sizes) && Rejects(sizes, s.encodingSize, s.limits)
    ensures CanFail(pj, id, F.World(s, r))
  {
    if SomeCheck(s, Sized(sizes)) {
      var p :| p in s.procs && s.procs[p] == Check(Sized(sizes));
      JudgingFails(pj, id, s, r, p);
    } else if SomeCheck(s, Passed) {
      var p :| p in s.procs && s.procs[p] == Check(Passed);
      PassingFails(pj, id, s, r, p);
    } else {
      CountingFails(pj, id, s, r);
    }
  }

  /** First, a check that has accepted sizes records another size for the project. */
  lemma {:induction false} RecordingFails(pj: R.Project, id: nat, s: State, r: R.State, p: nat,
                                          sizes: seq<seq<Option<nat>>>)
    requires Exposed(id, s, r) && MayJudge(s, sizes) && CheckAt(s, p) && s.procs[p].cs.Accepted?
    requires s.procs[p].cs.record.Some? && Rejects(sizes, s.procs[p].cs.record, s.limits)
    ensures CanFail(pj, id, F.World(s, r))
  {
    var s' := End(s.(encodingSize := s.procs[p].cs.record, queued := s.queued + s.created, created := {}), p);
    FirstStep(pj, id, s, r, QueueAll(p), s');
    StillJudges(s, p, s', sizes);
    RejectedFails(pj, id, s', r, sizes);
  }

  lemma {:induction false} StillJudges(s: State, p: nat, s': State, sizes: seq<seq<Option<nat>>>)
    requires |s.uploaded| == |s.rows| && MayJudge(s, sizes) && CheckAt(s, p) && s.procs[p].cs.Accepted?
    requires s'.procs == s.procs - {p} && s'.uploaded == s.uploaded && s'.rows == s.rows
    ensures MayJudge(s', sizes)
  {
    if SomeCheck(s, Sized(sizes)) {
      var q :| q in s.procs && s.procs[q] == Check(Sized(sizes));
      assert q in s'.procs;
    }
    if SomeCheck(s, Passed) {
      var q :| q in s.procs && s.procs[q] == Check(Passed);
      assert q in s'.procs;
    }
  }

  lemma {:induction false} ThreatFails(pj: R.Project, id: nat, s: State, r: R.State)
    requires Exposed(id, s, r) && Threat(s)
    ensures CanFail(pj, id, F.World(s, r))
  {
    if SomeRejection(s) {
      var p :| p in s.procs && s.procs[p].Check? && s.procs[p].cs.Failing?;
      RejectionFails(pj, id, s, r, p);
    } else {
      var sizes, size :| MayJudge(s, sizes) && MayRecord(s, size) && Rejects(sizes, size, s.limits);
      if size == s.encodingSize {
        RejectedFails(pj, id, s, r, sizes);
      } else {
        var p :| p in s.procs && s.procs[p] == Check(Accepted(size));
        RecordingFails(pj, id, s, r, p, sizes);
      }
    }
  }

  // ----- Without a threat, it cannot -----

  lemma {:induction false} StaysCompleted(pj: R.Project, id: nat, w: F.World, m: F.Move, w': F.World)
    requires F.Inv(pj, id, w) && F.Step(pj, id, w, m, w') && w.run.run.Completed? && !m.Failing?
    ensures w'.run.run.Completed?
  {
    if m.OnRun? {
      F.StepStaysFinal(pj, w.run, m.b, w'.run);
    }
  }

  /** The project has no threat, and the run is completed. */
  ghost predicate Safe(pj: R.Project, id: nat, w: F.World) {
    F.Inv(pj, id, w) && Fixed(w.project) && !Threat(w.project) && w.run.run.Completed?
  }

  lemma {:induction false} StaysSafe(pj: R.Project, id: nat, w: F.World, m: F.Move, w': F.World)
    requires Safe(pj, id, w) && F.Step(pj, id, w, m, w')
    ensures Safe(pj, id, w')
  {
    F.StepKeepsInv(pj, id, w, m, w');
    match m
    case OnProject(a) =>
      StepWithoutThreat(w.project, a, w'.project);
    case OnRun(b) =>
      StaysCompleted(pj, id, w, m, w');
    case Queueing(p, q) =>
      StepWithoutThreat(w.project, QueueAll(p), w'.project);
    case Failing(p) =>
      StepWithoutThreat(w.project, FailAll(p), w'.project);
  }

  lemma {:induction false} SafeForGood(pj: R.Project, id: nat, ws: seq<F.World>, ms: seq<F.Move>, k: nat)
    requires F.Path(pj, id, ws, ms) && k < |ws| && Safe(pj, id, ws[0])
    ensures Safe(pj, id, ws[k])
    decreases k
  {
    if k > 0 {
      SafeForGood(pj, id, ws, ms, k - 1);
      StaysSafe(pj, id, ws[k - 1], ms[k - 1], ws[k]);
    }
  }

  lemma {:induction false} IsExposed(pj: R.Project, id: nat, w: F.World)
    requires F.CanReach(pj, id, w) && w.run.run.Completed?
    ensures Exposed(id, w.project, w.run) && Kept(id, w) && F.Inv(pj, id, w)
  {
    var ws, ms :| F.Trace(pj, id, ws, ms) && ws[|ms|] == w;
    AlwaysKept(pj, id, ws, ms, |ms|);
    if w.run.lock.Some? {
      LockedIsQueued(pj, w.run);
    }
  }

  lemma {:induction false} LockedIsQueued(pj: R.Project, r: R.State)
    requires R.Inv(pj, r) && r.lock.Some?
    ensures r.run.Queued?
  {
    assert R.ProcessOk(pj, r, r.lock.value);
  }

  /**
   A completed run whose project has all providers done and no upload under way can still be failed if
   and only if a check has rejected sizes, or a check has read sizes or may read those of all rows,
   while the project has or is about to have a size that rejects them.
   */
  lemma {:induction false} CompletedCanFailIff(pj: R.Project, id: nat, w: F.World)
    requires F.CanReach(pj, id, w) && w.run.run.Completed? && Closed(w.project)
    ensures CanFail(pj, id, w) <==> Threat(w.project)
  {
    IsExposed(pj, id, w);
    if Threat(w.project) {
      ThreatFails(pj, id, w.project, w.run);
    } else if CanFail(pj, id, w) {
      var ws: seq<F.World>, ms :| F.Path(pj, id, ws, ms) && ws[0] == w && ws[|ms|].run.run.Errored?;
      SafeForGood(pj, id, ws, ms, |ms|);
      assert false;
    }
  }

  // ----- While some provider is not done -----

  /** The count of ready uploads looks at the rows of providers that are done. */
  lemma {:induction false} OnlyDoneCount(u: seq<Uploaded>, r: seq<seq<Row>>, u': seq<Uploaded>, r': seq<seq<Row>>)
    requires |u| == |r| == |u'| == |r'|
    requires forall d: nat | d < |u| :: if u[d].Done? then u'[d].Done? && r'[d] == r[d] else !u'[d].Done?
    ensures CountReady(u', r') == CountReady(u, r)
  {
    if u != [] {
      OnlyDoneCount(u[1..], r[1..], u'[1..], r'[1..]);
    }
  }

  lemma {:induction false} CountedIsReady(rows: seq<Row>) returns (row: Row)
    requires ReadyRows(rows) > 0
    ensures row in rows && row.state.Ready?
  {
    if rows[0].state.Ready? {
      row := rows[0];
    } else {
      row := CountedIsReady(rows[1..]);
    }
  }

  lemma {:induction false} SomeReady(uploaded: seq<Uploaded>, rows: seq<seq<Row>>) returns (d: nat, row: Row)
    requires |uploaded| == |rows| && CountReady(uploaded, rows) > 0
    ensures d < |uploaded| && uploaded[d].Done? && row in rows[d] && row.state.Ready?
  {
    if uploaded[0].Done? && ReadyRows(rows[0]) > 0 {
      d := 0;
      row := CountedIsReady(rows[0]);
    } else {
      d, row := SomeReady(uploaded[1..], rows[1..]);
      d := d + 1;
    }
  }

  /** Whatever is expected, not all sizes are right if one is known and another is not. */
  lemma {:induction false} MixedSizesAreRejected(sizes: seq<seq<Option<nat>>>, project: Option<nat>, limits: Limits,
                                                 d: nat, e: nat, x: Option<nat>)
    requires d < |sizes| && e < |sizes| && None in sizes[d] && x.Some? && x in sizes[e]
    ensures Rejects(sizes, project, limits)
  {
    FirstOfAll(sizes, d);
    var expected := Expected(sizes, project, limits);
    if expected == None {
      assert !Uniform(sizes[e], expected);
    } else {
      assert !Uniform(sizes[d], expected);
    }
  }

  /** There are enough ready rows, and a provider that is not done has one of unknown size. */
  lemma {:induction false} UnknownSizeFails(pj: R.Project, id: nat, s: State, r: R.State, d: nat, token: nat)
    requires Exposed(id, s, r) && SizesKnown(s) && s.uploaded != [] && ClksUploaded(s, true)
    requires d < |s.rows| && NewRow(token) in s.rows[d]
    ensures CanFail(pj, id, F.World(s, r))
  {
    var e, row := SomeReady(s.uploaded, s.rows);
    assert ReadySized(s.rows[e]);
    var sizes := SizesOf(s.rows);
    var i :| 0 <= i < |s.rows[d]| && s.rows[d][i] == NewRow(token);
    assert sizes[d][i] == None;
    var j :| 0 <= j < |s.rows[e]| && s.rows[e][j] == row;
    assert sizes[e][j] == row.size;
    MixedSizesAreRejected(sizes, s.encodingSize, s.limits, d, e, row.size);
    CountingFails(pj, id, s, r);
  }

  /** A provider takes the lock and describes a raw upload. */
  lemma {:induction false} DescribedFails(pj: R.Project, id: nat, s: State, r: R.State, d: nat)
    requires Exposed(id, s, r) && SizesKnown(s) && ClksUploaded(s, true) && CanLock(s, d)
    ensures CanFail(pj, id, F.World(s, r))
  {
    var p := NewId(s.procs.Keys);
    var h := Handler(d, 0, 0, Demanded(s.encodingSize, s.limits), true, Holding);
    var s1 := With(SetUploaded(s, d, InProgress), p, h);
    FirstStep(pj, id, s, r, Begin(p, d, 0, 0, true), s1);
    var s2 := With(SetRows(s1, d, s1.rows[d] + [NewRow(0)]), p, h.(hs := Described));
    FirstStep(pj, id, s1, r, DescribeRaw(p), s2);
    StepKeepsSizesKnown(s, Begin(p, d, 0, 0, true), s1);
    StepKeepsSizesKnown(s1, DescribeRaw(p), s2);
    OnlyDoneCount(s.uploaded, s.rows, s2.uploaded, s2.rows);
    assert s2.rows[d][|s1.rows[d]|] == NewRow(0);
    UnknownSizeFails(pj, id, s2, r, d, 0);
  }

  /** First, an upload that is under way fails. */
  lemma {:induction false} UnsettledFails(pj: R.Project, id: nat, s: State, r: R.State, d: nat)
    requires Exposed(id, s, r) && SizesKnown(s) && ClksUploaded(s, true) && Exclusive(s)
    requires d < |s.uploaded| && !s.uploaded[d].Done?
    ensures CanFail(pj, id, F.World(s, r))
  {
    if s.uploaded[d].InProgress? {
      assert Locked(s, d);
      var p :| p in s.procs && HoldsLock(s.procs[p], d);
      var s' := End(SetUploaded(s, d, Failed), p);
      FirstStep(pj, id, s, r, Action.Fail(p, false), s');
      StepKeepsSizesKnown(s, Action.Fail(p, false), s');
      OnlyDoneCount(s.uploaded, s.rows, s'.uploaded, s'.rows);
      DescribedFails(pj, id, s', r, d);
    } else {
      DescribedFails(pj, id, s, r, d);
    }
  }

  /** While some provider is not done, a completed run can be failed whenever a check passes its count. */
  lemma {:induction false} OpenCanFail(pj: R.Project, id: nat, w: F.World, d: nat)
    requires F.CanReach(pj, id, w) && w.run.run.Completed?
    requires d < |w.project.uploaded| == |w.project.rows| && !w.project.uploaded[d].Done?
    requires ClksUploaded(w.project, true)
    ensures CanFail(pj, id, w)
  {
    IsExposed(pj, id, w);
    UnsettledFails(pj, id, w.project, w.run, d);
  }
}
