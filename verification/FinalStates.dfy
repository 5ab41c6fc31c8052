/**
 Whether a completed or failed run stays so. A run and the uploads of its project move together: a
 check that accepts all encodings queues the run, and one that rejects them fails it, whatever its
 state. Both final states are final as long as each provider has one upload row.
 */
module FinalStates {
  import opened EncodingSizes
  import opened PartyCounts
  import R = RunLifecycle
  import opened Runs
  import opened SecondRow
  import opened SizeAgreement
  import U = UploadProtocol
  import opened Wrappers

  // ----- A run on its own -----

  predicate IsLost(p: R.Package) {
    p.Lost?
  }

  /** A comparison that has lost a package never gathers its results. */
  predicate DeadEnd(proc: R.Process) {
    proc.Job? && proc.js.Comparing? && exists p | p in proc.packages :: IsLost(p)
  }

  /** No process of a failed run is going to complete it. */
  ghost predicate FailedForGood(s: R.State) {
    s.run.Errored? ==> forall p | p in s.procs :: R.Idle(s.procs[p]) || DeadEnd(s.procs[p])
  }

  lemma {:induction false} QueueFailsForGood(pj: R.Project, s: R.State, a: R.Action, s': R.State)
    requires R.Inv(pj, s) && FailedForGood(s) && R.QueueStep(pj, s, a, s') && (a.FailAll? ==> s.timesQueued == 0)
    ensures FailedForGood(s')
  {}

  lemma {:induction false} PrerunFailsForGood(pj: R.Project, s: R.State, a: R.Action, s': R.State)
    requires R.Inv(pj, s) && FailedForGood(s) && R.PrerunStep(s, a, s')
    ensures FailedForGood(s')
  {
    assert R.ProcessOk(pj, s, a.p);
  }

  /** A lost package stays lost. */
  lemma {:induction false} StaysLost(ps: seq<R.Package>, i: nat, p: R.Package)
    requires i < |ps| && !ps[i].Lost? && exists q | q in ps :: IsLost(q)
    ensures exists q | q in ps[i := p] :: IsLost(q)
  {
    var q :| q in ps && IsLost(q);
    var j :| 0 <= j < |ps| && ps[j] == q;
    assert ps[i := p][j] == q && IsLost(ps[i := p][j]);
  }

  lemma {:induction false} OnlyJob(pj: R.Project, s: R.State, p: nat)
    requires R.Inv(pj, s) && p in s.procs && s.procs[p].Job?
    ensures forall q | q in s.procs && q != p :: R.Idle(s.procs[q])
  {
    assert !R.Idle(s.procs[p]);
  }

  lemma {:induction false} CompareFailsForGood(pj: R.Project, s: R.State, a: R.Action, s': R.State)
    requires R.Inv(pj, s) && FailedForGood(s) && R.CompareStep(pj, s, a, s')
    ensures FailedForGood(s')
  {
    OnlyJob(pj, s, a.p);
    var before, after := s.procs[a.p].packages, s'.procs[a.p].packages;
    if s.run.Errored? {
      assert DeadEnd(s.procs[a.p]);
      var q :| q in before && IsLost(q);
      assert !a.Gather?;
      StaysLost(before, a.i, after[a.i]);
    } else if a.OverLimit? {
      assert IsLost(after[a.i]);
    }
  }

  lemma {:induction false} FinishFailsForGood(pj: R.Project, s: R.State, a: R.Action, s': R.State)
    requires R.Inv(pj, s) && FailedForGood(s) && R.FinishStep(pj, s, a, s')
    ensures FailedForGood(s')
  {
    OnlyJob(pj, s, a.p);
  }

  /** Unless all runs of the project are failed once more, a failed run is not completed. */
  lemma {:induction false} StepFailsForGood(pj: R.Project, s: R.State, a: R.Action, s': R.State)
    requires R.Inv(pj, s) && FailedForGood(s) && R.Step(pj, s, a, s') && (a.FailAll? ==> s.timesQueued == 0)
    ensures FailedForGood(s')
  {
    if R.QueueStep(pj, s, a, s') {
      QueueFailsForGood(pj, s, a, s');
    } else if R.PrerunStep(s, a, s') {
      PrerunFailsForGood(pj, s, a, s');
    } else if R.CompareStep(pj, s, a, s') {
      CompareFailsForGood(pj, s, a, s');
    } else {
      FinishFailsForGood(pj, s, a, s');
    }
  }

  ghost predicate StaysFinal(s: R.State, s': R.State) {
    (s.run.Completed? ==> s'.run.Completed?) && (s.run.Errored? ==> s'.run.Errored?)
  }

  lemma {:induction false} StartStaysFinal(pj: R.Project, s: R.State, a: R.Action, s': R.State)
    requires R.Inv(pj, s) && (R.QueueStep(pj, s, a, s') || R.PrerunStep(s, a, s'))
    requires a.FailAll? ==> s.timesQueued == 0
    ensures StaysFinal(s, s')
  {
    if R.PrerunStep(s, a, s') {
      assert R.ProcessOk(pj, s, a.p);
    }
  }

  lemma {:induction false} JobStaysFinal(pj: R.Project, s: R.State, a: R.Action, s': R.State)
    requires R.Inv(pj, s) && FailedForGood(s) && (R.CompareStep(pj, s, a, s') || R.FinishStep(pj, s, a, s'))
    ensures StaysFinal(s, s')
  {
    assert R.ProcessOk(pj, s, a.p);
  }

  lemma {:induction false} StepStaysFinal(pj: R.Project, s: R.State, a: R.Action, s': R.State)
    requires R.Inv(pj, s) && FailedForGood(s) && R.Step(pj, s, a, s') && (a.FailAll? ==> s.timesQueued == 0)
    ensures StaysFinal(s, s')
  {
    if R.QueueStep(pj, s, a, s') || R.PrerunStep(s, a, s') {
      StartStaysFinal(pj, s, a, s');
    } else {
      JobStaysFinal(pj, s, a, s');
    }
  }

  // ----- A run that fails by itself -----

  /** The run has failed, and no process of it is going to complete it. */
  ghost predicate Doomed(s: R.State) {
    s.run.Errored? && forall p | p in s.procs :: R.Idle(s.procs[p]) || DeadEnd(s.procs[p])
  }

  lemma {:induction false} ComparingStaysDoomed(pj: R.Project, s: R.State, a: R.Action, s': R.State)
    requires Doomed(s) && R.CompareStep(pj, s, a, s')
    ensures Doomed(s')
  {
    assert DeadEnd(s.procs[a.p]);
    var q :| q in s.procs[a.p].packages && IsLost(q);
    assert !a.Gather?;
    StaysLost(s.procs[a.p].packages, a.i, s'.procs[a.p].packages[a.i]);
  }

  lemma {:induction false} OthersStayDoomed(pj: R.Project, s: R.State, a: R.Action, s': R.State)
    requires Doomed(s) && (R.PrerunStep(s, a, s') || R.FinishStep(pj, s, a, s'))
    ensures Doomed(s')
  {
    assert R.Idle(s.procs[a.p]) || DeadEnd(s.procs[a.p]);
  }

  lemma {:induction false} StaysDoomed(pj: R.Project, s: R.State, a: R.Action, s': R.State)
    requires Doomed(s) && R.Step(pj, s, a, s') && s.timesQueued > 0 && R.Inv(pj, s)
    ensures Doomed(s') && s'.timesQueued > 0
  {
    R.CountStep(pj, s, a, s');
    if R.CompareStep(pj, s, a, s') {
      ComparingStaysDoomed(pj, s, a, s');
    } else if R.QueueStep(pj, s, a, s') {
      assert !a.Queue?;
    } else {
      OthersStayDoomed(pj, s, a, s');
    }
  }

  /** A task that exceeds the limit, or raises an error, dooms the run. */
  lemma {:induction false} FailureDooms(pj: R.Project, s: R.State, a: R.Action, s': R.State)
    requires R.Inv(pj, s) && R.Step(pj, s, a, s') && (a.OverLimit? || a.JobFails?)
    ensures Doomed(s') && s'.timesQueued > 0
  {
    OnlyJob(pj, s, a.p);
    assert R.ProcessOk(pj, s, a.p);
    if a.OverLimit? {
      assert IsLost(s'.procs[a.p].packages[a.i]);
    }
  }

  ghost predicate WasQueuedAndDoomed(s: R.State) {
    s.timesQueued > 0 && Doomed(s)
  }

  ghost predicate DoomedOn(ss: seq<R.State>, i: nat)
    requires i + 1 < |ss|
  {
    WasQueuedAndDoomed(ss[i]) ==> WasQueuedAndDoomed(ss[i + 1])
  }

  lemma {:induction false} DoomedAllTheWay(ss: seq<R.State>, j: nat, k: nat)
    requires j <= k < |ss| && WasQueuedAndDoomed(ss[j]) && forall i: nat | i + 1 < |ss| :: DoomedOn(ss, i)
    ensures WasQueuedAndDoomed(ss[k])
    decreases k
  {
    if j < k {
      DoomedAllTheWay(ss, j, k - 1);
      assert DoomedOn(ss, k - 1);
    }
  }

  lemma {:induction false} DoomedNext(pj: R.Project, ss: seq<R.State>, acts: seq<R.Action>, i: nat)
    requires R.Trace(pj, ss, acts) && i < |acts|
    requires acts[i].OverLimit? || acts[i].JobFails? || WasQueuedAndDoomed(ss[i])
    ensures WasQueuedAndDoomed(ss[i + 1])
  {
    R.Reachable(pj, ss, acts, i);
    assert R.Step(pj, ss[i], acts[i], ss[i + 1]);
    if acts[i].OverLimit? || acts[i].JobFails? {
      FailureDooms(pj, ss[i], acts[i], ss[i + 1]);
    } else {
      StaysDoomed(pj, ss[i], acts[i], ss[i + 1]);
    }
  }

  /**
   In every history of a run: once one of its tasks has exceeded the limit of candidates or raised an
   error that is handled, the run is failed, and stays so.
   */
  lemma {:induction false} OwnFailureIsFinal(pj: R.Project, ss: seq<R.State>, acts: seq<R.Action>, k: nat, j: nat)
    requires R.Trace(pj, ss, acts) && k < j < |ss| && (acts[k].OverLimit? || acts[k].JobFails?)
    ensures ss[j].run.Errored?
  {
    DoomedNext(pj, ss, acts, k);
    forall i: nat | i < |acts| ensures DoomedOn(ss, i) {
      if WasQueuedAndDoomed(ss[i]) {
        DoomedNext(pj, ss, acts, i);
      }
    }
    DoomedAllTheWay(ss, k + 1, j);
  }

  // ----- A run and its project -----

  datatype World = World(project: U.State, run: R.State)

  datatype Move =
    | OnProject(a: U.Action)
    | OnRun(b: R.Action)
    | Queueing(p: nat, q: nat)
    | Failing(p: nat)

  function Posted(s: U.State): set<nat> {
    s.created + s.queued + s.failed
  }

  function DoneIn(uploaded: seq<U.Uploaded>): nat {
    if uploaded == [] then 0 else (if uploaded[0].Done? then 1 else 0) + DoneIn(uploaded[1..])
  }

  /** Packages are created from the data of all providers that are done, of which there have to be two. */
  predicate CanPack(s: U.State) {
    DoneIn(s.uploaded) >= 2
  }

  /**
   Queueing all created runs, or failing all runs, is one step of the project and of each such run.
   Creating packages looks at the project.
   */
  predicate Step(pj: R.Project, id: nat, w: World, m: Move, w': World) {
    match m
    case OnProject(a) =>
      && U.Step(w.project, a, w'.project) && w'.run == w.run
      && !(a.QueueAll? && id in w.project.created) && !(a.FailAll? && id in Posted(w.project))
    case OnRun(b) =>
      R.Step(pj, w.run, b, w'.run) && (R.Own(b) || (b.CreateJobs? && CanPack(w.project))) && w'.project == w.project
    case Queueing(p, q) =>
      && id in w.project.created && U.CheckStep(w.project, U.QueueAll(p), w'.project)
      && R.QueueStep(pj, w.run, R.Queue(q), w'.run)
    case Failing(p) =>
      && id in Posted(w.project) && U.CheckStep(w.project, U.FailAll(p), w'.project)
      && R.QueueStep(pj, w.run, R.FailAll, w'.run)
  }

  /** Any number of steps, from any state. */
  ghost predicate Path(pj: R.Project, id: nat, ws: seq<World>, ms: seq<Move>) {
    |ws| == |ms| + 1 && forall i | 0 <= i < |ms| :: Step(pj, id, ws[i], ms[i], ws[i + 1])
  }

  ghost predicate Trace(pj: R.Project, id: nat, ws: seq<World>, ms: seq<Move>) {
    Path(pj, id, ws, ms) && U.Init(ws[0].project) && ws[0].run == R.Initial()
  }

  /** A run that was queued is among the queued runs of its project. */
  ghost predicate Linked(id: nat, w: World) {
    w.run.timesQueued > 0 ==> id in w.project.queued
  }

  ghost predicate InStep(id: nat, w: World) {
    Orderly(w.project) && Linked(id, w) && FailedForGood(w.run)
  }

  ghost predicate Inv(pj: R.Project, id: nat, w: World) {
    U.Exclusive(w.project) && R.Inv(pj, w.run) && (OneRowEach(w.project) ==> InStep(id, w))
  }

  /** A check only fails runs that were not queued. */
  lemma {:induction false} FailsBeforeQueueing(id: nat, w: World, p: nat, s': U.State)
    requires InStep(id, w) && U.CheckStep(w.project, U.FailAll(p), s')
    ensures w.run.timesQueued == 0
  {
    var s := w.project;
    assert Right(s.procs[p].cs, U.SizesOf(s.rows), s.encodingSize, s.limits);
  }

  lemma {:induction false} ProjectStep(pj: R.Project, id: nat, w: World, a: U.Action, w': World)
    requires Inv(pj, id, w) && Step(pj, id, w, OnProject(a), w')
    ensures Inv(pj, id, w')
    ensures OneRowEach(w'.project) ==> OneRowEach(w.project)
  {
    U.StepKeepsExclusive(w.project, a, w'.project);
    if OneRowEach(w'.project) {
      OneRowBefore(w.project, a, w'.project);
      StepStaysOrderly(w.project, a, w'.project);
      RunsStay(w.project, a, w'.project);
    }
  }

  lemma {:induction false} RunStep(pj: R.Project, id: nat, w: World, b: R.Action, w': World)
    requires Inv(pj, id, w) && Step(pj, id, w, OnRun(b), w')
    ensures Inv(pj, id, w')
    ensures OneRowEach(w'.project) ==> StaysFinal(w.run, w'.run)
  {
    R.StepKeepsInv(pj, w.run, b, w'.run);
    R.CountStep(pj, w.run, b, w'.run);
    if OneRowEach(w'.project) {
      StepFailsForGood(pj, w.run, b, w'.run);
      StepStaysFinal(pj, w.run, b, w'.run);
    }
  }

  /** The project and the run make a step together. */
  lemma {:induction false} SharedStep(pj: R.Project, id: nat, w: World, a: U.Action, b: R.Action, w': World)
    requires Inv(pj, id, w) && U.CheckStep(w.project, a, w'.project) && R.QueueStep(pj, w.run, b, w'.run)
    requires (a.QueueAll? && b.Queue? && id in w.project.created) || (a.FailAll? && b.FailAll?)
    ensures Inv(pj, id, w')
    ensures OneRowEach(w'.project) ==> OneRowEach(w.project) && StaysFinal(w.run, w'.run)
  {
    U.StepKeepsExclusive(w.project, a, w'.project);
    R.StepKeepsInv(pj, w.run, b, w'.run);
    if OneRowEach(w'.project) {
      OneRowBefore(w.project, a, w'.project);
      StepStaysOrderly(w.project, a, w'.project);
      if a.FailAll? {
        FailsBeforeQueueing(id, w, a.p, w'.project);
      }
      StepFailsForGood(pj, w.run, b, w'.run);
      StepStaysFinal(pj, w.run, b, w'.run);
    }
  }

  lemma {:induction false} StepKeepsInv(pj: R.Project, id: nat, w: World, m: Move, w': World)
    requires Inv(pj, id, w) && Step(pj, id, w, m, w')
    ensures Inv(pj, id, w')
    ensures OneRowEach(w'.project) ==> OneRowEach(w.project) && StaysFinal(w.run, w'.run)
  {
    match m
    case OnProject(a) => ProjectStep(pj, id, w, a, w');
    case OnRun(b) => RunStep(pj, id, w, b, w');
    case Queueing(p, q) => SharedStep(pj, id, w, U.QueueAll(p), R.Queue(q), w');
    case Failing(p) => SharedStep(pj, id, w, U.FailAll(p), R.FailAll, w');
  }

  lemma {:induction false} Reachable(pj: R.Project, id: nat, ws: seq<World>, ms: seq<Move>, k: nat)
    requires Trace(pj, id, ws, ms) && k < |ws|
    ensures Inv(pj, id, ws[k])
    decreases k
  {
    if k == 0 {
      InitiallyOrderly(ws[0].project);
      R.InitiallyInv(pj);
    } else {
      Reachable(pj, id, ws, ms, k - 1);
      StepKeepsInv(pj, id, ws[k - 1], ms[k - 1], ws[k]);
    }
  }

  // ----- The run and its project agree -----

  /** The run is created, as long as the project has neither queued nor failed it. */
  predicate Agree(id: nat, w: World) {
    w.run.run.Created? <==> id !in w.project.queued + w.project.failed
  }

  lemma {:induction false} ProjectStaysAgreed(pj: R.Project, id: nat, w: World, a: U.Action, w': World)
    requires Agree(id, w) && Step(pj, id, w, OnProject(a), w')
    ensures Agree(id, w')
  {
    if U.LockStep(w.project, a, w'.project) || U.HandlerStep(w.project, a, w'.project)
        || U.TaskStep(w.project, a, w'.project) {
      NoCheckMoves(w.project, a, w'.project);
    }
  }

  lemma {:induction false} ProcessesLeaveCreated(pj: R.Project, s: R.State, b: R.Action, s': R.State)
    requires R.Inv(pj, s) && (R.PrerunStep(s, b, s') || R.CompareStep(pj, s, b, s') || R.FinishStep(pj, s, b, s'))
    ensures !s.run.Created? && !s'.run.Created?
  {
    assert s.timesQueued == 1;
  }

  lemma {:induction false} OwnStepsLeaveCreated(pj: R.Project, s: R.State, b: R.Action, s': R.State)
    requires R.Inv(pj, s) && R.Step(pj, s, b, s') && !b.Queue? && !b.FailAll?
    ensures s'.run.Created? <==> s.run.Created?
  {
    if R.PrerunStep(s, b, s') || R.CompareStep(pj, s, b, s') || R.FinishStep(pj, s, b, s') {
      ProcessesLeaveCreated(pj, s, b, s');
    }
  }

  lemma {:induction false} StaysAgreed(pj: R.Project, id: nat, w: World, m: Move, w': World)
    requires R.Inv(pj, w.run) && Agree(id, w) && Step(pj, id, w, m, w')
    ensures Agree(id, w')
  {
    match m
    case OnProject(a) => ProjectStaysAgreed(pj, id, w, a, w');
    case OnRun(b) => OwnStepsLeaveCreated(pj, w.run, b, w'.run);
    case Queueing(p, q) =>
    case Failing(p) =>
  }

  /** In every history, the status of the run and the records of the project agree on whether it was picked up. */
  lemma {:induction false} AlwaysAgree(pj: R.Project, id: nat, ws: seq<World>, ms: seq<Move>, k: nat)
    requires Trace(pj, id, ws, ms) && k < |ws|
    ensures Agree(id, ws[k])
    decreases k
  {
    if k > 0 {
      AlwaysAgree(pj, id, ws, ms, k - 1);
      Reachable(pj, id, ws, ms, k - 1);
      StaysAgreed(pj, id, ws[k - 1], ms[k - 1], ws[k]);
    }
  }

  lemma {:induction false} StaysFinalAt(pj: R.Project, id: nat, ws: seq<World>, ms: seq<Move>, i: nat)
    requires Trace(pj, id, ws, ms) && i < |ms| && OneRowEach(ws[i + 1].project)
    ensures OneRowEach(ws[i].project) && StaysFinal(ws[i].run, ws[i + 1].run)
  {
    Reachable(pj, id, ws, ms, i);
    StepKeepsInv(pj, id, ws[i], ms[i], ws[i + 1]);
  }

  lemma {:induction false} FinalAgain(s: R.State, t: R.State, u: R.State)
    requires StaysFinal(s, t) && StaysFinal(t, u)
    ensures StaysFinal(s, u)
  {}

  /**
   In every history in which each provider has one upload row: a completed run stays completed, and a
   failed run stays failed, whatever tasks of it are still under way and however often checks run.
   */
  lemma {:induction false} FinalStatesStay(pj: R.Project, id: nat, ws: seq<World>, ms: seq<Move>, j: nat, k: nat)
    requires Trace(pj, id, ws, ms) && j <= k < |ws| && OneRowEach(ws[k].project)
    ensures StaysFinal(ws[j].run, ws[k].run)
    decreases k
  {
    if j < k {
      StaysFinalAt(pj, id, ws, ms, k - 1);
      FinalStatesStay(pj, id, ws, ms, j, k - 1);
      FinalAgain(ws[j].run, ws[k - 1].run, ws[k].run);
    }
  }

  // ----- Histories -----

  ghost predicate CanReach(pj: R.Project, id: nat, w: World) {
    exists ws, ms :: Trace(pj, id, ws, ms) && ws[|ms|] == w
  }

  lemma {:induction false} Next(pj: R.Project, id: nat, w: World, m: Move, w': World)
    requires CanReach(pj, id, w) && Step(pj, id, w, m, w')
    ensures CanReach(pj, id, w')
  {
    var ws, ms :| Trace(pj, id, ws, ms) && ws[|ms|] == w;
    assert Trace(pj, id, ws + [w'], ms + [m]);
  }

  lemma {:induction false} UploadsPostNothing(s: U.State, a: U.Action, s': U.State)
    requires U.LockStep(s, a, s') || U.HandlerStep(s, a, s') || U.TaskStep(s, a, s')
    ensures Posted(s') == Posted(s)
  {}

  lemma {:induction false} PostedGrows(s: U.State, a: U.Action, s': U.State)
    requires U.Step(s, a, s')
    ensures Posted(s) <= Posted(s')
  {
    if U.LockStep(s, a, s') || U.HandlerStep(s, a, s') || U.TaskStep(s, a, s') {
      UploadsPostNothing(s, a, s');
    }
  }

  /** A history of the project before the run is posted. */
  lemma {:induction false} BeforePosting(pj: R.Project, id: nat, ss: seq<U.State>, acts: seq<U.Action>, k: nat)
    requires U.Trace(ss, acts) && k < |ss| && id !in Posted(ss[k])
    ensures CanReach(pj, id, World(ss[k], R.Initial()))
    decreases k
  {
    if k == 0 {
      assert Trace(pj, id, [World(ss[0], R.Initial())], []);
    } else {
      assert U.Step(ss[k - 1], acts[k - 1], ss[k]);
      PostedGrows(ss[k - 1], acts[k - 1], ss[k]);
      BeforePosting(pj, id, ss, acts, k - 1);
      Next(pj, id, World(ss[k - 1], R.Initial()), OnProject(acts[k - 1]), World(ss[k], R.Initial()));
    }
  }

  lemma {:induction false} ProjectReached(pj: R.Project, id: nat, s: U.State)
    requires SecondRow.CanReach(s) && id !in Posted(s)
    ensures CanReach(pj, id, World(s, R.Initial()))
  {
    var ss, acts :| U.Trace(ss, acts) && ss[|acts|] == s;
    BeforePosting(pj, id, ss, acts, |acts|);
  }

  lemma {:induction false} RunPath(pj: R.Project, id: nat, s: U.State, ss: seq<R.State>, acts: seq<R.Action>, k: nat)
    requires R.OwnPath(pj, ss, acts) && k < |ss| && CanReach(pj, id, World(s, ss[0]))
    ensures CanReach(pj, id, World(s, ss[k]))
    decreases k
  {
    if k > 0 {
      RunPath(pj, id, s, ss, acts, k - 1);
      assert R.Step(pj, ss[k - 1], acts[k - 1], ss[k]) && R.Own(acts[k - 1]);
      Next(pj, id, World(s, ss[k - 1]), OnRun(acts[k - 1]), World(s, ss[k]));
    }
  }

  lemma {:induction false} RunGoesOn(pj: R.Project, id: nat, s: U.State, r: R.State, r': R.State)
    requires CanReach(pj, id, World(s, r)) && R.Leads(pj, r, r')
    ensures CanReach(pj, id, World(s, r'))
  {
    var ss, acts :| R.OwnPath(pj, ss, acts) && ss[0] == r && ss[|acts|] == r';
    RunPath(pj, id, s, ss, acts, |acts|);
  }

  /** Packages are created once two providers are done. */
  lemma {:induction false} RunIsPacked(pj: R.Project, id: nat, s: U.State, sizes: seq<nat>)
    requires CanReach(pj, id, World(s, R.JustQueued())) && CanPack(s) && R.SizeSum(R.Todos(sizes)) == pj.total
    ensures CanReach(pj, id, World(s, R.WithPackages(R.Todos(sizes))))
  {
    R.JobsAreScheduled(pj);
    RunGoesOn(pj, id, s, R.JustQueued(), R.ToBePacked());
    R.PackagesAreCreated(pj, sizes);
    Next(pj, id, World(s, R.ToBePacked()), OnRun(R.CreateJobs(1, sizes)), World(s, R.WithPackages(R.Todos(sizes))));
  }

  /** A step of the project that leaves posted runs alone. */
  lemma {:induction false} NextOfProject(pj: R.Project, id: nat, s: U.State, r: R.State, a: U.Action, s': U.State)
    requires CanReach(pj, id, World(s, r)) && U.Step(s, a, s') && !a.QueueAll? && !a.FailAll?
    ensures CanReach(pj, id, World(s', r))
  {
    Next(pj, id, World(s, r), OnProject(a), World(s', r));
  }
}
