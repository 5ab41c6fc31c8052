/**
 What becomes of a run that has started too early. The task that creates its packages needs two
 providers that are done, and raises an error otherwise; the handler of that error is not told which
 run has failed, so that nothing marks the run as failed and nobody works on it any more.
 */
module AbandonedRun {
  import opened FinalStates
  import R = RunLifecycle
  import opened Runs
  import opened SecondRow
  import U = UploadProtocol
  import opened Wrappers

  /** Packages can be created exactly when there are two providers that are done. */
  lemma {:induction false} CanPackIff(s: U.State)
    ensures CanPack(s) <==>
            exists d, e :: 0 <= d < e < |s.uploaded| && s.uploaded[d].Done? && s.uploaded[e].Done?
  {
    TwoDone(s.uploaded);
  }

  lemma {:induction false} TwoDone(uploaded: seq<U.Uploaded>)
    ensures DoneIn(uploaded) > 0 <==> exists d :: 0 <= d < |uploaded| && uploaded[d].Done?
    ensures DoneIn(uploaded) >= 2 <==>
            exists d, e :: 0 <= d < e < |uploaded| && uploaded[d].Done? && uploaded[e].Done?
  {
    if uploaded != [] {
      var rest := uploaded[1..];
      TwoDone(rest);
      assert forall d | 0 <= d < |rest| :: rest[d] == uploaded[d + 1];
      assert forall d | 0 < d < |uploaded| :: uploaded[d] == rest[d - 1];
    }
  }

  /** While fewer than two providers are done, all that the task can do is to stop. */
  lemma {:induction false} CannotPack(pj: R.Project, id: nat, w: World, m: Move, w': World, p: nat)
    requires FinalStates.Step(pj, id, w, m, w') && R.JobAt(w.run, p, {R.Scheduled}) && !CanPack(w.project)
    ensures R.At(w'.run, p, w.run.procs[p]) || (m == OnRun(R.JobStops(p)) && p !in w'.run.procs)
  {
    if m.OnRun? && (R.QueueStep(pj, w.run, m.b, w'.run) || R.PrerunStep(w.run, m.b, w'.run)) {
      StartLeavesJob(pj, w.run, m.b, w'.run, p);
    } else if m.OnRun? {
      JobOnlyStops(pj, w.run, m.b, w'.run, p);
    }
  }

  lemma {:induction false} StartLeavesJob(pj: R.Project, s: R.State, a: R.Action, s': R.State, p: nat)
    requires R.QueueStep(pj, s, a, s') || R.PrerunStep(s, a, s')
    requires p in s.procs && s.procs[p].Job?
    ensures R.At(s', p, s.procs[p])
  {}

  lemma {:induction false} JobOnlyStops(pj: R.Project, s: R.State, a: R.Action, s': R.State, p: nat)
    requires (R.CompareStep(pj, s, a, s') || R.FinishStep(pj, s, a, s')) && !a.CreateJobs?
    requires R.JobAt(s, p, {R.Scheduled})
    ensures R.At(s', p, s.procs[p]) || (a == R.JobStops(p) && p !in s'.procs)
  {}

  // ----- Nobody works on the run any more -----

  /** The run has started, and there are at most duplicate pre-run tasks. */
  ghost predicate Abandoned(s: R.State) {
    s.run in {Running, Errored} && forall p | p in s.procs :: R.Idle(s.procs[p])
  }

  lemma {:induction false} RunStaysAbandoned(pj: R.Project, s: R.State, a: R.Action, s': R.State)
    requires Abandoned(s) && R.Step(pj, s, a, s')
    ensures Abandoned(s') && (a.FailAll? || s'.run == s.run)
  {
    if R.PrerunStep(s, a, s') {
      PrerunStaysAbandoned(s, a, s');
    } else if !R.QueueStep(pj, s, a, s') {
      NoJobSteps(pj, s, a, s');
    }
  }

  lemma {:induction false} PrerunStaysAbandoned(s: R.State, a: R.Action, s': R.State)
    requires Abandoned(s) && R.PrerunStep(s, a, s')
    ensures Abandoned(s') && s'.run == s.run
  {
    assert R.Idle(s.procs[a.p]);
  }

  lemma {:induction false} NoJobSteps(pj: R.Project, s: R.State, a: R.Action, s': R.State)
    requires Abandoned(s)
    ensures !R.CompareStep(pj, s, a, s') && !R.FinishStep(pj, s, a, s')
  {}

  lemma {:induction false} StaysAbandoned(pj: R.Project, id: nat, w: World, m: Move, w': World)
    requires Abandoned(w.run) && FinalStates.Step(pj, id, w, m, w')
    ensures Abandoned(w'.run) && (m.Failing? || w'.run.run == w.run.run)
  {
    match m
    case OnProject(a) =>
    case OnRun(b) => RunStaysAbandoned(pj, w.run, b, w'.run);
    case Queueing(p, q) =>
    case Failing(p) => RunStaysAbandoned(pj, w.run, R.FailAll, w'.run);
  }

  /** It is never completed, and stays running unless a check fails all runs of the project. */
  lemma {:induction false} AbandonedForGood(pj: R.Project, id: nat, ws: seq<World>, ms: seq<Move>, k: nat)
    requires FinalStates.Path(pj, id, ws, ms) && k < |ws| && Abandoned(ws[0].run)
    ensures Abandoned(ws[k].run)
    ensures (forall i | 0 <= i < k :: !ms[i].Failing?) ==> ws[k].run.run == ws[0].run.run
    decreases k
  {
    if k > 0 {
      AbandonedForGood(pj, id, ws, ms, k - 1);
      StaysAbandoned(pj, id, ws[k - 1], ms[k - 1], ws[k]);
    }
  }

  /** No continuation completes the run. */
  ghost predicate NeverCompleted(pj: R.Project, id: nat, w: World) {
    forall ws: seq<World>, ms | FinalStates.Path(pj, id, ws, ms) && ws[0] == w :: !ws[|ms|].run.run.Completed?
  }

  lemma {:induction false} AbandonedIsNeverCompleted(pj: R.Project, id: nat, w: World)
    requires Abandoned(w.run)
    ensures NeverCompleted(pj, id, w)
  {
    forall ws: seq<World>, ms | FinalStates.Path(pj, id, ws, ms) && ws[0] == w ensures !ws[|ms|].run.run.Completed? {
      AbandonedForGood(pj, id, ws, ms, |ms|);
    }
  }

  // ----- A history -----

  /** Run 7 was queued by a check that has counted two rows of one of two providers. */
  function EarlyQueued(): U.State {
    Doubled().(encodingSize := Some(8), queued := {7}, procs := map[2 := U.RunPost])
  }

  lemma {:induction false} QueuesTheRun(s: U.State)
    requires s == Doubled().(created := {7}, procs := map[1 := U.Check(U.Accepted(Some(8))), 2 := U.RunPost])
    ensures U.CheckStep(s, U.QueueAll(1), EarlyQueued())
  {
    assert s.procs - {1} == map[2 := U.RunPost];
    assert s.queued + s.created == {7};
  }

  lemma {:induction false} RunIsQueuedEarly(pj: R.Project)
    ensures FinalStates.CanReach(pj, 7, World(EarlyQueued(), R.JustQueued()))
  {
    var s0 := SecondRowIsAccepted();
    ProjectReached(pj, 7, s0);
    var s1 := U.With(s0.(created := {7}), 2, U.RunPost);
    assert s0.created + {7} == {7};
    NextOfProject(pj, 7, s0, R.Initial(), U.PostRun(2, 7), s1);
    R.RunIsQueued(pj);
    QueuesTheRun(s1);
    FinalStates.Next(pj, 7, World(s1, R.Initial()), Queueing(1, 1), World(EarlyQueued(), R.JustQueued()));
  }

  /** The task that creates packages has raised its error. */
  function Stopped(): R.State {
    R.Started().(procs := map[])
  }

  lemma {:induction false} TaskStops(pj: R.Project)
    ensures R.FinishStep(pj, R.ToBePacked(), R.JobStops(1), Stopped())
  {
    assert R.ToBePacked().procs - {1} == map[];
  }

  /** A run that starts while one of two providers is done stays running for good. */
  lemma {:induction false} EarlyRunIsAbandoned(pj: R.Project) returns (w: World)
    ensures FinalStates.CanReach(pj, 7, w) && U.Parties(w.project) == 2 && !CanPack(w.project)
    ensures w.run.run.Running? && w.run.procs == map[] && Abandoned(w.run) && NeverCompleted(pj, 7, w)
  {
    RunIsQueuedEarly(pj);
    R.JobsAreScheduled(pj);
    RunGoesOn(pj, 7, EarlyQueued(), R.JustQueued(), R.ToBePacked());
    TaskStops(pj);
    w := World(EarlyQueued(), Stopped());
    FinalStates.Next(pj, 7, World(EarlyQueued(), R.ToBePacked()), OnRun(R.JobStops(1)), w);
    assert EarlyQueued().uploaded[1..] == [U.NotStarted] && DoneIn([U.NotStarted]) == 0;
    AbandonedIsNeverCompleted(pj, 7, w);
  }
}
