/**
 The life of one run of a project, from its creation to its completion, as a concurrent protocol.

 Every step is one committed database transaction, one access to the cache, or one task being
 enqueued or delivered. Checks and pre-run tasks may be delivered any number of times; the chain
 of tasks that a started run launches is delivered once. Other runs and the uploads of the
 project appear only through the steps by which they affect this run.
 */
module RunLifecycle {
  import opened Runs
  import opened Wrappers

  datatype CacheState = Missing | Active | Complete

  /**
   What the comparison task of a package of `n` comparisons has done. A lost package has returned
   no result; what it had counted by then stays counted.
   */
  datatype Package = Todo(n: nat) | Counted(n: nat) | Delivered(n: nat) | Lost(n: nat)

  datatype PrerunStage = Arrived | CacheMissing | HoldsRow | CacheSet | Launching

  datatype JobStage = Scheduled | Comparing | Aggregating | Cleared | Solving | Saving | Permuting | Completing | Marked

  datatype Process =
    | Scheduling
    | Prerun(ps: PrerunStage)
    | Job(js: JobStage, packages: seq<Package>)

  datatype Project = Project(similarityScores: bool, permutations: bool, parties: nat, total: nat)

  datatype State = State(
    run: RunState,
    stage: nat,
    lock: Option<nat>,
    cache: CacheState,
    counter: Option<nat>,
    contributed: nat,
    procs: map<nat, Process>,
    timesQueued: nat,
    timesStarted: nat,
    cleared: bool,
    recounted: nat)

  /** The number of stages of the run type that the result type calls for. */
  function Stages(pj: Project): nat {
    if pj.similarityScores then 2 else 3
  }

  function Initial(): State {
    State(Created, 1, None, Missing, None, 0, map[], 0, 0, false, 0)
  }

  // ----- Packages -----

  function SizeSum(ps: seq<Package>): nat {
    if ps == [] then 0 else SizeSum(ps[..|ps| - 1]) + ps[|ps| - 1].n
  }

  function CountedPart(p: Package): nat {
    if p.Todo? then 0 else p.n
  }

  /** Comparisons that have been added to the progress counter. */
  function CountedSum(ps: seq<Package>): nat {
    if ps == [] then 0 else CountedSum(ps[..|ps| - 1]) + CountedPart(ps[|ps| - 1])
  }

  predicate AllDelivered(ps: seq<Package>) {
    forall p | p in ps :: p.Delivered?
  }

  // ----- Steps -----

  datatype Action =
    | Contribute(k: nat)
    | Queue(q: nat)
    | FailAll
    | Schedule(p: nat, q: nat)
    | Redeliver(q: nat)
    | ReadCache(p: nat)
    | TryLock(p: nat)
    | SetActive(p: nat)
    | CommitStart(p: nat)
    | PrerunCrashes(p: nat)
    | Launch(p: nat, q: nat)
    | CreateJobs(p: nat, sizes: seq<nat>)
    | Count(p: nat, i: nat)
    | Deliver(p: nat, i: nat)
    | Retry(p: nat, i: nat)
    | GiveUp(p: nat, i: nat)
    | OverLimit(p: nat, i: nat)
    | Gather(p: nat)
    | ClearProgress(p: nat)
    | Promote(p: nat)
    | SkipSolving(p: nat)
    | Solve(p: nat)
    | Save(p: nat)
    | Permute(p: nat)
    | MarkComplete(p: nat)
    | MarkCache(p: nat)
    | JobFails(p: nat)
    | JobStops(p: nat)

  function With(s: State, p: nat, proc: Process): State {
    s.(procs := s.procs[p := proc])
  }

  function End(s: State, p: nat): State {
    s.(procs := s.procs - {p})
  }

  function Advance(s: State, p: nat, js: JobStage): State
    requires p in s.procs && s.procs[p].Job?
  {
    With(s, p, Job(js, s.procs[p].packages))
  }

  predicate At(s: State, p: nat, proc: Process) {
    p in s.procs && s.procs[p] == proc
  }

  predicate JobAt(s: State, p: nat, stages: set<JobStage>) {
    p in s.procs && s.procs[p].Job? && s.procs[p].js in stages
  }

  function Todos(sizes: seq<nat>): seq<Package> {
    seq(|sizes|, i requires 0 <= i < |sizes| => Todo(sizes[i]))
  }

  /** Adding nothing leaves a missing counter missing. */
  function AddProgress(counter: Option<nat>, n: nat): Option<nat> {
    if n == 0 then counter else Some(Progress(counter) + n)
  }

  function Progress(counter: Option<nat>): nat {
    match counter
    case None => 0
    case Some(n) => n
  }

  /** What happens to the run before it is started. */
  predicate QueueStep(pj: Project, s: State, a: Action, s': State) {
    match a
    case Contribute(k) =>
      s.contributed <= k <= pj.parties && s' == s.(contributed := k)
    case Queue(q) =>
      s.run.Created? && s.lock.None? && q !in s.procs &&
      s' == With(s.(run := Queued, stage := s.stage + 1, counter := None, timesQueued := s.timesQueued + 1), q,
          Scheduling)
    case FailAll =>
      s.lock.None? && s' == s.(run := Errored)
    case Schedule(p, q) =>
      At(s, p, Scheduling) && q !in s.procs && s' == With(End(s, p), q, Prerun(Arrived))
    case Redeliver(q) =>
      s.timesQueued > 0 && q !in s.procs && s' == With(s, q, Prerun(Arrived))
    case _ => false
  }

  /** The guard that starts a run once: the cache, a lock on the row that is not waited for, the state. */
  predicate PrerunStep(s: State, a: Action, s': State) {
    match a
    case ReadCache(p) =>
      At(s, p, Prerun(Arrived)) && s' == if s.cache.Missing? then With(s, p, Prerun(CacheMissing)) else End(s, p)
    case TryLock(p) =>
      At(s, p, Prerun(CacheMissing)) &&
      s' == if s.lock.Some? || s.run in {Running, Completed, Errored} then End(s, p)
            else With(s.(lock := Some(p)), p, Prerun(HoldsRow))
    case SetActive(p) =>
      At(s, p, Prerun(HoldsRow)) && s' == With(s.(cache := Active), p, Prerun(CacheSet))
    case CommitStart(p) =>
      At(s, p, Prerun(CacheSet)) &&
      s' == With(s.(run := Running, lock := None, timesStarted := s.timesStarted + 1), p, Prerun(Launching))
    case PrerunCrashes(p) =>
      (At(s, p, Prerun(HoldsRow)) || At(s, p, Prerun(CacheSet))) && s' == End(s.(lock := None), p)
    case Launch(p, q) =>
      At(s, p, Prerun(Launching)) && q !in s.procs && s' == With(End(s, p), q, Job(Scheduled, []))
    case _ => false
  }

  /** Comparing packages and counting progress. */
  predicate CompareStep(pj: Project, s: State, a: Action, s': State) {
    match a
    case CreateJobs(p, sizes) =>
      JobAt(s, p, {Scheduled}) && SizeSum(Todos(sizes)) == pj.total && s' == With(s, p, Job(Comparing, Todos(sizes)))
    case Count(p, i) =>
      JobAt(s, p, {Comparing}) && i < |s.procs[p].packages| && s.procs[p].packages[i].Todo? &&
      var ps := s.procs[p].packages;
      s' == With(s.(counter := AddProgress(s.counter, ps[i].n)), p, Job(Comparing, ps[i := Counted(ps[i].n)]))
    case Deliver(p, i) =>
      JobAt(s, p, {Comparing}) && i < |s.procs[p].packages| && s.procs[p].packages[i].Counted? &&
      var ps := s.procs[p].packages;
      s' == With(s, p, Job(Comparing, ps[i := Delivered(ps[i].n)]))
    case Retry(p, i) =>
      JobAt(s, p, {Comparing}) && i < |s.procs[p].packages| && s.procs[p].packages[i].Counted? &&
      var ps := s.procs[p].packages;
      s' == With(s.(recounted := s.recounted + ps[i].n), p, Job(Comparing, ps[i := Todo(ps[i].n)]))
    case GiveUp(p, i) =>
      JobAt(s, p, {Comparing}) && i < |s.procs[p].packages| && s.procs[p].packages[i].Todo? &&
      var ps := s.procs[p].packages;
      s' == With(s, p, Job(Comparing, ps[i := Lost(0)]))
    case OverLimit(p, i) =>
      JobAt(s, p, {Comparing}) && i < |s.procs[p].packages| && s.procs[p].packages[i].Counted? && s.lock.None? &&
      var ps := s.procs[p].packages;
      s' == With(s.(run := Errored), p, Job(Comparing, ps[i := Lost(ps[i].n)]))
    case Gather(p) =>
      JobAt(s, p, {Comparing}) && AllDelivered(s.procs[p].packages) && s' == Advance(s, p, Aggregating)
    case _ => false
  }

  /** From the gathered results to the end of the run. */
  predicate FinishStep(pj: Project, s: State, a: Action, s': State) {
    match a
    case ClearProgress(p) =>
      JobAt(s, p, {Aggregating}) && !pj.similarityScores &&
      s' == Advance(s.(counter := None, cleared := true), p, Cleared)
    case Promote(p) =>
      JobAt(s, p, {Cleared}) && s.lock.None? && s' == Advance(s.(stage := s.stage + 1), p, Solving)
    case SkipSolving(p) =>
      JobAt(s, p, {Aggregating}) && pj.similarityScores && s' == Advance(s, p, Completing)
    case Solve(p) =>
      JobAt(s, p, {Solving}) && s' == Advance(s, p, Saving)
    case Save(p) =>
      JobAt(s, p, {Saving}) && s' == Advance(s, p, if pj.permutations then Permuting else Completing)
    case Permute(p) =>
      JobAt(s, p, {Permuting}) && s' == Advance(s, p, Completing)
    case MarkComplete(p) =>
      JobAt(s, p, {Completing}) && s.lock.None? && s' == Advance(s.(run := Completed), p, Marked)
    case MarkCache(p) =>
      JobAt(s, p, {Marked}) && s' == End(s.(cache := Complete), p)
    case JobFails(p) =>
      JobAt(s, p, {Comparing, Aggregating, Cleared, Solving}) && s.lock.None? && s' == End(s.(run := Errored), p)
    case JobStops(p) =>
      p in s.procs && s.procs[p].Job? && s' == End(s, p)
    case _ => false
  }

  predicate Step(pj: Project, s: State, a: Action, s': State) {
    QueueStep(pj, s, a, s') || PrerunStep(s, a, s') || CompareStep(pj, s, a, s') || FinishStep(pj, s, a, s')
  }

  /** Any number of steps, from any state. */
  ghost predicate Path(pj: Project, ss: seq<State>, acts: seq<Action>) {
    |ss| == |acts| + 1 && forall i | 0 <= i < |acts| :: Step(pj, ss[i], acts[i], ss[i + 1])
  }

  ghost predicate Trace(pj: Project, ss: seq<State>, acts: seq<Action>) {
    Path(pj, ss, acts) && ss[0] == Initial()
  }

  // ----- Sums over packages -----

  lemma {:induction false} CountedAtMostSize(ps: seq<Package>)
    ensures CountedSum(ps) <= SizeSum(ps)
    ensures AllDelivered(ps) ==> CountedSum(ps) == SizeSum(ps)
  {
    if ps != [] {
      CountedAtMostSize(ps[..|ps| - 1]);
      assert ps[|ps| - 1] in ps;
      assert forall p | p in ps[..|ps| - 1] :: p in ps;
    }
  }

  /** Changing one package changes both sums by what changes there. */
  lemma {:induction false} ChangePackage(ps: seq<Package>, i: nat, p: Package)
    requires i < |ps|
    ensures ps[i].n <= SizeSum(ps)
    ensures SizeSum(ps[i := p]) == SizeSum(ps) - ps[i].n + p.n
    ensures CountedSum(ps[i := p]) == CountedSum(ps) - CountedPart(ps[i]) + CountedPart(p)
  {
    var last := |ps| - 1;
    if i == last {
      assert ps[i := p][..last] == ps[..last];
    } else {
      ChangePackage(ps[..last], i, p);
      assert ps[i := p][..last] == ps[..last][i := p];
    }
  }

  lemma {:induction false} NothingCounted(sizes: seq<nat>)
    ensures CountedSum(Todos(sizes)) == 0
  {
    if sizes != [] {
      var last := |sizes| - 1;
      NothingCounted(sizes[..last]);
      assert Todos(sizes)[..last] == Todos(sizes[..last]);
    }
  }

  // ----- The invariant -----

  /** Has not passed the guard that starts the run. */
  predicate Idle(proc: Process) {
    proc.Scheduling? || (proc.Prerun? && proc.ps in {Arrived, CacheMissing})
  }

  ghost predicate PackagesOk(pj: Project, ps: seq<Package>) {
    SizeSum(ps) <= pj.total && ((forall p | p in ps :: !p.Lost?) ==> SizeSum(ps) == pj.total)
  }

  ghost predicate JobOk(pj: Project, s: State, js: JobStage, ps: seq<Package>) {
    match js
    case Scheduled => s.stage == 2 && s.counter.None? && !s.cleared && s.recounted == 0
    case Comparing => s.stage == 2 && PackagesOk(pj, ps) && Progress(s.counter) == CountedSum(ps) + s.recounted
        && !s.cleared
    case Aggregating => s.stage == 2 && AllDelivered(ps) && SizeSum(ps) == pj.total
        && Progress(s.counter) == pj.total + s.recounted && !s.cleared
    case Cleared => s.stage == 2 && AllDelivered(ps) && SizeSum(ps) == pj.total && s.cleared && !pj.similarityScores
    case _ =>
      && s.stage == Stages(pj) && AllDelivered(ps) && SizeSum(ps) == pj.total && s.cleared == !pj.similarityScores
      && (pj.similarityScores ==> Progress(s.counter) == pj.total + s.recounted && js in {Completing, Marked})
  }

  /** What holds of one process. */
  ghost predicate ProcessOk(pj: Project, s: State, p: nat)
    requires p in s.procs
  {
    match s.procs[p]
    case Scheduling => s.timesQueued == 1
    case Prerun(ps) =>
      s.timesQueued == 1 &&
      (ps in {HoldsRow, CacheSet} ==> s.lock == Some(p) && s.run.Queued?) &&
      (ps.Launching? ==>
         && s.timesStarted == 1 && s.run in {Running, Errored} && s.stage == 2
         && s.counter.None? && !s.cleared && s.recounted == 0)
    case Job(js, ps) =>
      s.timesStarted == 1 && s.run in {Running, Completed, Errored} && (s.run.Completed? ==> js.Marked?)
          && JobOk(pj, s, js, ps)
  }

  /** What holds of the run itself. */
  ghost predicate RunOk(pj: Project, s: State) {
    && s.timesQueued <= 1 && s.timesStarted <= s.timesQueued
    && (s.timesQueued == 0 ==> s.run in {Created, Errored} && s.stage == 1 && s.procs == map[])
    && (s.timesQueued == 1 ==> !s.run.Created? && 2 <= s.stage <= Stages(pj))
    && (s.timesStarted == 0 ==>
        s.run in {Created, Queued, Errored} && s.stage <= 2 && s.counter.None? && !s.cleared && s.recounted == 0)
    && (s.timesStarted == 1 ==> !s.run.Queued?)
    && (s.run.Completed? ==> s.stage == Stages(pj))
    && (s.cleared ==> s.counter.None? && !pj.similarityScores) && (s.stage == 3 ==> s.cleared)
    && Progress(s.counter) <= pj.total + s.recounted && (pj.total == 0 ==> s.recounted == 0)
        && s.contributed <= pj.parties
  }

  ghost predicate OneStarter(s: State) {
    forall p, q | p in s.procs && q in s.procs && !Idle(s.procs[p]) && !Idle(s.procs[q]) :: p == q
  }

  ghost predicate LockIsHeld(s: State) {
    s.lock.Some? ==> s.lock.value in s.procs && s.procs[s.lock.value] in {Prerun(HoldsRow), Prerun(CacheSet)}
  }

  ghost predicate Inv(pj: Project, s: State) {
    RunOk(pj, s) && OneStarter(s) && LockIsHeld(s) && forall p | p in s.procs :: ProcessOk(pj, s, p)
  }

  /** Idle processes come and go, and nothing else changes. */
  lemma {:induction false} IdleProcessesChange(pj: Project, s: State, s': State)
    requires Inv(pj, s) && s.timesQueued == 1 && s' == s.(procs := s'.procs)
    requires forall p | p in s'.procs :: Idle(s'.procs[p]) || (p in s.procs && s.procs[p] == s'.procs[p])
    requires forall p | p in s.procs && !Idle(s.procs[p]) :: p in s'.procs && s'.procs[p] == s.procs[p]
    ensures Inv(pj, s')
  {
    forall p | p in s'.procs ensures ProcessOk(pj, s', p) {
      if p in s.procs && s.procs[p] == s'.procs[p] {
        assert ProcessOk(pj, s, p);
      }
    }
  }

  /** The process that has passed the guard makes a step, as process `q`, or ends. */
  lemma {:induction false} StarterMoves(pj: Project, s: State, s': State, p: nat, q: nat)
    requires Inv(pj, s) && RunOk(pj, s') && LockIsHeld(s') && s'.timesQueued == s.timesQueued == 1
    requires p in s.procs && forall r | r in s.procs && !Idle(s.procs[r]) :: r == p
    requires forall r | r != p && r != q ::
        (r in s'.procs <==> r in s.procs) && (r in s.procs ==> s'.procs[r] == s.procs[r])
    requires p != q ==> q !in s.procs && p !in s'.procs
    requires q in s'.procs ==> ProcessOk(pj, s', q)
    ensures Inv(pj, s')
  {
    forall r | r in s'.procs ensures ProcessOk(pj, s', r) {
      if r != q {
        assert ProcessOk(pj, s, r);
      }
    }
  }

  lemma {:induction false} QueueKeepsInv(pj: Project, s: State, a: Action, s': State)
    requires Inv(pj, s) && QueueStep(pj, s, a, s')
    ensures Inv(pj, s')
  {
    match a
    case Contribute(k) =>
      assert forall p | p in s'.procs :: ProcessOk(pj, s, p) && ProcessOk(pj, s', p);
    case Queue(q) =>
      assert s'.procs.Keys == {q};
    case FailAll =>
      forall p | p in s'.procs ensures ProcessOk(pj, s', p) {
        assert ProcessOk(pj, s, p);
      }
    case Schedule(p, q) =>
      assert ProcessOk(pj, s, p);
      IdleProcessesChange(pj, s, s');
    case Redeliver(q) =>
      IdleProcessesChange(pj, s, s');
  }

  /** While the run is queued and its row is free, no process has passed the guard. */
  lemma {:induction false} NobodyStarted(pj: Project, s: State, p: nat)
    requires Inv(pj, s) && s.lock.None? && s.run in {Created, Queued} && At(s, p, Prerun(CacheMissing))
    ensures forall r | r in s.procs :: Idle(s.procs[r])
  {
    forall r | r in s.procs ensures Idle(s.procs[r]) {
      assert ProcessOk(pj, s, r);
    }
  }

  lemma {:induction false} GuardKeepsInv(pj: Project, s: State, a: Action, s': State)
    requires Inv(pj, s) && PrerunStep(s, a, s') && (a.ReadCache? || a.TryLock?)
    ensures Inv(pj, s')
  {
    var p := a.p;
    assert ProcessOk(pj, s, p);
    if a.TryLock? && p in s'.procs {
      NobodyStarted(pj, s, p);
      StarterMoves(pj, s, s', p, p);
    } else {
      IdleProcessesChange(pj, s, s');
    }
  }

  lemma {:induction false} PrerunKeepsInv(pj: Project, s: State, a: Action, s': State)
    requires Inv(pj, s) && PrerunStep(s, a, s')
    ensures Inv(pj, s')
  {
    if a.ReadCache? || a.TryLock? {
      GuardKeepsInv(pj, s, a, s');
    } else {
      assert ProcessOk(pj, s, a.p);
      StarterMoves(pj, s, s', a.p, if a.Launch? then a.q else a.p);
    }
  }

  lemma {:induction false} CompareKeepsInv(pj: Project, s: State, a: Action, s': State)
    requires Inv(pj, s) && CompareStep(pj, s, a, s')
    ensures Inv(pj, s')
  {
    var p := a.p;
    assert ProcessOk(pj, s, p);
    PackagesChange(pj, s, a, s');
    StarterMoves(pj, s, s', p, p);
  }

  lemma {:induction false} PackagesChange(pj: Project, s: State, a: Action, s': State)
    requires Inv(pj, s) && CompareStep(pj, s, a, s')
    ensures ProcessOk(pj, s', a.p) && RunOk(pj, s')
  {
    assert ProcessOk(pj, s, a.p);
    if a.CreateJobs? {
      NothingCounted(a.sizes);
    } else if a.Gather? {
      CountedAtMostSize(s.procs[a.p].packages);
    } else {
      OnePackageChanges(pj, s, a, s');
    }
  }

  /** The task of one package makes a step. */
  lemma {:induction false} OnePackageChanges(pj: Project, s: State, a: Action, s': State)
    requires RunOk(pj, s) && CompareStep(pj, s, a, s') && !a.CreateJobs? && !a.Gather? && ProcessOk(pj, s, a.p)
    ensures ProcessOk(pj, s', a.p) && RunOk(pj, s')
  {
    var was := s.procs[a.p].packages;
    match a
    case Count(p, i) => PackageChanges(pj, was, i, Counted(was[i].n));
    case Deliver(p, i) => PackageChanges(pj, was, i, Delivered(was[i].n));
    case Retry(p, i) => PackageChanges(pj, was, i, Todo(was[i].n));
    case GiveUp(p, i) => PackageChanges(pj, was, i, Lost(0));
    case OverLimit(p, i) => PackageChanges(pj, was, i, Lost(was[i].n));
  }

  lemma {:induction false} PackageChanges(pj: Project, ps: seq<Package>, i: nat, p: Package)
    requires PackagesOk(pj, ps) && i < |ps| && !ps[i].Lost?
    requires p.n == ps[i].n || (p.n <= ps[i].n && p.Lost?)
    ensures PackagesOk(pj, ps[i := p]) && ps[i].n <= pj.total
    ensures CountedSum(ps[i := p]) == CountedSum(ps) - CountedPart(ps[i]) + CountedPart(p) <= pj.total
  {
    ChangePackage(ps, i, p);
    CountedAtMostSize(ps[i := p]);
    if forall q | q in ps[i := p] :: !q.Lost? {
      assert ps[i := p][i] == p;
      forall q | q in ps ensures !q.Lost? {
        var j :| 0 <= j < |ps| && ps[j] == q;
        assert j != i ==> ps[i := p][j] == q;
      }
    }
  }

  lemma {:induction false} FinishKeepsInv(pj: Project, s: State, a: Action, s': State)
    requires Inv(pj, s) && FinishStep(pj, s, a, s')
    ensures Inv(pj, s')
  {
    FinishIsOk(pj, s, a, s');
    FinishLeavesOthers(pj, s, a, s');
    StarterMoves(pj, s, s', a.p, a.p);
  }

  lemma {:induction false} FinishLeavesOthers(pj: Project, s: State, a: Action, s': State)
    requires OneStarter(s) && LockIsHeld(s) && FinishStep(pj, s, a, s')
    ensures a.p in s.procs && s.procs[a.p].Job? && s'.timesQueued == s.timesQueued && LockIsHeld(s')
    ensures forall r | r in s.procs && !Idle(s.procs[r]) :: r == a.p
    ensures forall r | r != a.p :: (r in s'.procs <==> r in s.procs) && (r in s.procs ==> s'.procs[r] == s.procs[r])
  {
    assert a.p in s.procs && !Idle(s.procs[a.p]);
  }

  lemma {:induction false} FinishIsOk(pj: Project, s: State, a: Action, s': State)
    requires Inv(pj, s) && FinishStep(pj, s, a, s')
    ensures RunOk(pj, s') && (a.p in s'.procs ==> ProcessOk(pj, s', a.p)) && s.timesQueued == 1
  {
    assert ProcessOk(pj, s, a.p);
    if a.JobFails? || a.JobStops? || a.MarkCache? {
      JobEnds(pj, s, a, s');
    } else if a.ClearProgress? || a.Promote? || a.SkipSolving? {
      ProgressIsOver(pj, s, a, s');
    } else {
      ResultIsSaved(pj, s, a, s');
    }
  }

  lemma {:induction false} JobEnds(pj: Project, s: State, a: Action, s': State)
    requires RunOk(pj, s) && FinishStep(pj, s, a, s') && (a.JobFails? || a.JobStops? || a.MarkCache?)
    requires ProcessOk(pj, s, a.p)
    ensures RunOk(pj, s') && a.p !in s'.procs
  {}

  lemma {:induction false} ProgressIsOver(pj: Project, s: State, a: Action, s': State)
    requires RunOk(pj, s) && FinishStep(pj, s, a, s') && (a.ClearProgress? || a.Promote? || a.SkipSolving?)
    requires ProcessOk(pj, s, a.p)
    ensures RunOk(pj, s') && a.p in s'.procs && ProcessOk(pj, s', a.p)
  {}

  lemma {:induction false} ResultIsSaved(pj: Project, s: State, a: Action, s': State)
    requires RunOk(pj, s) && FinishStep(pj, s, a, s')
    requires a.Solve? || a.Save? || a.Permute? || a.MarkComplete?
    requires ProcessOk(pj, s, a.p)
    ensures RunOk(pj, s') && a.p in s'.procs && ProcessOk(pj, s', a.p)
  {}

  lemma {:induction false} StepKeepsInv(pj: Project, s: State, a: Action, s': State)
    requires Inv(pj, s) && Step(pj, s, a, s')
    ensures Inv(pj, s')
  {
    if QueueStep(pj, s, a, s') {
      QueueKeepsInv(pj, s, a, s');
    } else if PrerunStep(s, a, s') {
      PrerunKeepsInv(pj, s, a, s');
    } else if CompareStep(pj, s, a, s') {
      CompareKeepsInv(pj, s, a, s');
    } else {
      FinishKeepsInv(pj, s, a, s');
    }
  }

  lemma {:induction false} InitiallyInv(pj: Project)
    ensures Inv(pj, Initial())
  {}

  lemma {:induction false} Reachable(pj: Project, ss: seq<State>, acts: seq<Action>, k: nat)
    requires Trace(pj, ss, acts) && k < |ss|
    ensures Inv(pj, ss[k])
    decreases k
  {
    if k == 0 {
      InitiallyInv(pj);
    } else {
      Reachable(pj, ss, acts, k - 1);
      assert Step(pj, ss[k - 1], acts[k - 1], ss[k]);
      StepKeepsInv(pj, ss[k - 1], acts[k - 1], ss[k]);
    }
  }

  // ----- Safety -----

  /**
   Whatever the interleaving, and however often check and pre-run tasks are delivered: a run is
   queued at most once and started at most once, is past its first stage once it is queued, never
   goes beyond the last stage of its type, and is in that stage when it is completed.
   */
  lemma {:induction false} RunsStartOnce(pj: Project, ss: seq<State>, acts: seq<Action>, k: nat)
    requires Trace(pj, ss, acts) && k < |ss|
    ensures Times(acts[..k], Queues) <= 1
    ensures Times(acts[..k], Starts) <= 1
    ensures ss[k].run.Queued? || ss[k].run.Running? ==> ss[k].stage >= 2
    ensures ss[k].stage <= Stages(pj) && (ss[k].run.Completed? ==> ss[k].stage == Stages(pj))
    ensures forall p, q | p in ss[k].procs && q in ss[k].procs && ss[k].procs[p].Job? && ss[k].procs[q].Job? :: p == q
  {
    Reachable(pj, ss, acts, k);
    TimesCounted(pj, ss, acts, k);
  }

  predicate Queues(a: Action) {
    a.Queue?
  }

  predicate Starts(a: Action) {
    a.CommitStart?
  }

  /** How many of these actions are of one kind. */
  function Times(acts: seq<Action>, kind: Action -> bool): nat {
    if acts == [] then 0
    else Times(acts[..|acts| - 1], kind) + if kind(acts[|acts| - 1]) then 1 else 0
  }

  lemma {:induction false} TimesCounted(pj: Project, ss: seq<State>, acts: seq<Action>, k: nat)
    requires Trace(pj, ss, acts) && k < |ss|
    ensures Times(acts[..k], Queues) == ss[k].timesQueued
    ensures Times(acts[..k], Starts) == ss[k].timesStarted
    decreases k
  {
    if k > 0 {
      TimesCounted(pj, ss, acts, k - 1);
      assert Step(pj, ss[k - 1], acts[k - 1], ss[k]);
      assert acts[..k][..k - 1] == acts[..k - 1];
      CountStep(pj, ss[k - 1], acts[k - 1], ss[k]);
    }
  }

  lemma {:induction false} CountStart(pj: Project, s: State, a: Action, s': State)
    requires QueueStep(pj, s, a, s') || PrerunStep(s, a, s')
    ensures s'.timesQueued == s.timesQueued + if a.Queue? then 1 else 0
    ensures s'.timesStarted == s.timesStarted + if a.CommitStart? then 1 else 0
  {}

  lemma {:induction false} CountStep(pj: Project, s: State, a: Action, s': State)
    requires Step(pj, s, a, s')
    ensures s'.timesQueued == s.timesQueued + if a.Queue? then 1 else 0
    ensures s'.timesStarted == s.timesStarted + if a.CommitStart? then 1 else 0
  {
    if QueueStep(pj, s, a, s') || PrerunStep(s, a, s') {
      CountStart(pj, s, a, s');
    } else {
      assert CompareStep(pj, s, a, s') || FinishStep(pj, s, a, s');
    }
  }

  /** A run is only marked as complete in its last stage, when every package has returned its result. */
  lemma {:induction false} CompletesAtTheEnd(pj: Project, ss: seq<State>, acts: seq<Action>, k: nat)
    requires Trace(pj, ss, acts) && k < |acts| && acts[k].MarkComplete?
    ensures ss[k].stage == ss[k + 1].stage == Stages(pj) && ss[k + 1].run.Completed?
    ensures AllDelivered(ss[k].procs[acts[k].p].packages) && SizeSum(ss[k].procs[acts[k].p].packages) == pj.total
  {
    Reachable(pj, ss, acts, k);
    assert Step(pj, ss[k], acts[k], ss[k + 1]);
    assert ProcessOk(pj, ss[k], acts[k].p);
  }

  // ----- Histories -----

  /** Some run of the protocol leads to this state. */
  ghost predicate CanReach(pj: Project, s: State) {
    exists ss, acts :: Trace(pj, ss, acts) && ss[|acts|] == s
  }

  /**
   A step that the run takes on its own: it is neither queued nor failed along with its project, and
   does not look at the providers of the project.
   */
  predicate Own(a: Action) {
    !a.Queue? && !a.FailAll? && !a.CreateJobs?
  }

  /** Steps of the run on its own lead from `s` to `t`. */
  ghost predicate Leads(pj: Project, s: State, t: State) {
    exists ss, acts :: OwnPath(pj, ss, acts) && ss[0] == s && ss[|acts|] == t
  }

  ghost predicate OwnPath(pj: Project, ss: seq<State>, acts: seq<Action>) {
    Path(pj, ss, acts) && forall a | a in acts :: Own(a)
  }

  lemma {:induction false} Next(pj: Project, s: State, a: Action, s': State)
    requires CanReach(pj, s) && Step(pj, s, a, s')
    ensures CanReach(pj, s')
  {
    var ss, acts :| Trace(pj, ss, acts) && ss[|acts|] == s;
    assert Trace(pj, ss + [s'], acts + [a]);
  }

  lemma {:induction false} LeadsOn(pj: Project, s: State, t: State, a: Action, t': State)
    requires Leads(pj, s, t) && Step(pj, t, a, t') && Own(a)
    ensures Leads(pj, s, t')
  {
    var ss, acts :| OwnPath(pj, ss, acts) && ss[0] == s && ss[|acts|] == t;
    var ss', acts' := ss + [t'], acts + [a];
    assert Path(pj, ss', acts');
    assert OwnPath(pj, ss', acts') && ss'[0] == s && ss'[|acts'|] == t';
  }

  lemma {:induction false} LeadsToItself(pj: Project, s: State)
    ensures Leads(pj, s, s)
  {
    assert OwnPath(pj, [s], []);
  }

  lemma {:induction false} ReachFurther(pj: Project, ss: seq<State>, acts: seq<Action>, k: nat)
    requires Path(pj, ss, acts) && k < |ss| && CanReach(pj, ss[0])
    ensures CanReach(pj, ss[k])
    decreases k
  {
    if k > 0 {
      ReachFurther(pj, ss, acts, k - 1);
      assert Step(pj, ss[k - 1], acts[k - 1], ss[k]);
      Next(pj, ss[k - 1], acts[k - 1], ss[k]);
    }
  }

  lemma {:induction false} ReachByLeading(pj: Project, s: State, t: State)
    requires CanReach(pj, s) && Leads(pj, s, t)
    ensures CanReach(pj, t)
  {
    var ss, acts :| OwnPath(pj, ss, acts) && ss[0] == s && ss[|acts|] == t;
    ReachFurther(pj, ss, acts, |acts|);
  }

  lemma {:induction false} NextOfPrerun(pj: Project, s: State, t: State, a: Action, t': State)
    requires Leads(pj, s, t) && PrerunStep(t, a, t')
    ensures Leads(pj, s, t')
  {
    LeadsOn(pj, s, t, a, t');
  }

  lemma {:induction false} NextOfJob(pj: Project, s: State, t: State, a: Action, t': State)
    requires Leads(pj, s, t) && !a.CreateJobs? && (CompareStep(pj, t, a, t') || FinishStep(pj, t, a, t'))
    ensures Leads(pj, s, t')
  {
    LeadsOn(pj, s, t, a, t');
  }

  /** A run that has just been queued. */
  function JustQueued(): State {
    With(Initial().(run := Queued, stage := 2, timesQueued := 1), 1, Scheduling)
  }

  lemma {:induction false} RunIsQueued(pj: Project)
    ensures CanReach(pj, Initial()) && Step(pj, Initial(), Queue(1), JustQueued()) && CanReach(pj, JustQueued())
  {
    assert Trace(pj, [Initial()], []);
    Next(pj, Initial(), Queue(1), JustQueued());
  }

  /** A pre-run task holds the row of the queued run. */
  function RowHeld(): State {
    JustQueued().(lock := Some(0), procs := map[0 := Prerun(HoldsRow)])
  }

  lemma {:induction false} RunIsGuarded(pj: Project)
    ensures Leads(pj, JustQueued(), RowHeld())
  {
    var s1 := JustQueued();
    LeadsToItself(pj, s1);
    var s2 := With(End(s1, 1), 0, Prerun(Arrived));
    LeadsOn(pj, s1, s1, Schedule(1, 0), s2);
    var s3 := With(s2, 0, Prerun(CacheMissing));
    NextOfPrerun(pj, s1, s2, ReadCache(0), s3);
    var s4 := With(s3.(lock := Some(0)), 0, Prerun(HoldsRow));
    NextOfPrerun(pj, s1, s3, TryLock(0), s4);
    assert s4.procs == map[0 := Prerun(HoldsRow)];
  }

  /** Where a run stands once it is started. */
  function Started(): State {
    State(Running, 2, None, Active, None, 0, map[0 := Prerun(Launching)], 1, 1, false, 0)
  }

  lemma {:induction false} RunIsStarted(pj: Project)
    ensures Leads(pj, JustQueued(), Started())
  {
    RunIsGuarded(pj);
    var s4 := RowHeld();
    var s5 := With(s4.(cache := Active), 0, Prerun(CacheSet));
    NextOfPrerun(pj, JustQueued(), s4, SetActive(0), s5);
    var s6 := With(s5.(run := Running, lock := None, timesStarted := 1), 0, Prerun(Launching));
    NextOfPrerun(pj, JustQueued(), s5, CommitStart(0), s6);
    assert s6.procs == map[0 := Prerun(Launching)];
  }

  /** A started run whose packages are to be created. */
  function ToBePacked(): State {
    Started().(procs := map[1 := Job(Scheduled, [])])
  }

  lemma {:induction false} JobsAreScheduled(pj: Project)
    ensures Leads(pj, JustQueued(), ToBePacked())
  {
    RunIsStarted(pj);
    assert With(End(Started(), 0), 1, Job(Scheduled, [])).procs == ToBePacked().procs;
    NextOfPrerun(pj, JustQueued(), Started(), Launch(0, 1), ToBePacked());
  }

  /** A started run whose packages are to be compared. */
  function WithPackages(ps: seq<Package>): State {
    Started().(procs := map[1 := Job(Comparing, ps)])
  }

  lemma {:induction false} PackagesAreCreated(pj: Project, sizes: seq<nat>)
    requires SizeSum(Todos(sizes)) == pj.total
    ensures CompareStep(pj, ToBePacked(), CreateJobs(1, sizes), WithPackages(Todos(sizes)))
    ensures CanReach(pj, WithPackages(Todos(sizes)))
  {
    assert ToBePacked().procs[1 := Job(Comparing, Todos(sizes))] == WithPackages(Todos(sizes)).procs;
    RunIsQueued(pj);
    JobsAreScheduled(pj);
    ReachByLeading(pj, JustQueued(), ToBePacked());
    Next(pj, ToBePacked(), CreateJobs(1, sizes), WithPackages(Todos(sizes)));
  }

  /** A started run with one package, at some point of its way. */
  function OnItsWay(js: JobStage, p: Package, counter: Option<nat>, stage: nat): State {
    Started().(stage := stage, cleared := js in {Cleared, Solving, Saving, Completing}, counter := counter,
               procs := map[1 := Job(js, [p])])
  }

  lemma {:induction false} Moves(js: JobStage, p: Package, js': JobStage, p': Package)
    ensures map[1 := Job(js, [p])][1 := Job(js', [p'])] == map[1 := Job(js', [p'])]
  {}

  lemma {:induction false} PackageIsCounted(pj: Project, s: State)
    requires Leads(pj, s, OnItsWay(Comparing, Todo(1), None, 2))
    ensures Leads(pj, s, OnItsWay(Comparing, Counted(1), Some(1), 2))
  {
    Moves(Comparing, Todo(1), Comparing, Counted(1));
    assert [Todo(1)][0 := Counted(1)] == [Counted(1)];
    NextOfJob(pj, s, OnItsWay(Comparing, Todo(1), None, 2), Count(1, 0), OnItsWay(Comparing, Counted(1), Some(1), 2));
  }

  lemma {:induction false} PackageDelivers(pj: Project, s: State)
    requires Leads(pj, s, OnItsWay(Comparing, Counted(1), Some(1), 2))
    ensures Leads(pj, s, OnItsWay(Comparing, Delivered(1), Some(1), 2))
  {
    Moves(Comparing, Counted(1), Comparing, Delivered(1));
    assert [Counted(1)][0 := Delivered(1)] == [Delivered(1)];
    NextOfJob(pj, s, OnItsWay(Comparing, Counted(1), Some(1), 2), Deliver(1, 0),
              OnItsWay(Comparing, Delivered(1), Some(1), 2));
  }

  lemma {:induction false} ResultsAreGathered(pj: Project, s: State)
    requires Leads(pj, s, OnItsWay(Comparing, Delivered(1), Some(1), 2)) && !pj.similarityScores
    ensures Leads(pj, s, OnItsWay(Cleared, Delivered(1), None, 2))
  {
    Moves(Comparing, Delivered(1), Aggregating, Delivered(1));
    NextOfJob(pj, s, OnItsWay(Comparing, Delivered(1), Some(1), 2), Gather(1),
              OnItsWay(Aggregating, Delivered(1), Some(1), 2));
    Moves(Aggregating, Delivered(1), Cleared, Delivered(1));
    NextOfJob(pj, s, OnItsWay(Aggregating, Delivered(1), Some(1), 2), ClearProgress(1),
              OnItsWay(Cleared, Delivered(1), None, 2));
  }

  lemma {:induction false} ResultIsSolved(pj: Project, s: State)
    requires Leads(pj, s, OnItsWay(Cleared, Delivered(1), None, 2))
    ensures Leads(pj, s, OnItsWay(Saving, Delivered(1), None, 3))
  {
    Moves(Cleared, Delivered(1), Solving, Delivered(1));
    NextOfJob(pj, s, OnItsWay(Cleared, Delivered(1), None, 2), Promote(1), OnItsWay(Solving, Delivered(1), None, 3));
    Moves(Solving, Delivered(1), Saving, Delivered(1));
    NextOfJob(pj, s, OnItsWay(Solving, Delivered(1), None, 3), Solve(1), OnItsWay(Saving, Delivered(1), None, 3));
  }

  /** A run about to be marked as complete. */
  function AtTheEnd(): State {
    OnItsWay(Completing, Delivered(1), None, 3)
  }

  /** A run of one comparison that publishes groups gets there. */
  lemma {:induction false} RunToTheEnd(pj: Project)
    requires !pj.similarityScores && !pj.permutations
    ensures Leads(pj, WithPackages([Todo(1)]), AtTheEnd())
  {
    var s := WithPackages([Todo(1)]);
    LeadsToItself(pj, s);
    assert s == OnItsWay(Comparing, Todo(1), None, 2);
    PackageIsCounted(pj, s);
    PackageDelivers(pj, s);
    ResultsAreGathered(pj, s);
    ResultIsSolved(pj, s);
    Moves(Saving, Delivered(1), Completing, Delivered(1));
    NextOfJob(pj, s, OnItsWay(Saving, Delivered(1), None, 3), Save(1), AtTheEnd());
  }
}
