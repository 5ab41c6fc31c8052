/**
 When a queued run can still be started. The guard of the pre-run task sets the state in the cache
 before the database records the start, and the two are not one transaction.
 */
module StartGuard {
  import opened Collections
  import opened RunLifecycle
  import opened Runs
  import opened Wrappers

  /** Some continuation starts the run. */
  ghost predicate CanStart(pj: Project, s: State) {
    exists ss: seq<State>, acts :: Path(pj, ss, acts) && ss[0] == s && ss[|acts|].run.Running?
  }

  predicate PastCache(proc: Process) {
    proc.Prerun? && proc.ps in {CacheMissing, HoldsRow, CacheSet}
  }

  /** The cache does not know the run yet, or a task has already seen that it does not. */
  ghost predicate MayStart(s: State) {
    s.cache.Missing? || exists p | p in s.procs :: PastCache(s.procs[p])
  }

  // ----- Otherwise it is never started -----

  predicate Outside(proc: Process) {
    proc.Scheduling? || proc == Prerun(Arrived)
  }

  /** The cache turns every task away. */
  ghost predicate ShutOut(s: State) {
    !s.cache.Missing? && s.run in {Queued, Errored} && forall p | p in s.procs :: Outside(s.procs[p])
  }

  lemma {:induction false} QueueLeavesShutOut(pj: Project, s: State, a: Action, s': State)
    requires ShutOut(s) && (QueueStep(pj, s, a, s') || PrerunStep(s, a, s'))
    ensures ShutOut(s')
  {
    if PrerunStep(s, a, s') {
      assert Outside(s.procs[a.p]);
    }
  }

  lemma {:induction false} StepLeavesShutOut(pj: Project, s: State, a: Action, s': State)
    requires ShutOut(s) && Step(pj, s, a, s')
    ensures ShutOut(s')
  {
    if QueueStep(pj, s, a, s') || PrerunStep(s, a, s') {
      QueueLeavesShutOut(pj, s, a, s');
    }
  }

  lemma {:induction false} ShutOutForGood(pj: Project, ss: seq<State>, acts: seq<Action>, k: nat)
    requires Path(pj, ss, acts) && k < |ss| && ShutOut(ss[0])
    ensures ShutOut(ss[k])
    decreases k
  {
    if k > 0 {
      ShutOutForGood(pj, ss, acts, k - 1);
      assert Step(pj, ss[k - 1], acts[k - 1], ss[k]);
      StepLeavesShutOut(pj, ss[k - 1], acts[k - 1], ss[k]);
    }
  }

  lemma {:induction false} NotStarting(pj: Project, s: State)
    requires Inv(pj, s) && s.run.Queued? && !MayStart(s)
    ensures ShutOut(s)
  {
    forall p | p in s.procs ensures Outside(s.procs[p]) {
      assert ProcessOk(pj, s, p) && !PastCache(s.procs[p]);
    }
  }

  // ----- And then it can be started -----

  lemma {:induction false} StartsFrom(pj: Project, s: State, t: State)
    requires Leads(pj, s, t) && t.run.Running?
    ensures CanStart(pj, s)
  {
    var ss, acts :| OwnPath(pj, ss, acts) && ss[0] == s && ss[|acts|] == t;
    assert Path(pj, ss, acts);
  }

  lemma {:induction false} HolderStarts(pj: Project, s: State, t: State, p: nat)
    requires Leads(pj, s, t) && (At(t, p, Prerun(HoldsRow)) || At(t, p, Prerun(CacheSet)))
    ensures CanStart(pj, s)
  {
    var u := With(t.(cache := Active), p, Prerun(CacheSet));
    if At(t, p, Prerun(HoldsRow)) {
      NextOfPrerun(pj, s, t, SetActive(p), u);
    } else {
      u := t;
    }
    var v := With(u.(run := Running, lock := None, timesStarted := u.timesStarted + 1), p, Prerun(Launching));
    NextOfPrerun(pj, s, u, CommitStart(p), v);
    StartsFrom(pj, s, v);
  }

  lemma {:induction false} LockerStarts(pj: Project, s: State, t: State, p: nat)
    requires Leads(pj, s, t) && At(t, p, Prerun(CacheMissing)) && t.lock.None? && t.run.Queued?
    ensures CanStart(pj, s)
  {
    var u := With(t.(lock := Some(p)), p, Prerun(HoldsRow));
    NextOfPrerun(pj, s, t, TryLock(p), u);
    HolderStarts(pj, s, u, p);
  }

  lemma {:induction false} RedeliveryStarts(pj: Project, s: State)
    requires s.cache.Missing? && s.lock.None? && s.run.Queued? && s.timesQueued > 0
    ensures CanStart(pj, s)
  {
    var q := NewId(s.procs.Keys);
    LeadsToItself(pj, s);
    var t := With(s, q, Prerun(Arrived));
    LeadsOn(pj, s, s, Redeliver(q), t);
    var u := With(t, q, Prerun(CacheMissing));
    NextOfPrerun(pj, s, t, ReadCache(q), u);
    LockerStarts(pj, s, u, q);
  }

  lemma {:induction false} MayStartCanStart(pj: Project, s: State)
    requires Inv(pj, s) && s.run.Queued? && MayStart(s)
    ensures CanStart(pj, s)
  {
    LeadsToItself(pj, s);
    if s.lock.Some? {
      HolderStarts(pj, s, s, s.lock.value);
    } else if s.cache.Missing? {
      RedeliveryStarts(pj, s);
    } else {
      var p :| p in s.procs && PastCache(s.procs[p]);
      assert ProcessOk(pj, s, p);
      LockerStarts(pj, s, s, p);
    }
  }

  /**
   A queued run can still be started if and only if the cache does not know it, or a pre-run task is
   under way that has found so. Delivering the task again helps in the first case only.
   */
  lemma {:induction false} CanStartIff(pj: Project, s: State)
    requires CanReach(pj, s) && s.run.Queued?
    ensures CanStart(pj, s) <==> MayStart(s)
  {
    var ss, acts :| Trace(pj, ss, acts) && ss[|acts|] == s;
    Reachable(pj, ss, acts, |acts|);
    if MayStart(s) {
      MayStartCanStart(pj, s);
    } else {
      NotStarting(pj, s);
      if CanStart(pj, s) {
        var ts: seq<State>, bs :| Path(pj, ts, bs) && ts[0] == s && ts[|bs|].run.Running?;
        ShutOutForGood(pj, ts, bs, |bs|);
      }
    }
  }

  /** A pre-run task crashes after it has set the cache: the run stays queued for good. */
  lemma {:induction false} LeftQueued(pj: Project) returns (s: State)
    ensures CanReach(pj, s) && s.run.Queued? && s.procs == map[] && !CanStart(pj, s)
  {
    RunIsQueued(pj);
    RunIsGuarded(pj);
    var t := With(RowHeld().(cache := Active), 0, Prerun(CacheSet));
    NextOfPrerun(pj, JustQueued(), RowHeld(), SetActive(0), t);
    s := End(t.(lock := None), 0);
    NextOfPrerun(pj, JustQueued(), t, PrerunCrashes(0), s);
    ReachByLeading(pj, JustQueued(), s);
    CanStartIff(pj, s);
    assert s.procs == map[];
  }

  // ----- What the cache knows of a run -----

  /** A run that has started, or is about to be, is in the cache; one that is complete there has started. */
  ghost predicate Cached(s: State) {
    && (s.timesStarted > 0 ==> !s.cache.Missing?) && (s.cache.Complete? ==> s.timesStarted > 0)
    && forall p | p in s.procs && s.procs[p] == Prerun(CacheSet) :: !s.cache.Missing?
  }

  lemma {:induction false} StartStaysCached(pj: Project, s: State, a: Action, s': State)
    requires Inv(pj, s) && Cached(s) && PrerunStep(s, a, s')
    ensures Cached(s') && (s.cache.Complete? ==> s'.cache.Complete?) && (!s.cache.Missing? ==> !s'.cache.Missing?)
  {
    assert ProcessOk(pj, s, a.p);
  }

  lemma {:induction false} StaysCached(pj: Project, s: State, a: Action, s': State)
    requires Inv(pj, s) && Cached(s) && Step(pj, s, a, s')
    ensures Cached(s') && (s.cache.Complete? || a.MarkCache? ==> s'.cache.Complete?)
    ensures !s.cache.Missing? ==> !s'.cache.Missing?
  {
    if PrerunStep(s, a, s') {
      StartStaysCached(pj, s, a, s');
    } else if QueueStep(pj, s, a, s') {
      QueueStaysCached(pj, s, a, s');
    } else {
      JobStaysCached(pj, s, a, s');
    }
  }

  lemma {:induction false} QueueStaysCached(pj: Project, s: State, a: Action, s': State)
    requires Cached(s) && QueueStep(pj, s, a, s')
    ensures Cached(s') && s'.cache == s.cache && !a.MarkCache?
  {}

  lemma {:induction false} JobStaysCached(pj: Project, s: State, a: Action, s': State)
    requires Inv(pj, s) && Cached(s) && (CompareStep(pj, s, a, s') || FinishStep(pj, s, a, s'))
    ensures Cached(s') && s'.cache == if a.MarkCache? then Complete else s.cache
  {
    assert ProcessOk(pj, s, a.p);
  }

  lemma {:induction false} AlwaysCached(pj: Project, ss: seq<State>, acts: seq<Action>, k: nat)
    requires Trace(pj, ss, acts) && k < |ss|
    ensures Cached(ss[k])
    decreases k
  {
    if k > 0 {
      AlwaysCached(pj, ss, acts, k - 1);
      Reachable(pj, ss, acts, k - 1);
      assert Step(pj, ss[k - 1], acts[k - 1], ss[k]);
      StaysCached(pj, ss[k - 1], acts[k - 1], ss[k]);
    }
  }

  /**
   In every history: a run that has started is in the cache from then on, and from the end of its last
   task on it is there as complete.
   */
  lemma {:induction false} CacheFollowsRun(pj: Project, ss: seq<State>, acts: seq<Action>, k: nat, j: nat)
    requires Trace(pj, ss, acts) && k < j < |ss|
    ensures acts[k].CommitStart? ==> !ss[j].cache.Missing?
    ensures acts[k].MarkCache? ==> ss[j].cache.Complete?
    decreases j
  {
    Reachable(pj, ss, acts, j - 1);
    AlwaysCached(pj, ss, acts, j - 1);
    assert Step(pj, ss[j - 1], acts[j - 1], ss[j]);
    StaysCached(pj, ss[j - 1], acts[j - 1], ss[j]);
    if k < j - 1 {
      CacheFollowsRun(pj, ss, acts, k, j - 1);
    } else {
      AlwaysCached(pj, ss, acts, j);
      CountStep(pj, ss[k], acts[k], ss[j]);
    }
  }
}
