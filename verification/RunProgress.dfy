/**
 What clients see of the progress of a run: the status is put together from several reads, and
 successive statuses are compared the way the end-to-end tests do.
 */
module RunProgress {
  import opened Wrappers
  import opened RunLifecycle

  // ----- Status snapshots -----

  /** The part of a status that describes the current stage. */
  datatype Status = Status(stage: nat, relative: Option<real>)

  function Relative(absolute: nat, maximum: nat): real {
    if maximum != 0 then absolute as real / maximum as real else 0.0
  }

  /** The stage is read from the database first, and what has been achieved in that stage later. */
  function Snapshot(pj: Project, first: State, later: State): Status {
    Status(first.stage,
           if first.stage == 1 then Some(Relative(later.contributed, pj.parties))
           else if first.stage == 2 && later.counter.Some? then Some(Relative(later.counter.value, pj.total))
           else None)
  }

  datatype Verdict = Valid | Invalid | OutOfBounds

  predicate WithinBounds(relative: real) {
    0.0 <= relative <= 1.0
  }

  /** The comparison of two statuses; a relative progress outside its bounds fails an assertion. */
  function HasProgressedValidly(old_: Status, new_: Status): Verdict {
    if old_.stage < new_.stage then Valid
    else if old_.stage > new_.stage then Invalid
    else if old_.relative.None? || new_.relative.None? then Valid
    else if !WithinBounds(new_.relative.value) || !WithinBounds(old_.relative.value) then OutOfBounds
    else if new_.relative.value < old_.relative.value then Invalid
    else Valid
  }

  // ----- States only move forward -----

  ghost predicate Forward(s: State, t: State) {
    && s.stage <= t.stage && s.contributed <= t.contributed
    && (s.cleared ==> t.cleared)
    && (s.counter.Some? ==> t.cleared || (t.counter.Some? && s.counter.value <= t.counter.value))
  }

  lemma {:induction false} QueueMovesForward(pj: Project, s: State, a: Action, s': State)
    requires RunOk(pj, s) && (QueueStep(pj, s, a, s') || PrerunStep(s, a, s'))
    ensures Forward(s, s')
  {}

  lemma {:induction false} JobMovesForward(pj: Project, s: State, a: Action, s': State)
    requires Inv(pj, s) && (CompareStep(pj, s, a, s') || FinishStep(pj, s, a, s'))
    ensures Forward(s, s')
  {
    assert ProcessOk(pj, s, a.p);
  }

  lemma {:induction false} StepMovesForward(pj: Project, s: State, a: Action, s': State)
    requires Inv(pj, s) && Step(pj, s, a, s')
    ensures Forward(s, s')
  {
    if QueueStep(pj, s, a, s') || PrerunStep(s, a, s') {
      QueueMovesForward(pj, s, a, s');
    } else {
      JobMovesForward(pj, s, a, s');
    }
  }

  lemma {:induction false} MovesForwardAt(pj: Project, ss: seq<State>, acts: seq<Action>, k: nat)
    requires Trace(pj, ss, acts) && k < |acts|
    ensures Forward(ss[k], ss[k + 1])
  {
    Reachable(pj, ss, acts, k);
    assert Step(pj, ss[k], acts[k], ss[k + 1]);
    StepMovesForward(pj, ss[k], acts[k], ss[k + 1]);
  }

  lemma {:induction false} ForwardAgain(s: State, t: State, u: State)
    requires Forward(s, t) && Forward(t, u)
    ensures Forward(s, u)
  {}

  lemma {:induction false} AlwaysForward(ss: seq<State>, i: nat, j: nat)
    requires i <= j < |ss| && forall k: nat | k < |ss| - 1 :: Forward(ss[k], ss[k + 1])
    ensures Forward(ss[i], ss[j])
    decreases j
  {
    if i < j {
      AlwaysForward(ss, i, j - 1);
      ForwardAgain(ss[i], ss[j - 1], ss[j]);
    }
  }

  /** Stages, contributions and the counter only move forward, until the counter is cleared for good. */
  lemma {:induction false} RunsMoveForward(pj: Project, ss: seq<State>, acts: seq<Action>, i: nat, j: nat)
    requires Trace(pj, ss, acts) && i <= j < |ss|
    ensures Forward(ss[i], ss[j]) && Inv(pj, ss[i]) && Inv(pj, ss[j])
  {
    Reachable(pj, ss, acts, i);
    Reachable(pj, ss, acts, j);
    forall k: nat | k < |ss| - 1 ensures Forward(ss[k], ss[k + 1]) {
      MovesForwardAt(pj, ss, acts, k);
    }
    AlwaysForward(ss, i, j);
  }

  /**
   While the packages of a run are compared, the counter is what has been counted, and what retried
   tasks have counted once more; in the end it is the total if and only if nothing was counted twice.
   */
  lemma {:induction false} CounterIsExact(pj: Project, ss: seq<State>, acts: seq<Action>, k: nat, p: nat)
    requires Trace(pj, ss, acts) && k < |ss| && JobAt(ss[k], p, {Comparing, Aggregating})
    ensures Progress(ss[k].counter) ==
        CountedSum(ss[k].procs[p].packages) + ss[k].recounted <= pj.total + ss[k].recounted
    ensures AllDelivered(ss[k].procs[p].packages) ==> (Progress(ss[k].counter) == pj.total <==> ss[k].recounted == 0)
  {
    Reachable(pj, ss, acts, k);
    assert ProcessOk(pj, ss[k], p);
    CountedAtMostSize(ss[k].procs[p].packages);
  }

  // ----- Snapshots progress validly -----

  lemma {:induction false} RelativeGrows(x: nat, y: nat, maximum: nat)
    requires x <= y && (maximum == 0 ==> y == 0)
    ensures 0.0 <= Relative(x, maximum) <= Relative(y, maximum)
    ensures WithinBounds(Relative(y, maximum)) <==> y <= maximum
  {
    if maximum != 0 {
      var m := maximum as real;
      DivideGrows(0.0, x as real, m);
      DivideGrows(x as real, y as real, m);
      if y <= maximum {
        DivideGrows(y as real, m, m);
      } else {
        assert y as real / m * m == y as real;
      }
    }
  }

  lemma {:induction false} DivideGrows(x: real, y: real, m: real)
    requires x <= y && 0.0 < m
    ensures x / m <= y / m
  {
    assert (y - x) / m >= 0.0;
    assert y / m - x / m == (y - x) / m;
  }

  /** What is reported is the part of the maximum that has been achieved, or nothing if the maximum is zero. */
  lemma {:induction false} RelativeIsPart(absolute: nat, maximum: nat)
    ensures Relative(absolute, maximum) * maximum as real == if maximum == 0 then 0.0 else absolute as real
    ensures maximum == 0 ==> Relative(absolute, maximum) == 0.0
  {}

  lemma {:induction false} RelativeGrowsStrictly(x: nat, y: nat, maximum: nat)
    requires maximum > 0
    ensures Relative(x, maximum) < Relative(y, maximum) <==> x < y
  {
    if x <= y {
      RelativeGrows(x, y, maximum);
    } else {
      RelativeGrows(y, x, maximum);
    }
    RelativeIsPart(x, maximum);
    RelativeIsPart(y, maximum);
  }

  /** Both statuses report comparisons, and the later one more than there are. */
  predicate Overshoots(pj: Project, a: State, b: State, c: State, d: State) {
    a.stage == c.stage == 2 && b.counter.Some? && d.counter.Some? && d.counter.value > pj.total
  }

  /**
   Any two successive statuses of a run progress validly, whatever happens between the reads of
   each status and between the two, unless tasks that were retried after reporting their progress
   have taken the counter beyond the total: then, and only then, an assertion of the comparison
   fails. Without such retries this never happens.
   */
  lemma {:induction false} StatusProgressesValidly(pj: Project, ss: seq<State>, acts: seq<Action>, a: nat, b: nat,
                                                   c: nat, d: nat)
    requires Trace(pj, ss, acts) && a <= b <= c <= d < |ss|
    ensures HasProgressedValidly(Snapshot(pj, ss[a], ss[b]), Snapshot(pj, ss[c], ss[d]))
         == if Overshoots(pj, ss[a], ss[b], ss[c], ss[d]) then OutOfBounds else Valid
    ensures ss[d].recounted == 0 ==> !Overshoots(pj, ss[a], ss[b], ss[c], ss[d])
  {
    RunsMoveForward(pj, ss, acts, a, c);
    RunsMoveForward(pj, ss, acts, b, d);
    if ss[a].stage == ss[c].stage == 1 {
      RelativeGrows(ss[b].contributed, ss[d].contributed, pj.parties);
    } else if ss[a].stage == ss[c].stage == 2 && ss[b].counter.Some? && ss[d].counter.Some? {
      RelativeGrows(ss[b].counter.value, ss[d].counter.value, pj.total);
    }
  }

  /** The stages differ, or both statuses report the progress of one stage and the later one has got further. */
  predicate FurtherOn(a: State, b: State, c: State, d: State) {
    || a.stage < c.stage
    || (a.stage == c.stage == 1 && b.contributed < d.contributed)
    || (a.stage == c.stage == 2 && b.counter.Some? && d.counter.Some? && b.counter.value < d.counter.value)
  }

  /**
   The comparison tells which of two statuses was the first: given in the wrong order, they are
   invalid if and only if the later one has got further, unless its counter is beyond the total.
   */
  lemma {:induction false} WrongOrderIsInvalid(pj: Project, ss: seq<State>, acts: seq<Action>, a: nat, b: nat,
                                               c: nat, d: nat)
    requires Trace(pj, ss, acts) && a <= b <= c <= d < |ss|
    ensures HasProgressedValidly(Snapshot(pj, ss[c], ss[d]), Snapshot(pj, ss[a], ss[b]))
         == if Overshoots(pj, ss[a], ss[b], ss[c], ss[d]) then OutOfBounds
            else if FurtherOn(ss[a], ss[b], ss[c], ss[d]) then Invalid
            else Valid
  {
    RunsMoveForward(pj, ss, acts, a, c);
    RunsMoveForward(pj, ss, acts, b, d);
    if ss[a].stage == ss[c].stage == 1 {
      RelativeGrows(ss[b].contributed, ss[d].contributed, pj.parties);
      if pj.parties > 0 {
        RelativeGrowsStrictly(ss[b].contributed, ss[d].contributed, pj.parties);
      }
    } else if ss[a].stage == ss[c].stage == 2 && ss[b].counter.Some? && ss[d].counter.Some? {
      RelativeGrows(ss[b].counter.value, ss[d].counter.value, pj.total);
      if pj.total > 0 {
        RelativeGrowsStrictly(ss[b].counter.value, ss[d].counter.value, pj.total);
      }
    }
  }

  /** A counter that is there is not zero: until something has been counted, no progress is reported. */
  lemma {:induction false} CounterIsNeverZero(pj: Project, ss: seq<State>, acts: seq<Action>, k: nat)
    requires Trace(pj, ss, acts) && k < |ss|
    ensures ss[k].counter != Some(0)
    decreases k
  {
    if k > 0 {
      CounterIsNeverZero(pj, ss, acts, k - 1);
      assert Step(pj, ss[k - 1], acts[k - 1], ss[k]);
    }
  }

  /** A started run with one package. */
  function OnePackage(counter: Option<nat>, recounted: nat, p: Package): State {
    WithPackages([p]).(counter := counter, recounted := recounted)
  }

  lemma {:induction false} PackageCounts(pj: Project, counter: Option<nat>, recounted: nat, n: nat)
    requires Leads(pj, WithPackages([Todo(n)]), OnePackage(counter, recounted, Todo(n)))
    ensures Leads(pj, WithPackages([Todo(n)]), OnePackage(AddProgress(counter, n), recounted, Counted(n)))
  {
    var s, s' := OnePackage(counter, recounted, Todo(n)), OnePackage(AddProgress(counter, n), recounted, Counted(n));
    assert [Todo(n)][0 := Counted(n)] == [Counted(n)];
    assert s'.procs == s.procs[1 := Job(Comparing, [Counted(n)])];
    NextOfJob(pj, WithPackages([Todo(n)]), s, Count(1, 0), s');
  }

  lemma {:induction false} PackageRetries(pj: Project, counter: Option<nat>, recounted: nat, n: nat)
    requires Leads(pj, WithPackages([Todo(n)]), OnePackage(counter, recounted, Counted(n)))
    ensures Leads(pj, WithPackages([Todo(n)]), OnePackage(counter, recounted + n, Todo(n)))
  {
    var s, s' := OnePackage(counter, recounted, Counted(n)), OnePackage(counter, recounted + n, Todo(n));
    assert [Counted(n)][0 := Todo(n)] == [Todo(n)];
    assert s'.procs == s.procs[1 := Job(Comparing, [Todo(n)])];
    NextOfJob(pj, WithPackages([Todo(n)]), s, Retry(1, 0), s');
  }

  /** A task is retried after it has reported its progress, and reports it again. */
  lemma {:induction false} CountedTwice(pj: Project, n: nat)
    requires pj.total == n > 0
    ensures Leads(pj, WithPackages([Todo(n)]), OnePackage(Some(n + n), n, Counted(n)))
  {
    LeadsToItself(pj, WithPackages([Todo(n)]));
    assert WithPackages([Todo(n)]) == OnePackage(None, 0, Todo(n));
    PackageCounts(pj, None, 0, n);
    PackageRetries(pj, Some(n), 0, n);
    PackageCounts(pj, Some(n), n, n);
  }

  /** The counter then is beyond the total, and the status fails the comparison. */
  lemma {:induction false} RetryOvershoots(n: nat) returns (pj: Project, s: State)
    requires n > 0
    ensures CanReach(pj, s) && pj.total == n && s.counter == Some(n + n)
    ensures HasProgressedValidly(Snapshot(pj, s, s), Snapshot(pj, s, s)) == OutOfBounds
  {
    pj, s := Project(true, false, 2, n), OnePackage(Some(n + n), n, Counted(n));
    CountedTwice(pj, n);
    assert Todos([n]) == [Todo(n)] && SizeSum([Todo(n)]) == n;
    PackagesAreCreated(pj, [n]);
    ReachByLeading(pj, WithPackages([Todo(n)]), s);
    RelativeGrows(n + n, n + n, n);
  }
}
