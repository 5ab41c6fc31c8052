/**
 The tasks that a run goes through from its packages to its end: which of them have been done, and
 in which order, when a run is marked as complete.
 */
module RunStages {
  import opened RunLifecycle
  import opened Runs
  import opened Wrappers

  /** By which step, and from which stage, the task reaches a stage. */
  ghost predicate EnteredBy(pj: Project, s: State, a: Action, p: nat, js: JobStage) {
    match js
    case Scheduled => a.Launch? && a.q == p
    case Comparing => a.CreateJobs? && a.p == p && JobAt(s, p, {Scheduled})
    case Aggregating => a == Gather(p) && JobAt(s, p, {Comparing}) && AllDelivered(s.procs[p].packages)
    case Cleared => a == ClearProgress(p) && JobAt(s, p, {Aggregating}) && !pj.similarityScores
    case Solving => a == Promote(p) && JobAt(s, p, {Cleared})
    case Saving => a == Solve(p) && JobAt(s, p, {Solving})
    case Permuting => a == Save(p) && JobAt(s, p, {Saving}) && pj.permutations
    case Completing =>
      || (a == SkipSolving(p) && JobAt(s, p, {Aggregating}) && pj.similarityScores)
      || (a == Save(p) && JobAt(s, p, {Saving}) && !pj.permutations)
      || (a == Permute(p) && JobAt(s, p, {Permuting}))
    case Marked => a == MarkComplete(p) && JobAt(s, p, {Completing})
  }

  lemma {:induction false} StartEnters(pj: Project, s: State, a: Action, s': State, p: nat, js: JobStage)
    requires QueueStep(pj, s, a, s') || PrerunStep(s, a, s')
    requires JobAt(s', p, {js}) && !JobAt(s, p, {js})
    ensures EnteredBy(pj, s, a, p, js)
  {}

  lemma {:induction false} JobEnters(pj: Project, s: State, a: Action, s': State, p: nat, js: JobStage)
    requires CompareStep(pj, s, a, s') || FinishStep(pj, s, a, s')
    requires JobAt(s', p, {js}) && !JobAt(s, p, {js})
    ensures EnteredBy(pj, s, a, p, js)
  {}

  /** The task has come to where it is by the step before position `j + 1`, and has been there ever since. */
  ghost predicate CameBy(pj: Project, ss: seq<State>, acts: seq<Action>, j: nat, k: nat, p: nat, js: JobStage) {
    j < k < |ss| == |acts| + 1 && EnteredBy(pj, ss[j], acts[j], p, js)
  }

  lemma {:induction false} HowEntered(pj: Project, ss: seq<State>, acts: seq<Action>, k: nat, p: nat, js: JobStage)
    returns (j: nat)
    requires Trace(pj, ss, acts) && k < |ss| && JobAt(ss[k], p, {js})
    ensures CameBy(pj, ss, acts, j, k, p, js)
    decreases k
  {
    assert Step(pj, ss[k - 1], acts[k - 1], ss[k]);
    if JobAt(ss[k - 1], p, {js}) {
      j := HowEntered(pj, ss, acts, k - 1, p, js);
    } else {
      j := k - 1;
      if QueueStep(pj, ss[j], acts[j], ss[k]) || PrerunStep(ss[j], acts[j], ss[k]) {
        StartEnters(pj, ss[j], acts[j], ss[k], p, js);
      } else {
        JobEnters(pj, ss[j], acts[j], ss[k], p, js);
      }
    }
  }

  /** Before the task was saving, the counter was cleared, the run promoted and the solver done, in that order. */
  lemma {:induction false} SolvedBefore(pj: Project, ss: seq<State>, acts: seq<Action>, k: nat, p: nat)
    returns (gathered: nat, cleared: nat, promoted: nat, solved: nat)
    requires Trace(pj, ss, acts) && k < |ss| && JobAt(ss[k], p, {Saving})
    ensures gathered < cleared < promoted < solved < k && !pj.similarityScores
    ensures acts[gathered] == Gather(p) && acts[cleared] == ClearProgress(p)
    ensures acts[promoted] == Promote(p) && acts[solved] == Solve(p)
  {
    solved := HowEntered(pj, ss, acts, k, p, Saving);
    promoted := HowEntered(pj, ss, acts, solved, p, Solving);
    cleared := HowEntered(pj, ss, acts, promoted, p, Cleared);
    gathered := HowEntered(pj, ss, acts, cleared, p, Aggregating);
  }

  /** A run of this type that is about to be marked as complete has been solved, saved and, if asked for, permuted. */
  ghost predicate WorkedOff(pj: Project, acts: seq<Action>, k: nat, p: nat) {
    if pj.similarityScores then
      exists g, c | 0 <= g < c < k <= |acts| :: acts[g] == Gather(p) && acts[c] == SkipSolving(p)
    else
      exists v, w | 0 <= v < w < k <= |acts| ::
        acts[v] == Solve(p) && acts[w] == Save(p) && SolvedInOrder(acts, v, p)
        && (pj.permutations ==> PermutedBetween(acts, w, k, p))
  }

  ghost predicate SolvedInOrder(acts: seq<Action>, v: nat, p: nat) {
    exists g, c, m | 0 <= g < c < m < v <= |acts| ::
      acts[g] == Gather(p) && acts[c] == ClearProgress(p) && acts[m] == Promote(p)
  }

  ghost predicate PermutedBetween(acts: seq<Action>, w: nat, k: nat, p: nat) {
    exists x | w < x < k <= |acts| :: acts[x] == Permute(p)
  }

  lemma {:induction false} SavedBefore(pj: Project, ss: seq<State>, acts: seq<Action>, w: nat, k: nat, p: nat)
    requires Trace(pj, ss, acts) && w < k <= |acts| && JobAt(ss[w], p, {Saving}) && acts[w] == Save(p)
    requires pj.permutations ==> PermutedBetween(acts, w, k, p)
    ensures WorkedOff(pj, acts, k, p)
  {
    var g, c, m, v := SolvedBefore(pj, ss, acts, w, p);
    assert SolvedInOrder(acts, v, p);
  }

  /**
   When a run is marked as complete, its packages have been gathered; unless similarity scores are
   asked for, its counter was cleared, it was promoted, solved and saved after that; and if permutations
   are asked for, these were made in the end.
   */
  lemma {:induction false} CompletedRunIsWorkedOff(pj: Project, ss: seq<State>, acts: seq<Action>, k: nat)
    requires Trace(pj, ss, acts) && k < |acts| && acts[k].MarkComplete?
    ensures WorkedOff(pj, acts, k, acts[k].p)
  {
    var p := acts[k].p;
    assert Step(pj, ss[k], acts[k], ss[k + 1]);
    var j := HowEntered(pj, ss, acts, k, p, Completing);
    if acts[j].SkipSolving? {
      var g := HowEntered(pj, ss, acts, j, p, Aggregating);
      assert acts[g] == Gather(p) && acts[j] == SkipSolving(p);
    } else if acts[j].Save? {
      SavedBefore(pj, ss, acts, j, k, p);
    } else {
      var w := HowEntered(pj, ss, acts, j, p, Permuting);
      assert PermutedBetween(acts, w, k, p);
      SavedBefore(pj, ss, acts, w, k, p);
    }
  }

  /** Only runs that permutations are asked for are permuted, and only those that no similarity scores are asked for. */
  lemma {:induction false} OnlyPermutedIfAsked(pj: Project, ss: seq<State>, acts: seq<Action>, k: nat)
    requires Trace(pj, ss, acts) && k < |acts|
    ensures acts[k].Permute? ==> pj.permutations && !pj.similarityScores
    ensures acts[k].Solve? ==> !pj.similarityScores
  {
    assert Step(pj, ss[k], acts[k], ss[k + 1]);
    if acts[k].Permute? {
      var w := HowEntered(pj, ss, acts, k, acts[k].p, Permuting);
      var g, c, m, v := SolvedBefore(pj, ss, acts, w, acts[k].p);
    } else if acts[k].Solve? {
      var m := HowEntered(pj, ss, acts, k, acts[k].p, Solving);
      var c := HowEntered(pj, ss, acts, m, acts[k].p, Cleared);
    }
  }
}
