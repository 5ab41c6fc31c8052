/**
 What must have happened before: a row is recorded after its size was accepted, a provider is done
 after its data was stored or a task was given it, and every task was given its data by a request.
 */
module UploadHistories {
  import opened EncodingSizes
  import opened PartyCounts
  import opened UploadProtocol
  import opened WakeUp
  import opened Wrappers

  // ----- Encodings in requests are accepted before a row is recorded -----

  /** A request that holds the lock has begun at some step, with the size demanded then. */
  lemma {:induction false} HandlerBegan(ss: seq<State>, acts: seq<Action>, k: nat, p: nat) returns (j: nat)
    requires Trace(ss, acts) && k < |ss| && HandlerAt(ss[k], p, {Holding})
    ensures var h := ss[k].procs[p];
            j < k && acts[j] == Begin(p, h.dp, h.token, h.size, h.json)
                  && h.demanded == Demanded(ss[j].encodingSize, ss[j].limits)
    decreases k
  {
    assert Step(ss[k - 1], acts[k - 1], ss[k]);
    if At(ss[k - 1], p, ss[k].procs[p]) {
      SameProviders(ss[k - 1], acts[k - 1], ss[k]);
      AtBefore(ss[k - 1], ss[k], p, Holding);
      j := HandlerBegan(ss, acts, k - 1, p);
    } else {
      OnlyBeginHolds(ss[k - 1], acts[k - 1], ss[k], p);
      j := k - 1;
    }
  }

  lemma {:induction false} OnlyBeginHolds(s: State, a: Action, s': State, p: nat)
    requires Step(s, a, s') && HandlerAt(s', p, {Holding}) && !At(s, p, s'.procs[p])
    ensures var h := s'.procs[p];
            a == Begin(p, h.dp, h.token, h.size, h.json) && h.demanded == Demanded(s.encodingSize, s.limits)
  {
    if TaskStep(s, a, s') {
      TaskHoldsNothing(s, a, s', p);
    }
  }

  lemma {:induction false} TaskHoldsNothing(s: State, a: Action, s': State, p: nat)
    requires TaskStep(s, a, s') && p in s'.procs && s'.procs[p].Handler?
    ensures At(s, p, s'.procs[p])
  {}

  /** The providers stay the same. */
  lemma {:induction false} SameProviders(s: State, a: Action, s': State)
    requires Step(s, a, s')
    ensures |s'.uploaded| == |s.uploaded| && |s'.rows| == |s.rows|
  {
    RowsAreKept(s, a, s');
    if !LockStep(s, a, s') {
      OthersKeepUploaded(s, a, s');
    }
  }

  lemma {:induction false} AtBefore(s: State, s': State, p: nat, hs: HandlerStage)
    requires |s'.uploaded| == |s.uploaded| && |s'.rows| == |s.rows|
    requires HandlerAt(s', p, {hs}) && At(s, p, s'.procs[p])
    ensures HandlerAt(s, p, {hs})
  {}

  /** Limits never change. */
  lemma {:induction false} LimitsStay(ss: seq<State>, acts: seq<Action>, k: nat)
    requires Trace(ss, acts) && k < |ss|
    ensures ss[k].limits == ss[0].limits
    decreases k
  {
    if k > 0 {
      LimitsStay(ss, acts, k - 1);
      assert Step(ss[k - 1], acts[k - 1], ss[k]);
    }
  }

  /**
   In every history, a request that comes with its encodings records a row only if their size was
   acceptable when it took the lock.
   */
  lemma {:induction false} RecordedWhenAcceptable(ss: seq<State>, acts: seq<Action>, k: nat, p: nat) returns (j: nat)
    requires Trace(ss, acts) && k < |acts| && acts[k] == InsertRow(p)
    ensures HandlerAt(ss[k], p, {Holding}) && j < k && acts[j].Begin? && acts[j].p == p
    ensures acts[j].size == ss[k].procs[p].size && !Unacceptable(ss[j], acts[j].size)
  {
    assert Step(ss[k], acts[k], ss[k + 1]);
    j := HandlerBegan(ss, acts, k, p);
    LimitsStay(ss, acts, j);
    LimitsStay(ss, acts, k);
  }

  // ----- A provider is done after its data was stored, or given to a task -----

  /** The step stores the data of a request, or gives it to a task. */
  predicate Stores(a: Action, p: nat) {
    a == StoreReady(p) || (a.SpawnRaw? && a.p == p) || (a.SpawnPull? && a.p == p)
  }

  lemma {:induction false} OnlyStoring(s: State, a: Action, s': State, p: nat)
    requires Step(s, a, s') && HandlerAt(s', p, {Stored}) && !At(s, p, s'.procs[p])
    ensures Stores(a, p)
  {
    if TaskStep(s, a, s') {
      TaskHoldsNothing(s, a, s', p);
    }
  }

  lemma {:induction false} HandlerStored(ss: seq<State>, acts: seq<Action>, k: nat, p: nat) returns (j: nat)
    requires Trace(ss, acts) && k < |ss| && HandlerAt(ss[k], p, {Stored})
    ensures j < k && Stores(acts[j], p)
    decreases k
  {
    assert Step(ss[k - 1], acts[k - 1], ss[k]);
    if At(ss[k - 1], p, ss[k].procs[p]) {
      SameProviders(ss[k - 1], acts[k - 1], ss[k]);
      AtBefore(ss[k - 1], ss[k], p, Stored);
      j := HandlerStored(ss, acts, k - 1, p);
    } else {
      OnlyStoring(ss[k - 1], acts[k - 1], ss[k], p);
      j := k - 1;
    }
  }

  /** Only a request that has stored its data, or given it to a task, marks its provider as done. */
  lemma {:induction false} DoneAfterStoring(ss: seq<State>, acts: seq<Action>, k: nat, d: nat) returns (j: nat)
    requires Trace(ss, acts) && k < |acts| && d < |ss[k].uploaded| == |ss[k + 1].uploaded|
    requires !ss[k].uploaded[d].Done? && ss[k + 1].uploaded[d].Done?
    ensures acts[k].Finish? && HandlerAt(ss[k], acts[k].p, {Stored}) && ss[k].procs[acts[k].p].dp == d
    ensures j < k && Stores(acts[j], acts[k].p)
  {
    assert Step(ss[k], acts[k], ss[k + 1]);
    if !LockStep(ss[k], acts[k], ss[k + 1]) {
      OthersKeepUploaded(ss[k], acts[k], ss[k + 1]);
    }
    j := HandlerStored(ss, acts, k, acts[k].p);
  }

  // ----- Every task was given its data by a request -----

  /** A request gives its data to a task that reads raw data, or to one that pulls external data. */
  ghost predicate Gives(s: State, a: Action, q: nat, task: Process) {
    && task.Background? && (a.SpawnRaw? || a.SpawnPull?) && a.q == q && (task.external <==> a.SpawnPull?)
    && HandlerAt(s, a.p, {Holding, Described}) && s.procs[a.p].json && (a.SpawnRaw? <==> s.procs[a.p].hs.Described?)
    && s.procs[a.p].dp == task.dp && s.procs[a.p].token == task.token && s.procs[a.p].size == task.size
  }

  /** A request that has described a raw upload came as JSON. */
  ghost predicate DescribedIsJson(s: State) {
    forall p | p in s.procs && s.procs[p].Handler? && s.procs[p].hs.Described? :: s.procs[p].json
  }

  lemma {:induction false} StaysJson(s: State, a: Action, s': State)
    requires DescribedIsJson(s) && Step(s, a, s')
    ensures DescribedIsJson(s')
  {
    if TaskStep(s, a, s') {
      forall p | p in s'.procs && s'.procs[p].Handler? ensures At(s, p, s'.procs[p]) {
        TaskHoldsNothing(s, a, s', p);
      }
    }
  }

  lemma {:induction false} AlwaysJson(ss: seq<State>, acts: seq<Action>, k: nat)
    requires Trace(ss, acts) && k < |ss|
    ensures DescribedIsJson(ss[k])
    decreases k
  {
    if k > 0 {
      AlwaysJson(ss, acts, k - 1);
      assert Step(ss[k - 1], acts[k - 1], ss[k]);
      StaysJson(ss[k - 1], acts[k - 1], ss[k]);
    }
  }

  /** The same task, wherever it stands. */
  predicate SameTask(a: Process, b: Process) {
    && a.Background? && b.Background?
    && a.dp == b.dp && a.token == b.token && a.size == b.size && a.external == b.external
  }

  lemma {:induction false} TaskGoesOn(s: State, a: Action, s': State, q: nat)
    requires TaskStep(s, a, s') && q in s'.procs && s'.procs[q].Background?
    ensures q in s.procs && SameTask(s.procs[q], s'.procs[q])
  {}

  lemma {:induction false} OnlyRequestsGive(s: State, a: Action, s': State, q: nat)
    requires DescribedIsJson(s) && Step(s, a, s') && q in s'.procs && s'.procs[q].Background?
    ensures Gives(s, a, q, s'.procs[q]) || (q in s.procs && SameTask(s.procs[q], s'.procs[q]))
  {
    if TaskStep(s, a, s') {
      TaskGoesOn(s, a, s', q);
    }
  }

  /**
   In every history, a task that reads raw data was started by a request that had described it, one
   that pulls external data by a request that recorded nothing, each with the provider, the receipt
   and the data of that request.
   */
  lemma {:induction false} TasksComeFromRequests(ss: seq<State>, acts: seq<Action>, k: nat, q: nat) returns (j: nat)
    requires Trace(ss, acts) && k < |ss| && q in ss[k].procs && ss[k].procs[q].Background?
    ensures j < k && Gives(ss[j], acts[j], q, ss[k].procs[q])
    decreases k
  {
    assert Step(ss[k - 1], acts[k - 1], ss[k]);
    AlwaysJson(ss, acts, k - 1);
    OnlyRequestsGive(ss[k - 1], acts[k - 1], ss[k], q);
    if Gives(ss[k - 1], acts[k - 1], q, ss[k].procs[q]) {
      j := k - 1;
    } else {
      j := TasksComeFromRequests(ss, acts, k - 1, q);
    }
  }

  // ----- No upload is left without a row -----

  /** The task is going to record a row for the provider, of data or of an error. */
  predicate WillRecord(proc: Process, d: nat) {
    || (proc.Background? && proc.dp == d && proc.external && proc.ts.Working?)
    || (proc.UploadError? && proc.dp == d)
  }

  ghost predicate SomeoneWillRecord(s: State, d: nat) {
    exists q | q in s.procs :: WillRecord(s.procs[q], d)
  }

  ghost predicate HasRow(s: State, d: nat)
    requires d < |s.rows|
  {
    s.rows[d] != [] || SomeoneWillRecord(s, d)
  }

  /** A request at this stage has recorded a row, or given its data to a task. */
  predicate PastRecording(proc: Process) {
    proc.Handler? && proc.hs in {Inserted, Described, Stored, Finished, Rousing}
  }

  ghost predicate NoneMissing(s: State) {
    && |s.uploaded| == |s.rows|
    && (forall d: nat | d < |s.uploaded| && s.uploaded[d].Done? :: HasRow(s, d))
    && forall p | p in s.procs && PastRecording(s.procs[p]) && s.procs[p].dp < |s.rows| :: HasRow(s, s.procs[p].dp)
  }

  lemma {:induction false} LockKeepsRow(s: State, a: Action, s': State, d: nat)
    requires (LockStep(s, a, s') || HandlerStep(s, a, s')) && |s.rows| == |s'.rows| && d < |s.rows| && HasRow(s, d)
    ensures HasRow(s', d)
  {
    if s.rows[d] == [] {
      var q :| q in s.procs && WillRecord(s.procs[q], d);
      assert q in s'.procs && WillRecord(s'.procs[q], d);
    }
  }

  lemma {:induction false} RecordedNow(s: State, a: Action, s': State, q: nat, d: nat)
    requires TaskStep(s, a, s') && q in s.procs && WillRecord(s.procs[q], d) && d < |s.rows| == |s'.rows|
    ensures s'.rows[d] != [] || (q in s'.procs && WillRecord(s'.procs[q], d))
  {
    if a.ErrorRecorded? && q == a.p {
      UpsertPresent(s.rows[d], s.procs[q].token, Error);
    }
  }

  lemma {:induction false} TaskKeepsRow(s: State, a: Action, s': State, d: nat)
    requires TaskStep(s, a, s') && |s.rows| == |s'.rows| && d < |s.rows| && HasRow(s, d)
    ensures HasRow(s', d)
  {
    if s.rows[d] == [] {
      var q :| q in s.procs && WillRecord(s.procs[q], d);
      RecordedNow(s, a, s', q, d);
    } else {
      TaskKeepsRows(s, a, s');
    }
  }

  lemma {:induction false} CheckKeepsRow(s: State, a: Action, s': State, d: nat)
    requires CheckStep(s, a, s') && |s.rows| == |s'.rows| && d < |s.rows| && HasRow(s, d)
    ensures HasRow(s', d)
  {
    if s.rows[d] == [] {
      var q :| q in s.procs && WillRecord(s.procs[q], d);
      assert q in s'.procs && WillRecord(s'.procs[q], d);
    }
  }

  lemma {:induction false} StepKeepsRow(s: State, a: Action, s': State, d: nat)
    requires Step(s, a, s') && |s.rows| == |s'.rows| && d < |s.rows| && HasRow(s, d)
    ensures HasRow(s', d)
  {
    if TaskStep(s, a, s') {
      TaskKeepsRow(s, a, s', d);
    } else if CheckStep(s, a, s') {
      CheckKeepsRow(s, a, s', d);
    } else {
      LockKeepsRow(s, a, s', d);
    }
  }

  /** A request gets past recording only with a row, or a task that will record one. */
  lemma {:induction false} PastOnlyWithRow(s: State, a: Action, s': State, p: nat)
    requires Step(s, a, s') && p in s'.procs && PastRecording(s'.procs[p]) && s'.procs[p].dp < |s.rows| == |s'.rows|
    requires !(p in s.procs && PastRecording(s.procs[p]) && s.procs[p].dp == s'.procs[p].dp)
    ensures HasRow(s', s'.procs[p].dp)
  {
    if TaskStep(s, a, s') {
      TaskHoldsNothing(s, a, s', p);
    } else if LockStep(s, a, s') || HandlerStep(s, a, s') {
      RequestPastWithRow(s, a, s', p);
    }
  }

  lemma {:induction false} RequestPastWithRow(s: State, a: Action, s': State, p: nat)
    requires LockStep(s, a, s') || HandlerStep(s, a, s')
    requires p in s'.procs && PastRecording(s'.procs[p]) && s'.procs[p].dp < |s.rows| == |s'.rows|
    requires !(p in s.procs && PastRecording(s.procs[p]) && s.procs[p].dp == s'.procs[p].dp)
    ensures HasRow(s', s'.procs[p].dp)
  {
    if a.SpawnPull? {
      assert WillRecord(s'.procs[a.q], s'.procs[p].dp);
    }
  }

  lemma {:induction false} DoneOnlyWithRow(s: State, a: Action, s': State, d: nat)
    requires NoneMissing(s) && Step(s, a, s') && d < |s'.uploaded| == |s.uploaded|
    requires s'.uploaded[d].Done? && !s.uploaded[d].Done?
    ensures HasRow(s, d)
  {
    if !LockStep(s, a, s') {
      OthersKeepUploaded(s, a, s');
    } else {
      assert PastRecording(s.procs[a.p]);
    }
  }

  lemma {:induction false} StaysComplete(s: State, a: Action, s': State)
    requires NoneMissing(s) && Step(s, a, s')
    ensures NoneMissing(s')
  {
    SameProviders(s, a, s');
    forall d: nat | d < |s'.uploaded| && s'.uploaded[d].Done? ensures HasRow(s', d) {
      if !s.uploaded[d].Done? {
        DoneOnlyWithRow(s, a, s', d);
      }
      StepKeepsRow(s, a, s', d);
    }
    forall p | p in s'.procs && PastRecording(s'.procs[p]) && s'.procs[p].dp < |s'.rows|
      ensures HasRow(s', s'.procs[p].dp)
    {
      if p in s.procs && PastRecording(s.procs[p]) && s.procs[p].dp == s'.procs[p].dp {
        StepKeepsRow(s, a, s', s.procs[p].dp);
      } else {
        PastOnlyWithRow(s, a, s', p);
      }
    }
  }

  lemma {:induction false} AlwaysComplete(ss: seq<State>, acts: seq<Action>, k: nat)
    requires Trace(ss, acts) && k < |ss|
    ensures NoneMissing(ss[k])
    decreases k
  {
    if k > 0 {
      AlwaysComplete(ss, acts, k - 1);
      assert Step(ss[k - 1], acts[k - 1], ss[k]);
      StaysComplete(ss[k - 1], acts[k - 1], ss[k]);
    }
  }

  /**
   In every history, a provider that is done has an upload row, or a task is under way that will record
   one, of its data or of an error.
   */
  lemma {:induction false} DoneHasRow(ss: seq<State>, acts: seq<Action>, k: nat, d: nat)
    requires Trace(ss, acts) && k < |ss| && d < |ss[k].uploaded| && ss[k].uploaded[d].Done?
    ensures d < |ss[k].rows| && (ss[k].rows[d] != [] || SomeoneWillRecord(ss[k], d))
  {
    AlwaysComplete(ss, acts, k);
    assert HasRow(ss[k], d);
  }

  /** The step makes data ready: that of request or task `p`. */
  predicate MakesReady(a: Action) {
    a.StoreReady? || a.RawReady? || a.PullReady? || a.PullAtOnce?
  }

  /** What has been stored is ready, with the size of its encodings; no other provider is concerned. */
  lemma {:induction false} StoredIsReady(s: State, a: Action, s': State)
    requires Step(s, a, s') && MakesReady(a)
    ensures a.p in s.procs && (s.procs[a.p].Handler? || s.procs[a.p].Background?)
    ensures var d := s.procs[a.p].dp;
            && d < |s.rows| == |s'.rows| && |s'.rows[d]| == |s.rows[d]| + (if a.PullAtOnce? then 1 else 0)
            && (forall r | r in s'.rows[d] :: r.state.Ready? && r.size == Some(s.procs[a.p].size))
            && forall e: nat | e < |s.rows| && e != d :: s'.rows[e] == s.rows[e]
  {}
}
