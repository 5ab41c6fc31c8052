/**
 No run waits for ever: once the data of all parties is there, a created run is either picked up
 or some process is still going to have it picked up. This holds as long as each provider has
 one row in the uploads table.
 */
module WakeUp {
  import opened EncodingSizes
  import opened PartyCounts
  import opened SizeAgreement
  import opened UploadProtocol
  import opened Wrappers

  // ----- Processes that will have created runs picked up -----

  predicate Rouses(proc: Process) {
    match proc
    case Handler(_, _, _, _, _, hs) => hs in {Finished, Rousing}
    case Background(_, _, _, _, ts) => ts in {Saved, Triggering}
    case UploadError(_, _) => false
    case RunPost => true
    case Check(_) => true
  }

  ghost predicate SomeoneRouses(s: State) {
    exists p | p in s.procs :: Rouses(s.procs[p])
  }

  /** No task is under way that marks an upload as failed, and with that its data as not ready. */
  ghost predicate NoErrorTask(s: State) {
    forall p | p in s.procs :: !s.procs[p].UploadError?
  }

  /** All data is there, in one row each, and a run has not been queued. */
  ghost predicate AllThere(s: State) {
    OneRowEach(s) && Settled(s) && s.created != {}
  }

  ghost predicate Waiting(s: State) {
    AllThere(s) && NoErrorTask(s)
  }

  ghost predicate Awake(s: State) {
    Waiting(s) ==> SomeoneRouses(s)
  }

  /** A step that neither makes runs wait nor takes away a process that rouses. */
  lemma {:induction false} StillAwake(s: State, s': State, p: nat)
    requires Awake(s) && (AllThere(s') ==> AllThere(s))
    requires p in s.procs && !Rouses(s.procs[p]) && !s.procs[p].UploadError?
    requires forall q | q in s.procs && q != p :: q in s'.procs && s'.procs[q] == s.procs[q]
    ensures Awake(s')
  {
    if Waiting(s') {
      forall q | q in s.procs ensures !s.procs[q].UploadError? {
        assert q != p ==> q in s'.procs && s'.procs[q] == s.procs[q];
      }
      var q :| q in s.procs && Rouses(s.procs[q]);
      assert q in s'.procs && Rouses(s'.procs[q]);
    }
  }

  /** A step after which some process rouses. */
  lemma {:induction false} RousedBy(s': State, q: nat)
    requires q in s'.procs && Rouses(s'.procs[q])
    ensures Awake(s')
  {}

  /** A step that leaves some provider unsettled. */
  lemma {:induction false} Unsettled(s': State, d: nat)
    requires d < |s'.uploaded|
    requires |s'.uploaded| == |s'.rows| ==> !s'.uploaded[d].Done? || !AllReady(s'.rows[d]) || s'.rows[d] == []
    ensures Awake(s')
  {}

  lemma {:induction false} LockStaysAwake(s: State, a: Action, s': State)
    requires Exclusive(s) && Awake(s) && LockStep(s, a, s')
    ensures Awake(s')
  {
    match a
    case Begin(p, dp, token, size, json) => Unsettled(s', dp);
    case Fail(p, safe) => Unsettled(s', s.procs[p].dp);
    case Finish(p) => RousedBy(s', p);
  }

  lemma {:induction false} HandlerStaysAwake(s: State, a: Action, s': State)
    requires Exclusive(s) && Awake(s) && HandlerStep(s, a, s')
    ensures Awake(s')
  {
    match a
    case InsertRow(p) => HeldUnsettled(s, s', p);
    case DescribeRaw(p) => HeldUnsettled(s, s', p);
    case StoreReady(p) => HeldUnsettled(s, s', p);
    case SpawnRaw(p, q) => HeldUnsettled(s, s', p);
    case SpawnPull(p, q) => HeldUnsettled(s, s', p);
    case HandlerReads(p) =>
      ReadWhileWaiting(s, s', p);
    case HandlerTriggers(p, q) =>
      RousedBy(s', q);
  }

  /** While a request holds the lock of a provider, that provider is not done. */
  lemma {:induction false} HeldUnsettled(s: State, s': State, p: nat)
    requires Exclusive(s) && HandlerAt(s, p, {Holding, Inserted, Described, Stored}) && s'.uploaded == s.uploaded
    ensures Awake(s')
  {
    assert HoldsLock(s.procs[p], s.procs[p].dp);
    Unsettled(s', s.procs[p].dp);
  }

  /** A read that ends the process has found the guard false, so nothing was waiting. */
  lemma {:induction false} ReadWhileWaiting(s: State, s': State, p: nat)
    requires |s.uploaded| == |s.rows| && s'.uploaded == s.uploaded && s'.rows == s.rows && s'.created == s.created
    requires ClksUploaded(s, true) && ClksUploaded(s, false) ==> p in s'.procs && Rouses(s'.procs[p])
    ensures Awake(s')
  {
    if Waiting(s') {
      CheckPassesIffSettled(s);
      RousedBy(s', p);
    }
  }

  lemma {:induction false} CheckedStaysAwake(s: State, s': State, p: nat)
    requires Exclusive(s) && Awake(s) && TaskStep(s, RawChecked(p), s')
    ensures Awake(s')
  {
    var d := s.procs[p].dp;
    if s'.rows[d] == s.rows[d] || s.rows[d] == [] {
      assert s'.rows == s.rows;
      assert AllThere(s') ==> AllThere(s);
      StillAwake(s, s', p);
    } else {
      assert s'.rows[d][0].state.Error?;
      Unsettled(s', d);
    }
  }

  lemma {:induction false} TaskStaysAwake(s: State, a: Action, s': State)
    requires Exclusive(s) && Awake(s) && TaskStep(s, a, s')
    ensures Awake(s')
  {
    match a
    case RawChecked(p) => CheckedStaysAwake(s, s', p);
    case RawReady(p) => RousedBy(s', p);
    case RawCrashes(p) => StillAwake(s, s', p);
    case PullInserts(p) =>
      var d := s.procs[p].dp;
      assert s'.rows[d][|s.rows[d]|].state.Pending?;
      Unsettled(s', d);
    case PullReady(p) => RousedBy(s', p);
    case PullAtOnce(p) => RousedBy(s', p);
    case PullCrashes(p) => assert s'.procs[p].UploadError?;
    case ErrorRecorded(p) =>
      var e := s.procs[p];
      UpsertPresent(s.rows[e.dp], e.token, Error);
      if e.dp < |s'.uploaded| {
        Unsettled(s', e.dp);
      }
    case TaskReads(p) => ReadWhileWaiting(s, s', p);
    case TaskTriggers(p, q) => RousedBy(s', q);
  }

  /** A check that crashes has found no size in any row, so no data was ready. */
  lemma {:induction false} JudgedStaysAwake(s: State, s': State, p: nat)
    requires 2 <= |s.uploaded| == |s.rows| && SizesKnown(s) && (OneRowEach(s) ==> Orderly(s))
    requires CheckStep(s, Judge(p), s')
    ensures Awake(s')
  {
    if Waiting(s') && p !in s'.procs {
      var sizes := s.procs[p].cs.sizes;
      assert OneRowEach(s) && Settled(s);
      assert Right(s.procs[p].cs, SizesOf(s.rows), s.encodingSize, s.limits);
      SettledSizes(s);
      KnownSizesNeverCrash(sizes, s.encodingSize, s.limits, 0);
    } else if p in s'.procs {
      RousedBy(s', p);
    }
  }

  lemma {:induction false} CheckStaysAwake(s: State, a: Action, s': State)
    requires 2 <= |s.uploaded| && SizesKnown(s) && (OneRowEach(s) ==> Orderly(s))
    requires Exclusive(s) && Awake(s) && CheckStep(s, a, s')
    ensures Awake(s')
  {
    match a
    case PostRun(p, run) => RousedBy(s', p);
    case RunTriggers(p, q) => RousedBy(s', q);
    case DeliverCheck(q) => RousedBy(s', q);
    case CheckReads(p) => ReadWhileWaiting(s, s', p);
    case ReadSizes(p) => RousedBy(s', p);
    case Judge(p) => JudgedStaysAwake(s, s', p);
    case Invalidate(p) => RousedBy(s', p);
    case FailAll(p) =>
    case QueueAll(p) =>
  }

  // ----- The size of ready data is known -----

  predicate ReadySized(rows: seq<Row>) {
    forall r | r in rows && r.state.Ready? :: r.size.Some?
  }

  ghost predicate SizesKnown(s: State) {
    forall d: nat | d < |s.rows| :: ReadySized(s.rows[d])
  }

  lemma {:induction false} SettledSizes(s: State)
    requires SizesKnown(s) && Settled(s)
    ensures forall d | 0 <= d < |s.rows| :: None !in SizesOf(s.rows)[d]
  {
    forall d: nat | d < |s.rows| ensures None !in SizesOf(s.rows)[d] {
      assert ReadySized(s.rows[d]) && AllReady(s.rows[d]);
    }
  }

  lemma {:induction false} UpsertSized(rows: seq<Row>, token: nat)
    requires ReadySized(rows)
    ensures ReadySized(Upsert(rows, token, Error))
  {
    if rows != [] && rows[0].token != token {
      assert forall r | r in rows[1..] :: r in rows;
      UpsertSized(rows[1..], token);
    } else if rows != [] {
      assert forall r | r in rows[1..] :: r in rows;
    }
  }

  lemma {:induction false} UpdatesSized(rows: seq<Row>, token: nat, size: nat)
    requires ReadySized(rows)
    ensures ReadySized(SetAll(rows, Error)) && ReadySized(MakeReady(rows, size))
    ensures ReadySized(rows + [NewRow(token)]) && ReadySized(SetSizes(rows + [NewRow(token)], size))
    ensures ReadySized(MakeReady(rows + [NewRow(token)], size))
  {}

  lemma {:induction false} OneProviderSized(s: State, s': State, d: nat)
    requires SizesKnown(s) && d < |s.rows| == |s'.rows| && s'.rows == s.rows[d := s'.rows[d]]
    requires ReadySized(s'.rows[d])
    ensures SizesKnown(s')
  {}

  lemma {:induction false} HandlerKeepsSizesKnown(s: State, a: Action, s': State)
    requires SizesKnown(s) && HandlerStep(s, a, s')
    ensures SizesKnown(s')
  {
    if a.InsertRow? || a.DescribeRaw? || a.StoreReady? {
      var h := s.procs[a.p];
      UpdatesSized(s.rows[h.dp], h.token, h.size);
      OneProviderSized(s, s', h.dp);
    }
  }

  lemma {:induction false} TaskKeepsSizesKnown(s: State, a: Action, s': State)
    requires SizesKnown(s) && TaskStep(s, a, s')
    ensures SizesKnown(s')
  {
    if a.ErrorRecorded? {
      UpsertSized(s.rows[s.procs[a.p].dp], s.procs[a.p].token);
      OneProviderSized(s, s', s.procs[a.p].dp);
    } else if a.RawChecked? || a.RawReady? || a.PullInserts? || a.PullReady? || a.PullAtOnce? {
      var r := s.procs[a.p];
      UpdatesSized(s.rows[r.dp], r.token, r.size);
      OneProviderSized(s, s', r.dp);
    }
  }

  lemma {:induction false} CheckKeepsSizesKnown(s: State, a: Action, s': State)
    requires SizesKnown(s) && (LockStep(s, a, s') || CheckStep(s, a, s'))
    ensures SizesKnown(s')
  {
    if a.Invalidate? {
      var d := s.procs[a.p].cs.todo[0];
      UpdatesSized(s.rows[d], 0, 0);
      OneProviderSized(s, s', d);
    }
  }

  lemma {:induction false} StepKeepsSizesKnown(s: State, a: Action, s': State)
    requires SizesKnown(s) && Step(s, a, s')
    ensures SizesKnown(s')
  {
    if HandlerStep(s, a, s') {
      HandlerKeepsSizesKnown(s, a, s');
    } else if TaskStep(s, a, s') {
      TaskKeepsSizesKnown(s, a, s');
    } else {
      CheckKeepsSizesKnown(s, a, s');
    }
  }

  // ----- In every reachable state -----

  /** All that every step keeps. */
  ghost predicate Sound(s: State) {
    2 <= |s.uploaded| && Exclusive(s) && (OneRowEach(s) ==> Orderly(s)) && SizesKnown(s) && Awake(s)
  }

  lemma {:induction false} StepStaysAwake(s: State, a: Action, s': State)
    requires Sound(s) && Step(s, a, s')
    ensures Awake(s')
  {
    if LockStep(s, a, s') {
      LockStaysAwake(s, a, s');
    } else if HandlerStep(s, a, s') {
      HandlerStaysAwake(s, a, s');
    } else if TaskStep(s, a, s') {
      TaskStaysAwake(s, a, s');
    } else {
      CheckStaysAwake(s, a, s');
    }
  }

  lemma {:induction false} StepStaysSound(s: State, a: Action, s': State)
    requires Sound(s) && Step(s, a, s')
    ensures Sound(s')
  {
    StepKeepsExclusive(s, a, s');
    StepKeepsSizesKnown(s, a, s');
    StepStaysAwake(s, a, s');
    RowsAreKept(s, a, s');
    if OneRowEach(s') {
      OneRowBefore(s, a, s');
      StepStaysOrderly(s, a, s');
    }
  }

  lemma {:induction false} InitiallySound(s: State)
    requires Init(s)
    ensures Sound(s)
  {
    InitiallyOrderly(s);
    assert s.rows[0] == [];
  }

  lemma {:induction false} SoundAt(ss: seq<State>, acts: seq<Action>, k: nat)
    requires Trace(ss, acts) && k < |ss|
    ensures Sound(ss[k])
    decreases k
  {
    if k == 0 {
      InitiallySound(ss[0]);
    } else {
      SoundAt(ss, acts, k - 1);
      assert Step(ss[k - 1], acts[k - 1], ss[k]);
      StepStaysSound(ss[k - 1], acts[k - 1], ss[k]);
    }
  }

  /**
   In every reachable state: a provider is in progress exactly when one request holds its lock,
   and if the data of all parties is ready, no task is about to mark an upload as failed, and a run is
   still waiting to be queued, some process is under way that checks, triggers a check, or is about to.
   */
  lemma {:induction false} NoLostWakeUp(ss: seq<State>, acts: seq<Action>, k: nat)
    requires Trace(ss, acts) && k < |ss|
    ensures Exclusive(ss[k])
    ensures OneRowEach(ss[k]) && Settled(ss[k]) && NoErrorTask(ss[k]) && ss[k].created != {} ==> SomeoneRouses(ss[k])
  {
    SoundAt(ss, acts, k);
    assert Awake(ss[k]);
  }

  /** When nothing is under way and the data of all parties is ready, no run is left waiting. */
  lemma {:induction false} QuietMeansNothingWaits(ss: seq<State>, acts: seq<Action>, k: nat)
    requires Trace(ss, acts) && k < |ss|
    requires OneRowEach(ss[k]) && Settled(ss[k]) && ss[k].procs == map[]
    ensures ss[k].created == {}
  {
    NoLostWakeUp(ss, acts, k);
  }

  /**
   Who goes on after counting, with one row each: an upload that has finished, and a task that has
   pulled data, exactly if every party has uploaded something; a task that has read raw data, and a
   check, exactly if the data of every party is ready.
   */
  lemma {:induction false} ReadsGoOnIff(s: State, a: Action, s': State)
    requires |s.uploaded| == |s.rows| && OneRowEach(s) && Step(s, a, s')
    ensures a.HandlerReads? ==> (a.p in s'.procs <==> AllUploaded(s))
    ensures a.TaskReads? && s.procs[a.p].external ==> (a.p in s'.procs <==> AllUploaded(s))
    ensures a.TaskReads? && !s.procs[a.p].external ==> (a.p in s'.procs <==> Settled(s))
    ensures a.CheckReads? ==> (a.p in s'.procs <==> Settled(s))
  {
    CheckPassesIffSettled(s);
    UploadsCountIff(s);
  }

  /** While all data is ready, no read ends a process that rouses: it goes on to trigger or to queue. */
  lemma {:induction false} ReadsSucceedWhileWaiting(s: State, a: Action, s': State)
    requires OneRowEach(s) && Settled(s) && Step(s, a, s') && (a.HandlerReads? || a.TaskReads? || a.CheckReads?)
    ensures a.p in s'.procs && Rouses(s'.procs[a.p]) && (a.CheckReads? ==> s'.procs[a.p] == Check(Passed))
  {
    CheckPassesIffSettled(s);
  }

  // ----- Locks, and progress while waiting for data -----

  ghost predicate KeepsDone(s: State, s': State) {
    |s'.uploaded| == |s.uploaded| && forall d: nat | d < |s.uploaded| && s.uploaded[d].Done? :: s'.uploaded[d].Done?
  }

  lemma {:induction false} LockKeepsDone(s: State, a: Action, s': State)
    requires Exclusive(s) && LockStep(s, a, s')
    ensures KeepsDone(s, s')
    ensures a.Fail? ==> CanLock(s', s.procs[a.p].dp)
  {
    if a.Fail? || a.Finish? {
      assert HoldsLock(s.procs[a.p], s.procs[a.p].dp);
    }
  }

  lemma {:induction false} OthersKeepUploaded(s: State, a: Action, s': State)
    requires HandlerStep(s, a, s') || TaskStep(s, a, s') || CheckStep(s, a, s')
    ensures s'.uploaded == s.uploaded && !a.Fail?
  {}

  lemma {:induction false} LockedIffInProgress(s: State, d: nat)
    requires Exclusive(s) && d < |s.uploaded|
    ensures CanLock(s, d) <==> !s.uploaded[d].Done? && !Locked(s, d)
  {
    if s.uploaded[d].InProgress? {
      assert Locked(s, d);
    }
  }

  /**
   A provider that is done stays done, and a failed attempt always lets it try again: a provider
   can start an upload exactly when it is not done and no request holds its lock.
   */
  lemma {:induction false} DoneStaysDone(s: State, a: Action, s': State, d: nat)
    requires Exclusive(s) && Step(s, a, s') && d < |s.uploaded|
    ensures |s'.uploaded| == |s.uploaded| && (s.uploaded[d].Done? ==> s'.uploaded[d].Done?)
    ensures a.Fail? ==> CanLock(s', s.procs[a.p].dp)
    ensures CanLock(s, d) <==> !s.uploaded[d].Done? && !Locked(s, d)
  {
    LockedIffInProgress(s, d);
    if LockStep(s, a, s') {
      LockKeepsDone(s, a, s');
    } else {
      OthersKeepUploaded(s, a, s');
    }
  }

  lemma {:induction false} CountGrows(u: seq<Uploaded>, rows: seq<seq<Row>>, u': seq<Uploaded>, rows': seq<seq<Row>>)
    requires |u| == |rows| == |u'| == |rows'|
    requires forall d: nat | d < |u| :: (u[d].Done? ==> u'[d].Done?) && |rows[d]| <= |rows'[d]|
    ensures CountUploaded(u, rows) <= CountUploaded(u', rows')
  {
    if u != [] {
      forall d: nat | d < |u[1..]| ensures (u[1..][d].Done? ==> u'[1..][d].Done?) && |rows[1..][d]| <= |rows'[1..][d]| {
        assert u[1..][d] == u[d + 1] && u'[1..][d] == u'[d + 1] && rows[1..][d] == rows[d + 1]
            && rows'[1..][d] == rows'[d + 1];
      }
      CountGrows(u[1..], rows[1..], u'[1..], rows'[1..]);
    }
  }

  lemma {:induction false} ContributionStep(s: State, a: Action, s': State)
    requires Exclusive(s) && Step(s, a, s')
    ensures |s'.uploaded| == |s.uploaded| == |s.rows| == |s'.rows|
    ensures CountUploaded(s.uploaded, s.rows) <= CountUploaded(s'.uploaded, s'.rows)
  {
    RowsAreKept(s, a, s');
    if LockStep(s, a, s') {
      LockKeepsDone(s, a, s');
    } else {
      OthersKeepUploaded(s, a, s');
    }
    assert KeepsDone(s, s');
    CountGrows(s.uploaded, s.rows, s'.uploaded, s'.rows);
  }

  /** The parties that have contributed so far. */
  ghost function Contributed(s: State): nat {
    if |s.uploaded| == |s.rows| then CountUploaded(s.uploaded, s.rows) else 0
  }

  lemma {:induction false} ContributionAt(ss: seq<State>, acts: seq<Action>, k: nat)
    requires Trace(ss, acts) && k < |acts|
    ensures Contributed(ss[k]) <= Contributed(ss[k + 1])
  {
    NoLostWakeUp(ss, acts, k);
    assert Step(ss[k], acts[k], ss[k + 1]);
    ContributionStep(ss[k], acts[k], ss[k + 1]);
  }

  lemma {:induction false} NeverFalls(counts: seq<nat>, j: nat, k: nat)
    requires j <= k < |counts| && forall i: nat | i < |counts| - 1 :: counts[i] <= counts[i + 1]
    ensures counts[j] <= counts[k]
    decreases k
  {
    if j < k {
      NeverFalls(counts, j, k - 1);
    }
  }

  ghost function AllContributed(ss: seq<State>): (counts: seq<nat>)
    ensures |counts| == |ss| && forall i | 0 <= i < |ss| :: counts[i] == Contributed(ss[i])
  {
    seq(|ss|, i requires 0 <= i < |ss| => Contributed(ss[i]))
  }

  /** The number of parties that have contributed never falls while a run waits for data. */
  lemma {:induction false} ContributionsGrow(ss: seq<State>, acts: seq<Action>, j: nat, k: nat)
    requires Trace(ss, acts) && j <= k < |ss|
    ensures Contributed(ss[j]) <= Contributed(ss[k])
  {
    var counts := AllContributed(ss);
    forall i: nat | i < |counts| - 1 ensures counts[i] <= counts[i + 1] {
      ContributionAt(ss, acts, i);
    }
    NeverFalls(counts, j, k);
  }

  // ----- What an invalid size does -----

  lemma {:induction false} TaskLeavesPrepared(s: State, a: Action, s': State, p: nat)
    requires TaskAt(s, p, false, {Prepared}) && TaskStep(s, a, s') && a != RawReady(p) && a != RawCrashes(p)
    ensures p in s'.procs && s'.procs[p] == s.procs[p]
  {}

  lemma {:induction false} OthersLeavePrepared(s: State, a: Action, s': State, p: nat)
    requires TaskAt(s, p, false, {Prepared}) && (LockStep(s, a, s') || HandlerStep(s, a, s') || CheckStep(s, a, s'))
    ensures p in s'.procs && s'.procs[p] == s.procs[p]
  {}

  lemma {:induction false} PreparedStays(s: State, a: Action, s': State, p: nat)
    requires TaskAt(s, p, false, {Prepared}) && Step(s, a, s') && a != RawReady(p) && a != RawCrashes(p)
    ensures p in s'.procs && s'.procs[p] == s.procs[p]
  {
    if TaskStep(s, a, s') {
      TaskLeavesPrepared(s, a, s', p);
    } else {
      OthersLeavePrepared(s, a, s', p);
    }
  }

  lemma {:induction false} PreparedUntil(ss: seq<State>, acts: seq<Action>, j: nat, k: nat, p: nat)
    requires Trace(ss, acts) && j < k < |ss| && acts[j] == RawChecked(p)
    requires forall i | j < i < k :: acts[i] != RawReady(p) && acts[i] != RawCrashes(p)
    ensures TaskAt(ss[k], p, false, {Prepared}) && ss[k].procs[p] == ss[j + 1].procs[p]
    decreases k
  {
    assert Step(ss[k - 1], acts[k - 1], ss[k]);
    SoundAt(ss, acts, k);
    if j + 1 < k {
      PreparedUntil(ss, acts, j, k - 1, p);
      PreparedStays(ss[k - 1], acts[k - 1], ss[k], p);
      RowsAreKept(ss[k - 1], acts[k - 1], ss[k]);
    }
  }

  /** The size is out of bounds, or not the one recorded for the project, or else not the one in its schema. */
  predicate Unacceptable(s: State, size: nat) {
    || size < s.limits.minSize || s.limits.maxSize < size
    || (s.encodingSize.Some? && size != s.encodingSize.value)
    || (s.encodingSize.None? && s.limits.schemaSize.Some? && size != s.limits.schemaSize.value)
  }

  lemma {:induction false} CheckedAt(ss: seq<State>, acts: seq<Action>, j: nat, p: nat)
    requires Trace(ss, acts) && j < |acts| && acts[j] == RawChecked(p)
    ensures TaskAt(ss[j], p, false, {Working}) && p in ss[j + 1].procs
    ensures ss[j + 1].procs[p] == ss[j].procs[p].(ts := Prepared)
    ensures var d := ss[j].procs[p].dp;
            && d < |ss[j + 1].rows|
            && ss[j + 1].rows[d] ==
               if Unacceptable(ss[j], ss[j].procs[p].size) then SetAll(ss[j].rows[d], Error) else ss[j].rows[d]
  {
    assert Step(ss[j], acts[j], ss[j + 1]);
  }

  lemma {:induction false} ReadyAt(ss: seq<State>, acts: seq<Action>, i: nat, p: nat)
    requires Trace(ss, acts) && i < |acts| && acts[i] == RawReady(p)
    ensures TaskAt(ss[i], p, false, {Prepared}) && TaskAt(ss[i + 1], p, false, {Saved})
    ensures var d := ss[i].procs[p].dp; d < |ss[i + 1].rows| && AllReady(ss[i + 1].rows[d])
  {
    assert Step(ss[i], acts[i], ss[i + 1]);
  }

  /** After its check, a task that does not crash and is not left where it is has gone on. */
  lemma {:induction false} GoesOn(ss: seq<State>, acts: seq<Action>, j: nat, k: nat, p: nat) returns (i: nat)
    requires Trace(ss, acts) && j < k < |ss| && acts[j] == RawChecked(p)
    requires p in ss[j + 1].procs && !At(ss[k], p, ss[j + 1].procs[p])
    requires forall i | j < i < k :: acts[i] != RawCrashes(p)
    ensures j < i < k && acts[i] == RawReady(p) && p in ss[i].procs && ss[i].procs[p] == ss[j + 1].procs[p]
  {
    i := j + 1;
    while i < k && acts[i] != RawReady(p)
      invariant j < i <= k
      invariant forall l | j < l < i :: acts[l] != RawReady(p)
    {
      i := i + 1;
    }
    PreparedUntil(ss, acts, j, i, p);
  }

  /**
   A raw upload whose encodings turn out to have an invalid size is marked as invalid, but unless its
   task crashes right then, whatever else happens in between, the task goes on to make all rows of
   the provider ready: no trace is left of the check.
   */
  lemma {:induction false} InvalidUploadsBecomeReady(ss: seq<State>, acts: seq<Action>, j: nat, k: nat, p: nat)
    returns (d: nat, i: nat)
    requires Trace(ss, acts) && j < k < |ss| && acts[j] == RawChecked(p)
    requires p in ss[j + 1].procs ==> !At(ss[k], p, ss[j + 1].procs[p])
    requires forall i | j < i < k :: acts[i] != RawCrashes(p)
    ensures TaskAt(ss[j], p, false, {Working}) && d == ss[j].procs[p].dp < |ss[j + 1].rows|
    ensures ss[j + 1].rows[d] ==
            if Unacceptable(ss[j], ss[j].procs[p].size) then SetAll(ss[j].rows[d], Error) else ss[j].rows[d]
    ensures j < i < k && acts[i] == RawReady(p) && d < |ss[i + 1].rows| && AllReady(ss[i + 1].rows[d])
  {
    CheckedAt(ss, acts, j, p);
    d := ss[j].procs[p].dp;
    i := GoesOn(ss, acts, j, k, p);
    ReadyAt(ss, acts, i, p);
  }
}
