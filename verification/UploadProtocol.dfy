/**
 Uploads to one project, and the checks that start its runs, as a concurrent protocol.

 Every step is one committed database transaction, one read, or one task being enqueued or
 delivered; steps of different requests and tasks interleave freely. Tasks are not lost, but
 check tasks may be delivered more than once. A provider may come to have several rows in the
 uploads table, because the schema allows it and a repeated attempt inserts another row. Rows are
 listed in the order in which they were inserted.
 */
module UploadProtocol {
  import opened EncodingSizes
  import opened Wrappers

  // ----- State -----

  datatype Uploaded = NotStarted | InProgress | Done | Failed

  datatype RowState = Pending | Ready | Error

  datatype Row = Row(token: nat, state: RowState, size: Option<nat>)

  /** Where an upload request stands. */
  datatype HandlerStage = Holding | Inserted | Described | Stored | Finished | Rousing

  /** Where a background upload task stands. */
  datatype TaskStage = Working | Prepared | Saved | Triggering

  /**
   Where a check stands: it counts ready uploads, reads all sizes, compares them with the size
   expected, and has accepted them or has to invalidate uploads and to fail the runs.
   */
  datatype CheckStage =
    | Waiting
    | Passed
    | Sized(sizes: seq<seq<Option<nat>>>)
    | Accepted(record: Option<nat>)
    | Failing(record: Option<nat>, todo: seq<nat>)

  /**
   An upload carries the size of its encodings, and a request the size that was demanded when it
   took the lock.
   */
  datatype Process =
    | Handler(dp: nat, token: nat, size: nat, demanded: Option<nat>, json: bool, hs: HandlerStage)
    | Background(dp: nat, token: nat, size: nat, external: bool, ts: TaskStage)
    | UploadError(dp: nat, token: nat)
    | RunPost
    | Check(cs: CheckStage)

  datatype State = State(
    uploaded: seq<Uploaded>,
    rows: seq<seq<Row>>,
    created: set<nat>,
    queued: set<nat>,
    failed: set<nat>,
    encodingSize: Option<nat>,
    limits: Limits,
    procs: map<nat, Process>)

  function Parties(s: State): nat {
    |s.uploaded|
  }

  /** A new project of two parties or more. */
  ghost predicate Init(s: State) {
    && 2 <= |s.uploaded| == |s.rows|
    && (forall d | 0 <= d < |s.uploaded| :: s.uploaded[d].NotStarted? && s.rows[d] == [])
    && s.created == {} && s.queued == {} && s.failed == {} && s.encodingSize == None && s.procs == map[]
  }

  // ----- The two counting queries -----

  function ReadyRows(rows: seq<Row>): nat {
    if rows == [] then 0 else (if rows[0].state.Ready? then 1 else 0) + ReadyRows(rows[1..])
  }

  /** Upload rows of providers marked as done, whatever the state of the rows. */
  function CountUploaded(uploaded: seq<Uploaded>, rows: seq<seq<Row>>): nat
    requires |uploaded| == |rows|
  {
    if uploaded == [] then 0
    else (if uploaded[0].Done? then |rows[0]| else 0) + CountUploaded(uploaded[1..], rows[1..])
  }

  /** Upload rows that are ready, of providers marked as done. */
  function CountReady(uploaded: seq<Uploaded>, rows: seq<seq<Row>>): nat
    requires |uploaded| == |rows|
  {
    if uploaded == [] then 0
    else (if uploaded[0].Done? then ReadyRows(rows[0]) else 0) + CountReady(uploaded[1..], rows[1..])
  }

  /** The guard of all triggers: the count is compared with the number of parties. */
  predicate ClksUploaded(s: State, checkDataReady: bool)
    requires |s.uploaded| == |s.rows|
  {
    Parties(s) == if checkDataReady then CountReady(s.uploaded, s.rows) else CountUploaded(s.uploaded, s.rows)
  }

  // ----- Updates of the rows of one provider -----

  function SetAll(rows: seq<Row>, state: RowState): (r: seq<Row>)
    ensures |r| == |rows|
    ensures forall i | 0 <= i < |r| :: r[i] == Row(rows[i].token, state, rows[i].size)
  {
    seq(|rows|, i requires 0 <= i < |rows| => Row(rows[i].token, state, rows[i].size))
  }

  function SetSizes(rows: seq<Row>, size: nat): (r: seq<Row>)
    ensures |r| == |rows|
    ensures forall i | 0 <= i < |r| :: r[i] == Row(rows[i].token, rows[i].state, Some(size))
  {
    seq(|rows|, i requires 0 <= i < |rows| => Row(rows[i].token, rows[i].state, Some(size)))
  }

  /** All rows of the provider get the size and become ready, in one transaction. */
  function MakeReady(rows: seq<Row>, size: nat): (r: seq<Row>)
    ensures |r| == |rows|
    ensures forall i | 0 <= i < |r| :: r[i] == Row(rows[i].token, Ready, Some(size))
  {
    SetAll(SetSizes(rows, size), Ready)
  }

  function NewRow(token: nat): Row {
    Row(token, Pending, None)
  }

  /** Set the state of the row with this token, or insert such a row. */
  function Upsert(rows: seq<Row>, token: nat, state: RowState): seq<Row> {
    if rows == [] then [Row(token, state, None)]
    else if rows[0].token == token then [Row(token, state, rows[0].size)] + rows[1..]
    else [rows[0]] + Upsert(rows[1..], token, state)
  }

  function RowSizes(rows: seq<Row>): (r: seq<Option<nat>>)
    ensures |r| == |rows| && forall i | 0 <= i < |r| :: r[i] == rows[i].size
  {
    seq(|rows|, i requires 0 <= i < |rows| => rows[i].size)
  }

  function SizesOf(rows: seq<seq<Row>>): (r: seq<seq<Option<nat>>>)
    ensures |r| == |rows| && forall d | 0 <= d < |r| :: r[d] == RowSizes(rows[d])
  {
    seq(|rows|, d requires 0 <= d < |rows| => RowSizes(rows[d]))
  }

  // ----- Steps -----

  datatype Action =
    // a request takes the upload lock of a provider
    | Begin(p: nat, dp: nat, token: nat, size: nat, json: bool)
    | InsertRow(p: nat)
    | DescribeRaw(p: nat)
    | StoreReady(p: nat)
    | SpawnRaw(p: nat, q: nat)
    | SpawnPull(p: nat, q: nat)
    | Fail(p: nat, safe: bool)
    | Finish(p: nat)
    | HandlerReads(p: nat)
    | HandlerTriggers(p: nat, q: nat)
    // background tasks
    | RawChecked(p: nat)
    | RawReady(p: nat)
    | RawCrashes(p: nat)
    | PullInserts(p: nat)
    | PullReady(p: nat)
    | PullAtOnce(p: nat)
    | PullCrashes(p: nat)
    | ErrorRecorded(p: nat)
    | TaskReads(p: nat)
    | TaskTriggers(p: nat, q: nat)
    // runs and checks
    | PostRun(p: nat, run: nat)
    | RunTriggers(p: nat, q: nat)
    | DeliverCheck(q: nat)
    | CheckReads(p: nat)
    | ReadSizes(p: nat)
    | Judge(p: nat)
    | Invalidate(p: nat)
    | FailAll(p: nat)
    | QueueAll(p: nat)

  function With(s: State, p: nat, proc: Process): State {
    s.(procs := s.procs[p := proc])
  }

  function End(s: State, p: nat): State {
    s.(procs := s.procs - {p})
  }

  predicate At(s: State, p: nat, proc: Process) {
    p in s.procs && s.procs[p] == proc
  }

  predicate Free(s: State, q: nat) {
    q !in s.procs
  }

  /** The lock is one conditional update of the provider's upload state. */
  predicate CanLock(s: State, dp: nat) {
    dp < |s.uploaded| && !s.uploaded[dp].Done? && !s.uploaded[dp].InProgress?
  }

  predicate HandlerAt(s: State, p: nat, stages: set<HandlerStage>) {
    p in s.procs && s.procs[p].Handler? && s.procs[p].hs in stages && s.procs[p].dp < |s.uploaded| == |s.rows|
  }

  predicate TaskAt(s: State, p: nat, external: bool, stages: set<TaskStage>) {
    && p in s.procs && s.procs[p].Background? && s.procs[p].external == external && s.procs[p].ts in stages
    && s.procs[p].dp < |s.uploaded| == |s.rows|
  }

  function SetRows(s: State, dp: nat, rows: seq<Row>): State
    requires dp < |s.rows|
  {
    s.(rows := s.rows[dp := rows])
  }

  function SetUploaded(s: State, dp: nat, u: Uploaded): State
    requires dp < |s.uploaded|
  {
    s.(uploaded := s.uploaded[dp := u])
  }

  predicate CheckAt(s: State, p: nat) {
    p in s.procs && s.procs[p].Check?
  }

  function SetEncodingSize(s: State, record: Option<nat>): State {
    if record.Some? then s.(encodingSize := record) else s
  }

  /** A check compares the sizes it has read with the one expected; without any size it crashes. */
  function Judged(s: State, p: nat, sizes: seq<seq<Option<nat>>>): State {
    var verdict := Verdict(sizes, s.encodingSize, s.limits);
    var record := Recorded(sizes, s.encodingSize, s.limits);
    if verdict.Crash? then End(s, p)
    else if verdict.SizesAgree? then With(s, p, Check(Accepted(record)))
    else With(s, p, Check(Failing(record, Invalid(sizes, verdict))))
  }

  /** An upload request takes or gives back the lock of its provider. */
  predicate LockStep(s: State, a: Action, s': State) {
    match a
    case Begin(p, dp, token, size, json) =>
      Free(s, p) && CanLock(s, dp) &&
      s' == With(SetUploaded(s, dp, InProgress), p,
                 Handler(dp, token, size, Demanded(s.encodingSize, s.limits), json, Holding))
    case Fail(p, safe) =>
      HandlerAt(s, p, {Holding, Inserted, Described, Stored}) &&
      s' == End(SetUploaded(s, s.procs[p].dp, if s.procs[p].json && safe then NotStarted else Failed), p)
    case Finish(p) =>
      HandlerAt(s, p, {Stored}) &&
      s' == With(SetUploaded(s, s.procs[p].dp, Done), p, s.procs[p].(hs := Finished))
    case _ => false
  }

  /** What else an upload request does. */
  predicate HandlerStep(s: State, a: Action, s': State) {
    match a
    case InsertRow(p) =>
      HandlerAt(s, p, {Holding}) && Accepts(s.limits, s.procs[p].demanded, s.procs[p].size) &&
      var h := s.procs[p];
      s' == With(SetRows(s, h.dp, SetSizes(s.rows[h.dp] + [NewRow(h.token)], h.size)), p, h.(hs := Inserted))
    case DescribeRaw(p) =>
      HandlerAt(s, p, {Holding}) && s.procs[p].json &&
      var h := s.procs[p];
      s' == With(SetRows(s, h.dp, s.rows[h.dp] + [NewRow(h.token)]), p, h.(hs := Described))
    case StoreReady(p) =>
      HandlerAt(s, p, {Inserted}) &&
      var h := s.procs[p];
      s' == With(SetRows(s, h.dp, MakeReady(s.rows[h.dp], h.size)), p, h.(hs := Stored))
    case SpawnRaw(p, q) =>
      HandlerAt(s, p, {Described}) && Free(s, q) && p != q &&
      var h := s.procs[p];
      s' == With(With(s, p, h.(hs := Stored)), q, Background(h.dp, h.token, h.size, false, Working))
    case SpawnPull(p, q) =>
      HandlerAt(s, p, {Holding}) && s.procs[p].json && Free(s, q) && p != q &&
      var h := s.procs[p];
      s' == With(With(s, p, h.(hs := Stored)), q, Background(h.dp, h.token, h.size, true, Working))
    case HandlerReads(p) =>
      HandlerAt(s, p, {Finished}) &&
      s' == if ClksUploaded(s, false) then With(s, p, s.procs[p].(hs := Rousing)) else End(s, p)
    case HandlerTriggers(p, q) =>
      HandlerAt(s, p, {Rousing}) && Free(s, q) && s' == With(End(s, p), q, Check(Waiting))
    case _ => false
  }

  /** What a background upload task does. */
  predicate TaskStep(s: State, a: Action, s': State) {
    match a
    case RawChecked(p) =>
      TaskAt(s, p, false, {Working}) &&
      var r := s.procs[p];
      var fine := Accepts(s.limits, Demanded(s.encodingSize, s.limits), r.size);
      var rows := if fine then s.rows[r.dp] else SetAll(s.rows[r.dp], Error);
      s' == With(SetRows(s, r.dp, rows), p, r.(ts := Prepared))
    case RawReady(p) =>
      TaskAt(s, p, false, {Prepared}) &&
      var r := s.procs[p];
      s' == With(SetRows(s, r.dp, MakeReady(s.rows[r.dp], r.size)), p, r.(ts := Saved))
    case RawCrashes(p) =>
      TaskAt(s, p, false, {Working, Prepared}) && s' == End(s, p)
    case PullInserts(p) =>
      TaskAt(s, p, true, {Working}) &&
      var r := s.procs[p];
      s' == With(SetRows(s, r.dp, SetSizes(s.rows[r.dp] + [NewRow(r.token)], r.size)), p, r.(ts := Prepared))
    case PullReady(p) =>
      TaskAt(s, p, true, {Prepared}) &&
      var r := s.procs[p];
      s' == With(SetRows(s, r.dp, MakeReady(s.rows[r.dp], r.size)), p, r.(ts := Saved))
    case PullAtOnce(p) =>
      TaskAt(s, p, true, {Working}) &&
      var r := s.procs[p];
      s' == With(SetRows(s, r.dp, MakeReady(s.rows[r.dp] + [NewRow(r.token)], r.size)), p, r.(ts := Saved))
    case PullCrashes(p) =>
      TaskAt(s, p, true, {Working, Prepared, Saved}) &&
      s' == With(s, p, UploadError(s.procs[p].dp, s.procs[p].token))
    case ErrorRecorded(p) =>
      p in s.procs && s.procs[p].UploadError? && s.procs[p].dp < |s.rows| &&
      var e := s.procs[p];
      s' == End(SetRows(s, e.dp, Upsert(s.rows[e.dp], e.token, Error)), p)
    case TaskReads(p) =>
      (TaskAt(s, p, false, {Saved}) || TaskAt(s, p, true, {Saved})) &&
      s' == if ClksUploaded(s, !s.procs[p].external) then With(s, p, s.procs[p].(ts := Triggering)) else End(s, p)
    case TaskTriggers(p, q) =>
      (TaskAt(s, p, false, {Triggering}) || TaskAt(s, p, true, {Triggering})) && Free(s, q) &&
      s' == With(End(s, p), q, Check(Waiting))
    case _ => false
  }

  /** Posting runs, and checking whether runs can start. */
  predicate CheckStep(s: State, a: Action, s': State) {
    match a
    case PostRun(p, run) =>
      Free(s, p) && run !in s.created + s.queued + s.failed &&
      s' == With(s.(created := s.created + {run}), p, RunPost)
    case RunTriggers(p, q) =>
      At(s, p, RunPost) && Free(s, q) && s' == With(End(s, p), q, Check(Waiting))
    case DeliverCheck(q) =>
      Free(s, q) && s' == With(s, q, Check(Waiting))
    case CheckReads(p) =>
      At(s, p, Check(Waiting)) && |s.uploaded| == |s.rows| &&
      s' == if ClksUploaded(s, true) then With(s, p, Check(Passed)) else End(s, p)
    case ReadSizes(p) =>
      At(s, p, Check(Passed)) && s' == With(s, p, Check(Sized(SizesOf(s.rows))))
    case Judge(p) =>
      CheckAt(s, p) && s.procs[p].cs.Sized? && s' == Judged(s, p, s.procs[p].cs.sizes)
    case Invalidate(p) =>
      CheckAt(s, p) && s.procs[p].cs.Failing? && s.procs[p].cs.todo != [] && s.procs[p].cs.todo[0] < |s.rows| &&
      var c := s.procs[p].cs;
      s' == With(SetRows(s, c.todo[0], SetAll(s.rows[c.todo[0]], Error)), p, Check(c.(todo := c.todo[1..])))
    case FailAll(p) =>
      CheckAt(s, p) && s.procs[p].cs.Failing? && s.procs[p].cs.todo == [] &&
      s' == End(SetEncodingSize(s, s.procs[p].cs.record)
                  .(failed := s.failed + s.created + s.queued, created := {}, queued := {}), p)
    case QueueAll(p) =>
      CheckAt(s, p) && s.procs[p].cs.Accepted? &&
      s' == End(SetEncodingSize(s, s.procs[p].cs.record).(queued := s.queued + s.created, created := {}), p)
    case _ => false
  }

  predicate Step(s: State, a: Action, s': State) {
    LockStep(s, a, s') || HandlerStep(s, a, s') || TaskStep(s, a, s') || CheckStep(s, a, s')
  }

  // ----- Runs of the protocol -----

  /** Any number of steps, from any state. */
  ghost predicate Path(ss: seq<State>, acts: seq<Action>) {
    |ss| == |acts| + 1 && forall i | 0 <= i < |acts| :: Step(ss[i], acts[i], ss[i + 1])
  }

  ghost predicate Trace(ss: seq<State>, acts: seq<Action>) {
    Path(ss, acts) && Init(ss[0])
  }

  // ----- Mutual exclusion -----

  predicate HoldsLock(proc: Process, d: nat) {
    proc.Handler? && proc.dp == d && proc.hs in {Holding, Inserted, Described, Stored}
  }

  ghost predicate Locked(s: State, d: nat) {
    exists p | p in s.procs :: HoldsLock(s.procs[p], d)
  }

  /** A provider is in progress if and only if exactly one request holds its lock. */
  ghost predicate Exclusive(s: State) {
    && |s.uploaded| == |s.rows|
    && (forall p | p in s.procs && s.procs[p].Handler? :: s.procs[p].dp < |s.uploaded|)
    && (forall p, d: nat | p in s.procs && HoldsLock(s.procs[p], d) :: d < |s.uploaded| && s.uploaded[d].InProgress?)
    && (forall p, q, d | p in s.procs && q in s.procs && HoldsLock(s.procs[p], d) && HoldsLock(s.procs[q], d) :: p == q)
    && (forall d: nat | d < |s.uploaded| && s.uploaded[d].InProgress? :: Locked(s, d))
  }

  /** The step leaves locks and upload states alone, and does not touch the process of any lock holder. */
  ghost predicate LocksUntouched(s: State, s': State) {
    && s'.uploaded == s.uploaded && |s'.rows| == |s.rows|
    && (forall p | p in s'.procs && s'.procs[p].Handler? ::
          p in s.procs && s.procs[p].Handler? && s.procs[p].dp == s'.procs[p].dp)
    && (forall p, d | p in s.procs && HoldsLock(s.procs[p], d) :: p in s'.procs && HoldsLock(s'.procs[p], d))
    && (forall p, d | p in s'.procs && HoldsLock(s'.procs[p], d) :: p in s.procs && HoldsLock(s.procs[p], d))
  }

  lemma {:induction false} UntouchedKeepsExclusive(s: State, s': State)
    requires Exclusive(s) && LocksUntouched(s, s')
    ensures Exclusive(s')
  {
    forall d: nat | d < |s'.uploaded| && s'.uploaded[d].InProgress? ensures Locked(s', d) {
      assert Locked(s, d);
      var p :| p in s.procs && HoldsLock(s.procs[p], d);
      assert p in s'.procs && HoldsLock(s'.procs[p], d);
    }
  }

  lemma {:induction false} LockKeepsExclusive(s: State, a: Action, s': State)
    requires Exclusive(s) && LockStep(s, a, s')
    ensures Exclusive(s')
  {
    match a
    case Begin(p, dp, token, size, json) =>
      assert HoldsLock(s'.procs[p], dp);
      OthersKeepLocks(s, s', p, dp);
    case Fail(p, safe) =>
      OthersKeepLocks(s, s', p, s.procs[p].dp);
    case Finish(p) =>
      OthersKeepLocks(s, s', p, s.procs[p].dp);
  }

  /** The same provider, holding its lock or not as before. */
  predicate SameHold(before: Process, after: Process) {
    && before.Handler? == after.Handler?
    && (before.Handler? ==> before.dp == after.dp && (HoldsLock(before, before.dp) <==> HoldsLock(after, before.dp)))
  }

  /** Process `p` moves on or ends, and may start a process `q` that is no upload request. */
  ghost predicate Moves(before: map<nat, Process>, after: map<nat, Process>, p: nat, q: nat) {
    && (forall r | r != p && r != q :: (r in after <==> r in before) && (r in before ==> after[r] == before[r]))
    && (p in before && p in after ==> SameHold(before[p], after[p]))
    && (p in before && p !in after ==> !before[p].Handler? || !HoldsLock(before[p], before[p].dp))
    && (p !in before && p in after ==> !after[p].Handler?)
    && (q != p ==> q !in before && (q in after ==> !after[q].Handler?))
  }

  lemma {:induction false} MovesLeaveLocks(s: State, s': State, p: nat, q: nat)
    requires Moves(s.procs, s'.procs, p, q) && s'.uploaded == s.uploaded && |s'.rows| == |s.rows|
    ensures LocksUntouched(s, s')
  {}

  lemma {:induction false} MovesKeepExclusive(s: State, s': State, p: nat, q: nat)
    requires Exclusive(s)
    requires Moves(s.procs, s'.procs, p, q) && s'.uploaded == s.uploaded && |s'.rows| == |s.rows|
    ensures Exclusive(s')
  {
    MovesLeaveLocks(s, s', p, q);
    UntouchedKeepsExclusive(s, s');
  }

  lemma {:induction false} HandlerKeepsExclusive(s: State, a: Action, s': State)
    requires Exclusive(s) && HandlerStep(s, a, s')
    ensures Exclusive(s')
  {
    MovesKeepExclusive(s, s', a.p, if a.SpawnRaw? || a.SpawnPull? || a.HandlerTriggers? then a.q else a.p);
  }

  /** Only the lock of `dp` changes hands, and only process `p` is involved. */
  lemma {:induction false} OthersKeepLocks(s: State, s': State, p: nat, dp: nat)
    requires Exclusive(s) && dp < |s.uploaded|
    requires |s'.uploaded| == |s'.rows| == |s.uploaded|
    requires forall d: nat | d < |s.uploaded| && d != dp :: s'.uploaded[d] == s.uploaded[d]
    requires forall q | q != p :: (q in s'.procs <==> q in s.procs) && (q in s.procs ==> s'.procs[q] == s.procs[q])
    requires p in s'.procs ==> s'.procs[p].Handler? && s'.procs[p].dp == dp
    requires p in s.procs ==> HoldsLock(s.procs[p], dp)
    requires (p in s'.procs && HoldsLock(s'.procs[p], dp)) <==> s'.uploaded[dp].InProgress?
    requires p !in s.procs ==> !s.uploaded[dp].InProgress?
    ensures Exclusive(s')
  {
    forall d: nat | d < |s'.uploaded| && s'.uploaded[d].InProgress? ensures Locked(s', d) {
      if d == dp {
        assert p in s'.procs && HoldsLock(s'.procs[p], dp);
      } else {
        assert Locked(s, d);
        var q :| q in s.procs && HoldsLock(s.procs[q], d);
        assert q != p && q in s'.procs && HoldsLock(s'.procs[q], d);
      }
    }
    forall q, r, d: nat | q in s'.procs && r in s'.procs && HoldsLock(s'.procs[q], d) && HoldsLock(s'.procs[r], d)
      ensures q == r
    {
      assert q != p ==> HoldsLock(s.procs[q], d);
      assert r != p ==> HoldsLock(s.procs[r], d);
    }
  }

  lemma {:induction false} TaskKeepsExclusive(s: State, a: Action, s': State)
    requires Exclusive(s) && TaskStep(s, a, s')
    ensures Exclusive(s')
  {
    MovesKeepExclusive(s, s', a.p, if a.TaskTriggers? then a.q else a.p);
  }

  lemma {:induction false} CheckKeepsExclusive(s: State, a: Action, s': State)
    requires Exclusive(s) && CheckStep(s, a, s')
    ensures Exclusive(s')
  {
    if a.DeliverCheck? {
      MovesKeepExclusive(s, s', a.q, a.q);
    } else {
      MovesKeepExclusive(s, s', a.p, if a.RunTriggers? then a.q else a.p);
    }
  }

  lemma {:induction false} StepKeepsExclusive(s: State, a: Action, s': State)
    requires Exclusive(s) && Step(s, a, s')
    ensures Exclusive(s')
  {
    if LockStep(s, a, s') {
      LockKeepsExclusive(s, a, s');
    } else if HandlerStep(s, a, s') {
      HandlerKeepsExclusive(s, a, s');
    } else if TaskStep(s, a, s') {
      TaskKeepsExclusive(s, a, s');
    } else {
      CheckKeepsExclusive(s, a, s');
    }
  }
}
