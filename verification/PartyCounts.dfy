/**
 What the two counting queries say about the parties of a project. Both count upload rows, and both
 are right as long as each provider has one row.
 */
module PartyCounts {
  import opened UploadProtocol

  predicate AllReady(rows: seq<Row>) {
    forall r | r in rows :: r.state.Ready?
  }

  /** Every party is done, and its data is there and ready. */
  ghost predicate Settled(s: State) {
    && |s.uploaded| == |s.rows|
    && forall d: nat | d < |s.uploaded| :: s.uploaded[d].Done? && s.rows[d] != [] && AllReady(s.rows[d])
  }

  ghost predicate OneRowEach(s: State) {
    forall d: nat | d < |s.rows| :: |s.rows[d]| <= 1
  }

  lemma {:induction false} ReadyRowsBound(rows: seq<Row>)
    ensures ReadyRows(rows) <= |rows|
    ensures ReadyRows(rows) == |rows| <==> AllReady(rows)
  {
    if rows != [] {
      ReadyRowsBound(rows[1..]);
      assert rows == [rows[0]] + rows[1..];
    }
  }

  /** All done, with ready rows. */
  ghost predicate SettledRows(uploaded: seq<Uploaded>, rows: seq<seq<Row>>)
    requires |uploaded| == |rows|
  {
    forall d: nat | d < |uploaded| :: uploaded[d].Done? && rows[d] != [] && AllReady(rows[d])
  }

  lemma {:induction false} CountsWithOneRow(uploaded: seq<Uploaded>, rows: seq<seq<Row>>)
    requires |uploaded| == |rows| && forall d: nat | d < |rows| :: |rows[d]| <= 1
    ensures CountReady(uploaded, rows) <= CountUploaded(uploaded, rows) <= |uploaded|
    ensures CountReady(uploaded, rows) == |uploaded| <==> SettledRows(uploaded, rows)
  {
    if uploaded != [] {
      CountsWithOneRow(uploaded[1..], rows[1..]);
      ReadyRowsBound(rows[0]);
      if SettledRows(uploaded[1..], rows[1..]) && uploaded[0].Done? && rows[0] != [] && AllReady(rows[0]) {
        forall d: nat | d < |uploaded| ensures uploaded[d].Done? && rows[d] != [] && AllReady(rows[d]) {
          if d > 0 {
            assert uploaded[d] == uploaded[1..][d - 1] && rows[d] == rows[1..][d - 1];
          }
        }
      }
      if SettledRows(uploaded, rows) {
        assert uploaded[0].Done? && rows[0] != [] && AllReady(rows[0]);
        forall d: nat | d < |uploaded[1..]|
          ensures uploaded[1..][d].Done? && rows[1..][d] != [] && AllReady(rows[1..][d])
        {
          assert uploaded[1..][d] == uploaded[d + 1] && rows[1..][d] == rows[d + 1];
        }
      }
    }
  }

  /** With one row each, a check goes ahead exactly when the data of all parties is ready. */
  lemma {:induction false} CheckPassesIffSettled(s: State)
    requires |s.uploaded| == |s.rows| && OneRowEach(s)
    ensures ClksUploaded(s, true) <==> Settled(s)
    ensures Settled(s) ==> ClksUploaded(s, false)
  {
    CountsWithOneRow(s.uploaded, s.rows);
  }

  /** Every party is done, and has uploaded something. */
  ghost predicate AllUploaded(s: State) {
    && |s.uploaded| == |s.rows|
    && forall d: nat | d < |s.uploaded| :: s.uploaded[d].Done? && s.rows[d] != []
  }

  lemma {:induction false} UploadedWithOneRow(uploaded: seq<Uploaded>, rows: seq<seq<Row>>)
    requires |uploaded| == |rows| && forall d: nat | d < |rows| :: |rows[d]| <= 1
    ensures CountUploaded(uploaded, rows) <= |uploaded|
    ensures CountUploaded(uploaded, rows) == |uploaded| <==>
            forall d: nat | d < |uploaded| :: uploaded[d].Done? && rows[d] != []
  {
    if uploaded != [] {
      var u, r := uploaded[1..], rows[1..];
      UploadedWithOneRow(u, r);
      if forall d: nat | d < |uploaded| :: uploaded[d].Done? && rows[d] != [] {
        assert forall d: nat | d < |u| :: u[d] == uploaded[d + 1] && r[d] == rows[d + 1];
      }
      if forall d: nat | d < |u| :: u[d].Done? && r[d] != [] {
        assert forall d: nat | 0 < d < |uploaded| :: uploaded[d] == u[d - 1] && rows[d] == r[d - 1];
      }
    }
  }

  /** With one row each, an upload triggers a check exactly when all parties have uploaded. */
  lemma {:induction false} UploadsCountIff(s: State)
    requires |s.uploaded| == |s.rows| && OneRowEach(s)
    ensures ClksUploaded(s, false) <==> AllUploaded(s)
  {
    UploadedWithOneRow(s.uploaded, s.rows);
  }

  lemma {:induction false} CountsWhenSettled(uploaded: seq<Uploaded>, rows: seq<seq<Row>>)
    requires |uploaded| == |rows| && SettledRows(uploaded, rows)
    ensures CountReady(uploaded, rows) == CountUploaded(uploaded, rows) >= |uploaded|
    ensures CountReady(uploaded, rows) == |uploaded| <==> forall d: nat | d < |rows| :: |rows[d]| <= 1
  {
    if uploaded != [] {
      assert uploaded[0].Done? && rows[0] != [] && AllReady(rows[0]);
      forall d: nat | d < |uploaded[1..]|
        ensures uploaded[1..][d].Done? && rows[1..][d] != [] && AllReady(rows[1..][d])
      {
        assert uploaded[1..][d] == uploaded[d + 1] && rows[1..][d] == rows[d + 1];
      }
      CountsWhenSettled(uploaded[1..], rows[1..]);
      ReadyRowsBound(rows[0]);
      if |rows[0]| == 1 && forall d: nat | d < |rows[1..]| :: |rows[1..][d]| <= 1 {
        forall d: nat | d < |rows| ensures |rows[d]| <= 1 {
          if d > 0 {
            assert rows[d] == rows[1..][d - 1];
          }
        }
      }
      if forall d: nat | d < |rows| :: |rows[d]| <= 1 {
        forall d: nat | d < |rows[1..]| ensures |rows[1..][d]| <= 1 {
          assert rows[1..][d] == rows[d + 1];
        }
      }
    }
  }

  /** When the data of all parties is ready, a check goes ahead only if no provider has a second row. */
  lemma {:induction false} ExtraRowBlocksChecks(s: State)
    requires Settled(s)
    ensures ClksUploaded(s, true) <==> OneRowEach(s)
    ensures ClksUploaded(s, false) <==> OneRowEach(s)
  {
    CountsWhenSettled(s.uploaded, s.rows);
  }

  /** A check that goes ahead does so for the right reason if and only if no provider has a second row. */
  lemma {:induction false} PassesTooEarlyIff(s: State)
    requires |s.uploaded| == |s.rows| && ClksUploaded(s, true)
    ensures Settled(s) <==> OneRowEach(s)
  {
    if OneRowEach(s) {
      CheckPassesIffSettled(s);
    }
    if Settled(s) {
      ExtraRowBlocksChecks(s);
    }
  }

  // ----- Rows are never deleted -----

  lemma {:induction false} UpsertPresent(rows: seq<Row>, token: nat, state: RowState)
    ensures exists r :: r in Upsert(rows, token, state) && r.token == token && r.state == state
  {
    var after := Upsert(rows, token, state);
    if rows == [] || rows[0].token == token {
      assert after[0] in after;
    } else {
      UpsertPresent(rows[1..], token, state);
      assert after[1..] == Upsert(rows[1..], token, state);
    }
  }

  lemma {:induction false} UpsertKeepsRows(rows: seq<Row>, token: nat, state: RowState)
    ensures |rows| <= |Upsert(rows, token, state)|
  {
    if rows != [] && rows[0].token != token {
      UpsertKeepsRows(rows[1..], token, state);
    }
  }

  ghost predicate KeepsRows(s: State, s': State) {
    |s'.rows| == |s.rows| && forall d: nat | d < |s.rows| :: |s.rows[d]| <= |s'.rows[d]|
  }

  lemma {:induction false} TaskKeepsRows(s: State, a: Action, s': State)
    requires TaskStep(s, a, s')
    ensures KeepsRows(s, s')
  {
    if a.ErrorRecorded? {
      UpsertKeepsRows(s.rows[s.procs[a.p].dp], s.procs[a.p].token, Error);
    }
  }

  lemma {:induction false} OthersKeepRows(s: State, a: Action, s': State)
    requires LockStep(s, a, s') || HandlerStep(s, a, s') || CheckStep(s, a, s')
    ensures KeepsRows(s, s')
  {}

  lemma {:induction false} RowsAreKept(s: State, a: Action, s': State)
    requires Step(s, a, s')
    ensures KeepsRows(s, s')
  {
    if TaskStep(s, a, s') {
      TaskKeepsRows(s, a, s');
    } else {
      OthersKeepRows(s, a, s');
    }
  }

  /** A provider that has one row at most had no second row before. */
  lemma {:induction false} OneRowBefore(s: State, a: Action, s': State)
    requires Step(s, a, s') && OneRowEach(s')
    ensures OneRowEach(s)
  {
    RowsAreKept(s, a, s');
    forall d: nat | d < |s.rows| ensures |s.rows[d]| <= 1 {
      assert |s'.rows[d]| <= 1;
    }
  }
}
