/** The `metamach_step_meta` overlay rows and their transitions
    (`janus/src/absurd/mod.rs:473-644`, `janus/src/bin/janus_daemon.rs:1113-1119`),
    and the success test the DAG barrier applies to them. */
module Overlay {
  import opened Wrappers
  import opened Envelope

  datatype StepStatus =
    | Starting | Running | Suspended | Stopped | Completed | Failed
    | Recorded(text: string)   // any other text a replayed event carries

  datatype Row = Row(status: StepStatus, exitCode: Option<int>, session: string, verdict: Option<string>)

  type RowKey = (Uuid, string)
  type Rows = map<RowKey, Row>

  /** Insert or reset to STARTING; a recorded verdict survives the reset. */
  function UpsertStart(rows: Rows, key: RowKey, session: string): Rows {
    rows[key := Row(Starting, None, session, if key in rows then rows[key].verdict else None)]
  }

  /** An UPDATE of the status alone: no row, no effect. */
  function SetStatus(rows: Rows, key: RowKey, status: StepStatus): Rows {
    if key in rows then rows[key := rows[key].(status := status)] else rows
  }

  function Finalize(rows: Rows, key: RowKey, status: StepStatus, exitCode: Option<int>): Rows {
    if key in rows then rows[key := rows[key].(status := status, exitCode := exitCode)] else rows
  }

  /** A human's verdict on a suspended step (`record_hitl_resolution`). */
  function SetVerdict(rows: Rows, key: RowKey, verdict: string): Rows {
    if key in rows then rows[key := rows[key].(verdict := Some(verdict))] else rows
  }

  function RowStatus(rows: Rows, key: RowKey): Option<StepStatus> {
    if key in rows then Some(rows[key].status) else None
  }

  class StepOverlay {
    var rows: Rows

    constructor ()
      ensures rows == map[]
    {
      rows := map[];
    }

    method UpsertStepStart(key: RowKey, session: string)
      modifies this
      ensures rows == UpsertStart(old(rows), key, session)
    {
      var verdict := if key in rows then rows[key].verdict else None;
      rows := rows[key := Row(Starting, None, session, verdict)];
    }

    /** `set_step_running`, `suspend_step` and the user's stop. */
    method UpdateStatus(key: RowKey, status: StepStatus)
      modifies this
      ensures rows == SetStatus(old(rows), key, status)
    {
      if key in rows {
        rows := rows[key := rows[key].(status := status)];
      }
    }

    method FinalizeStep(key: RowKey, status: StepStatus, exitCode: Option<int>)
      modifies this
      ensures rows == Finalize(old(rows), key, status, exitCode)
    {
      if key in rows {
        rows := rows[key := rows[key].(status := status, exitCode := exitCode)];
      }
    }

    method RecordVerdict(key: RowKey, verdict: string)
      modifies this
      ensures rows == SetVerdict(old(rows), key, verdict)
    {
      if key in rows {
        rows := rows[key := rows[key].(verdict := Some(verdict))];
      }
    }

    method StepStatus(key: RowKey) returns (status: Option<StepStatus>)
      ensures status == RowStatus(rows, key)
    {
      if key in rows {
        return Some(rows[key].status);
      }
      return None;
    }
  }

  // --- Any sequence of writes -----------------------------------------------

  datatype RowOp =
    | Started(key: RowKey, session: string)
    | Updated(key: RowKey, status: StepStatus)
    | Finalized(key: RowKey, status: StepStatus, exitCode: Option<int>)
    | Ruled(key: RowKey, verdict: string)

  function ApplyRow(rows: Rows, op: RowOp): Rows {
    match op
    case Started(key, session) => UpsertStart(rows, key, session)
    case Updated(key, status) => SetStatus(rows, key, status)
    case Finalized(key, status, exitCode) => Finalize(rows, key, status, exitCode)
    case Ruled(key, verdict) => SetVerdict(rows, key, verdict)
  }

  /** The table after the first `n` writes. */
  function ExecRows(rows: Rows, ops: seq<RowOp>, n: nat): Rows
    requires n <= |ops|
  {
    if n == 0 then rows else ApplyRow(ExecRows(rows, ops, n - 1), ops[n - 1])
  }

  /** Only starting a step makes a row, and no write removes one. */
  lemma {:induction false} RowExistsExactly(rows: Rows, ops: seq<RowOp>, n: nat, key: RowKey)
    requires n <= |ops|
    ensures key in ExecRows(rows, ops, n) <==> key in rows || exists i :: 0 <= i < n && ops[i].Started? && ops[i].key == key
  {
    if n > 0 {
      RowExistsExactly(rows, ops, n - 1, key);
    }
  }

  /** Writes of other steps leave a row alone. */
  lemma {:induction false} OtherRowsKept(rows: Rows, ops: seq<RowOp>, i: nat, n: nat, key: RowKey)
    requires i <= n <= |ops| && forall k | i <= k < n :: ops[k].key != key
    ensures key in ExecRows(rows, ops, n) <==> key in ExecRows(rows, ops, i)
    ensures key in ExecRows(rows, ops, i) ==> ExecRows(rows, ops, n)[key] == ExecRows(rows, ops, i)[key]
  {
    if i < n {
      OtherRowsKept(rows, ops, i, n - 1, key);
    }
  }

  /** A verdict stays with its step until the next one, however often the step
      is started again: a re-run step is not blocked a second time. */
  lemma {:induction false} VerdictSurvives(rows: Rows, ops: seq<RowOp>, i: nat, n: nat)
    requires i < n <= |ops| && ops[i].Ruled? && ops[i].key in ExecRows(rows, ops, i)
    requires forall k | i < k < n :: ops[k].Ruled? ==> ops[k].key != ops[i].key
    ensures ops[i].key in ExecRows(rows, ops, n) && ExecRows(rows, ops, n)[ops[i].key].verdict == Some(ops[i].verdict)
  {
    if i + 1 < n {
      VerdictSurvives(rows, ops, i, n - 1);
    }
  }

  /** A row's exit code is that of the try it was started for last: none until
      that try is finalized, then what it was finalized with last. */
  lemma {:induction false} ExitIsOfLastTry(rows: Rows, ops: seq<RowOp>, i: nat, n: nat)
    requires i < n <= |ops| && (ops[i].Started? || (ops[i].Finalized? && ops[i].key in ExecRows(rows, ops, i)))
    requires forall k | i < k < n && ops[k].key == ops[i].key :: !ops[k].Started? && !ops[k].Finalized?
    ensures ops[i].key in ExecRows(rows, ops, n)
    ensures ExecRows(rows, ops, n)[ops[i].key].exitCode == if ops[i].Finalized? then ops[i].exitCode else None
  {
    if i + 1 < n {
      ExitIsOfLastTry(rows, ops, i, n - 1);
    }
  }

  /** A row reads what was written last: STARTING after a start, else the status
      it was updated to or finalized with. */
  lemma {:induction false} StatusIsOfLastWrite(rows: Rows, ops: seq<RowOp>, i: nat, n: nat)
    requires i < n <= |ops| && !ops[i].Ruled? && (ops[i].Started? || ops[i].key in ExecRows(rows, ops, i))
    requires forall k | i < k < n && ops[k].key == ops[i].key :: ops[k].Ruled?
    ensures ops[i].key in ExecRows(rows, ops, n)
    ensures ExecRows(rows, ops, n)[ops[i].key].status == if ops[i].Started? then Starting else ops[i].status
  {
    if i + 1 < n {
      StatusIsOfLastWrite(rows, ops, i, n - 1);
    }
  }

  /** A row names the session of its last start. */
  lemma {:induction false} SessionIsOfLastStart(rows: Rows, ops: seq<RowOp>, i: nat, n: nat)
    requires i < n <= |ops| && ops[i].Started?
    requires forall k | i < k < n && ops[k].key == ops[i].key :: !ops[k].Started?
    ensures ops[i].key in ExecRows(rows, ops, n) && ExecRows(rows, ops, n)[ops[i].key].session == ops[i].session
  {
    if i + 1 < n {
      SessionIsOfLastStart(rows, ops, i, n - 1);
    }
  }

  // --- is_task_successful ---------------------------------------------------

  predicate RowDone(r: Row) {
    r.status == Completed && (r.exitCode.Some? ==> r.exitCode.value == 0)
  }

  predicate RowFailed(r: Row) {
    r.status == Failed || (r.exitCode.Some? && r.exitCode.value != 0)
  }

  predicate AllDone(rows: seq<Row>) {
    rows != [] && forall r | r in rows :: RowDone(r)
  }

  predicate AnyFailed(rows: seq<Row>) {
    exists r | r in rows :: RowFailed(r)
  }

  const POLLS := 5

  /** One of five polls finds rows, all of them COMPLETED without a non-zero exit
      code, and no earlier one a FAILED row or a non-zero exit code. */
  ghost predicate SuccessSeen(snapshot: nat -> Option<seq<Row>>) {
    exists i: nat :: DoneAt(snapshot, i)
  }

  ghost predicate DoneAt(snapshot: nat -> Option<seq<Row>>, i: nat) {
    && i < 5 && snapshot(i).Some? && snapshot(i).value != []
    && (forall r | r in snapshot(i).value :: r.status == Completed && (r.exitCode == None || r.exitCode == Some(0)))
    && (forall j: nat, r | j < i && snapshot(j).Some? && r in snapshot(j).value ::
          r.status != Failed && (r.exitCode == None || r.exitCode == Some(0)))
  }

  /** Polls a task's rows up to five times; `snapshot(i)` is what the `i`-th
      query returns (`None`: no pool, or the query failed). */
  method IsTaskSuccessful(snapshot: nat -> Option<seq<Row>>) returns (ok: bool)
    ensures ok <==> SuccessSeen(snapshot)
  {
    for i := 0 to POLLS
      invariant forall j: nat :: j < i && snapshot(j).Some? ==> !AllDone(snapshot(j).value) && !AnyFailed(snapshot(j).value)
    {
      var rows := snapshot(i);
      if rows.Some? && rows.value != [] {
        if AllDone(rows.value) {
          assert DoneAt(snapshot, i);
          return true;
        }
        if AnyFailed(rows.value) {
          var r :| r in rows.value && RowFailed(r);
          return false;
        }
      }
    }
    return false;
  }
}
