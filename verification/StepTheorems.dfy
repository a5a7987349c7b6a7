/** What the invariant of the step engine means for a whole task: every
    statement here is about any number of claims, corrections, approvals and
    daemon lifetimes. */
module StepTheorems {
  import opened Wrappers
  import opened Envelope
  import opened Engine
  import opened Sessions
  import opened Overlay
  import opened StepEngine
  import opened StepRunner

  // --- The start ------------------------------------------------------------

  /** Nothing is known of the task yet, and its queue is empty. */
  ghost predicate Unknown(c: Config, s: StepEngine.Snap) {
    && Inv(s.engine) && c.task !in s.engine.tasks
    && Order(s.engine, c.queue) == [] && Checkpoints(s.engine, c.task) == []
    && (forall name :: (c.task, name) !in s.rows)
    && TaskSessions(c, s.sessions) == {} && s.launches == [] && s.passed == {} && s.starts == 0 && s.resumed == 0
  }

  function Spawned(c: Config, s: StepEngine.Snap, name: string, params: Json, max: nat): StepEngine.Snap {
    s.(engine := Spawn(s.engine, c.queue, name, params, max, c.task))
  }

  /** Dispatching a workflow with distinct step names establishes the invariant. */
  lemma FreshGood(c: Config, s: StepEngine.Snap, name: string, params: Json, max: nat)
    requires ValidConfig(c) && Unknown(c, s)
    ensures var s' := Spawned(c, s, name, params, max);
            && Good(c, s') && RowFront(c, s') && AtRest(c, s') && Waiting(TaskOf(c, s'))
            && Progress(c, s') == 0 && s'.resumed == 0
            && TaskOf(c, s') == FakeTask(name, params, Pending, max, 0, None, [s.engine.nextRun], None, false)
  {
    var s' := Spawned(c, s, name, params, max);
    ApplyKeepsInv(s.engine, SpawnOp(c.queue, name, params, max, c.task));
    NotInSandbox(c, s);
    assert Cps(c, s') == [];
    assert Order(s'.engine, c.queue) == [c.task];
  }

  /** A fresh daemon and its first task, with everything that will happen. */
  method Dispatched(c: Config, name: string, params: Json, maxAttempts: nat, script: seq<Input>) returns (r: Runner)
    requires ValidConfig(c)
    ensures fresh(r) && fresh(r.engine) && fresh(r.overlay) && r.c == c && r.script == script && r.used == 0
    ensures Good(c, r.Snap()) && AtRest(c, r.Snap()) && Progress(c, r.Snap()) == 0 && r.resumed == 0
    ensures TaskOf(c, r.Snap()) == FakeTask(name, params, Pending, maxAttempts, 0, None, [0], None, false)
  {
    hide Good, AtRest, Progress, ValidConfig;
    var engine := new FakeEngine(maxAttempts);
    var overlay := new StepOverlay();
    r := new Runner(c, engine, overlay, script);
    assert TaskSessions(c, {}) == {};
    FreshGood(c, r.Snap(), name, params, maxAttempts);
    engine.SpawnTask(c.queue, name, params, c.task);
  }

  // --- Checkpoints ----------------------------------------------------------

  /** The completed checkpoints are exactly the first `Progress` step names, in
      order, each once, and `resume_point` continues right after them. */
  lemma CompletedPrefix(c: Config, s: StepEngine.Snap)
    requires Good(c, s)
    ensures var done := CompletedNames(Cps(c, s), c.task);
            && |done| <= c.Size() && (forall i | 0 <= i < |done| :: done[i] == c.Steps()[i].name)
            && (forall i, j | 0 <= i < j < |done| :: done[i] != done[j])
            && ResumePoint(c.Steps(), LastCheckpoint(s.engine, c.task), c.task).0 == |done|
  {
    var done := CompletedNames(Cps(c, s), c.task);
    assert done == Names(c.Steps(), |done|);
    ResumeIsPrefixLength(c, Cps(c, s));
  }

  predicate Checkpointed(c: Config, s: StepEngine.Snap, i: nat)
    requires i < c.Size()
  {
    c.Steps()[i].name in CompletedNames(Cps(c, s), c.task)
  }

  lemma CheckpointedIsBelowProgress(c: Config, s: StepEngine.Snap, i: nat)
    requires Good(c, s) && i < c.Size()
    ensures Checkpointed(c, s, i) <==> i < Progress(c, s)
  {
  }

  /** A checkpointed step with a command had a session that exited with 0. */
  lemma CheckpointedStepPassed(c: Config, s: StepEngine.Snap, i: nat)
    requires Good(c, s) && i < c.Size() && c.Steps()[i].command.Some? && Checkpointed(c, s, i)
    ensures i in s.passed
  {
  }

  /** A completed task has every step checkpointed. */
  lemma CompletedTaskIsComplete(c: Config, s: StepEngine.Snap, i: nat)
    requires Good(c, s) && TaskOf(c, s).state == TaskState.Completed && i < c.Size()
    ensures Checkpointed(c, s, i)
  {
  }

  // --- Sessions -------------------------------------------------------------

  /** Every session ever started was for a step whose predecessors were all
      checkpointed by then, and they still are. */
  lemma LaunchedInOrder(c: Config, s: StepEngine.Snap, n: nat, i: nat)
    requires Good(c, s) && n < |s.launches| && i < s.launches[n].step
    ensures s.launches[n].step < c.Size() && Checkpointed(c, s, i)
    ensures forall m: nat | m < n :: s.launches[m].step <= s.launches[n].step
  {
    assert s.launches[n] in s.launches;
    CheckpointedIsBelowProgress(c, s, i);
  }

  /** A checkpointed step is never launched again, by any later claim or restart. */
  lemma NeverRelaunched(c: Config, s: StepEngine.Snap, s': StepEngine.Snap, n: nat)
    requires Good(c, s) && Good(c, s') && Forward(c, s, s') && |s.launches| <= n < |s'.launches|
    ensures s'.launches[n].step < c.Size() && !Checkpointed(c, s, s'.launches[n].step)
  {
  }

  lemma {:induction false} SumGrows(steps: seq<StepDef>, i: nat, j: nat)
    requires i <= j <= |steps|
    ensures SumLimits(steps, i) <= SumLimits(steps, j)
  {
    if i < j {
      SumGrows(steps, i, j - 1);
    }
  }

  /** All sessions of all claims and corrections: one allowance per step, plus
      one of the largest per attempt and per resumption. */
  lemma LaunchesBounded(c: Config, s: StepEngine.Snap)
    requires Good(c, s)
    ensures |s.launches| <= MostLaunches(c, s)
  {
    var runs := Cap(TaskOf(c, s).maxAttempts) + s.resumed;
    SumGrows(c.Steps(), Progress(c, s), c.Size());
    TaskIsOk(c, s);
    assert s.starts <= runs;
    AllowanceGrows(MaxLimit(c.Steps()), s.starts, runs);
    AllowanceIsProduct(MaxLimit(c.Steps()), runs);
  }

  /** That bound, for a run that is not resumed any more. */
  function MostLaunches(c: Config, s: StepEngine.Snap): int
    requires c.task in s.engine.tasks
  {
    SumLimits(c.Steps(), c.Size()) + (Cap(TaskOf(c, s).maxAttempts) + s.resumed) * MaxLimit(c.Steps())
  }

  /** The sweep takes this task's sessions on the hosts and nothing else. */
  function Swept(c: Config, sessions: set<Session>): set<Session> {
    sessions - Alive(c, sessions)
  }

  /** It never takes another task's session, and leaves one of this task alive
      exactly when that one runs in the sandbox. */
  lemma SweepSpares(c: Config, sessions: set<Session>, place: Place, owner: Uuid, step: nat, correction: nat)
    requires Session(place, SessionName(owner, step, correction)) in sessions
    ensures (Session(place, SessionName(owner, step, correction)) in Swept(c, sessions))
            <==> (owner != c.task || place.SandboxSocket?)
  {
    SweepIsExact(c.task, owner, step, correction);
  }

  lemma OneAliveCount(c: Config, s: StepEngine.Snap)
    requires Good(c, s)
    ensures Tame(c) || TaskOf(c, s).maxAttempts <= 1 ==> |TaskSessions(c, s.sessions)| <= 1
  {
  }

  /** If no sandbox step runs corrections, or the task has one attempt only, at
      most one session of it is ever alive, wherever it runs. */
  lemma OneSessionAlive(c: Config, s: StepEngine.Snap, x: Session, y: Session)
    requires Good(c, s) && (Tame(c) || TaskOf(c, s).maxAttempts <= 1)
    requires x in TaskSessions(c, s.sessions) && y in TaskSessions(c, s.sessions)
    ensures x == y
  {
    OneAliveCount(c, s);
    if x != y {
      Fewer({x, y}, TaskSessions(c, s.sessions));
    }
  }

  /** A call that goes well, in a pane that exits with 0. */
  function Well(sha: string): Input {
    Input(false, true, false, Some(0), false, sha, true, false, None, None, false, false, None)
  }

  /** How many calls the first `j` steps take when nothing goes wrong. */
  function PathLen(c: Config, j: nat, sha: string): nat
    requires j <= c.Size()
  {
    if j == 0 then 0 else PathLen(c, j - 1, sha) + StepLen(c, j - 1, sha)
  }

  function SweepLen(c: Config): nat {
    |HostList(c, c.Size())|
  }

  /** The call in which the first daemon dies. */
  function DeathAt(c: Config, j: nat, sha: string): nat
    requires j <= c.Size()
  {
    SweepLen(c) + PathLen(c, j, sha) + 10
  }

  function OrphanCall(death: nat, sha: string, k: nat): Input {
    if k == death then Well(sha).(fail := true)
    else if k == death + 1 then Well(sha).(expire := true)
    else if death - 8 <= k < death - 3 then Well(sha).(exit := Some(1))
    else Well(sha)
  }

  /** The first daemon runs the steps before `j`, whose first try exits with 1,
      and dies with the correction running; its lease expires while the second
      one sweeps, and the script ends with the first try of step `j` running. */
  function OrphanScript(c: Config, j: nat, sha: string): (script: seq<Input>)
    requires j <= c.Size()
    ensures |script| == DeathAt(c, j, sha) + SweepLen(c) + 6
    ensures forall k: nat | k < |script| :: script[k] == OrphanCall(DeathAt(c, j, sha), sha, k)
  {
    seq(DeathAt(c, j, sha) + SweepLen(c) + 6, k requires 0 <= k => OrphanCall(DeathAt(c, j, sha), sha, k))
  }

  lemma {:induction false} PathGrows(c: Config, i: nat, j: nat, sha: string)
    requires i <= j <= c.Size()
    ensures PathLen(c, i, sha) <= PathLen(c, j, sha)
  {
    if i < j {
      PathGrows(c, i, j - 1, sha);
    }
  }

  /** The script does what it says, from any step before `j` on. */
  lemma {:induction false} FirstLifeFalls(r: Runner, i: nat, j: nat, sha: string)
    requires i <= j < r.c.Size() && r.script == OrphanScript(r.c, j, sha)
    requires r.c.Steps()[j].command.Some? && Limit(r.c.Steps()[j]) >= 2
    ensures r.Falls(SweepLen(r.c) + 2 + PathLen(r.c, i, sha), i, j, sha, 2, DeathAt(r.c, j, sha))
    decreases j - i
  {
    hide SweepLen, Limit, StepLen, OrphanScript, Calm;
    var at := SweepLen(r.c) + 2 + PathLen(r.c, i, sha);
    OrphanScriptIsCalm(r.c, j, sha);
    if i == j {
      assert r.Retries(at);
      assert r.Dies(at + 5, 1, at + 8);
    } else {
      PathGrows(r.c, i + 1, j, sha);
      FirstLifeFalls(r, i + 1, j, sha);
      assert r.Smooth(at, StepLen(r.c, i, sha), sha);
    }
  }

  lemma OrphanScriptIsCalm(c: Config, j: nat, sha: string)
    requires j <= c.Size()
    ensures Calm(OrphanScript(c, j, sha))
  {
    hide HostList, DeathAt;
    forall x | x in OrphanScript(c, j, sha)
      ensures x.flip.None? && x.writesOk
    {
      var k: nat :| k < |OrphanScript(c, j, sha)| && OrphanScript(c, j, sha)[k] == x;
    }
  }

  /** A task just dispatched, or one found with its claim lost or still held by the dead daemon. */
  ghost predicate Open(c: Config, s: StepEngine.Snap) {
    && c.task in s.engine.tasks && TaskOf(c, s).attempts < TaskOf(c, s).maxAttempts
    && (TaskOf(c, s).currentRun.Some? || (Waiting(TaskOf(c, s)) && NonTerminal(TaskOf(c, s))))
  }

  lemma FirstLife(r: Runner, s: StepEngine.Snap, j: nat, sha: string)
    requires j < r.c.Size() && r.script == OrphanScript(r.c, j, sha)
    requires r.c.Steps()[j].command.Some? && Limit(r.c.Steps()[j]) >= 2
    requires AtRest(r.c, s) && Open(r.c, s) && TaskOf(r.c, s).currentRun.None? && Progress(r.c, s) == 0
    ensures r.DiesIn(0, s, j, 2, DeathAt(r.c, j, sha))
  {
    hide HostList, Limit, AtRest, OrphanScript, Calm, Runner.Falls;
    FirstLifeFalls(r, 0, j, sha);
    assert PathLen(r.c, 0, sha) == 0;
    assert r.AllCome(0, SweepLen(r.c) + 2);
  }

  lemma SecondLife(r: Runner, s: StepEngine.Snap, j: nat, sha: string)
    requires j < r.c.Size() && r.script == OrphanScript(r.c, j, sha)
    requires r.c.Steps()[j].command.Some? && Limit(r.c.Steps()[j]) >= 2
    requires AtRest(r.c, s) && Open(r.c, s) && Progress(r.c, s) == j
    ensures r.DiesIn(DeathAt(r.c, j, sha) + 1, s, j, 1, |r.script|)
  {
    hide HostList, Limit, AtRest, Calm, OrphanScript;
    OrphanScriptIsCalm(r.c, j, sha);
    var at := DeathAt(r.c, j, sha) + SweepLen(r.c) + 3;
    assert r.Opens(at) && !r.Comes(at + 3);
    assert r.Dies(at, 1, at + 3);
    assert r.AllCome(DeathAt(r.c, j, sha) + 1, SweepLen(r.c) + 2);
  }

  lemma BothAlive(c: Config, before: set<Session>, sessions: set<Session>, j: nat)
    requires j < c.Size() && c.Steps()[j].sandbox && StepSession(c, j, 1) in before && StepSession(c, j, 0) in sessions
    requires before - Alive(c, before) <= sessions
    ensures {StepSession(c, j, 0), StepSession(c, j, 1)} <= TaskSessions(c, sessions) && |TaskSessions(c, sessions)| >= 2
  {
    var x, y := StepSession(c, j, 0), StepSession(c, j, 1);
    SweepIsExact(c.task, c.task, j, 0);
    SweepIsExact(c.task, c.task, j, 1);
    assert y !in Alive(c, before);
    if x == y {
      NameInjective(c.task, j, 0, c.task, j, 1);
    }
    Fewer({x, y}, TaskSessions(c, sessions));
  }

  /** Otherwise two can be alive: whenever some sandbox step runs corrections and
      a second attempt is allowed, this script leaves two sessions of the step. */
  method OrphanedCorrection(c: Config, name: string, params: Json, maxAttempts: nat, j: nat, sha: string) returns (r: Runner)
    requires ValidConfig(c) && maxAttempts >= 2
    requires j < c.Size() && c.Steps()[j].sandbox && c.Steps()[j].command.Some? && Limit(c.Steps()[j]) >= 2
    ensures fresh(r) && r.c == c && r.script == OrphanScript(c, j, sha) && Good(c, r.Snap())
    ensures {StepSession(c, j, 0), StepSession(c, j, 1)} <= TaskSessions(c, r.sessions) && |TaskSessions(c, r.sessions)| >= 2
  {
    hide Good, HostList, Limit, OrphanScript, StepSession, Well, Alive, AtRest, Calm, DeathAt, TaskSessions, Runner.DiesIn,
         Progress, Cps, ValidConfig;
    r := Dispatched(c, name, params, maxAttempts, OrphanScript(c, j, sha));
    ghost var s0 := r.Snap();
    GoodEngine(c, s0);
    OrphanScriptIsCalm(c, j, sha);
    FirstLife(r, s0, j, sha);
    var first := r.RunWorkflow();
    ghost var s1 := r.Snap();
    assert r.LeftAlive(s0, s1, j, 2);
    SecondLife(r, s1, j, sha);
    var second := r.RunWorkflow();
    BothAlive(c, s1.sessions, r.sessions, j);
  }

  // --- The DAG barrier ------------------------------------------------------

  /** `list` is what a query for the task's rows returns. */
  ghost predicate ListsRows(c: Config, rows: Rows, list: seq<Row>) {
    && (forall name | (c.task, name) in rows :: rows[(c.task, name)] in list)
    && (forall r | r in list :: exists name :: (c.task, name) in rows && rows[(c.task, name)] == r)
  }

  /** A row that reads COMPLETED has its checkpoint. */
  lemma CompletedRowIsCheckpointed(c: Config, s: StepEngine.Snap, i: nat)
    requires Good(c, s) && i < c.Size() && RowStatus(s.rows, (c.task, c.Steps()[i].name)) == Some(StepStatus.Completed)
    ensures Checkpointed(c, s, i)
  {
  }

  /** If the rows look successful where `run_workflow` returned, no step is missing. */
  lemma AllRowsDoneMeansComplete(c: Config, s: StepEngine.Snap, list: seq<Row>)
    requires Good(c, s) && RowFront(c, s) && ListsRows(c, s.rows, list) && Overlay.AllDone(list)
    ensures Progress(c, s) == c.Size()
  {
    var k := Progress(c, s);
    if k < c.Size() {
      assert list[0] in list;
      assert exists name :: (c.task, name) in s.rows;
      CompletedRowIsCheckpointed(c, s, k);
      CheckpointedIsBelowProgress(c, s, k);
    }
  }

  /** `is_task_successful` after `run_workflow` returned Ok without a crash:
      whichever poll answered, every step is checkpointed. */
  lemma BarrierIsSound(c: Config, s: StepEngine.Snap, snapshot: nat -> Option<seq<Row>>, i: nat)
    requires Good(c, s) && RowFront(c, s) && i < c.Size()
    requires forall k: nat | snapshot(k).Some? :: ListsRows(c, s.rows, snapshot(k).value)
    requires SuccessSeen(snapshot)
    ensures Checkpointed(c, s, i)
  {
    var k: nat :| DoneAt(snapshot, k);
    AllRowsDoneMeansComplete(c, s, snapshot(k).value);
    CheckpointedIsBelowProgress(c, s, i);
  }

  /** A crash between the checkpoint of one step and the first row of the next. */
  ghost predicate CrashGap(c: Config, s: StepEngine.Snap) {
    && Progress(c, s) < c.Size()
    && (c.task, c.Steps()[Progress(c, s)].name) !in s.rows
    && exists name :: (c.task, name) in s.rows
  }

  /** When the rows of a task that is not done look done: exactly in that gap,
      with every row that there is done. */
  lemma LooksDoneExactlyInGap(c: Config, s: StepEngine.Snap, list: seq<Row>)
    requires Good(c, s) && ListsRows(c, s.rows, list)
    ensures Overlay.AllDone(list) && Progress(c, s) < c.Size()
            <==> CrashGap(c, s) && forall name | (c.task, name) in s.rows :: RowDone(s.rows[(c.task, name)])
  {
    if Overlay.AllDone(list) && Progress(c, s) < c.Size() {
      if RowFront(c, s) {
        AllRowsDoneMeansComplete(c, s, list);
        assert false;
      }
    }
    if CrashGap(c, s) && forall name | (c.task, name) in s.rows :: RowDone(s.rows[(c.task, name)]) {
      var name :| (c.task, name) in s.rows;
      assert s.rows[(c.task, name)] in list;
    }
  }

  /** What `run_workflow` leaves behind when it ends with `result`. */
  ghost predicate Driven(c: Config, s: StepEngine.Snap, result: RunResult) {
    Good(c, s) && (result == Finished ==> RowFront(c, s))
  }

  /** The rows of the task, in some order. */
  method QueryRows(task: Uuid, overlay: StepOverlay) returns (list: seq<Row>)
    ensures forall c: Config | c.task == task :: ListsRows(c, overlay.rows, list)
  {
    list := [];
    var keys := overlay.rows.Keys;
    while keys != {}
      invariant keys <= overlay.rows.Keys
      invariant forall name | (task, name) in overlay.rows && (task, name) !in keys :: overlay.rows[(task, name)] in list
      invariant forall r | r in list :: exists name :: (task, name) in overlay.rows && overlay.rows[(task, name)] == r
      decreases keys
    {
      var key :| key in keys;
      if key.0 == task {
        assert key == (task, key.1);
        list := list + [overlay.rows[key]];
      }
      keys := keys - {key};
    }
  }

  /** The task has rows, all COMPLETED without a non-zero exit code. */
  ghost predicate RowsDone(c: Config, rows: Rows) {
    && (exists name :: (c.task, name) in rows)
    && forall name | (c.task, name) in rows ::
         rows[(c.task, name)].status == StepStatus.Completed && rows[(c.task, name)].exitCode in {None, Some(0)}
  }

  /** The first query that is answered sees that. */
  lemma RowsDoneAreSeen(c: Config, rows: Rows, list: seq<Row>, answers: nat -> bool, snapshot: nat -> Option<seq<Row>>)
    requires ListsRows(c, rows, list) && forall k: nat :: snapshot(k) == if answers(k) then Some(list) else None
    ensures RowsDone(c, rows) && (exists k: nat :: k < 5 && answers(k)) ==> SuccessSeen(snapshot)
  {
    if RowsDone(c, rows) && exists k: nat :: k < 5 && answers(k) {
      var k: nat :| k < 5 && answers(k);
      var name :| (c.task, name) in rows;
      assert rows[(c.task, name)] in list;
      assert DoneAt(snapshot, k);
    }
  }

  /** A node of a DAG as the driver runs it: dispatch, `run_workflow`, and, if that
      returned Ok in this process, the success test. A daemon that died or
      failed never gets to the test, so it never sees the gap. */
  method DriveNode(r: Runner, name: string, params: Json, answers: nat -> bool) returns (result: RunResult, ok: bool)
    requires ValidConfig(r.c) && Unknown(r.c, r.Snap()) && r.used <= |r.script|
    modifies r, r.engine, r.overlay
    ensures Driven(r.c, r.Snap(), result)
    ensures result == Finished && RowsDone(r.c, r.overlay.rows) && (exists k: nat :: k < 5 && answers(k)) ==> ok
    ensures ok ==> result == Finished && forall i: nat | i < r.c.Size() :: Checkpointed(r.c, r.Snap(), i)
  {
    hide RowsDone, Good, RowFront, SuccessSeen, Checkpointed;
    FreshGood(r.c, r.Snap(), name, params, r.engine.defaultMaxAttempts);
    r.engine.SpawnTask(r.c.queue, name, params, r.c.task);
    result := r.RunWorkflow();
    ok := false;
    if result == Finished {
      var list := QueryRows(r.c.task, r.overlay);
      var snapshot := (k: nat) => if answers(k) then Some(list) else None;
      ok := IsTaskSuccessful(snapshot);
      RowsDoneAreSeen(r.c, r.overlay.rows, list, answers, snapshot);
      if ok {
        forall i: nat | i < r.c.Size()
          ensures Checkpointed(r.c, r.Snap(), i)
        {
          BarrierIsSound(r.c, r.Snap(), snapshot, i);
        }
      }
    }
  }

  // --- The end of a run -----------------------------------------------------

  /** A lease that is lost once every step is checkpointed, but before the run is
      completed: completing changes nothing any more, and the task is retried
      exactly when attempts remain; otherwise it has failed for good. */
  lemma LateCompletion(c: Config, s: StepEngine.Snap, run: RunId)
    requires Good(c, s) && Progress(c, s) == c.Size() && TaskOf(c, s).currentRun == Some(run)
    ensures var lost := Fail(s.engine, run);
            && Complete(lost, run) == lost && c.task in lost.tasks
            && (NonTerminal(lost.tasks[c.task]) <==> TaskOf(c, s).attempts < TaskOf(c, s).maxAttempts)
            && (!NonTerminal(lost.tasks[c.task]) <==> lost.tasks[c.task].state == TaskState.Failed)
            && (forall i: nat | i < c.Size() :: Checkpointed(c, s.(engine := lost), i))
  {
    hide ValidConfig, PrefixOk, RowsOk, LaunchesOk, PassedOk, BudgetOk, AliveOk, SessionsOk, CompletedNames;
    OwnRunInv(c, s, run);
    HolderIsTask(c, s, run);
    FailIsQuiet(c, s, run);
    var s' := s.(engine := Fail(s.engine, run));
    OwnRunStays(c, s, s', run);
    HolderIsTask(c, s', run);
    forall i: nat | i < c.Size()
      ensures Checkpointed(c, s', i)
    {
      CheckpointedIsBelowProgress(c, s', i);
    }
  }

  // --- Termination ----------------------------------------------------------

  ghost predicate NoFailure(script: seq<Input>) {
    forall x | x in script :: !x.fail
  }

  /** How many calls a run can need: per session, per step, and per attempt. */
  function Calls(c: Config, runs: nat, attempts: nat): nat {
    9 * (SumLimits(c.Steps(), c.Size()) + Allowance(MaxLimit(c.Steps()), runs)) + 4 * c.Size()
      + Allowance(TurnCost(c), attempts + 1)
  }

  lemma CalmCallsBounded(c: Config, s: StepEngine.Snap, s': StepEngine.Snap, calls: int)
    requires Good(c, s') && CalmTurns(c, s, s', calls, 1)
    ensures calls <= Calls(c, Cap(TaskOf(c, s').maxAttempts) + s'.resumed, Cap(TaskOf(c, s').maxAttempts))
  {
    hide ValidConfig, PrefixOk, RowsOk, LaunchesOk, PassedOk, AliveOk, SessionsOk;
    var cap := Cap(TaskOf(c, s').maxAttempts);
    SumGrows(c.Steps(), Progress(c, s'), c.Size());
    TaskIsOk(c, s');
    AllowanceGrows(MaxLimit(c.Steps()), s'.starts, cap + s'.resumed);
    AllowanceGrows(TurnCost(c), TaskOf(c, s').attempts - TaskOf(c, s).attempts + 1, cap + 1);
  }

  /** With no suspension and no failing call, and every session exiting,
      `run_workflow` returns within a bounded number of calls. */
  method RunCalm(r: Runner) returns (result: RunResult)
    requires Good(r.c, r.Snap()) && r.used <= |r.script|
    requires Calm(r.script) && NoFailure(r.script) && AtRest(r.c, r.Snap()) && Waiting(TaskOf(r.c, r.Snap()))
    requires var cap := Cap(TaskOf(r.c, r.Snap()).maxAttempts); |r.script| - r.used > Calls(r.c, cap + r.resumed, cap)
    modifies r, r.engine, r.overlay
    ensures result == Finished && Good(r.c, r.Snap()) && Forward(r.c, old(r.Snap()), r.Snap())
    ensures Progress(r.c, r.Snap()) == r.c.Size() || !NonTerminal(TaskOf(r.c, r.Snap()))
    ensures r.resumed == old(r.resumed) && |r.launches| <= MostLaunches(r.c, old(r.Snap()))
  {
    hide Good, Forward, Calls, Calm;
    result := r.RunWorkflow();
    LaunchesBounded(r.c, r.Snap());
    CalmCallsBounded(r.c, old(r.Snap()), r.Snap(), r.used - old(r.used));
    assert r.used < |r.script|;
    assert r.used > 0 ==> r.script[r.used - 1] in r.script;
  }

  /** A task from its dispatch through any number of daemon lifetimes, each
      ended by a return, an error or a crash at any call. */
  method AllLifetimes(c: Config, name: string, params: Json, maxAttempts: nat, script: seq<Input>) returns (r: Runner)
    requires ValidConfig(c)
    ensures fresh(r) && r.c == c && r.script == script && r.used == |script|
    ensures Good(c, r.Snap()) && TaskOf(c, r.Snap()).maxAttempts == maxAttempts
    ensures Tame(c) || maxAttempts <= 1 ==> |TaskSessions(c, r.sessions)| <= 1
    ensures Calm(script) ==> |r.launches| <= SumLimits(c.Steps(), c.Size()) + Cap(maxAttempts) * MaxLimit(c.Steps())
  {
    hide Good, Calm, AtRest, Progress, SumLimits, MaxLimit, Tame, TaskSessions, ValidConfig;
    r := Dispatched(c, name, params, maxAttempts, script);
    GoodEngine(c, r.Snap());
    r.Lifetimes();
    GoodEngine(c, r.Snap());
    OneAliveCount(c, r.Snap());
    LaunchesBounded(c, r.Snap());
  }
}
