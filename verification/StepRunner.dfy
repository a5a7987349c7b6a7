/** `run_steps` and `run_workflow` (`janus/src/workflow/mod.rs`) as loops over
    the engine, the overlay and the tmux sessions. Everything the environment
    decides comes from a script with one input per fallible call; an input that
    fails, and the end of the script, stand for an error passed up by `?` and
    for the daemon dying at that point. Calling `RunWorkflow` again on the same
    state is the cold start. */
module StepRunner {
  import opened Wrappers
  import opened Envelope
  import opened Engine
  import opened Sessions
  import opened Overlay
  import opened StepEngine

  const NULL_SHA := "0000000000000000000000000000000000000000"

  datatype Input = Input(
    fail: bool,                        // the call fails, or the daemon dies here
    created: bool,                     // create_session
    left: bool,                        // a create_session that fails leaves its placeholder session behind
    exit: Option<int>,                 // pane exit code; None: poll error or lost lease
    quota: bool,                       // the output tail shows an exhausted quota
    sha: string,                       // git HEAD
    writesOk: bool,                    // the post-execution writes guard
    timedOut: bool,                    // await_event timed out
    note: Option<(string, Json)>,      // a checkpoint the engine writes while resolving an await
    emit: Option<Json>,                // someone emits the verdict event before the call
    wake: bool,                        // a parked run's await times out before the call
    expire: bool,                      // the claim's lease expires before the call
    flip: Option<(string, bool)>)      // a guard suspends (false) or a user stops (true) a step before the call

  /** No step is suspended or stopped, and no write is refused. */
  ghost predicate Calm(script: seq<Input>) {
    forall x | x in script :: x.flip.None? && x.writesOk
  }

  datatype Outcome = AllDone | StepFailed | StepSuspended(step: nat) | StaleHead | QuotaExhausted | Cut

  datatype StepResult = StepDone | Ended(outcome: Outcome) | Again

  datatype RunResult = Finished | Interrupted

  datatype HitlAwaitResult = AwaitSuspended | Approved | RejectedOrTimeout

  /** The verdict a resolved await carries; a missing or other one, and the null
      payload of a timeout, reject. */
  function AwaitResult(outcome: AwaitOutcome): HitlAwaitResult {
    match outcome
    case Suspended => AwaitSuspended
    case Resolved(payload) =>
      var verdict := AsStr(payload.Get(HitlVerdict));
      if verdict == Some("APPROVED") || verdict == Some("OVERRIDDEN") then Approved else RejectedOrTimeout
  }

  /** How many calls the checks of a step's exit 0 take. */
  function VetLen(c: Config, idx: nat, sha: string): nat
    requires idx < c.Size()
  {
    (if sha == NULL_SHA then 0 else 1) + (if c.Steps()[idx].guardsWrites then 1 else 0)
  }

  /** How many calls a step takes when nothing goes wrong. */
  function StepLen(c: Config, idx: nat, sha: string): nat
    requires idx < c.Size()
  {
    if c.Steps()[idx].command.Some? then VetLen(c, idx, sha) + 7 else 4
  }

  /** A payload that lets the suspended step run again. */
  ghost predicate Approves(payload: Json) {
    && payload.Obj? && HitlVerdict in payload.fields
    && (payload.fields[HitlVerdict] == Str("APPROVED") || payload.fields[HitlVerdict] == Str("OVERRIDDEN"))
  }

  /** How many sessions a correction limit allows: three when unset, at least one. */
  ghost function Tries(maxCorrections: Option<nat>): nat {
    match maxCorrections
    case None => 3
    case Some(0) => 1
    case Some(n) => n
  }

  lemma TriesAreLimit(step: StepDef)
    requires step.command.Some?
    ensures Limit(step) == Tries(step.maxCorrections)
  {
  }

  /** The session of a try runs in the task's sandbox if the step wants one, else
      on the step's own host, else on the recipe's. */
  ghost predicate RunsWhereItShould(c: Config, idx: nat, correction: nat, sessions: set<Session>)
    requires idx < c.Size()
  {
    var step, name := c.Steps()[idx], SessionName(c.task, idx, correction);
    if step.sandbox then Session(SandboxSocket(c.task), name) in sessions
    else if step.host.Some? then Session(OnHost(step.host), name) in sessions
    else Session(OnHost(c.recipe.remoteHost), name) in sessions
  }

  lemma PlaceOfStep(c: Config, idx: nat, correction: nat, sessions: set<Session>)
    requires idx < c.Size() && StepSession(c, idx, correction) in sessions
    ensures RunsWhereItShould(c, idx, correction, sessions)
  {
  }

  class Runner {
    const c: Config
    const engine: FakeEngine
    const overlay: StepOverlay
    const script: seq<Input>
    var used: nat
    var sessions: set<Session>
    ghost var launches: seq<Launch>
    ghost var passed: set<nat>
    ghost var starts: nat
    ghost var resumed: nat

    constructor (c: Config, engine: FakeEngine, overlay: StepOverlay, script: seq<Input>)
      ensures this.c == c && this.engine == engine && this.overlay == overlay && this.script == script
      ensures used == 0 && sessions == {} && launches == [] && passed == {} && starts == 0 && resumed == 0
    {
      this.c, this.engine, this.overlay, this.script := c, engine, overlay, script;
      used, sessions, launches, passed, starts, resumed := 0, {}, [], {}, 0, 0;
    }

    ghost function Snap(): Snap
      reads this, engine, overlay
    {
      StepEngine.Snap.Snap(engine.View(), overlay.rows, sessions, launches, passed, starts, resumed)
    }

    /** The call did not come back: the script ended or its last input failed. */
    ghost predicate Stopped()
      reads this
    {
      used == |script| || (0 < used <= |script| && script[used - 1].fail)
    }

    /** The call numbered `at` comes back. */
    ghost predicate Comes(at: nat) {
      at < |script| && !script[at].fail
    }

    ghost predicate AllCome(at: nat, n: nat) {
      forall k | at <= k < at + n :: Comes(k)
    }

    // --- The outside world --------------------------------------------------

    method VerdictEmitted(payload: Json)
      requires Good(c, Snap())
      modifies engine
      ensures Good(c, Snap()) && Quiet(c, old(Snap()), Snap())
    {
      hide Good, Quiet;
      GoodEngine(c, Snap());
      EmitIsQuiet(c, Snap(), payload);
      engine.EmitEvent(c.queue, c.Event(), payload);
    }

    method AwaitTimesOut()
      requires Good(c, Snap())
      modifies engine
      ensures Good(c, Snap()) && Quiet(c, old(Snap()), Snap())
    {
      hide Good, Quiet;
      GoodEngine(c, Snap());
      WakeIsQuiet(c, Snap());
      engine.WakeUp(c.task);
    }

    method LeaseExpires()
      requires Good(c, Snap())
      modifies engine
      ensures Good(c, Snap()) && Quiet(c, old(Snap()), Snap()) && TaskOf(c, Snap()).currentRun.None?
    {
      hide Inv, Alive, PrefixOk, CompletedNames, SessionsOk;
      QuietSame(c, Snap());
      if engine.tasks[c.task].currentRun.Some? {
        var run := engine.tasks[c.task].currentRun.value;
        OwnRunInv(c, Snap(), run);
        FailIsQuiet(c, Snap(), run);
        engine.FailRun(run);
      }
    }

    /** A guard may suspend, or a user stop, a step. */
    method StepHalted(i: Input)
      requires Good(c, Snap())
      modifies overlay
      ensures overlay.rows == Flipped(old(overlay.rows), i) && overlay.rows.Keys == old(overlay.rows.Keys)
      ensures Good(c, Snap()) && Quiet(c, old(Snap()), Snap())
    {
      hide Good, Quiet;
      QuietSame(c, Snap());
      if i.flip.Some? {
        var (name, stopped) := i.flip.value;
        var status := if stopped then StepStatus.Stopped else StepStatus.Suspended;
        StatusIsQuiet(c, Snap(), name, status);
        overlay.UpdateStatus((c.task, name), status);
      }
    }

    method Others(i: Input)
      requires Good(c, Snap())
      modifies engine, overlay
      ensures Good(c, Snap()) && Quiet(c, old(Snap()), Snap())
      ensures overlay.rows == Flipped(old(overlay.rows), i) && overlay.rows.Keys == old(overlay.rows.Keys)
      ensures i.expire ==> TaskOf(c, Snap()).currentRun.None?
    {
      hide Good, Quiet, Flipped;
      ghost var s0 := Snap();
      QuietSame(c, s0);
      if i.emit.Some? {
        VerdictEmitted(i.emit.value);
      }
      ghost var s1 := Snap();
      QuietSame(c, s1);
      if i.wake {
        AwaitTimesOut();
      }
      ghost var s2 := Snap();
      QuietTwice(c, s0, s1, s2);
      QuietSame(c, s2);
      if i.expire {
        LeaseExpires();
      }
      ghost var s3 := Snap();
      QuietTwice(c, s0, s2, s3);
      GoodEngine(c, s3);
      StepHalted(i);
      QuietTwice(c, s0, s3, Snap());
    }

    /** The rows after a guard suspended or a user stopped a step. */
    ghost function Flipped(rows: Rows, i: Input): Rows {
      match i.flip
      case None => rows
      case Some((name, stopped)) => SetStatus(rows, (c.task, name), if stopped then StepStatus.Stopped else StepStatus.Suspended)
    }

    /** Waits for the next input; what others do in the meantime happens first. */
    method Tick() returns (x: Option<Input>)
      requires Good(c, Snap()) && used <= |script|
      modifies this`used, engine, overlay
      ensures Good(c, Snap()) && Quiet(c, old(Snap()), Snap())
      ensures old(used) <= used <= |script| && used <= old(used) + 1
      ensures old(used) < |script| ==> used == old(used) + 1
      ensures x.Some? ==> used == old(used) + 1 && x.value == script[used - 1] && !x.value.fail
      ensures x.None? ==> Stopped()
      ensures x.Some? <==> Comes(old(used))
      ensures x.Some? && x.value.expire ==> TaskOf(c, Snap()).currentRun.None?
      ensures overlay.rows == if old(used) < |script| then Flipped(old(overlay.rows), script[old(used)]) else old(overlay.rows)
      ensures Calm(script) ==> overlay.rows == old(overlay.rows)
      ensures overlay.rows.Keys == old(overlay.rows.Keys)
    {
      hide Good, Quiet;
      QuietSame(c, Snap());
      if used == |script| {
        return None;
      }
      var i := script[used];
      used := used + 1;
      Others(i);
      return if i.fail then None else Some(i);
    }

    // --- Overlay writes -----------------------------------------------------

    function Key(idx: nat): RowKey
      requires idx < c.Size()
    {
      (c.task, c.Steps()[idx].name)
    }

    ghost predicate RowReads(idx: nat, status: StepStatus, exitCode: Option<int>)
      requires idx < c.Size()
      reads overlay
    {
      Key(idx) in overlay.rows && overlay.rows[Key(idx)].status == status && overlay.rows[Key(idx)].exitCode == exitCode
    }

    method StartRow(idx: nat, session: string) returns (ok: bool)
      requires Good(c, Snap()) && used <= |script| && idx < c.Size()
      modifies this`used, engine, overlay
      ensures Good(c, Snap()) && Quiet(c, old(Snap()), Snap())
      ensures old(used) <= used <= |script| && used <= old(used) + 1
      ensures ok ==> Key(idx) in overlay.rows
      ensures !ok ==> Stopped()
      ensures ok <==> Comes(old(used))
      ensures ok ==> used == old(used) + 1
      ensures ok && Calm(script) ==> overlay.rows == UpsertStart(old(overlay.rows), Key(idx), session)
    {
      hide Good, Quiet;
      var x := Tick();
      if x.None? {
        return false;
      }
      ghost var s1 := Snap();
      StartRowIsQuiet(c, s1, c.Steps()[idx].name, session);
      overlay.UpsertStepStart(Key(idx), session);
      QuietTwice(c, old(Snap()), s1, Snap());
      return true;
    }

    method MarkRunning(idx: nat) returns (ok: bool)
      requires Good(c, Snap()) && used <= |script| && idx < c.Size()
      modifies this`used, engine, overlay
      ensures Good(c, Snap()) && Quiet(c, old(Snap()), Snap())
      ensures old(used) <= used <= |script| && used <= old(used) + 1
      ensures !ok ==> Stopped()
      ensures ok <==> Comes(old(used))
      ensures ok ==> used == old(used) + 1
      ensures ok && Calm(script) ==> overlay.rows == SetStatus(old(overlay.rows), Key(idx), StepStatus.Running)
    {
      hide Good, Quiet;
      var x := Tick();
      if x.None? {
        return false;
      }
      ghost var s1 := Snap();
      StatusIsQuiet(c, s1, c.Steps()[idx].name, StepStatus.Running);
      overlay.UpdateStatus(Key(idx), StepStatus.Running);
      QuietTwice(c, old(Snap()), s1, Snap());
      return true;
    }

    /** The row of a try: STARTING, then RUNNING. */
    method OpenRow(idx: nat, session: string) returns (ok: bool)
      requires Good(c, Snap()) && used <= |script| && idx < c.Size()
      modifies this`used, engine, overlay
      ensures Good(c, Snap()) && Quiet(c, old(Snap()), Snap())
      ensures old(used) <= used <= |script| && used <= old(used) + 2
      ensures ok <==> Comes(old(used)) && Comes(old(used) + 1)
      ensures ok ==> used == old(used) + 2 && Key(idx) in overlay.rows
      ensures !ok ==> Stopped()
      ensures ok && Calm(script) ==> RowStatus(overlay.rows, Key(idx)) == Some(StepStatus.Running)
    {
      hide Good, Quiet, Calm, Stopped;
      ok := StartRow(idx, session);
      if ok {
        ghost var s1 := Snap();
        ok := MarkRunning(idx);
        QuietTwice(c, old(Snap()), s1, Snap());
        QuietFacts(c, s1, Snap());
      }
    }

    /** A row is finalized as COMPLETED only after its checkpoint. */
    method FinalizeRow(idx: nat, status: StepStatus, exitCode: Option<int>) returns (ok: bool)
      requires Good(c, Snap()) && used <= |script| && idx < c.Size()
      requires status == StepStatus.Completed ==> c.Steps()[idx].name in CompletedNames(Cps(c, Snap()), c.task)
      modifies this`used, engine, overlay
      ensures Good(c, Snap()) && Quiet(c, old(Snap()), Snap())
      ensures old(used) <= used <= |script| && used <= old(used) + 1
      ensures !ok ==> Stopped()
      ensures ok <==> Comes(old(used))
      ensures ok ==> used == old(used) + 1
      ensures ok && Key(idx) in old(overlay.rows) ==> RowReads(idx, status, exitCode)
    {
      hide Flipped, Good, Quiet;
      var x := Tick();
      if x.None? {
        return false;
      }
      ghost var s1 := Snap();
      QuietFacts(c, old(Snap()), s1);
      FinalizeIsQuiet(c, s1, c.Steps()[idx].name, status, exitCode);
      overlay.FinalizeStep(Key(idx), status, exitCode);
      QuietTwice(c, old(Snap()), s1, Snap());
      return true;
    }

    /** The status that call `at` reads in a step's row. */
    ghost function Found(rows: Rows, at: nat, idx: nat): Option<StepStatus>
      requires idx < c.Size()
    {
      if at < |script| then RowStatus(Flipped(rows, script[at]), Key(idx)) else None
    }

    method ReadStatus(idx: nat) returns (ok: bool, status: Option<StepStatus>)
      requires Good(c, Snap()) && used <= |script| && idx < c.Size()
      modifies this`used, engine, overlay
      ensures Good(c, Snap()) && Quiet(c, old(Snap()), Snap())
      ensures old(used) <= used <= |script| && used <= old(used) + 1
      ensures !ok ==> Stopped()
      ensures ok <==> Comes(old(used))
      ensures ok ==> used == old(used) + 1 && status == RowStatus(overlay.rows, Key(idx)) == Found(old(overlay.rows), old(used), idx)
      ensures Calm(script) ==> overlay.rows == old(overlay.rows)
    {
      hide Good, Quiet;
      var x := Tick();
      if x.None? {
        return false, None;
      }
      status := overlay.StepStatus(Key(idx));
      return true, status;
    }

    // --- Sessions -----------------------------------------------------------

    method KillSession(x: Session)
      requires Good(c, Snap())
      modifies this`sessions
      ensures Good(c, Snap()) && sessions == old(sessions) - {x}
      ensures Cleared(c, old(Snap()), {x}) ==> Cleared(c, Snap(), {})
      ensures old(Alive(c, sessions)) == {} || old(Alive(c, sessions - {x})) == {} ==> Alive(c, sessions) == {}
    {
      hide Good, Cleared, Alive;
      KillKeepsGood(c, Snap(), x);
      ghost var s0 := Snap();
      sessions := sessions - {x};
      assert Snap() == s0.(sessions := s0.sessions - {x});
    }

    /** Starts a session for the step at the front; the log also keeps a start
        that failed, which may leave its placeholder session behind. */
    method CreateSession(idx: nat, correction: nat) returns (ok: bool, created: bool)
      requires Good(c, Snap()) && used <= |script| && idx == Progress(c, Snap()) < c.Size()
      requires InRun(c, Snap(), correction) && correction < Limit(c.Steps()[idx])
      requires Alive(c, sessions) == {} && Cleared(c, Snap(), {})
      modifies this`used, this`sessions, this`launches, engine, overlay
      ensures Good(c, Snap()) && Onward(c, old(Snap()), Snap()) && Progress(c, Snap()) == idx
      ensures old(used) <= used <= |script| && used <= old(used) + 1
      ensures ok <==> Comes(old(used))
      ensures ok ==> used == old(used) + 1 && created == script[old(used)].created
      ensures ok ==> sessions == old(sessions) + if created || script[old(used)].left then {StepSession(c, idx, correction)} else {}
      ensures !ok ==> Stopped() && sessions == old(sessions) && launches == old(launches)
      ensures ok ==> InRun(c, Snap(), correction + 1) && |launches| == |old(launches)| + 1
      ensures ok ==> Alive(c, sessions - {StepSession(c, idx, correction)}) == {}
      ensures ok ==> Cleared(c, Snap(), {StepSession(c, idx, correction)})
      ensures Calm(script) ==> overlay.rows == old(overlay.rows)
    {
      hide Flipped, Good, Quiet, Onward, InRun, Alive, Cleared, StepSession, Calm, Cps, Progress, Inv, HeldOrLost,
           TasksMove, LastDone, Limit;
      ghost var x := StepSession(c, idx, correction);
      var i := Tick();
      QuietOnward(c, old(Snap()), Snap());
      QuietFacts(c, old(Snap()), Snap());
      ClearedStays(c, old(Snap()), Snap(), {});
      if i.None? {
        return false, false;
      }
      InRunQuiet(c, old(Snap()), Snap(), correction);
      ghost var s1 := Snap();
      LogLaunch(correction);
      OnwardTwice(c, old(Snap()), s1, Snap());
      ghost var s2 := Snap();
      ClearedStays(c, s1, s2, {});
      StartKeepsGood(c, s2, correction);
      if i.value.created || i.value.left {
        sessions := sessions + {StepSession(c, idx, correction)};
        assert Snap() == s2.(sessions := s2.sessions + {x});
        SessionsOnward(c, old(Snap()), s2, sessions);
      } else {
        NoneElse(c, s2, x);
      }
      return true, i.value.created;
    }

    ghost method LogLaunch(correction: nat)
      requires Good(c, Snap()) && Progress(c, Snap()) < c.Size()
      requires InRun(c, Snap(), correction) && correction < Limit(c.Steps()[Progress(c, Snap())])
      modifies this`launches
      ensures Good(c, Snap()) && Onward(c, old(Snap()), Snap()) && InRun(c, Snap(), correction + 1)
      ensures TasksMove(c, old(Snap()), Snap())
      ensures Progress(c, Snap()) == old(Progress(c, Snap())) && |launches| == |old(launches)| + 1
    {
      LaunchKeepsGood(c, Snap(), correction, correction);
      launches := launches + [Launch(Progress(c, Snap()), correction, Progress(c, Snap()))];
    }

    // --- One step -----------------------------------------------------------

    /** The step at the front reaches its checkpoint. */
    method WriteCheckpoint(idx: nat, ghost t: nat) returns (ok: bool)
      requires Good(c, Snap()) && used <= |script| && idx == Progress(c, Snap()) < c.Size()
      requires InRun(c, Snap(), t) && t <= Limit(c.Steps()[idx])
      requires (c.Steps()[idx].command.Some? ==> idx in passed) && Cleared(c, Snap(), {})
      modifies this`used, engine, overlay
      ensures Good(c, Snap()) && Onward(c, old(Snap()), Snap())
      ensures old(used) <= used <= |script| && used <= old(used) + 1
      ensures overlay.rows.Keys == old(overlay.rows.Keys)
      ensures Cps(c, Snap()) == old(Cps(c, Snap())) + if ok then [DoneCheckpoint(c, idx)] else []
      ensures ok ==> ReadsDone(c, idx, Cps(c, Snap())[|Cps(c, Snap())| - 1])
      ensures sessions == old(sessions) && launches == old(launches)
      ensures !ok ==> Stopped() && Progress(c, Snap()) == idx && InRun(c, Snap(), t)
      ensures (ok <==> Comes(old(used))) && (ok ==> used == old(used) + 1)
      ensures ok ==> Progress(c, Snap()) == idx + 1 && InRun(c, Snap(), 0) && LastDone(Cps(c, Snap()), c.task)
      ensures ok ==> c.Steps()[idx].name in CompletedNames(Cps(c, Snap()), c.task)
    {
      hide Flipped, ReadsDone, HeldOrLost, TasksMove, IsDone, TargetName, LastDone, Limit, DoneCheckpoint, Inv, Good,
           Quiet, Onward, InRun, Cleared;
      var x := Tick();
      QuietOnward(c, old(Snap()), Snap());
      QuietFacts(c, old(Snap()), Snap());
      InRunQuiet(c, old(Snap()), Snap(), t);
      ClearedStays(c, old(Snap()), Snap(), {});
      if x.None? {
        return false;
      }
      ghost var s1 := Snap();
      GoodEngine(c, s1);
      StepCheckpointed(c, s1, t);
      DoneReadsBack(c, idx);
      var cp := DoneCheckpoint(c, idx);
      engine.SetCheckpoint(c.task, cp.0, cp.1);
      OnwardTwice(c, old(Snap()), s1, Snap());
      return true;
    }

    /** Checkpoint, then the COMPLETED row. */
    method FinishStep(idx: nat, ghost t: nat) returns (r: StepResult)
      requires Good(c, Snap()) && used <= |script| && idx == Progress(c, Snap()) < c.Size()
      requires InRun(c, Snap(), t) && t <= Limit(c.Steps()[idx])
      requires (c.Steps()[idx].command.Some? ==> idx in passed) && Cleared(c, Snap(), {})
      modifies this`used, engine, overlay
      ensures Good(c, Snap()) && Onward(c, old(Snap()), Snap())
      ensures old(used) <= used <= |script| && used <= old(used) + 2
      ensures r == StepDone ==> Cps(c, Snap()) == old(Cps(c, Snap())) + [DoneCheckpoint(c, idx)]
      ensures r == StepDone && Key(idx) in old(overlay.rows) ==> RowReads(idx, StepStatus.Completed, Some(0))
      ensures sessions == old(sessions) && launches == old(launches)
      ensures r == StepDone || r == Ended(Cut)
      ensures r == StepDone ==> Progress(c, Snap()) == idx + 1 && InRun(c, Snap(), 0)
      ensures r == Ended(Cut) ==> Stopped()
      ensures Comes(old(used)) && Comes(old(used) + 1) ==> r == StepDone && used == old(used) + 2
    {
      hide Good, Quiet, Onward, InRun, Cleared, Inv, TasksMove, HeldOrLost, Cps, Progress, DoneCheckpoint, LastDone, Limit;
      var ok := WriteCheckpoint(idx, t);
      if !ok {
        return Ended(Cut);
      }
      ghost var s1 := Snap();
      ok := FinalizeRow(idx, StepStatus.Completed, Some(0));
      QuietOnward(c, s1, Snap());
      QuietFacts(c, s1, Snap());
      InRunQuiet(c, s1, Snap(), 0);
      OnwardTwice(c, old(Snap()), s1, Snap());
      return if ok then StepDone else Ended(Cut);
    }

    /** The step ends here without a checkpoint; its row gets its last status. */
    method StopStep(idx: nat, status: StepStatus, exitCode: Option<int>, outcome: Outcome) returns (r: StepResult)
      requires Good(c, Snap()) && used <= |script| && idx < c.Size() && status != StepStatus.Completed
      modifies this`used, engine, overlay
      ensures Good(c, Snap()) && Quiet(c, old(Snap()), Snap())
      ensures old(used) <= used <= |script| && used <= old(used) + 1
      ensures r == Ended(outcome) || (r == Ended(Cut) && Stopped())
      ensures r != Ended(Cut) && Key(idx) in old(overlay.rows) ==> RowReads(idx, status, exitCode)
    {
      hide Good, Quiet;
      var ok := FinalizeRow(idx, status, exitCode);
      return Ended(if ok then outcome else Cut);
    }

    /** The row, then a fresh session; a result means the step is over already. */
    method OpenSession(idx: nat, correction: nat) returns (r: Option<StepResult>)
      requires Good(c, Snap()) && used <= |script| && idx == Progress(c, Snap()) < c.Size()
      requires InRun(c, Snap(), correction) && correction < Limit(c.Steps()[idx])
      requires Alive(c, sessions) == {} && Cleared(c, Snap(), {StepSession(c, idx, correction)})
      modifies this`used, this`sessions, this`launches, engine, overlay
      ensures Good(c, Snap()) && Onward(c, old(Snap()), Snap()) && Progress(c, Snap()) == idx
      ensures old(used) <= used <= |script| && used <= old(used) + 4
      ensures |launches| <= |old(launches)| + 1
      ensures Alive(c, sessions - {StepSession(c, idx, correction)}) == {}
      ensures r.None? ==> Cleared(c, Snap(), {StepSession(c, idx, correction)})
      ensures r.None? ==> used == old(used) + 3 && |launches| == |old(launches)| + 1
      ensures r.None? ==> sessions == old(sessions) + {StepSession(c, idx, correction)}
      ensures r.None? <==> Opens(old(used))
      ensures r.None? ==> RunsWhereItShould(c, idx, correction, sessions)
      ensures r.None? ==> InRun(c, Snap(), correction + 1) && Key(idx) in overlay.rows
      ensures r.None? && Calm(script) ==> RowStatus(overlay.rows, Key(idx)) == Some(StepStatus.Running)
      ensures r.Some? ==> r.value == Ended(StepFailed) || r.value == Ended(Cut)
      ensures r == Some(Ended(StepFailed)) ==> RowReads(idx, StepStatus.Failed, Some(-1))
      ensures r == Some(Ended(StepFailed)) ==>
                && Comes(old(used) + 2) && !script[old(used) + 2].created
                && (StepSession(c, idx, correction) in sessions <==> script[old(used) + 2].left)
      ensures if r == Some(Ended(Cut)) then Stopped() else Key(idx) in overlay.rows
    {
      hide RunsWhereItShould, Good, Quiet, Onward, InRun, Alive, Inv, Cps, Progress, TasksMove, HeldOrLost, UsesHost,
           Cleared, StepSession, LastDone, Limit, Calm, Stopped;
      var x := StepSession(c, idx, correction);
      NoSessionToKill(c, sessions, x);
      var ok := OpenRow(idx, x.name);
      QuietFacts(c, old(Snap()), Snap());
      QuietOnward(c, old(Snap()), Snap());
      if !ok {
        return Some(Ended(Cut));
      }
      InRunQuiet(c, old(Snap()), Snap(), correction);
      ClearedStays(c, old(Snap()), Snap(), {x});
      ghost var s2 := Snap();
      KillSession(x);
      SessionsOnward(c, old(Snap()), s2, sessions);
      ghost var s3 := Snap();
      assert s3 == s2.(sessions := sessions);
      NoSessionToKill(c, sessions, x);
      var created;
      ok, created := CreateSession(idx, correction);
      OnwardTwice(c, old(Snap()), s3, Snap());
      OnwardFacts(c, s3, Snap());
      if !ok {
        return Some(Ended(Cut));
      }
      if !created {
        ghost var s4 := Snap();
        var stop := StopStep(idx, StepStatus.Failed, Some(-1), StepFailed);
        QuietOnward(c, s4, Snap());
        QuietFacts(c, s4, Snap());
        OnwardTwice(c, old(Snap()), s4, Snap());
        return Some(stop);
      }
      PlaceOfStep(c, idx, correction, sessions);
      return None;
    }

    /** The next three calls open a session. */
    ghost predicate Opens(at: nat) {
      Comes(at) && Comes(at + 1) && Comes(at + 2) && script[at + 2].created
    }

    /** The next `n` calls come back, and tell of nothing wrong. */
    ghost predicate Smooth(at: nat, n: nat, sha: string) {
      forall k | at <= k < at + n ::
        Comes(k) && script[k].created && script[k].exit == Some(0) && script[k].sha == sha && script[k].writesOk
    }

    /** The fate of a step, the status found in its row, the exit of its pane and
        the row it is left with go together. */
    ghost predicate Judged(idx: nat, attempt: nat, i: Input, sha: string, found: Option<StepStatus>, r: StepResult)
      requires idx < c.Size()
      reads overlay
    {
      var halted := found == Some(StepStatus.Suspended) || found == Some(StepStatus.Stopped);
      var failed := i.exit.Some? && i.exit != Some(0);
      match r
      case StepDone => i.exit == Some(0) && !halted && RowReads(idx, StepStatus.Completed, Some(0))
      case Again => failed && !halted && !i.quota && attempt < Most(idx)
      case Ended(StepFailed) =>
        || (i.exit.None? && found != Some(StepStatus.Stopped) && RowReads(idx, StepStatus.Failed, Some(-1)))
        || (failed && !halted && !i.quota && attempt >= Most(idx) && RowReads(idx, StepStatus.Failed, i.exit))
      case Ended(QuotaExhausted) => failed && !halted && i.quota
      case Ended(StaleHead) => i.exit == Some(0) && !halted && sha != NULL_SHA && RowReads(idx, StepStatus.Suspended, Some(0))
      case Ended(StepSuspended(_)) =>
        || (i.exit.None? && found == RowStatus(overlay.rows, Key(idx)) == Some(StepStatus.Stopped))
        || (i.exit.Some? && halted && RowReads(idx, found.value, None))
        || (i.exit == Some(0) && !halted && RowReads(idx, StepStatus.Suspended, Some(0)))
      case Ended(_) => true
    }

    /** A step is done only after HEAD, read from call `at` on, was the pinned
        hash (unless there is none), and its writes were accepted; it is stale
        or suspended only when they were not. */
    predicate Vetted(idx: nat, sha: string, at: nat, r: StepResult)
      requires idx < c.Size()
    {
      var guard := if sha == NULL_SHA then at else at + 1;
      match r
      case StepDone =>
        && (sha != NULL_SHA ==> at < |script| && script[at].sha == sha)
        && (c.Steps()[idx].guardsWrites ==> guard < |script| && script[guard].writesOk)
      case Ended(StaleHead) => sha != NULL_SHA && at < |script| && script[at].sha != sha
      case Ended(StepSuspended(_)) => c.Steps()[idx].guardsWrites && guard < |script| && !script[guard].writesOk
      case _ => true
    }

    /** The correction limit of a step. */
    function Most(idx: nat): nat
      requires idx < c.Size()
    {
      if c.Steps()[idx].maxCorrections.Some? then c.Steps()[idx].maxCorrections.value else 3
    }

    ghost method LogPass(idx: nat, t: nat, i: Input)
      requires Good(c, Snap()) && InRun(c, Snap(), t) && i in script && i.exit == Some(0)
      modifies this`passed
      ensures Good(c, Snap()) && InRun(c, Snap(), t) && Onward(c, old(Snap()), Snap())
      ensures Progress(c, Snap()) == old(Progress(c, Snap())) && passed == old(passed) + {idx}
    {
      PassKeepsGood(c, Snap(), idx, t);
      passed := passed + {idx};
    }

    /** What the exit of the pane means for the step. */
    method Judge(idx: nat, attempt: nat, i: Input, sha: string) returns (r: StepResult)
      requires Good(c, Snap()) && used <= |script| && idx == Progress(c, Snap()) < c.Size()
      requires InRun(c, Snap(), attempt) && attempt <= Limit(c.Steps()[idx])
      requires i in script && Cleared(c, Snap(), {}) && Key(idx) in overlay.rows
      requires Calm(script) ==> RowStatus(overlay.rows, Key(idx)) == Some(StepStatus.Running)
      modifies this`used, this`passed, engine, overlay
      ensures Good(c, Snap()) && Onward(c, old(Snap()), Snap()) && Key(idx) in overlay.rows
      ensures old(used) <= used <= |script| && used <= old(used) + 5
      ensures sessions == old(sessions) && launches == old(launches)
      ensures r == StepDone ==> Progress(c, Snap()) == idx + 1 && InRun(c, Snap(), 0)
      ensures r == Again ==> Progress(c, Snap()) == idx && InRun(c, Snap(), attempt)
      ensures r == Again ==> attempt < Most(idx)
      ensures r.Ended? && r.outcome != Cut ==> Progress(c, Snap()) == idx && r.outcome != AllDone
      ensures r.Ended? && r.outcome.StepSuspended? ==> r.outcome.step == idx && !Calm(script)
      ensures r == Ended(Cut) ==> Stopped()
      ensures Calm(script) && i.exit == Some(0) && Smooth(old(used), VetLen(c, idx, sha) + 3, sha) ==>
                r == StepDone && used == old(used) + VetLen(c, idx, sha) + 3
      ensures Calm(script) && i.exit.Some? && i.exit != Some(0) && !i.quota && attempt < Most(idx) && Comes(old(used)) ==>
                r == Again && used == old(used) + 1
      ensures r != Ended(Cut) ==> Judged(idx, attempt, i, sha, Found(old(overlay.rows), old(used), idx), r)
      ensures i.exit == Some(0) && (r == StepDone || r == Ended(StaleHead)) ==> Vetted(idx, sha, old(used) + 1, r)
    {
      hide Found, Good, Quiet, Onward, InRun, Alive, Inv, CompletedNames, TasksMove, UsesHost, Judged, Vetted, Calm, Cleared;
      var ok, status := ReadStatus(idx);
      QuietOnward(c, old(Snap()), Snap());
      QuietFacts(c, old(Snap()), Snap());
      InRunQuiet(c, old(Snap()), Snap(), attempt);
      ClearedStays(c, old(Snap()), Snap(), {});
      if !ok {
        return Ended(Cut);
      }
      ghost var s1 := Snap();
      if i.exit == Some(0) && status != Some(StepStatus.Suspended) && status != Some(StepStatus.Stopped) {
        r := Pass(idx, attempt, i, sha, status);
        OnwardTwice(c, old(Snap()), s1, Snap());
        return;
      }
      r := Blame(idx, attempt, i, sha, status);
      InRunQuiet(c, s1, Snap(), attempt);
      QuietOnward(c, s1, Snap());
      QuietFacts(c, s1, Snap());
      OnwardTwice(c, old(Snap()), s1, Snap());
    }

    /** Every exit but an undisturbed 0: a poll error, a suspended or stopped row,
        quota, another correction, or failure. */
    method Blame(idx: nat, attempt: nat, i: Input, ghost sha: string, status: Option<StepStatus>) returns (r: StepResult)
      requires Good(c, Snap()) && used <= |script| && idx < c.Size() && Key(idx) in overlay.rows
      requires status == RowStatus(overlay.rows, Key(idx)) && (Calm(script) ==> status == Some(StepStatus.Running))
      requires i.exit == Some(0) ==> status in {Some(StepStatus.Suspended), Some(StepStatus.Stopped)}
      modifies this`used, engine, overlay
      ensures Good(c, Snap()) && Quiet(c, old(Snap()), Snap())
      ensures old(used) <= used <= |script| && used <= old(used) + 1
      ensures r == Ended(Cut) ==> Stopped()
      ensures r == Again || r.Ended?
      ensures r.Ended? ==> r.outcome in {Cut, QuotaExhausted, StepFailed, StepSuspended(idx)}
      ensures r == Ended(StepSuspended(idx)) ==> !Calm(script)
      ensures i.exit.Some? && status == Some(StepStatus.Running) && !i.quota && attempt < Most(idx) ==>
                r == Again && used == old(used)
      ensures Judged(idx, attempt, i, sha, status, r) && (r == Again ==> attempt < Most(idx))
    {
      hide Good, Quiet, Calm;
      QuietSame(c, Snap());
      if i.exit.None? {
        if status == Some(StepStatus.Stopped) {
          return Ended(StepSuspended(idx));
        }
        r := StopStep(idx, StepStatus.Failed, Some(-1), StepFailed);
      } else if status == Some(StepStatus.Suspended) || status == Some(StepStatus.Stopped) {
        r := StopStep(idx, status.value, None, StepSuspended(idx));
      } else if i.quota {
        return Ended(QuotaExhausted);
      } else if attempt < Most(idx) {
        return Again;
      } else {
        r := StopStep(idx, StepStatus.Failed, i.exit, StepFailed);
      }
    }

    /** Exit code 0 is logged, then checked further. */
    method Pass(idx: nat, attempt: nat, i: Input, sha: string, ghost status: Option<StepStatus>) returns (r: StepResult)
      requires Good(c, Snap()) && used <= |script| && idx == Progress(c, Snap()) < c.Size()
      requires InRun(c, Snap(), attempt) && attempt <= Limit(c.Steps()[idx])
      requires i in script && i.exit == Some(0) && Key(idx) in overlay.rows && Cleared(c, Snap(), {})
      requires status != Some(StepStatus.Suspended) && status != Some(StepStatus.Stopped)
      modifies this`used, this`passed, engine, overlay
      ensures Good(c, Snap()) && Onward(c, old(Snap()), Snap()) && Key(idx) in overlay.rows
      ensures old(used) <= used <= |script| && used <= old(used) + 4
      ensures r == StepDone ==> Progress(c, Snap()) == idx + 1 && InRun(c, Snap(), 0)
      ensures r == StepDone || (r.Ended? && r.outcome in {Cut, StaleHead, StepSuspended(idx)})
      ensures r.Ended? && r.outcome != Cut ==> Progress(c, Snap()) == idx
      ensures r == Ended(StepSuspended(idx)) ==> !Calm(script)
      ensures r == Ended(Cut) ==> Stopped()
      ensures Smooth(old(used), VetLen(c, idx, sha) + 2, sha) ==> r == StepDone && used == old(used) + VetLen(c, idx, sha) + 2
      ensures Judged(idx, attempt, i, sha, status, r) && Vetted(idx, sha, old(used), r)
    {
      hide Good, Quiet, Onward, InRun, Cleared, Smooth;
      LogPass(idx, attempt, i);
      ghost var s1 := Snap();
      OnwardFacts(c, old(Snap()), s1);
      ClearedStays(c, old(Snap()), s1, {});
      r := Accept(idx, attempt, sha);
      OnwardTwice(c, old(Snap()), s1, Snap());
      OnwardFacts(c, s1, Snap());
      KeyKept(s1, Snap(), Key(idx));
    }

    /** HEAD must still be the pinned hash; a result means the step is over. */
    method CheckHead(idx: nat, sha: string) returns (r: Option<StepResult>)
      requires Good(c, Snap()) && used <= |script| && idx < c.Size() && Key(idx) in overlay.rows
      modifies this`used, engine, overlay
      ensures Good(c, Snap()) && Quiet(c, old(Snap()), Snap())
      ensures old(used) <= used <= |script| && used <= old(used) + 2
      ensures r.None? ==> used == old(used) + (if sha == NULL_SHA then 0 else 1)
      ensures r.None? && sha != NULL_SHA ==> script[old(used)].sha == sha
      ensures sha == NULL_SHA || (Comes(old(used)) && script[old(used)].sha == sha) ==> r.None?
      ensures r.Some? ==> r.value == Ended(StaleHead) || (r.value == Ended(Cut) && Stopped())
      ensures r == Some(Ended(StaleHead)) ==>
                && sha != NULL_SHA && old(used) < |script| && script[old(used)].sha != sha
                && RowReads(idx, StepStatus.Suspended, Some(0))
    {
      hide Flipped, Good, Quiet;
      QuietSame(c, Snap());
      if sha == NULL_SHA {
        return None;
      }
      var head := Tick();
      QuietFacts(c, old(Snap()), Snap());
      KeyKept(old(Snap()), Snap(), Key(idx));
      if head.None? {
        return Some(Ended(Cut));
      }
      if head.value.sha == sha {
        return None;
      }
      ghost var s1 := Snap();
      var stop := StopStep(idx, StepStatus.Suspended, Some(0), StaleHead);
      QuietTwice(c, old(Snap()), s1, Snap());
      return Some(stop);
    }

    /** The writes must be the declared ones; a result means the step is over. */
    method CheckWrites(idx: nat) returns (r: Option<StepResult>)
      requires Good(c, Snap()) && used <= |script| && idx < c.Size() && Key(idx) in overlay.rows
      modifies this`used, engine, overlay
      ensures Good(c, Snap()) && Quiet(c, old(Snap()), Snap())
      ensures old(used) <= used <= |script| && used <= old(used) + if r.None? then 1 else 2
      ensures r.None? && c.Steps()[idx].guardsWrites ==> old(used) < |script| && script[old(used)].writesOk
      ensures r.None? ==> used == old(used) + if c.Steps()[idx].guardsWrites then 1 else 0
      ensures !c.Steps()[idx].guardsWrites || (Comes(old(used)) && script[old(used)].writesOk) ==> r.None?
      ensures r.Some? ==> r.value == Ended(StepSuspended(idx)) || (r.value == Ended(Cut) && Stopped())
      ensures r == Some(Ended(StepSuspended(idx))) ==>
                && c.Steps()[idx].guardsWrites && old(used) < |script| && !script[old(used)].writesOk
                && RowReads(idx, StepStatus.Suspended, Some(0)) && !Calm(script)
    {
      hide Flipped, Good, Quiet;
      QuietSame(c, Snap());
      if !c.Steps()[idx].guardsWrites {
        return None;
      }
      var guard := Tick();
      QuietFacts(c, old(Snap()), Snap());
      KeyKept(old(Snap()), Snap(), Key(idx));
      if guard.None? {
        return Some(Ended(Cut));
      }
      if guard.value.writesOk {
        return None;
      }
      assert guard.value in script;
      ghost var s1 := Snap();
      var stop := StopStep(idx, StepStatus.Suspended, Some(0), StepSuspended(idx));
      QuietTwice(c, old(Snap()), s1, Snap());
      return Some(stop);
    }

    /** HEAD, then the writes. */
    method Vet(idx: nat, sha: string) returns (r: Option<StepResult>)
      requires Good(c, Snap()) && used <= |script| && idx < c.Size() && Key(idx) in overlay.rows
      modifies this`used, engine, overlay
      ensures Good(c, Snap()) && Quiet(c, old(Snap()), Snap()) && Key(idx) in overlay.rows
      ensures old(used) <= used <= |script| && used <= old(used) + 3
      ensures r.None? ==> used == old(used) + VetLen(c, idx, sha)
      ensures Vetted(idx, sha, old(used), if r.None? then StepDone else r.value)
      ensures Smooth(old(used), VetLen(c, idx, sha), sha) ==> r.None?
      ensures r.Some? ==> r.value.Ended? && r.value.outcome in {Cut, StaleHead, StepSuspended(idx)}
      ensures r == Some(Ended(StepSuspended(idx))) ==> !Calm(script)
      ensures r.Some? ==> if r.value == Ended(Cut) then Stopped() else RowReads(idx, StepStatus.Suspended, Some(0))
    {
      hide Good, Quiet, Cps, Progress, TasksMove, HeldOrLost, Still, Inv, Calm, RowReads, Stopped;
      r := CheckHead(idx, sha);
      QuietFacts(c, old(Snap()), Snap());
      KeyKept(old(Snap()), Snap(), Key(idx));
      if r.None? {
        ghost var s1 := Snap();
        r := CheckWrites(idx);
        QuietTwice(c, old(Snap()), s1, Snap());
        QuietFacts(c, s1, Snap());
        KeyKept(s1, Snap(), Key(idx));
      }
    }

    /** Exit code 0: the HEAD check, the writes guard, then the checkpoint. */
    method Accept(idx: nat, attempt: nat, sha: string) returns (r: StepResult)
      requires Good(c, Snap()) && used <= |script| && idx == Progress(c, Snap()) < c.Size()
      requires InRun(c, Snap(), attempt) && attempt <= Limit(c.Steps()[idx])
      requires idx in passed && Key(idx) in overlay.rows && Cleared(c, Snap(), {})
      modifies this`used, engine, overlay
      ensures Good(c, Snap()) && Onward(c, old(Snap()), Snap())
      ensures old(used) <= used <= |script| && used <= old(used) + 4
      ensures Vetted(idx, sha, old(used), r)
      ensures r == StepDone ==> RowReads(idx, StepStatus.Completed, Some(0))
      ensures r.Ended? && r.outcome != Cut ==> RowReads(idx, StepStatus.Suspended, Some(0))
      ensures sessions == old(sessions) && launches == old(launches)
      ensures r == StepDone ==> Progress(c, Snap()) == idx + 1 && InRun(c, Snap(), 0)
      ensures r == StepDone || (r.Ended? && r.outcome in {Cut, StaleHead, StepSuspended(idx)})
      ensures r.Ended? && r.outcome != Cut ==> Progress(c, Snap()) == idx
      ensures r == Ended(StepSuspended(idx)) ==> !Calm(script)
      ensures r == Ended(Cut) ==> Stopped()
      ensures Smooth(old(used), VetLen(c, idx, sha) + 2, sha) ==> r == StepDone && used == old(used) + VetLen(c, idx, sha) + 2
    {
      hide Good, Quiet, Onward, InRun, Cps, Progress, TasksMove, HeldOrLost, Cleared, Calm, Stopped, RowReads, Limit,
           DoneCheckpoint, Vetted;
      var stop := Vet(idx, sha);
      ghost var s1 := Snap();
      QuietFacts(c, old(Snap()), s1);
      QuietOnward(c, old(Snap()), s1);
      if stop.Some? {
        return stop.value;
      }
      InRunQuiet(c, old(Snap()), s1, attempt);
      ClearedStays(c, old(Snap()), s1, {});
      r := FinishStep(idx, attempt);
      VettedCut(idx, sha, old(used), r);
      OnwardTwice(c, old(Snap()), s1, Snap());
    }

    lemma VettedCut(idx: nat, sha: string, at: nat, r: StepResult)
      requires idx < c.Size() && Vetted(idx, sha, at, StepDone) && (r == StepDone || r == Ended(Cut))
      ensures Vetted(idx, sha, at, r)
    {
    }

    /** Waits for the session's pane to exit, then kills it. */
    method PollExit(idx: nat, attempt: nat) returns (i: Option<Input>)
      requires Good(c, Snap()) && used <= |script| && idx == Progress(c, Snap()) < c.Size()
      requires attempt >= 1 && InRun(c, Snap(), attempt) && Key(idx) in overlay.rows
      requires Alive(c, sessions - {StepSession(c, idx, attempt - 1)}) == {}
      requires Cleared(c, Snap(), {StepSession(c, idx, attempt - 1)})
      modifies this`used, this`sessions, engine, overlay
      ensures Good(c, Snap()) && Onward(c, old(Snap()), Snap()) && Progress(c, Snap()) == idx && Key(idx) in overlay.rows
      ensures old(used) <= used <= |script| && used <= old(used) + 1
      ensures i.Some? <==> Comes(old(used))
      ensures i.None? ==> Stopped() && used == Behind(old(used)) && sessions == old(sessions)
      ensures i.Some? ==> used == old(used) + 1 && i.value == script[old(used)] && InRun(c, Snap(), attempt)
      ensures i.Some? ==> sessions == old(sessions) - {StepSession(c, idx, attempt - 1)}
      ensures i.Some? ==> Alive(c, sessions) == {} && Cleared(c, Snap(), {})
      ensures Calm(script) ==> overlay.rows == old(overlay.rows)
    {
      hide Flipped, Good, Quiet, Onward, InRun, Alive, Cps, Progress, TasksMove, HeldOrLost, Cleared, StepSession, Calm,
           Stopped;
      var x := StepSession(c, idx, attempt - 1);
      i := Tick();
      QuietOnward(c, old(Snap()), Snap());
      QuietFacts(c, old(Snap()), Snap());
      if i.Some? {
        InRunQuiet(c, old(Snap()), Snap(), attempt);
        ClearedStays(c, old(Snap()), Snap(), {x});
        ghost var s1 := Snap();
        KillSession(x);
        SessionsOnward(c, old(Snap()), s1, sessions);
        assert Snap() == s1.(sessions := sessions);
      }
    }

    /** One try of the correction loop. */
    method Attempt(idx: nat, attempt: nat, sha: string) returns (r: StepResult)
      requires Good(c, Snap()) && used <= |script| && idx == Progress(c, Snap()) < c.Size()
      requires 1 <= attempt <= Limit(c.Steps()[idx]) && InRun(c, Snap(), attempt - 1) && Alive(c, sessions) == {}
      requires Cleared(c, Snap(), {StepSession(c, idx, attempt - 1)})
      modifies this`used, this`sessions, this`launches, this`passed, engine, overlay
      ensures Good(c, Snap()) && Onward(c, old(Snap()), Snap())
      ensures old(used) <= used <= |script| && used <= old(used) + 9
      ensures r != Ended(Cut) && r != Ended(StepFailed) ==> Alive(c, sessions) == {} && Cleared(c, Snap(), {})
      ensures |launches| <= |old(launches)| + 1 && (!r.Ended? ==> |launches| == |old(launches)| + 1)
      ensures r == StepDone ==> Progress(c, Snap()) == idx + 1 && InRun(c, Snap(), 0)
      ensures r == Again ==> Progress(c, Snap()) == idx && InRun(c, Snap(), attempt)
      ensures r == Again ==> attempt < Most(idx)
      ensures r.Ended? && r.outcome != Cut ==> Progress(c, Snap()) == idx && r.outcome != AllDone && Key(idx) in overlay.rows
      ensures r.Ended? && r.outcome.StepSuspended? ==> r.outcome.step == idx && !Calm(script)
      ensures r == Ended(Cut) ==> Stopped()
      ensures Opens(old(used)) && !Comes(old(used) + 3) ==>
                && r == Ended(Cut) && used == Behind(old(used) + 3) && Progress(c, Snap()) == idx
                && sessions == old(sessions) + {StepSession(c, idx, attempt - 1)}
      ensures Calm(script) && Retries(old(used)) && attempt < Most(idx) ==> r == Again && used == old(used) + 5
      ensures Calm(script) && Smooth(old(used), VetLen(c, idx, sha) + 7, sha) ==>
                r == StepDone && used == old(used) + VetLen(c, idx, sha) + 7
    {
      hide Good, Quiet, Onward, InRun, Alive, Cps, Progress, TasksMove, HeldOrLost, Judged, Vetted, Cleared, StepSession,
           Calm, Limit, RowReads, RowStatus, Stopped, VetLen, Most, Smooth, Opens, Retries, Behind;
      TryShapes(used, VetLen(c, idx, sha) + 7, sha);
      var early := OpenSession(idx, attempt - 1);
      if early.Some? {
        return early.value;
      }
      ghost var s1 := Snap();
      var i := PollExit(idx, attempt);
      OnwardTwice(c, old(Snap()), s1, Snap());
      if i.None? {
        return Ended(Cut);
      }
      ghost var s2 := Snap();
      r := Judge(idx, attempt, i.value, sha);
      OnwardFacts(c, s2, Snap());
      ClearedStays(c, s2, Snap(), {});
      OnwardTwice(c, old(Snap()), s2, Snap());
    }

    /** The next five calls are a try that exits with 1. */
    ghost predicate Retries(at: nat) {
      Opens(at) && Comes(at + 3) && Comes(at + 4) && script[at + 3].exit == Some(1) && !script[at + 3].quota
    }

    lemma TryShapes(at: nat, n: nat, sha: string)
      requires n >= 7
      ensures Smooth(at, n, sha) ==>
                Opens(at) && Comes(at + 3) && script[at + 3].exit == Some(0) && Smooth(at + 4, n - 4, sha)
      ensures Retries(at) ==>
                Opens(at) && Comes(at + 3) && Comes(at + 4) && script[at + 3].exit == Some(1) && !script[at + 3].quota
    {
    }

    /** The daemon dies in call `e`, right after the session of the `tries`-th try was created. */
    ghost predicate Dies(at: nat, tries: nat, e: nat)
      decreases tries
    {
      && tries >= 1
      && if tries == 1 then Opens(at) && e == at + 3 && !Comes(e) else Retries(at) && Dies(at + 5, tries - 1, e)
    }

    /** The correction loop of a step with a command. */
    method RunStep(idx: nat, sha: string) returns (r: StepResult)
      requires Good(c, Snap()) && used <= |script| && idx == Progress(c, Snap()) < c.Size()
      requires c.Steps()[idx].command.Some? && InRun(c, Snap(), 0) && Ready(c, Snap())
      modifies this`used, this`sessions, this`launches, this`passed, engine, overlay
      ensures Good(c, Snap()) && Onward(c, old(Snap()), Snap())
      ensures |old(launches)| <= |launches| <= |old(launches)| + Tries(c.Steps()[idx].maxCorrections)
      ensures old(used) <= used <= |script|
      ensures used <= old(used) + 9 * (|launches| - |old(launches)|) + if r == StepDone then 0 else 9
      ensures r != Again && (r == StepDone ==> Progress(c, Snap()) == idx + 1 && InRun(c, Snap(), 0))
      ensures r != Ended(Cut) && r != Ended(StepFailed) ==> Alive(c, sessions) == {} && Cleared(c, Snap(), {})
      ensures r.Ended? && r.outcome != Cut ==> Progress(c, Snap()) == idx && r.outcome != AllDone && Key(idx) in overlay.rows
      ensures r.Ended? && r.outcome.StepSuspended? ==> r.outcome.step == idx && !Calm(script)
      ensures r == Ended(Cut) ==> Stopped()
      ensures Calm(script) && Smooth(old(used), VetLen(c, idx, sha) + 7, sha) ==>
                r == StepDone && used == old(used) + VetLen(c, idx, sha) + 7
      ensures DiesHere(old(used), idx, old(sessions), Snap(), r == Ended(Cut), used)
    {
      hide Tries, Good, Quiet, Onward, InRun, Alive, Inv, Cps, Progress, TasksMove, HeldOrLost, Cleared, Ready,
           StepSession, Calm, Smooth, FrontFirst, Trying, DiesHere, Retries, Opens, Limit;
      var attempt := 1;
      OnwardSame(c, Snap());
      TriesAreLimit(c.Steps()[idx]);
      ReadyForFirst(c, Snap());
      FirstTry(used, idx);
      while true
        invariant Good(c, Snap()) && Onward(c, old(Snap()), Snap()) && used <= |script| && old(used) <= used
        invariant 1 <= attempt <= Limit(c.Steps()[idx]) && Progress(c, Snap()) == idx
        invariant InRun(c, Snap(), attempt - 1) && Alive(c, sessions) == {}
        invariant Cleared(c, Snap(), {StepSession(c, idx, attempt - 1)})
        invariant |old(launches)| <= |launches| <= |old(launches)| + attempt - 1
        invariant used <= old(used) + 9 * (|launches| - |old(launches)|)
        invariant attempt == 1 ==> used == old(used) && sessions == old(sessions)
        invariant Trying(old(used), used, idx, attempt)
        invariant Calm(script) && Smooth(old(used), VetLen(c, idx, sha) + 7, sha) ==> attempt == 1
        decreases Limit(c.Steps()[idx]) - attempt
      {
        ghost var s1 := Snap();
        ghost var u1 := used;
        r := Attempt(idx, attempt, sha);
        OnwardFacts(c, s1, Snap());
        OnwardTwice(c, old(Snap()), s1, Snap());
        NextTry(old(used), u1, idx, attempt, old(sessions), Snap(), r, used);
        if r != Again {
          return;
        }
        ClearedMore(c, Snap(), StepSession(c, idx, attempt));
        attempt := attempt + 1;
      }
    }

    /** Of the tries that the daemon may die in, these are not over after call `u`. */
    ghost predicate Trying(at: nat, u: nat, idx: nat, attempt: nat)
      requires idx < c.Size()
    {
      forall tries: nat, e: nat | Calm(script) && tries <= Limit(c.Steps()[idx]) && Dies(at, tries, e) ::
        attempt <= tries && Dies(u, tries - attempt + 1, e)
    }

    lemma FirstTry(at: nat, idx: nat)
      requires idx < c.Size() && c.Steps()[idx].command.Some?
      ensures Trying(at, at, idx, 1) && 1 <= Limit(c.Steps()[idx])
    {
    }

    lemma NextTry(at: nat, u: nat, idx: nat, attempt: nat, before: set<Session>, s: StepEngine.Snap, r: StepResult, u': nat)
      requires idx < c.Size() && c.Steps()[idx].command.Some? && attempt >= 1 && Trying(at, u, idx, attempt)
      requires Calm(script) && Retries(u) && attempt < Most(idx) ==> r == Again && u' == u + 5
      requires r == Again ==> attempt < Most(idx)
      requires Opens(u) && !Comes(u + 3) ==> r == Ended(Cut) && u' == Behind(u + 3) && Fell(s, idx, attempt)
      requires Opens(u) && !Comes(u + 3) && attempt == 1 ==> before <= s.sessions
      ensures r == Again ==> Trying(at, u', idx, attempt + 1) && attempt + 1 <= Limit(c.Steps()[idx])
      ensures r != Again ==> DiesHere(at, idx, before, s, r == Ended(Cut), u')
    {
      hide Calm, Opens, Retries, Fell, Behind;
    }

    /** The session of that try of that step is alive, and the step is at the front. */
    ghost predicate Fell(s: StepEngine.Snap, idx: nat, tries: nat) {
      idx < c.Size() && tries >= 1 && Progress(c, s) == idx && StepSession(c, idx, tries - 1) in s.sessions
    }

    /** Where the script stands after a call that did not come back. */
    ghost function Behind(e: nat): nat {
      if e < |script| then e + 1 else e
    }

    ghost predicate DiesHere(at: nat, idx: nat, before: set<Session>, s: StepEngine.Snap, cut: bool, u': nat)
      requires idx < c.Size()
    {
      forall tries: nat, e: nat | Calm(script) && tries <= Limit(c.Steps()[idx]) && Dies(at, tries, e) ::
        cut && u' == Behind(e) && Fell(s, idx, tries) && (tries == 1 ==> before <= s.sessions)
    }

    /** A step without a command: no session, an immediate checkpoint. */
    method RunPlaceholder(idx: nat) returns (r: StepResult)
      requires Good(c, Snap()) && used <= |script| && idx == Progress(c, Snap()) < c.Size() && InRun(c, Snap(), 0)
      requires c.Steps()[idx].command.None? && Ready(c, Snap())
      modifies this`used, engine, overlay
      ensures Good(c, Snap()) && Onward(c, old(Snap()), Snap())
      ensures old(used) <= used <= |script| && used <= old(used) + 4
      ensures sessions == old(sessions) && launches == old(launches)
      ensures r == StepDone || r == Ended(Cut)
      ensures r == StepDone ==> Progress(c, Snap()) == idx + 1 && InRun(c, Snap(), 0)
      ensures r == StepDone ==> Alive(c, sessions) == {} && Cleared(c, Snap(), {})
      ensures r == Ended(Cut) ==> Stopped()
      ensures AllCome(old(used), 4) ==> r == StepDone && used == old(used) + 4
    {
      hide Good, Quiet, Onward, InRun, Cleared, FrontFirst, Alive, TasksMove, HeldOrLost, Inv, Cps, Progress, LastDone,
           Limit, DoneCheckpoint, SessionName, Ready;
      ReadyForFirst(c, Snap());
      var ok := OpenRow(idx, SessionName(c.task, idx, 0));
      QuietOnward(c, old(Snap()), Snap());
      QuietFacts(c, old(Snap()), Snap());
      if !ok {
        return Ended(Cut);
      }
      InRunQuiet(c, old(Snap()), Snap(), 0);
      ghost var s2 := Snap();
      ClearedStays(c, old(Snap()), s2, {});
      r := FinishStep(idx, 0);
      OnwardFacts(c, s2, Snap());
      ClearedStays(c, s2, Snap(), {});
      OnwardTwice(c, old(Snap()), s2, Snap());
    }

    /** A step of either kind. */
    method RunOne(idx: nat, sha: string) returns (r: StepResult)
      requires Good(c, Snap()) && used <= |script| && idx == Progress(c, Snap()) < c.Size()
      requires InRun(c, Snap(), 0) && Ready(c, Snap())
      modifies this`used, this`sessions, this`launches, this`passed, engine, overlay
      ensures Good(c, Snap()) && Onward(c, old(Snap()), Snap())
      ensures |old(launches)| <= |launches| && old(used) <= used <= |script|
      ensures used <= old(used) + 9 * (|launches| - |old(launches)|) + if r == StepDone then 4 else 9
      ensures r != Again && (r == StepDone ==> Progress(c, Snap()) == idx + 1 && InRun(c, Snap(), 0))
      ensures r != Ended(Cut) && r != Ended(StepFailed) ==> Ready(c, Snap())
      ensures r.Ended? && r.outcome != Cut ==> Progress(c, Snap()) == idx && r.outcome != AllDone && Key(idx) in overlay.rows
      ensures r.Ended? && r.outcome.StepSuspended? ==> r.outcome.step == idx && !Calm(script)
      ensures r == Ended(Cut) ==> Stopped()
      ensures Calm(script) && Smooth(old(used), StepLen(c, idx, sha), sha) ==> r == StepDone && used == old(used) + StepLen(c, idx, sha)
      ensures c.Steps()[idx].command.Some? ==> DiesHere(old(used), idx, old(sessions), Snap(), r == Ended(Cut), used)
    {
      hide Good, Quiet, Onward, InRun, Alive, Inv, Cps, Progress, TasksMove, HeldOrLost, Cleared, Ready, FrontFirst,
           StepSession, Calm, Smooth, DiesHere, LastDone, Limit;
      if c.Steps()[idx].command.Some? {
        r := RunStep(idx, sha);
      } else {
        SmoothComes(used, 4, sha);
        r := RunPlaceholder(idx);
      }
      ReadyAnyway(c, Snap());
    }

    /** `run_steps`: the steps from `start` on, one checkpoint each. */
    method RunSteps(start: nat, sha: string) returns (outcome: Outcome)
      requires Good(c, Snap()) && used <= |script| && start == Progress(c, Snap())
      requires InRun(c, Snap(), 0) && Ready(c, Snap())
      modifies this`used, this`sessions, this`launches, this`passed, engine, overlay
      ensures Good(c, Snap()) && Onward(c, old(Snap()), Snap())
      ensures |old(launches)| <= |launches| && old(used) <= used <= |script| && Progress(c, Snap()) >= start
      ensures used <= old(used) + 9 * (|launches| - |old(launches)|) + 4 * (Progress(c, Snap()) - start) + 9
      ensures outcome != Cut && outcome != StepFailed ==> Ready(c, Snap())
      ensures outcome == AllDone ==> Progress(c, Snap()) == c.Size()
      ensures outcome != Cut && outcome != AllDone ==> Progress(c, Snap()) < c.Size() && Key(Progress(c, Snap())) in overlay.rows
      ensures outcome.StepSuspended? ==> outcome.step == Progress(c, Snap()) && !Calm(script)
      ensures outcome == Cut ==> Stopped()
      ensures CutShort(old(used), start, sha, old(sessions), Snap(), outcome == Cut, used)
    {
      hide Good, Quiet, Onward, InRun, Alive, Inv, Cps, Progress, TasksMove, HeldOrLost, Cleared, Ready, FrontFirst,
           StepSession, Calm, Smooth, DiesHere, CutShort, Falling, LastDone, Limit, StepLen;
      var idx := start;
      OnwardSame(c, Snap());
      GoodEngine(c, Snap());
      FirstFall(used, start, sha);
      while idx < c.Size()
        invariant start <= idx <= c.Size() && idx == Progress(c, Snap())
        invariant Good(c, Snap()) && Onward(c, old(Snap()), Snap()) && old(used) <= used <= |script|
        invariant InRun(c, Snap(), 0) && Ready(c, Snap()) && |old(launches)| <= |launches|
        invariant used <= old(used) + 9 * (|launches| - |old(launches)|) + 4 * (idx - start)
        invariant idx == start ==> used == old(used) && sessions == old(sessions)
        invariant Falling(old(used), start, sha, used, idx)
      {
        ghost var s1 := Snap();
        ghost var u1 := used;
        var r := RunOne(idx, sha);
        NextStep(old(used), start, sha, old(sessions), u1, idx, s1.sessions, Snap(), r, used);
        OnwardFacts(c, s1, Snap());
        OnwardTwice(c, old(Snap()), s1, Snap());
        if r.Ended? {
          return r.outcome;
        }
        idx := idx + 1;
      }
      NoneFalls(old(used), start, sha, old(sessions), used, Snap());
      return AllDone;
    }

    /** From step `i` on nothing goes wrong until step `j`, which fails and is
        corrected until the daemon dies in call `e`, in its `tries`-th session. */
    ghost predicate Falls(at: nat, i: nat, j: nat, sha: string, tries: nat, e: nat)
      decreases j - i
    {
      && Calm(script) && i <= j < c.Size()
      && if i == j then c.Steps()[j].command.Some? && tries <= Limit(c.Steps()[j]) && Dies(at, tries, e)
         else Smooth(at, StepLen(c, i, sha), sha) && Falls(at + StepLen(c, i, sha), i + 1, j, sha, tries, e)
    }

    /** What is left where the script says that the daemon falls. */
    ghost predicate CutShort(at: nat, i: nat, sha: string, before: set<Session>, s: StepEngine.Snap, cut: bool, u': nat) {
      forall j: nat, tries: nat, e: nat | Falls(at, i, j, sha, tries, e) ::
        cut && u' == Behind(e) && Fell(s, j, tries) && (i == j && tries == 1 ==> before <= s.sessions)
    }

    /** Of the ways the daemon may fall, these are still ahead after call `u`. */
    ghost predicate Falling(at: nat, start: nat, sha: string, u: nat, i: nat) {
      forall j: nat, tries: nat, e: nat | Falls(at, start, j, sha, tries, e) :: i <= j && Falls(u, i, j, sha, tries, e)
    }

    lemma FirstFall(at: nat, start: nat, sha: string)
      ensures Falling(at, start, sha, at, start)
    {
    }

    lemma NextStep(at: nat, start: nat, sha: string, before: set<Session>, u: nat, idx: nat, earlier: set<Session>,
                   s: StepEngine.Snap, r: StepResult, u': nat)
      requires start <= idx < c.Size() && Falling(at, start, sha, u, idx) && r != Again
      requires c.Steps()[idx].command.Some? ==> DiesHere(u, idx, earlier, s, r == Ended(Cut), u')
      requires Calm(script) && Smooth(u, StepLen(c, idx, sha), sha) ==> r == StepDone && u' == u + StepLen(c, idx, sha)
      requires idx == start ==> earlier == before
      ensures r == StepDone ==> Falling(at, start, sha, u', idx + 1)
      ensures r != StepDone ==> CutShort(at, start, sha, before, s, r == Ended(Cut), u')
    {
      hide Calm, Smooth, Dies, StepLen, Fell, Behind;
    }

    lemma NoneFalls(at: nat, start: nat, sha: string, before: set<Session>, u: nat, s: StepEngine.Snap)
      requires Falling(at, start, sha, u, c.Size())
      ensures CutShort(at, start, sha, before, s, false, u)
    {
    }

    lemma SmoothComes(at: nat, n: nat, sha: string)
      ensures Smooth(at, n, sha) ==> AllCome(at, n)
    {
    }

    /** The dead daemon's task as it is found: the orphan is there, the claim held or lost. */
    ghost predicate Orphaned(s: StepEngine.Snap, s': StepEngine.Snap, run: RunId, j: nat, tries: nat) {
      && c.task in s.engine.tasks && Fell(s', j, tries) && Ours(c, s', run)
      && TaskOf(c, s').attempts == TaskOf(c, s).attempts && TaskOf(c, s').maxAttempts == TaskOf(c, s).maxAttempts
      && (Progress(c, s) == j && tries == 1 ==> s.sessions <= s'.sessions)
    }

    ghost predicate FreshCut(at: nat, i: nat, sha: string, s: StepEngine.Snap, s': StepEngine.Snap, run: RunId, r: Option<RunResult>, u': nat) {
      forall j: nat, tries: nat, e: nat | Falls(at, i, j, sha, tries, e) ::
        r == Some(Interrupted) && u' == Behind(e) && Orphaned(s, s', run, j, tries)
    }

    lemma CutIsFresh(at: nat, i: nat, sha: string, s: StepEngine.Snap, s1: StepEngine.Snap, s2: StepEngine.Snap, cut: bool,
                     s': StepEngine.Snap, run: RunId, r: Option<RunResult>, u: nat, u': nat)
      requires CutShort(at, i, sha, s.sessions, s2, cut, u) && i == Progress(c, s)
      requires s1 == s.(starts := s1.starts, resumed := s1.resumed) && TasksMove(c, s1, s2) && Ours(c, s2, run)
      requires cut ==> s' == s2 && u' == u && r == Some(Interrupted)
      ensures FreshCut(at, i, sha, s, s', run, r, u')
    {
      hide Falls, Fell, Ours, Behind;
    }

    /** After a claim: the next call tells HEAD, then the steps fall. */
    ghost predicate ClaimCut(at: nat, s: StepEngine.Snap, s': StepEngine.Snap, run: RunId, r: Option<RunResult>, u': nat) {
      AtRest(c, s) && Comes(at) ==> FreshCut(at + 1, Progress(c, s), script[at].sha, s, s', run, r, u')
    }

    lemma NoClaimCut(at: nat, s: StepEngine.Snap, s': StepEngine.Snap, run: RunId, r: Option<RunResult>, u': nat)
      requires !Comes(at) || !AtRest(c, s)
      ensures ClaimCut(at, s, s', run, r, u')
    {
    }

    lemma FreshIsClaim(at: nat, s: StepEngine.Snap, s1: StepEngine.Snap, s': StepEngine.Snap, run: RunId, r: Option<RunResult>, u': nat)
      requires Comes(at) && FreshCut(at + 1, Progress(c, s1), script[at].sha, s1, s', run, r, u') && Quiet(c, s, s1)
      ensures ClaimCut(at, s, s', run, r, u')
    {
      hide Falls, Fell, Behind, Ours, CompletedNames;
    }

    // --- Claims -------------------------------------------------------------

    /** The local host, then each distinct host a step can use. */
    method Hosts() returns (hosts: seq<Option<string>>)
      ensures hosts == HostList(c, c.Size())
    {
      hosts := [None];
      for i := 0 to c.Size()
        invariant hosts == HostList(c, i)
      {
        var h := StepHost(c.recipe, c.Steps()[i]);
        if h !in hosts {
          hosts := hosts + [h];
        }
      }
    }

    method KillOnHost(host: Option<string>)
      requires Good(c, Snap())
      modifies this`sessions
      ensures Good(c, Snap()) && sessions <= old(sessions)
      ensures forall x | x in Alive(c, sessions) :: x.place != OnHost(host)
      ensures forall x | x in old(sessions) && x !in sessions :: x in Alive(c, old(sessions))
    {
      hide Good;
      var names := sessions;
      while names != {}
        invariant Good(c, Snap()) && names <= sessions <= old(sessions)
        invariant forall x | x in Alive(c, sessions) && x.place == OnHost(host) :: x in names
        invariant forall x | x in old(sessions) && x !in sessions :: x in Alive(c, old(sessions))
        decreases names
      {
        var x :| x in names;
        if x.place == OnHost(host) && StartsWith(x.name, SweepPrefix(c.task)) {
          assert x in Alive(c, old(sessions));
          KillSession(x);
        }
        names := names - {x};
      }
    }

    /** Sweeps this task's sessions from every host the workflow can use. */
    method KillStaleSessions() returns (ok: bool)
      requires Good(c, Snap()) && used <= |script|
      modifies this`used, this`sessions, engine, overlay
      ensures Good(c, Snap()) && Quiet(c, old(Snap()), Snap().(sessions := old(sessions)))
      ensures overlay.rows.Keys == old(overlay.rows.Keys)
      ensures old(used) <= used <= |script| && used <= old(used) + c.Size() + 1
      ensures old(used) < |script| ==> used > old(used)
      ensures sessions <= old(sessions) && forall x | x in old(sessions) && x !in sessions :: x in Alive(c, old(sessions))
      ensures ok ==> Alive(c, sessions) == {} && used == old(used) + |HostList(c, c.Size())| > old(used)
      ensures !ok ==> Stopped()
      ensures ok <==> AllCome(old(used), |HostList(c, c.Size())|)
      ensures ok && script[old(used)].expire ==> TaskOf(c, Snap()).currentRun.None?
    {
      hide Flipped, Good, Quiet, HostList, UsesHost, HeldOrLost, Cps, Stopped, TasksMove;
      var hosts := Hosts();
      SomeHost(c);
      QuietSame(c, Snap());
      for i := 0 to |hosts|
        invariant Good(c, Snap()) && Quiet(c, old(Snap()), Snap().(sessions := old(sessions)))
        invariant overlay.rows.Keys == old(overlay.rows.Keys)
        invariant old(used) + i == used <= |script|
        invariant AllCome(old(used), i)
        invariant i > 0 && script[old(used)].expire ==> c.task in engine.tasks && TaskOf(c, Snap()).currentRun.None?
        invariant |hosts| > 0
        invariant sessions <= old(sessions) && forall x | x in old(sessions) && x !in sessions :: x in Alive(c, old(sessions))
        invariant forall x | x in Alive(c, sessions) :: x.place.host !in hosts[..i]
      {
        ghost var s1 := Snap();
        ghost var s1used := used;
        var listed := Tick();
        QuietAcross(c, old(Snap()), s1, Snap(), old(sessions));
        NoRunStays(c, s1, Snap());
        if listed.None? {
          assert !Comes(s1used);
          return false;
        }
        ghost var before := sessions;
        KillOnHost(hosts[i]);
        AliveShrinks(c, before, sessions);
        assert hosts[..i + 1] == hosts[..i] + [hosts[i]];
      }
      AliveHosts(c, Snap());
      assert hosts[..|hosts|] == hosts;
      return true;
    }

    /** `task_non_terminal`: is this task still pending, sleeping or running? */
    method IsNonTerminal() returns (r: Option<bool>)
      requires Good(c, Snap()) && used <= |script|
      modifies this`used, engine, overlay
      ensures Good(c, Snap()) && Quiet(c, old(Snap()), Snap())
      ensures overlay.rows.Keys == old(overlay.rows.Keys)
      ensures old(used) <= used <= |script| && used <= old(used) + 1
      ensures r.Some? ==> r.value == NonTerminal(TaskOf(c, Snap()))
      ensures r.None? ==> Stopped()
    {
      hide Flipped, Good, Quiet;
      var x := Tick();
      if x.None? {
        return None;
      }
      OneTask(c, Snap());
      var ids := engine.NonTerminalTasks(c.queue);
      return Some(c.task in ids);
    }

    /** Claims a run of the queue, if one is claimable. */
    method ClaimNext() returns (ok: bool, run: Option<RunId>)
      requires Good(c, Snap()) && used <= |script| && Alive(c, sessions) == {}
      modifies this`used, this`resumed, engine, overlay
      ensures Good(c, Snap()) && Cps(c, Snap()) == old(Cps(c, Snap())) && SameMax(c, old(Snap()), Snap())
      ensures overlay.rows.Keys == old(overlay.rows.Keys)
      ensures old(used) <= used <= |script| && used <= old(used) + 1
      ensures (ok <==> Comes(old(used))) && (ok ==> used == old(used) + 1)
      ensures !ok ==> Stopped() && run.None?
      ensures run.Some? ==> OwnRun(c, Snap(), run.value) && TaskOf(c, Snap()).currentRun == run && Ready(c, Snap())
      ensures run.Some? ==> starts + 1 <= TaskOf(c, Snap()).attempts + resumed
      ensures old(AtRest(c, Snap())) ==> AtRest(c, Snap()) && resumed == old(resumed)
      ensures (old(Waiting(TaskOf(c, Snap()))) ==>
                var t := old(TaskOf(c, Snap()));
                && (run.Some? ==> t.pendingRuns != [] && TaskOf(c, Snap()) == ClaimTask(t))
                && (run.None? ==> TaskOf(c, Snap()) == t && (ok ==> !NonTerminal(t)))
                && resumed == old(resumed) + if run.Some? && t.woken then 1 else 0)
    {
      hide Flipped, Good, Quiet, Inv, Claim, CompletedNames, Ready, Alive, AtRest, LastDone, HeldOrLost, Lost, NoMore,
           TasksMove, Cps, OwnRun, SameMax;
      GoodEngine(c, Snap());
      var x := Tick();
      ghost var s1 := Snap();
      RestKept(c, old(Snap()), s1);
      WaitingStays(c, old(Snap()), s1);
      if x.None? {
        return false, None;
      }
      GoodEngine(c, s1);
      ClaimEffect(c, s1);
      var claimed := engine.ClaimTask(c.queue);
      if claimed.Some? {
        resumed := resumed + if TaskOf(c, s1).woken then 1 else 0;
      }
      assert Snap() == AfterClaim(c, s1);
      ClaimAtRest(c, s1);
      ClaimSameMax(c, old(Snap()), s1, Snap());
      return true, if claimed.Some? then Some(claimed.value.run) else None;
    }

    method FailRun(run: RunId) returns (ok: bool, ghost mid: StepEngine.Snap)
      requires Good(c, Snap()) && used <= |script| && OwnRun(c, Snap(), run)
      modifies this`used, engine, overlay
      ensures Good(c, Snap()) && Quiet(c, old(Snap()), mid) && Quiet(c, old(Snap()), Snap())
      ensures overlay.rows.Keys == old(overlay.rows.Keys)
      ensures old(used) <= used <= |script| && used <= old(used) + 1
      ensures ok ==> used > old(used)
      ensures ok && old(Ours(c, Snap(), run)) ==> Idle(c, Snap())
      ensures ok ==> Snap() == mid.(engine := Fail(mid.engine, run)) && TaskOf(c, Snap()).currentRun != Some(run)
      ensures !ok ==> Stopped()
    {
      hide Flipped, Good, Quiet, Idle, Ours;
      var x := Tick();
      mid := Snap();
      if x.None? {
        return false, mid;
      }
      QuietFacts(c, old(Snap()), mid);
      OwnRunStays(c, old(Snap()), mid, run);
      GoodEngine(c, mid);
      FailIsIdle(c, old(Snap()), mid, run);
      FailIsQuiet(c, mid, run);
      engine.FailRun(run);
      QuietTwice(c, old(Snap()), mid, Snap());
      return true, mid;
    }

    method CompleteRun(run: RunId) returns (ok: bool, ghost mid: StepEngine.Snap)
      requires Good(c, Snap()) && used <= |script| && OwnRun(c, Snap(), run) && Progress(c, Snap()) == c.Size()
      modifies this`used, engine, overlay
      ensures Good(c, Snap()) && Quiet(c, old(Snap()), mid) && Still(c, old(Snap()), Snap())
      ensures overlay.rows.Keys == old(overlay.rows.Keys)
      ensures old(used) <= used <= |script| && used <= old(used) + 1
      ensures Good(c, mid) && (ok ==> used > old(used))
      ensures ok ==> Snap() == mid.(engine := Complete(mid.engine, run)) && TaskOf(c, Snap()).currentRun != Some(run)
      ensures !ok ==> Stopped()
    {
      hide Flipped, Good, Quiet, Still;
      var x := Tick();
      mid := Snap();
      QuietFacts(c, old(Snap()), mid);
      if x.None? {
        return false, mid;
      }
      OwnRunStays(c, old(Snap()), mid, run);
      GoodEngine(c, mid);
      CompleteIsStill(c, mid, run);
      engine.CompleteRun(run);
      QuietStill(c, old(Snap()), mid, Snap());
      return true, mid;
    }

    /** What a finished, failed, stale or quota-stopped step loop does to the run. */
    method Settle(run: RunId, outcome: Outcome) returns (r: Option<RunResult>, ghost mid: StepEngine.Snap)
      requires Good(c, Snap()) && used <= |script| && OwnRun(c, Snap(), run) && !outcome.StepSuspended?
      requires outcome == AllDone ==> Progress(c, Snap()) == c.Size()
      requires outcome == Cut ==> Stopped()
      requires Ours(c, Snap(), run)
      modifies this`used, engine, overlay
      ensures Good(c, Snap()) && Quiet(c, old(Snap()), mid) && Still(c, old(Snap()), Snap())
      ensures overlay.rows.Keys == old(overlay.rows.Keys)
      ensures old(used) <= used <= |script| && used <= old(used) + 1
      ensures r == Some(Interrupted) ==> Stopped()
      ensures outcome == Cut ==> r == Some(Interrupted) && Snap() == old(Snap()) && used == old(used)
      ensures r != Some(Interrupted) ==> TaskOf(c, Snap()).currentRun != Some(run) && used > old(used)
      ensures r == Some(Finished) ==> outcome == AllDone && Concluded(c, mid, Snap(), run) && Idle(c, Snap())
      ensures r.None? ==> outcome != AllDone && Snap() == mid.(engine := Fail(mid.engine, run))
    {
      hide Idle, Good, Quiet, Still, Complete, Fail, Concluded;
      QuietSame(c, Snap());
      QuietFacts(c, Snap(), Snap());
      mid := Snap();
      var ok;
      match outcome {
        case Cut =>
          return Some(Interrupted), mid;
        case AllDone =>
          ok, mid := CompleteRun(run);
          if ok {
            QuietFacts(c, old(Snap()), mid);
            OursStays(c, old(Snap()), mid, run);
            OwnRunStays(c, old(Snap()), mid, run);
            StillFacts(c, old(Snap()), Snap());
            CompleteConcludes(c, mid, run);
            ConcludedIsIdle(c, mid, Snap(), run);
          }
          return Some(if ok then Finished else Interrupted), mid;
        case StepFailed =>
          ok, mid := FailRun(run);
        case QuotaExhausted =>   // after sleeping out the quota window
          ok, mid := FailRun(run);
        case StaleHead =>
          ok, mid := FailRun(run);
      }
      QuietFacts(c, old(Snap()), Snap());
      return if ok then None else Some(Interrupted), mid;
    }

    // --- The human in the loop ----------------------------------------------

    /** A checkpoint the engine may write about the awaited step. */
    method WriteNote(idx: nat, note: Option<(string, Json)>)
      requires Good(c, Snap()) && idx == Progress(c, Snap()) < c.Size()
      modifies engine
      ensures Good(c, Snap()) && Progress(c, Snap()) == idx && engine.tasks == old(engine.tasks)
    {
      hide Good, NoteFor, CompletedNames, Inv;
      if note.Some? && NoteFor(c, idx, note.value) {
        ghost var s := Snap();
        NoteKeepsGood(c, s, note.value);
        GoodEngine(c, s);
        engine.SetCheckpoint(c.task, note.value.0, note.value.1);
        assert Snap() == s.(engine := AddCheckpoint(s.engine, c.task, note.value.0, note.value.1));
      }
    }

    /** `hitl_await`: None when the call did not come back. */
    method AwaitVerdict(idx: nat, run: RunId) returns (r: Option<HitlAwaitResult>, ghost mid: StepEngine.Snap)
      requires Good(c, Snap()) && used <= |script| && idx == Progress(c, Snap()) < c.Size() && OwnRun(c, Snap(), run)
      requires Ready(c, Snap()) && Ours(c, Snap(), run)
      modifies this`used, engine, overlay
      ensures SameMax(c, old(Snap()), Snap())
      ensures Good(c, Snap()) && OwnRun(c, Snap(), run) && Progress(c, Snap()) == idx
      ensures overlay.rows.Keys == old(overlay.rows.Keys)
      ensures old(used) <= used <= |script| && used <= old(used) + 1
      ensures Quiet(c, old(Snap()), mid)
      ensures r.Some? ==> used > old(used)
      ensures r.Some? ==> r.value == Awaited(mid, old(used))
      ensures r == Some(AwaitSuspended) ==> TaskOf(c, Snap()).currentRun != Some(run)
      ensures r.Some? && r.value != AwaitSuspended ==> Ready(c, Snap()) && Ours(c, Snap(), run)
      ensures r.None? ==> Stopped()
    {
      hide Flipped, Good, Quiet, Inv, Await, NoteFor, CompletedNames, Ready, TasksMove, HeldOrLost, AwaitResult, Awaited,
           Approves;
      var x := Tick();
      mid := Snap();
      QuietFacts(c, old(Snap()), mid);
      OwnRunStays(c, old(Snap()), mid, run);
      OursStays(c, old(Snap()), mid, run);
      ReadyStays(c, old(Snap()), mid);
      MaxKept(c, old(Snap()), mid);
      if x.None? {
        return None, mid;
      }
      GoodEngine(c, mid);
      AwaitKeepsGood(c, mid, run, x.value.timedOut);
      var outcome := engine.AwaitEvent(c.queue, c.task, run, c.Event(), x.value.timedOut);
      ghost var s2 := Snap();
      assert s2 == mid.(engine := Await(mid.engine, c.queue, c.task, run, c.Event(), x.value.timedOut).0);
      WriteNote(idx, x.value.note);
      ReadyKept(c, s2, Snap());
      AwaitedVerdict(c, mid, run, x.value.timedOut);
      AwaitedIs(mid, old(used), x.value.timedOut);
      return Some(AwaitResult(outcome)), mid;
    }

    /** `hitl_await_and_rerun`: None means the claim loop goes round again. */
    method HitlAwaitAndRerun(idx: nat, sha: string, run: RunId)
        returns (r: Option<RunResult>, ghost mid: StepEngine.Snap)
      requires Good(c, Snap()) && used <= |script| && idx == Progress(c, Snap()) < c.Size() && OwnRun(c, Snap(), run)
      requires Ready(c, Snap()) && Ours(c, Snap(), run)
      modifies this`used, this`sessions, this`launches, this`passed, this`starts, this`resumed, engine, overlay
      ensures Good(c, Snap()) && Forward(c, old(Snap()), Snap()) && old(used) <= used <= |script|
      ensures r == Some(Interrupted) ==> Stopped()
      ensures r != Some(Interrupted) ==> used > old(used)
      ensures r == Some(Finished) ==> Alive(c, sessions) == {} && Idle(c, Snap())
      ensures r != Some(Interrupted) && old(RowFront(c, Snap())) ==> RowFront(c, Snap())
      ensures Heard(old(Snap()), Snap(), mid, run, old(used), r)
    {
      hide Idle, Good, Quiet, Onward, InRun, Alive, RowFront, Forward, Awaited, Cleared, Ours, Still, TasksMove, HeldOrLost,
           Ready, Cps;
      var answer;
      answer, mid := AwaitVerdict(idx, run);
      ghost var s1 := Snap();
      SameForward(c, old(Snap()), s1);
      RowFrontKept(c, old(Snap()), s1);
      GoodEngine(c, s1);
      if answer.None? {
        return Some(Interrupted), mid;
      }
      match answer.value {
        case AwaitSuspended =>
          return None, mid;
        case RejectedOrTimeout =>
          var ok, _ := FailRun(run);
          QuietOnward(c, s1, Snap());
          OnwardForward(c, s1, Snap());
          ForwardTwice(c, old(Snap()), s1, Snap());
          QuietFacts(c, s1, Snap());
          RowFrontKept(c, old(Snap()), Snap());
          ReadyIsEmpty(c, s1);
          GoodEngine(c, Snap());
          return Some(if ok then Finished else Interrupted), mid;
        case Approved =>
          ghost var after;
          r, after := RunApproved(idx, sha, run);
          ForwardTwice(c, old(Snap()), s1, Snap());
          GoodEngine(c, Snap());
      }
    }

    ghost function Verdicts(s: StepEngine.Snap): seq<Json> {
      Events(s.engine, c.queue, "hitl.verdict:" + c.task)
    }

    /** The answer to an await made by call `at` in state `s`: the task's first
        verdict event, else a refusal when the await times out. */
    ghost function Awaited(s: StepEngine.Snap, at: nat): HitlAwaitResult {
      if Verdicts(s) != [] then (if Approves(Verdicts(s)[0]) then Approved else RejectedOrTimeout)
      else if at < |script| && script[at].timedOut then RejectedOrTimeout
      else AwaitSuspended
    }

    lemma AwaitedIs(s: StepEngine.Snap, at: nat, timedOut: bool)
      requires at < |script| && script[at].timedOut == timedOut
      ensures Awaited(s, at) ==
                var events := Events(s.engine, c.queue, c.Event());
                if events != [] then (if Approves(events[0]) then Approved else RejectedOrTimeout)
                else if timedOut then RejectedOrTimeout else AwaitSuspended
    {
    }

    /** What an answer leads to: an approval enters the step loop once more; a
        rejection gives the run up and returns; no answer yet leaves it asleep. */
    ghost predicate Heard(s: StepEngine.Snap, s': StepEngine.Snap, mid: StepEngine.Snap, run: RunId, at: nat, r: Option<RunResult>) {
      && Quiet(c, s, mid) && c.task in s'.engine.tasks
      && (s'.starts == s.starts || (s'.starts == s.starts + 1 && Awaited(mid, at) == Approved))
      && (s'.starts == s.starts ==> s'.launches == s.launches && s'.passed == s.passed && Progress(c, s') == Progress(c, s))
      && (r != Some(Interrupted) ==>
            match Awaited(mid, at)
            case Approved => s'.starts == s.starts + 1
            case RejectedOrTimeout => s'.starts == s.starts && r == Some(Finished) && TaskOf(c, s').currentRun != Some(run)
            case AwaitSuspended => s'.starts == s.starts && r.None? && TaskOf(c, s').currentRun != Some(run))
    }

    method RunApproved(idx: nat, sha: string, run: RunId) returns (r: Option<RunResult>, ghost mid: StepEngine.Snap)
      requires Good(c, Snap()) && used <= |script| && idx == Progress(c, Snap()) && OwnRun(c, Snap(), run)
      requires Ready(c, Snap()) && Ours(c, Snap(), run)
      modifies this`used, this`sessions, this`launches, this`passed, this`starts, this`resumed, engine, overlay
      ensures Good(c, Snap()) && Forward(c, old(Snap()), Snap()) && old(used) <= used <= |script|
      ensures r == Some(Interrupted) ==> Stopped()
      ensures r != Some(Interrupted) ==> RowFront(c, Snap())
      ensures r == Some(Finished) ==> Alive(c, sessions) == {} && Idle(c, Snap()) && Concluded(c, mid, Snap(), run)
      ensures starts == old(starts) + 1
    {
      hide Idle, Good, Quiet, Still, Onward, InRun, Alive, RowFront, Forward, Ours, Concluded, Ready, CutShort;
      StartsBelowAttempts(c, Snap());
      EnterKeepsGood(c, Snap(), resumed + 1);
      starts, resumed := starts + 1, resumed + 1;
      ghost var s1 := Snap();
      assert s1 == old(Snap()).(starts := s1.starts, resumed := s1.resumed);
      EnteredIsReady(c, old(Snap()), s1, run);
      var outcome := RunSteps(idx, sha);
      ghost var s2 := Snap();
      mid := s2;
      OnwardFacts(c, s1, s2);
      OwnRunStays(c, s1, s2, run);
      OursStays(c, s1, s2, run);
      OnwardForward(c, s1, s2);
      SameForward(c, old(Snap()), s1);
      ForwardTwice(c, old(Snap()), s1, s2);
      RowFrontThere(c, s2);
      if outcome.StepSuspended? {
        return None, mid;
      }
      r, mid := Settle(run, outcome);
      StillFacts(c, s2, Snap());
      ReadyIsEmpty(c, s2);
      RowFrontKept(c, s2, Snap());
      StillForward(c, s2, Snap());
      ForwardTwice(c, old(Snap()), s2, Snap());
    }

    // --- run_workflow -------------------------------------------------------

    /** Every step is checkpointed, or the task is completed or failed for good. */
    ghost predicate Over(s: StepEngine.Snap) {
      Progress(c, s) == c.Size() || (c.task in s.engine.tasks && !NonTerminal(TaskOf(c, s)))
    }

    /** What the last checkpoint says to do next. */
    ghost function NextAction(s: StepEngine.Snap): ResumeAction {
      ResumePoint(c.Steps(), Last(Cps(c, s)), c.task).1
    }

    /** A claimed run, from its resume point to what becomes of it. */
    method RunClaimed(run: RunId) returns (r: Option<RunResult>, ghost mid: StepEngine.Snap)
      requires Good(c, Snap()) && used <= |script| && OwnRun(c, Snap(), run) && Ready(c, Snap()) && Ours(c, Snap(), run)
      requires starts + 1 <= TaskOf(c, Snap()).attempts + resumed
      modifies this`used, this`sessions, this`launches, this`passed, this`starts, this`resumed, engine, overlay
      ensures Good(c, Snap()) && Forward(c, old(Snap()), Snap()) && old(used) <= used <= |script|
      ensures r == Some(Interrupted) ==> Stopped()
      ensures r != Some(Interrupted) ==> used > old(used)
      ensures r == Some(Finished) ==> Alive(c, sessions) == {} && Idle(c, Snap())
      ensures r != Some(Interrupted) && old(RowFront(c, Snap())) ==> RowFront(c, Snap())
      ensures Calm(script) && old(AtRest(c, Snap())) ==> CalmTurn(old(Snap()), Snap(), r, used - old(used), 11)
      ensures ClaimCut(old(used), old(Snap()), Snap(), run, r, used)
      ensures Followed(old(Snap()), Snap(), mid, run, old(used) + 1, r)
    {
      hide Idle, Flipped, Good, Quiet, Onward, Alive, RowFront, Forward, Inv, CompletedNames, Ready, Ours, Still, FreshCut,
           ClaimCut, HeldOrLost, TasksMove, CalmTurn, Calm, ResumePoint, Progress, TakenUp, AtRest, Followed;
      var x := Tick();
      ghost var s1 := Snap();
      QuietFacts(c, old(Snap()), s1);
      StillForward(c, old(Snap()), s1);
      RowFrontKept(c, old(Snap()), s1);
      RestKept(c, old(Snap()), s1);
      mid := s1;
      if x.None? {
        NoClaimCut(old(used), old(Snap()), Snap(), run, Some(Interrupted), used);
        if AtRest(c, old(Snap())) {
          StoppedCalm(old(Snap()), s1, used - old(used));
        }
        NotTakenUp(NextAction(s1), old(Snap()), s1, run, old(used) + 1);
        TakenUpFollows(old(Snap()), s1, s1, mid, run, old(used) + 1, Some(Interrupted));
        return Some(Interrupted), mid;
      }
      StartsKept(c, old(Snap()), s1);
      OwnRunStays(c, old(Snap()), s1, run);
      OursStays(c, old(Snap()), s1, run);
      ReadyStays(c, old(Snap()), s1);
      ResumeFacts(c, s1);
      var last := engine.GetLastCheckpoint(c.task);
      var (idx, action) := ResumePoint(c.Steps(), last, c.task);
      r, mid := TakeUp(idx, action, x.value.sha, run);
      TakenUpLater(action, old(Snap()), s1, Snap(), mid, run, old(used) + 1, r);
      TakenUpFollows(old(Snap()), s1, Snap(), mid, run, old(used) + 1, r);
      ForwardTwice(c, old(Snap()), s1, Snap());
      if !AtRest(c, old(Snap())) {
        NoClaimCut(old(used), old(Snap()), Snap(), run, r, used);
      } else {
        FreshIsClaim(old(used), old(Snap()), s1, Snap(), run, r, used);
        if Calm(script) {
          TickedCalm(old(Snap()), s1, Snap(), r, used - old(used));
        }
      }
    }

    /** What each resume action leads to. */
    ghost predicate TakenUp(action: ResumeAction, s: StepEngine.Snap, s': StepEngine.Snap, mid: StepEngine.Snap, run: RunId, at: nat,
                            r: Option<RunResult>) {
      match action
      case Run => StartedAgain(s, s', r)
      case FailHitl => GivenUp(s, s', run, r)
      case AwaitHitl => Heard(s, s', mid, run, at, r)
    }

    ghost predicate StartedAgain(s: StepEngine.Snap, s': StepEngine.Snap, r: Option<RunResult>) {
      r != Some(Interrupted) ==> s'.starts > s.starts
    }

    ghost predicate GivenUp(s: StepEngine.Snap, s': StepEngine.Snap, run: RunId, r: Option<RunResult>) {
      && r.Some? && s'.starts == s.starts && s'.launches == s.launches && s'.passed == s.passed
      && (r == Some(Finished) ==> c.task in s'.engine.tasks && TaskOf(c, s').currentRun != Some(run))
    }

    ghost predicate LastSays(s: StepEngine.Snap, status: string, verdict: Option<string>) {
      Cps(c, s) != [] && Says(Cps(c, s)[|Cps(c, s)| - 1], status, verdict)
    }

    /** The same by what the last checkpoint was written with: a completion, an
        approval or an override starts the step loop, a rejection gives the run up
        without starting anything, and otherwise the human's answer decides. */
    ghost predicate Followed(s: StepEngine.Snap, s': StepEngine.Snap, mid: StepEngine.Snap, run: RunId, at: nat, r: Option<RunResult>) {
      && (Cps(c, s) == [] ==> StartedAgain(s, s', r))
      && (forall status, verdict | LastSays(s, status, verdict) ::
            if status == "COMPLETED" || verdict == Some("APPROVED") || verdict == Some("OVERRIDDEN") then StartedAgain(s, s', r)
            else if verdict == Some("REJECTED") then GivenUp(s, s', run, r)
            else Heard(s, s', mid, run, at, r))
    }

    lemma TakenUpFollows(s: StepEngine.Snap, s1: StepEngine.Snap, s': StepEngine.Snap, mid: StepEngine.Snap, run: RunId, at: nat,
                         r: Option<RunResult>)
      requires Cps(c, s1) == Cps(c, s) && TakenUp(NextAction(s1), s, s', mid, run, at, r)
      ensures Followed(s, s', mid, run, at, r)
    {
      hide StartedAgain, GivenUp, Heard, Says;
      forall status, verdict | LastSays(s, status, verdict)
        ensures NextAction(s1) == if status == "COMPLETED" || verdict == Some("APPROVED") || verdict == Some("OVERRIDDEN") then Run
                                  else if verdict == Some("REJECTED") then FailHitl
                                  else AwaitHitl
      {
        ResumeFollows(c, Cps(c, s), status, verdict);
      }
    }

    lemma TakenUpLater(action: ResumeAction, s: StepEngine.Snap, s1: StepEngine.Snap, s': StepEngine.Snap, mid: StepEngine.Snap, run: RunId,
                       at: nat, r: Option<RunResult>)
      requires Quiet(c, s, s1) && TakenUp(action, s1, s', mid, run, at, r)
      ensures TakenUp(action, s, s', mid, run, at, r)
    {
      QuietFacts(c, s, s1);
      hide Quiet, Awaited;
      if Quiet(c, s1, mid) {
        QuietTwice(c, s, s1, mid);
      }
    }

    lemma NotTakenUp(action: ResumeAction, s: StepEngine.Snap, s': StepEngine.Snap, run: RunId, at: nat)
      requires Quiet(c, s, s')
      ensures TakenUp(action, s, s', s', run, at, Some(Interrupted))
    {
    }

    /** The run at its resume point. */
    method TakeUp(idx: nat, action: ResumeAction, sha: string, run: RunId)
        returns (r: Option<RunResult>, ghost mid: StepEngine.Snap)
      requires Good(c, Snap()) && used <= |script| && OwnRun(c, Snap(), run) && Ready(c, Snap()) && Ours(c, Snap(), run)
      requires idx == Progress(c, Snap()) && starts + 1 <= TaskOf(c, Snap()).attempts + resumed
      requires action != Run ==> idx < c.Size()
      modifies this`used, this`sessions, this`launches, this`passed, this`starts, this`resumed, engine, overlay
      ensures Good(c, Snap()) && Forward(c, old(Snap()), Snap()) && old(used) <= used <= |script|
      ensures r == Some(Interrupted) ==> Stopped()
      ensures r != Some(Interrupted) ==> used > old(used)
      ensures r == Some(Finished) ==> Alive(c, sessions) == {} && Idle(c, Snap())
      ensures r != Some(Interrupted) && old(RowFront(c, Snap())) ==> RowFront(c, Snap())
      ensures action == Run && Calm(script) && old(AtRest(c, Snap())) ==> CalmTurn(old(Snap()), Snap(), r, used - old(used), 10)
      ensures action == Run ==> FreshCut(old(used), idx, sha, old(Snap()), Snap(), run, r, used)
      ensures TakenUp(action, old(Snap()), Snap(), mid, run, old(used), r)
    {
      hide Idle, Good, Quiet, Alive, RowFront, Forward, Cps, Progress, Heard, Ours, Still, FreshCut, CalmTurn, Calm, TasksMove,
           HeldOrLost, Cleared, AtRest, Stopped;
      mid := Snap();
      match action {
        case FailHitl =>
          var ok, _ := FailRun(run);
          QuietFacts(c, old(Snap()), Snap());
          StillForward(c, old(Snap()), Snap());
          RowFrontKept(c, old(Snap()), Snap());
          GoodEngine(c, Snap());
          return Some(if ok then Finished else Interrupted), mid;
        case AwaitHitl =>
          r, mid := HitlAwaitAndRerun(idx, sha, run);
        case Run =>
          ghost var outcome, when;
          r, outcome, when := RunFresh(idx, sha, run);
      }
    }

    /** What a turn of a calm run costs and where it leads. */
    ghost predicate CalmTurn(s: StepEngine.Snap, s': StepEngine.Snap, r: Option<RunResult>, calls: int, extra: nat) {
      && CalmCost(c, s, s', calls, extra) && AtRest(c, s')
      && TaskOf(c, s').attempts == TaskOf(c, s).attempts
      && (r != Some(Interrupted) ==> Waiting(TaskOf(c, s')))
      && (r == Some(Finished) ==> Over(s'))
    }

    /** The step loop, then its end. */
    lemma SettledCalm(s: StepEngine.Snap, s1: StepEngine.Snap, s2: StepEngine.Snap, s': StepEngine.Snap, run: RunId,
                      r: Option<RunResult>, calls: int)
      requires AtRest(c, s) && Ours(c, s, run) && s1 == s.(starts := s1.starts) && Onward(c, s1, s2) && Still(c, s2, s')
      requires r != Some(Interrupted) ==> TaskOf(c, s').currentRun != Some(run)
      requires r == Some(Finished) ==> Progress(c, s') == c.Size()
      requires calls <= 9 * (|s2.launches| - |s.launches|) + 4 * (Progress(c, s2) - Progress(c, s)) + 10
      ensures CalmTurn(s, s', r, calls, 10)
    {
      assert Cps(c, s1) == Cps(c, s);
      hide CompletedNames, Inv, IsDone;
    }

    /** A call before it. */
    lemma TickedCalm(s: StepEngine.Snap, s1: StepEngine.Snap, s': StepEngine.Snap, r: Option<RunResult>, calls: int)
      requires AtRest(c, s) && Quiet(c, s, s1) && CalmTurn(s1, s', r, calls - 1, 10)
      ensures CalmTurn(s, s', r, calls, 11)
    {
      hide CompletedNames, Inv, IsDone;
    }

    lemma StoppedCalm(s: StepEngine.Snap, s': StepEngine.Snap, calls: int)
      requires AtRest(c, s) && Quiet(c, s, s') && calls <= 11
      ensures CalmTurn(s, s', Some(Interrupted), calls, 11)
    {
      hide CompletedNames, Inv, IsDone;
    }

    /** The step loop under a claim, and what `run_workflow` makes of its outcome. */
    method RunFresh(idx: nat, sha: string, run: RunId)
        returns (r: Option<RunResult>, ghost outcome: Outcome, ghost mid: StepEngine.Snap)
      requires Good(c, Snap()) && used <= |script| && OwnRun(c, Snap(), run) && Ready(c, Snap()) && Ours(c, Snap(), run)
      requires idx == Progress(c, Snap()) && starts + 1 <= TaskOf(c, Snap()).attempts + resumed
      modifies this`used, this`sessions, this`launches, this`passed, this`starts, this`resumed, engine, overlay
      ensures Good(c, Snap()) && Forward(c, old(Snap()), Snap()) && old(used) <= used <= |script|
      ensures r == Some(Interrupted) ==> Stopped()
      ensures r != Some(Interrupted) ==> used > old(used) && RowFront(c, Snap())
      ensures r == Some(Finished) ==> Alive(c, sessions) == {} && Idle(c, Snap())
      ensures r == Some(Finished) && outcome == AllDone ==> Concluded(c, mid, Snap(), run)
      ensures starts > old(starts)
      ensures Calm(script) && old(AtRest(c, Snap())) ==> CalmTurn(old(Snap()), Snap(), r, used - old(used), 10)
      ensures FreshCut(old(used), idx, sha, old(Snap()), Snap(), run, r, used)
    {
      hide Idle, Good, Quiet, Still, Onward, InRun, Alive, RowFront, Forward, Inv, Cps, Progress, Ours, Concluded, Ready,
           CutShort, FreshCut, CalmTurn, AtRest, Calm, TasksMove, HeldOrLost, LastDone, Stopped;
      EnterKeepsGood(c, Snap(), resumed);
      starts := starts + 1;
      ghost var s1 := Snap();
      assert s1 == old(Snap()).(starts := s1.starts, resumed := s1.resumed);
      EnteredIsReady(c, old(Snap()), s1, run);
      SameForward(c, old(Snap()), s1);
      var steps := RunSteps(idx, sha);
      outcome := steps;
      ghost var s2 := Snap();
      ghost var u2 := used;
      mid := s2;
      OnwardFacts(c, s1, s2);
      OwnRunStays(c, s1, s2, run);
      OursStays(c, s1, s2, run);
      OnwardForward(c, s1, s2);
      ForwardTwice(c, old(Snap()), s1, s2);
      RowFrontThere(c, s2);
      if steps.StepSuspended? {
        ghost var when;
        r, when := HitlAwaitAndRerun(steps.step, sha, run);
        ForwardTwice(c, old(Snap()), s2, Snap());
        CutIsFresh(old(used), idx, sha, old(Snap()), s1, s2, false, Snap(), run, r, u2, used);
        return;
      }
      r, mid := Settle(run, steps);
      CutIsFresh(old(used), idx, sha, old(Snap()), s1, s2, steps == Cut, Snap(), run, r, u2, used);
      StillFacts(c, s2, Snap());
      ReadyIsEmpty(c, s2);
      RowFrontKept(c, s2, Snap());
      StillForward(c, s2, Snap());
      ForwardTwice(c, old(Snap()), s2, Snap());
      if Calm(script) && AtRest(c, old(Snap())) {
        SettledCalm(old(Snap()), s1, s2, Snap(), run, r, used - old(used));
      }
    }

    /** The sweep, then a claim. */
    method NextRun() returns (ok: bool, run: Option<RunId>)
      requires Good(c, Snap()) && used <= |script|
      modifies this`used, this`sessions, this`resumed, engine, overlay
      ensures SameMax(c, old(Snap()), Snap()) && Progress(c, Snap()) == old(Progress(c, Snap()))
      ensures Good(c, Snap()) && Cps(c, Snap()) == old(Cps(c, Snap())) && overlay.rows.Keys == old(overlay.rows.Keys)
      ensures old(used) <= used <= |script| && used <= old(used) + c.Size() + 2
      ensures old(used) < |script| ==> used > old(used)
      ensures ok <==> AllCome(old(used), |HostList(c, c.Size())| + 1)
      ensures ok ==> used == old(used) + |HostList(c, c.Size())| + 1 && Alive(c, sessions) == {}
      ensures !ok ==> Stopped() && run.None?
      ensures sessions <= old(sessions) && forall x | x in old(sessions) && x !in sessions :: x in Alive(c, old(sessions))
      ensures run.Some? ==> OwnRun(c, Snap(), run.value) && TaskOf(c, Snap()).currentRun == run && Ready(c, Snap())
      ensures run.Some? ==> starts + 1 <= TaskOf(c, Snap()).attempts + resumed
      ensures old(AtRest(c, Snap())) ==> AtRest(c, Snap()) && resumed == old(resumed)
      ensures old(Waiting(TaskOf(c, Snap()))) && old(AtRest(c, Snap())) ==> OnlyClaimed(old(Snap()), Snap(), run)
      ensures old(Waiting(TaskOf(c, Snap()))) && ok && run.None? ==> !NonTerminal(old(TaskOf(c, Snap())))
      ensures ok && Ripe(old(used), old(Snap())) ==>
                run.Some? && TaskOf(c, Snap()).attempts <= old(TaskOf(c, Snap()).attempts) + 1
    {
      hide Good, Quiet, Alive, LastDone, Inv, CompletedNames, HostList, Ready, HeldOrLost;
      GoodEngine(c, Snap());
      ok := KillStaleSessions();
      ghost var s1 := Snap();
      QuietFacts(c, old(Snap()), s1.(sessions := old(sessions)));
      assert Cps(c, s1) == Cps(c, s1.(sessions := old(sessions)));
      run := None;
      if ok {
        RipeNow(old(used), old(Snap()), s1.(sessions := old(sessions)));
        ok, run := ClaimNext();
        GoodEngine(c, Snap());
      }
    }

    /** A run can be claimed after the sweep: it waits, or the lease of a dead
        daemon expires first. */
    ghost predicate Ripe(at: nat, s: StepEngine.Snap) {
      && c.task in s.engine.tasks && TaskOf(c, s).attempts < TaskOf(c, s).maxAttempts
      && if TaskOf(c, s).currentRun.Some? then at < |script| && script[at].expire
         else Waiting(TaskOf(c, s)) && NonTerminal(TaskOf(c, s))
    }

    lemma RipeNow(at: nat, s: StepEngine.Snap, s1: StepEngine.Snap)
      requires Good(c, s) && Quiet(c, s, s1)
      requires at < |script| && script[at].expire ==> TaskOf(c, s1).currentRun.None?
      ensures Ripe(at, s) ==> Waiting(TaskOf(c, s1)) && NonTerminal(TaskOf(c, s1))
    {
      hide Good;
    }

    /** In this turn of the claim loop the daemon dies in call `e`, in the `tries`-th session of step `j`. */
    ghost predicate DiesIn(at: nat, s: StepEngine.Snap, j: nat, tries: nat, e: nat) {
      var h := |HostList(c, c.Size())| + 1;
      && AtRest(c, s) && Ripe(at, s) && AllCome(at, h + 1) && Comes(at + h)
      && Falls(at + h + 1, Progress(c, s), j, script[at + h].sha, tries, e)
    }

    /** That session is left alive, and unless it was killed by its own name so is
        every other one that the sweep does not see. */
    ghost predicate LeftAlive(s: StepEngine.Snap, s': StepEngine.Snap, j: nat, tries: nat) {
      && c.task in s.engine.tasks && c.task in s'.engine.tasks && Fell(s', j, tries)
      && TaskOf(c, s').attempts <= TaskOf(c, s).attempts + 1 && TaskOf(c, s').maxAttempts == TaskOf(c, s).maxAttempts
      && (TaskOf(c, s').currentRun.Some? || Lost(TaskOf(c, s')))
      && (Progress(c, s) == j && tries == 1 ==> s.sessions - Alive(c, s.sessions) <= s'.sessions)
    }

    ghost predicate RoundCut(at: nat, s: StepEngine.Snap, s': StepEngine.Snap, r: Option<RunResult>, u': nat) {
      forall j: nat, tries: nat, e: nat | DiesIn(at, s, j, tries, e) ::
        r == Some(Interrupted) && u' == Behind(e) && LeftAlive(s, s', j, tries)
    }

    lemma NotRound(at: nat, s: StepEngine.Snap, s': StepEngine.Snap, r: Option<RunResult>, u': nat)
      requires !AllCome(at, |HostList(c, c.Size())| + 1) || !Ripe(at, s)
      ensures RoundCut(at, s, s', r, u')
    {
      hide Ripe, HostList, Falls, AtRest, Comes;
    }

    lemma ClaimIsRound(at: nat, s: StepEngine.Snap, s2: StepEngine.Snap, s': StepEngine.Snap, run: RunId, r: Option<RunResult>, u': nat)
      requires ClaimCut(at + |HostList(c, c.Size())| + 1, s2, s', run, r, u')
      requires c.task in s.engine.tasks && c.task in s2.engine.tasks
      requires Progress(c, s2) == Progress(c, s) && (AtRest(c, s) ==> AtRest(c, s2))
      requires Ripe(at, s) ==>
                 && TaskOf(c, s2).attempts <= TaskOf(c, s).attempts + 1
                 && TaskOf(c, s2).maxAttempts == TaskOf(c, s).maxAttempts
      requires s.sessions - Alive(c, s.sessions) <= s2.sessions
      ensures RoundCut(at, s, s', r, u')
    {
      hide Ripe, Behind, HostList, Falls, AtRest, Alive, Fell, CompletedNames;
      var h := |HostList(c, c.Size())| + 1;
      forall j: nat, tries: nat, e: nat | DiesIn(at, s, j, tries, e)
        ensures r == Some(Interrupted) && u' == Behind(e) && LeftAlive(s, s', j, tries)
      {
        assert Falls(at + h + 1, Progress(c, s2), j, script[at + h].sha, tries, e);
      }
    }

    /** What a turn of the claim loop costs in a calm run, and where it leads. */
    ghost predicate CalmRound(s: StepEngine.Snap, s': StepEngine.Snap, r: Option<RunResult>, calls: int) {
      && CalmCost(c, s, s', calls, TurnCost(c))
      && TaskOf(c, s).attempts + (if r.None? then 1 else 0) <= TaskOf(c, s').attempts
      && (r != Some(Interrupted) ==> Waiting(TaskOf(c, s')))
      && (r == Some(Finished) ==> Over(s'))
    }

    /** The sweep and the claim leave the rest alone. */
    ghost predicate OnlyClaimed(s: StepEngine.Snap, s2: StepEngine.Snap, run: Option<RunId>) {
      && SameMax(c, s, s2) && s2.launches == s.launches && s2.resumed == s.resumed && Progress(c, s2) == Progress(c, s)
      && if run.Some? then TaskOf(c, s).pendingRuns != [] && TaskOf(c, s2) == ClaimTask(TaskOf(c, s))
         else TaskOf(c, s2) == TaskOf(c, s)
    }

    lemma UnclaimedCalm(s: StepEngine.Snap, s2: StepEngine.Snap, s': StepEngine.Snap, r: Option<RunResult>, calls: int)
      requires OnlyClaimed(s, s2, None) && Waiting(TaskOf(c, s)) && Quiet(c, s2, s') && calls <= TurnCost(c)
      requires r == Some(Interrupted) || (r == Some(Finished) && !NonTerminal(TaskOf(c, s)))
      ensures CalmRound(s, s', r, calls)
    {
      hide CompletedNames, Inv;
    }

    lemma ClaimedCalm(s: StepEngine.Snap, s2: StepEngine.Snap, s': StepEngine.Snap, run: RunId, r: Option<RunResult>, before: int, calls: int)
      requires OnlyClaimed(s, s2, Some(run)) && AtRest(c, s) && CalmTurn(s2, s', r, calls, 11) && before <= c.Size() + 2
      ensures CalmRound(s, s', r, before + calls)
    {
      hide CompletedNames, Inv, Over;
    }

    /** One turn of the claim loop: None means it goes round again. */
    method Round() returns (r: Option<RunResult>)
      requires Good(c, Snap()) && used <= |script|
      modifies this`used, this`sessions, this`launches, this`passed, this`starts, this`resumed, engine, overlay
      ensures Good(c, Snap()) && Forward(c, old(Snap()), Snap()) && old(used) <= used <= |script|
      ensures r == Some(Interrupted) ==> Stopped()
      ensures old(used) < |script| || r != Some(Interrupted) ==> used > old(used)
      ensures r == Some(Finished) ==> Alive(c, sessions) == {} && Idle(c, Snap())
      ensures r != Some(Interrupted) && old(RowFront(c, Snap())) ==> RowFront(c, Snap())
      ensures Calm(script) && old(AtRest(c, Snap())) ==> AtRest(c, Snap()) && resumed == old(resumed)
      ensures Calm(script) && old(AtRest(c, Snap())) && old(Waiting(TaskOf(c, Snap()))) ==>
                CalmRound(old(Snap()), Snap(), r, used - old(used))
      ensures RoundCut(old(used), old(Snap()), Snap(), r, used)
    {
      hide Idle, Good, Quiet, Alive, RowFront, Forward, Inv, Cps, Progress, Ready, HostList, RoundCut, ClaimCut, AtRest, Calm,
           CalmRound, CalmTurn, ClaimTask, Over, NonTerminal, HeldOrLost, TasksMove;
      GoodEngine(c, Snap());
      ghost var s0, u0 := Snap(), used;
      var ok, run := NextRun();
      ghost var s2, u2 := Snap(), used;
      SameForward(c, s0, s2);
      RowFrontKept(c, s0, s2);
      GoodEngine(c, s2);
      if run.Some? {
        ghost var mid;
        r, mid := RunClaimed(run.value);
        ForwardTwice(c, s0, s2, Snap());
        ClaimIsRound(u0, s0, s2, Snap(), run.value, r, used);
        if Calm(script) && AtRest(c, s0) {
          TurnAtRest(s2, Snap(), r, used - u2);
          if Waiting(TaskOf(c, s0)) {
            ClaimedCalm(s0, s2, Snap(), run.value, r, u2 - u0, used - u2);
          }
        }
        return;
      }
      r := Some(Interrupted);
      QuietSame(c, s2);
      if ok {
        var more := IsNonTerminal();
        OverIsIdle(c, Snap());
        r := if more == Some(true) then None else Some(if more.None? then Interrupted else Finished);
      }
      NotRound(u0, s0, Snap(), r, used);
      QuietFacts(c, s2, Snap());
      StillForward(c, s2, Snap());
      ForwardTwice(c, s0, s2, Snap());
      RowFrontKept(c, s2, Snap());
      RestKept(c, s2, Snap());
      WaitingStays(c, s2, Snap());
      if Calm(script) && AtRest(c, s0) && Waiting(TaskOf(c, s0)) {
        UnclaimedCalm(s0, s2, Snap(), r, used - u0);
      }
    }

    lemma TurnAtRest(s: StepEngine.Snap, s': StepEngine.Snap, r: Option<RunResult>, calls: int)
      requires CalmTurn(s, s', r, calls, 11)
      ensures AtRest(c, s') && s'.resumed == s.resumed
    {
    }

    /** `run_workflow`: Finished is an Ok return, Interrupted an Err or a crash. */
    method RunWorkflow() returns (r: RunResult)
      requires Good(c, Snap()) && used <= |script|
      modifies this`used, this`sessions, this`launches, this`passed, this`starts, this`resumed, engine, overlay
      ensures Good(c, Snap()) && Forward(c, old(Snap()), Snap()) && old(used) <= used <= |script|
      ensures r == Interrupted ==> Stopped()
      ensures old(used) < |script| ==> used > old(used)
      ensures r == Finished ==> Alive(c, sessions) == {} && Idle(c, Snap())
      ensures r == Finished && old(RowFront(c, Snap())) ==> RowFront(c, Snap())
      ensures Calm(script) && old(AtRest(c, Snap())) ==> AtRest(c, Snap()) && resumed == old(resumed)
      ensures Calm(script) && old(AtRest(c, Snap())) && old(Waiting(TaskOf(c, Snap()))) ==>
                && (r == Finished ==> Waiting(TaskOf(c, Snap())) && Over(Snap()))
                && CalmTurns(c, old(Snap()), Snap(), used - old(used), 1)
      ensures RoundCut(old(used), old(Snap()), Snap(), Some(r), used)
    {
      hide Idle, Good, RowFront, Forward, Alive, AtRest, CalmTurns, CalmCost, Inv, CompletedNames, RoundCut;
      ghost var s0 := Snap();
      GoodEngine(c, s0);
      SameForward(c, s0, s0);
      NoTurns(c, s0);
      ghost var calm := Calm(script) && AtRest(c, s0);
      while true
        invariant Good(c, Snap()) && Forward(c, s0, Snap()) && old(used) <= used <= |script|
        invariant (used == old(used) && Snap() == s0) || (old(used) < used && RoundCut(old(used), s0, Snap(), None, used))
        invariant RowFront(c, s0) ==> RowFront(c, Snap())
        invariant calm ==> AtRest(c, Snap()) && resumed == old(resumed)
        invariant calm && Waiting(TaskOf(c, s0)) ==>
                    CalmTurns(c, s0, Snap(), used - old(used), 0) && c.task in engine.tasks && Waiting(TaskOf(c, Snap()))
        decreases |script| - used
      {
        ghost var s1 := Snap();
        ghost var u1 := used;
        var turn := Round();
        ForwardTwice(c, s0, s1, Snap());
        NoLaterCut(old(used), s0, s1, Snap(), turn, u1, used);
        if calm && Waiting(TaskOf(c, s0)) {
          OneMoreTurn(c, s0, s1, Snap(), u1 - old(used), used - u1, turn.None?);
        }
        if turn.Some? {
          return turn.value;
        }
      }
    }

    /** Only the first turn can be the one the script cuts short. */
    lemma NoLaterCut(at: nat, s: StepEngine.Snap, s1: StepEngine.Snap, s': StepEngine.Snap, r: Option<RunResult>, u: nat, u': nat)
      ensures RoundCut(at, s, s1, None, u) ==> RoundCut(at, s, s', r, u')
    {
      hide DiesIn, LeftAlive;
    }

    /** Any number of lifetimes of the daemon: after each return or crash,
        `run_workflow` starts again on whatever state was left. */
    method Lifetimes()
      requires Good(c, Snap()) && used <= |script|
      modifies this`used, this`sessions, this`launches, this`passed, this`starts, this`resumed, engine, overlay
      ensures Good(c, Snap()) && Forward(c, old(Snap()), Snap()) && used == |script|
      ensures Calm(script) && old(AtRest(c, Snap())) ==> AtRest(c, Snap()) && resumed == old(resumed)
    {
      hide Good, RowFront, Forward, Alive, AtRest, RoundCut;
      GoodEngine(c, Snap());
      SameForward(c, Snap(), Snap());
      while used < |script|
        invariant Good(c, Snap()) && Forward(c, old(Snap()), Snap()) && old(used) <= used <= |script|
        invariant Calm(script) && old(AtRest(c, Snap())) ==> AtRest(c, Snap()) && resumed == old(resumed)
      {
        ghost var s1 := Snap();
        var r := RunWorkflow();
        ForwardTwice(c, old(Snap()), s1, Snap());
      }
    }
  }

  /** The state once the next run is claimed; a woken run counts as resumed. */
  function AfterClaim(c: Config, s: StepEngine.Snap): StepEngine.Snap
    requires c.task in s.engine.tasks
  {
    var (e, claimed) := Claim(s.engine, c.queue);
    s.(engine := e, resumed := s.resumed + if claimed.Some? && TaskOf(c, s).woken then 1 else 0)
  }

  lemma ClaimEffect(c: Config, s: StepEngine.Snap)
    requires Good(c, s)
    ensures var claimed := Claim(s.engine, c.queue).1;
            var t := TaskOf(c, s);
            var s' := AfterClaim(c, s);
            && Good(c, s') && Cps(c, s') == Cps(c, s) && SameMax(c, s, s')
            && (claimed.Some? ==>
                  && t.pendingRuns != [] && claimed.value.run == t.pendingRuns[0] && TaskOf(c, s') == ClaimTask(t)
                  && OwnRun(c, s', t.pendingRuns[0]) && (Alive(c, s.sessions) == {} ==> Ready(c, s'))
                  && s'.starts + 1 <= TaskOf(c, s').attempts + s'.resumed)
            && (claimed.None? ==> s' == s && (Waiting(t) ==> !NonTerminal(t)))
  {
    hide Good;
    OneTask(c, s);
    ClaimOfQueue(c, s);
    if Waiting(TaskOf(c, s)) {
      WaitingIsClaimableOrFinal(c, s);
    }
    if Claimable(s.engine, c.task) {
      ClaimKeepsGood(c, s);
    }
  }

  lemma ClaimAtRest(c: Config, s: StepEngine.Snap)
    requires Good(c, s)
    ensures AtRest(c, s) ==> AtRest(c, AfterClaim(c, s)) && AfterClaim(c, s).resumed == s.resumed
  {
    hide Good;
    ClaimEffect(c, s);
  }

  lemma ClaimSameMax(c: Config, s0: StepEngine.Snap, s: StepEngine.Snap, s': StepEngine.Snap)
    requires SameMax(c, s0, s) && SameMax(c, s, s')
    ensures SameMax(c, s0, s')
  {
  }

  /** What a calm stretch of `calls` calls costs, up to `extra` calls. */
  ghost predicate CalmCost(c: Config, s: StepEngine.Snap, s': StepEngine.Snap, calls: int, extra: nat) {
    && c.task in s.engine.tasks && c.task in s'.engine.tasks
    && s'.resumed == s.resumed && TaskOf(c, s').maxAttempts == TaskOf(c, s).maxAttempts
    && calls <= 9 * (|s'.launches| - |s.launches|) + 4 * (Progress(c, s') - Progress(c, s)) + extra
  }

  function TurnCost(c: Config): nat {
    c.Size() + 13
  }

  /** The turns of a calm claim loop cost one attempt each, but for the last. */
  ghost predicate CalmTurns(c: Config, s: StepEngine.Snap, s': StepEngine.Snap, calls: int, extra: nat) {
    && c.task in s.engine.tasks && c.task in s'.engine.tasks && TaskOf(c, s).attempts <= TaskOf(c, s').attempts
    && CalmCost(c, s, s', calls, Allowance(TurnCost(c), TaskOf(c, s').attempts - TaskOf(c, s).attempts + extra))
  }

  lemma NoTurns(c: Config, s: StepEngine.Snap)
    requires Good(c, s)
    ensures c.task in s.engine.tasks && CalmTurns(c, s, s, 0, 0)
  {
  }

  lemma OneMoreTurn(c: Config, s: StepEngine.Snap, s': StepEngine.Snap, s'': StepEngine.Snap, before: int, calls: int, again: bool)
    requires CalmTurns(c, s, s', before, 0) && CalmCost(c, s', s'', calls, TurnCost(c))
    requires TaskOf(c, s').attempts + (if again then 1 else 0) <= TaskOf(c, s'').attempts
    ensures CalmTurns(c, s, s'', before + calls, if again then 0 else 1)
  {
    var a := TaskOf(c, s').attempts - TaskOf(c, s).attempts;
    AllowanceGrows(TurnCost(c), a + 1, TaskOf(c, s'').attempts - TaskOf(c, s).attempts + if again then 0 else 1);
  }

  /** Only an approving first event approves; a timeout never does; and a run
      without an answer is parked. */
  lemma AwaitedVerdict(c: Config, s: StepEngine.Snap, run: RunId, timedOut: bool)
    requires c.task in s.engine.tasks
    ensures var (e, outcome) := Await(s.engine, c.queue, c.task, run, c.Event(), timedOut);
            var events := Events(s.engine, c.queue, c.Event());
            && c.task in e.tasks
            && AwaitResult(outcome) == (if events != [] then (if Approves(events[0]) then Approved else RejectedOrTimeout)
                                        else if timedOut then RejectedOrTimeout else AwaitSuspended)
            && (AwaitResult(outcome) == AwaitSuspended <==> outcome == AwaitOutcome.Suspended)
            && (outcome == AwaitOutcome.Suspended ==> e.tasks[c.task].currentRun != Some(run))
  {
  }

  lemma OneTask(c: Config, s: StepEngine.Snap)
    requires Good(c, s)
    ensures c.task in s.engine.tasks && Order(s.engine, c.queue) == [c.task]
  {
  }

  lemma ResumeFacts(c: Config, s: StepEngine.Snap)
    requires Good(c, s)
    ensures var (idx, action) := ResumePoint(c.Steps(), LastCheckpoint(s.engine, c.task), c.task);
            && idx == Progress(c, s) <= c.Size()
            && (LastDone(Cps(c, s), c.task) ==> action == Run)
            && (action != Run ==> idx < c.Size())
  {
    ResumeIsPrefixLength(c, Cps(c, s));
  }

  lemma RowFrontKept(c: Config, s: StepEngine.Snap, s': StepEngine.Snap)
    requires s'.rows.Keys == s.rows.Keys && Progress(c, s') == Progress(c, s)
    ensures RowFront(c, s) ==> RowFront(c, s')
  {
  }

  lemma RowFrontThere(c: Config, s: StepEngine.Snap)
    ensures Progress(c, s) >= c.Size() ==> RowFront(c, s)
    ensures Progress(c, s) < c.Size() && (c.task, c.Steps()[Progress(c, s)].name) in s.rows ==> RowFront(c, s)
  {
  }

  lemma RestKept(c: Config, s: StepEngine.Snap, s': StepEngine.Snap)
    requires Quiet(c, s, s')
    ensures AtRest(c, s) ==> AtRest(c, s')
    ensures AtRest(c, s) ==> LastDone(Cps(c, s'), c.task)
  {
  }

  lemma StartsKept(c: Config, s: StepEngine.Snap, s': StepEngine.Snap)
    requires TasksMove(c, s, s') && s'.starts == s.starts && s'.resumed == s.resumed
    ensures TaskOf(c, s').attempts + s'.resumed == TaskOf(c, s).attempts + s.resumed
  {
  }

  lemma KeyKept(s: StepEngine.Snap, s': StepEngine.Snap, key: RowKey)
    requires s.rows.Keys <= s'.rows.Keys && key in s.rows
    ensures key in s'.rows
  {
  }

  lemma QuietAcross(c: Config, s0: StepEngine.Snap, s1: StepEngine.Snap, s2: StepEngine.Snap, sessions: set<Session>)
    requires Quiet(c, s0, s1.(sessions := sessions)) && Quiet(c, s1, s2)
    ensures Quiet(c, s0, s2.(sessions := sessions))
  {
  }

  lemma NoRunStays(c: Config, s: StepEngine.Snap, s': StepEngine.Snap)
    requires Quiet(c, s, s')
    ensures s'.sessions == s.sessions && c.task in s.engine.tasks && c.task in s'.engine.tasks
    ensures TaskOf(c, s).currentRun.None? ==> TaskOf(c, s').currentRun.None?
  {
  }

  lemma WaitingStays(c: Config, s: StepEngine.Snap, s': StepEngine.Snap)
    requires Quiet(c, s, s')
    ensures c.task in s.engine.tasks && c.task in s'.engine.tasks
    ensures Waiting(TaskOf(c, s)) ==> TaskOf(c, s') == TaskOf(c, s)
    ensures SameMax(c, s, s') && s'.resumed == s.resumed && Cps(c, s') == Cps(c, s)
  {
  }

  lemma AliveShrinks(c: Config, sessions: set<Session>, fewer: set<Session>)
    requires fewer <= sessions
    ensures Alive(c, fewer) <= Alive(c, sessions)
  {
  }

  lemma SomeHost(c: Config)
    ensures 1 <= |HostList(c, c.Size())| <= c.Size() + 1
  {
    HostListIsExact(c, c.Size());
  }

  lemma AliveHosts(c: Config, s: StepEngine.Snap)
    requires Good(c, s)
    ensures forall x | x in Alive(c, s.sessions) :: x.place.host in HostList(c, c.Size())
  {
    HostListIsExact(c, c.Size());
  }

  lemma OnwardSame(c: Config, s: StepEngine.Snap)
    requires Good(c, s)
    ensures Onward(c, s, s)
  {
  }

  lemma NoneElse(c: Config, s: StepEngine.Snap, x: Session)
    requires Alive(c, s.sessions) == {} && Cleared(c, s, {})
    ensures Alive(c, s.sessions - {x}) == {} && Cleared(c, s, {x})
  {
  }

  lemma NoSessionToKill(c: Config, sessions: set<Session>, x: Session)
    requires Alive(c, sessions) == {}
    ensures Alive(c, sessions - {x}) == {}
  {
  }

  /** The hosts to sweep: the local one, then each distinct host of the first `k` steps. */
  function HostList(c: Config, k: nat): seq<Option<string>>
    requires k <= c.Size()
  {
    if k == 0 then [None]
    else
      var hosts := HostList(c, k - 1);
      var h := StepHost(c.recipe, c.Steps()[k - 1]);
      if h in hosts then hosts else hosts + [h]
  }

  /** They are the hosts a step can use. */
  lemma {:induction false} HostListIsExact(c: Config, k: nat)
    requires k <= c.Size()
    ensures 1 <= |HostList(c, k)| <= k + 1
    ensures forall h :: h in HostList(c, k) <==> h == None || exists j :: 0 <= j < k && StepHost(c.recipe, c.Steps()[j]) == h
  {
    if k > 0 {
      HostListIsExact(c, k - 1);
    }
  }

  lemma ReadyForFirst(c: Config, s: StepEngine.Snap)
    requires Ready(c, s) && Progress(c, s) < c.Size()
    ensures Alive(c, s.sessions) == {}
    ensures Cleared(c, s, if c.Steps()[Progress(c, s)].command.Some? then {StepSession(c, Progress(c, s), 0)} else {})
  {
  }

  lemma ClearedMore(c: Config, s: StepEngine.Snap, x: Session)
    requires Cleared(c, s, {})
    ensures Cleared(c, s, {x})
  {
  }

  lemma ReadyAnyway(c: Config, s: StepEngine.Snap)
    ensures Alive(c, s.sessions) == {} && Cleared(c, s, {}) ==> Ready(c, s)
  {
  }

  lemma ReadyIsEmpty(c: Config, s: StepEngine.Snap)
    ensures Ready(c, s) ==> Alive(c, s.sessions) == {}
  {
  }

  lemma ReadyKept(c: Config, s: StepEngine.Snap, s': StepEngine.Snap)
    requires s'.engine.tasks == s.engine.tasks && s'.sessions == s.sessions && Progress(c, s') == Progress(c, s)
    ensures Ready(c, s) ==> Ready(c, s')
    ensures forall run | Ours(c, s, run) :: Ours(c, s', run)
  {
  }

  lemma MaxKept(c: Config, s: StepEngine.Snap, s': StepEngine.Snap)
    requires TasksMove(c, s, s')
    ensures SameMax(c, s, s')
  {
  }

  lemma EnteredIsReady(c: Config, s: StepEngine.Snap, s': StepEngine.Snap, run: RunId)
    requires s' == s.(starts := s'.starts, resumed := s'.resumed)
    ensures Progress(c, s') == Progress(c, s) && (Ready(c, s) ==> Ready(c, s'))
    ensures Ours(c, s, run) ==> Ours(c, s', run)
    ensures OwnRun(c, s, run) ==> OwnRun(c, s', run)
  {
  }

  /** What becomes of a task whose steps are all done when `run` is completed in
      state `m`: completed if the claim is still held; otherwise it was lost, and
      the task is retried while attempts remain, else it has failed. */
  ghost predicate Concluded(c: Config, m: StepEngine.Snap, s: StepEngine.Snap, run: RunId) {
    && c.task in m.engine.tasks && c.task in s.engine.tasks && Progress(c, s) == c.Size()
    && var t := TaskOf(c, m);
       if t.currentRun == Some(run) then TaskOf(c, s) == t.(state := TaskState.Completed, currentRun := None)
       else
         && TaskOf(c, s) == t && Waiting(t)
         && t.state == if t.attempts < t.maxAttempts then TaskState.Sleeping else TaskState.Failed
  }

  lemma CompleteConcludes(c: Config, m: StepEngine.Snap, run: RunId)
    requires Good(c, m) && OwnRun(c, m, run) && Ours(c, m, run) && Progress(c, m) == c.Size()
    ensures Concluded(c, m, m.(engine := Complete(m.engine, run)), run)
  {
    hide Good;
    GoodEngine(c, m);
    HolderIsTask(c, m, run);
  }

  /** Nobody holds the task, and no run of it sleeps on a verdict. */
  ghost predicate Idle(c: Config, s: StepEngine.Snap) {
    c.task in s.engine.tasks && Waiting(TaskOf(c, s))
  }

  lemma FailIsIdle(c: Config, s: StepEngine.Snap, m: StepEngine.Snap, run: RunId)
    requires Good(c, m) && Quiet(c, s, m) && OwnRun(c, m, run)
    ensures Ours(c, s, run) ==> Idle(c, m.(engine := Fail(m.engine, run)))
  {
    QuietFacts(c, s, m);
    TaskIsOk(c, m);
    HolderIsTask(c, m, run);
    if Ours(c, s, run) {
      OursStays(c, s, m, run);
    }
    hide Good, Quiet;
  }

  lemma ConcludedIsIdle(c: Config, m: StepEngine.Snap, s: StepEngine.Snap, run: RunId)
    requires Good(c, m) && Concluded(c, m, s, run)
    ensures Idle(c, s)
  {
    TaskIsOk(c, m);
    hide Good;
  }

  lemma OverIsIdle(c: Config, s: StepEngine.Snap)
    requires Good(c, s)
    ensures c.task in s.engine.tasks && (!NonTerminal(TaskOf(c, s)) ==> Idle(c, s))
  {
    TaskIsOk(c, s);
  }
}
