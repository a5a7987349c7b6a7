/** The durable step engine as values: recipes, resume points, and the
    invariant that every run of `run_workflow` keeps
    (`janus/src/workflow/mod.rs`). The loops themselves are in StepRunner. */
module StepEngine {
  import opened Wrappers
  import opened Envelope
  import opened Engine
  import opened Sessions
  import opened Overlay

  datatype StepDef = StepDef(
    name: string,
    agent: string,
    command: Option<string>,
    host: Option<string>,
    maxCorrections: Option<nat>,
    sandbox: bool,
    guardsWrites: bool)

  datatype Recipe = Recipe(name: string, remoteHost: Option<string>, steps: seq<StepDef>)

  /** One task of one queue, with the same recipe across restarts. */
  datatype Config = Config(recipe: Recipe, task: Uuid, queue: string)
  {
    function Steps(): seq<StepDef> { recipe.steps }
    function Size(): nat { |recipe.steps| }
    function Event(): string { "hitl.verdict:" + task }
  }

  /** Step names are non-empty (checked by `validate_workflow_steps`) and
      distinct (not checked by the source; `resume_point` looks names up). */
  ghost predicate ValidConfig(c: Config) {
    && (forall i | 0 <= i < c.Size() :: c.Steps()[i].name != "")
    && (forall i, j | 0 <= i < j < c.Size() :: c.Steps()[i].name != c.Steps()[j].name)
  }

  function StepHost(recipe: Recipe, step: StepDef): Option<string> {
    if step.host.Some? then step.host else recipe.remoteHost
  }

  // --- Checkpoints and the resume point -------------------------------------

  type Checkpoint = (string, Json)

  /** The envelope's step name is authoritative; the row's name is the fallback. */
  function TargetName(cp: Checkpoint, task: Uuid): string {
    var e := ParseCheckpoint(cp.1, task);
    if e.stepName != "" then e.stepName else cp.0
  }

  predicate IsDone(cp: Checkpoint, task: Uuid) {
    ParseCheckpoint(cp.1, task).status == COMPLETED
  }

  /** The names of the COMPLETED checkpoints, in the order they were written. */
  function CompletedNames(cps: seq<Checkpoint>, task: Uuid): seq<string> {
    if cps == [] then []
    else
      var last := cps[|cps| - 1];
      CompletedNames(cps[..|cps| - 1], task) + if IsDone(last, task) then [TargetName(last, task)] else []
  }

  function Names(steps: seq<StepDef>, k: nat): (r: seq<string>)
    requires k <= |steps|
    ensures |r| == k && forall i | 0 <= i < k :: r[i] == steps[i].name
  {
    seq(k, i requires 0 <= i < k => steps[i].name)
  }

  /** The index of the first step with that name, 0 when there is none. */
  function Position(steps: seq<StepDef>, name: string, from: nat): nat
    requires from <= |steps|
    decreases |steps| - from
  {
    if from == |steps| then 0
    else if steps[from].name == name then from
    else Position(steps, name, from + 1)
  }

  lemma {:induction false} PositionOfStep(c: Config, from: nat, i: nat)
    requires ValidConfig(c) && from <= i < c.Size()
    ensures Position(c.Steps(), c.Steps()[i].name, from) == i
    decreases i - from
  {
    if from < i {
      PositionOfStep(c, from + 1, i);
    }
  }

  datatype ResumeAction = Run | AwaitHitl | FailHitl

  function ResumePoint(steps: seq<StepDef>, last: Option<Checkpoint>, task: Uuid): (nat, ResumeAction) {
    if last.None? then (0, Run)
    else
      var e := ParseCheckpoint(last.value.1, task);
      var idx := Position(steps, TargetName(last.value, task), 0);
      if e.status == COMPLETED then (idx + 1, Run)
      else if e.hitlVerdict == Some("APPROVED") || e.hitlVerdict == Some("OVERRIDDEN") then (idx, Run)
      else if e.hitlVerdict == Some("REJECTED") then (idx, FailHitl)
      else (idx, AwaitHitl)
  }

  /** The COMPLETED checkpoints name exactly a prefix of the steps, in order,
      each once; a last checkpoint that is not COMPLETED is about the next step. */
  ghost predicate PrefixOk(c: Config, cps: seq<Checkpoint>) {
    var done := CompletedNames(cps, c.task);
    && |done| <= c.Size()
    && done == Names(c.Steps(), |done|)
    && (cps == [] || IsDone(cps[|cps| - 1], c.task)
        || (|done| < c.Size() && TargetName(cps[|cps| - 1], c.task) == c.Steps()[|done|].name))
  }

  predicate LastDone(cps: seq<Checkpoint>, task: Uuid) {
    cps == [] || IsDone(cps[|cps| - 1], task)
  }

  function Last(cps: seq<Checkpoint>): Option<Checkpoint> {
    if cps == [] then None else Some(cps[|cps| - 1])
  }

  /** Whatever was retried, approved or interrupted, `resume_point` is the
      length of the completed prefix. */
  lemma ResumeIsPrefixLength(c: Config, cps: seq<Checkpoint>)
    requires ValidConfig(c) && PrefixOk(c, cps)
    ensures ResumePoint(c.Steps(), Last(cps), c.task).0 == |CompletedNames(cps, c.task)|
    ensures LastDone(cps, c.task) ==> ResumePoint(c.Steps(), Last(cps), c.task).1 == Run
    ensures !LastDone(cps, c.task) ==> |CompletedNames(cps, c.task)| < c.Size()
  {
    if cps != [] {
      var k := |CompletedNames(cps, c.task)|;
      var last := cps[|cps| - 1];
      if IsDone(last, c.task) {
        assert CompletedNames(cps, c.task)[k - 1] == TargetName(last, c.task);
        PositionOfStep(c, 0, k - 1);
      } else {
        PositionOfStep(c, 0, k);
      }
    }
  }

  /** The checkpoint was written with that status and verdict, as an envelope or,
      before version 0.7.0, as a bare object. */
  ghost predicate Says(cp: Checkpoint, status: string, verdict: Option<string>) {
    || (exists e :: WrittenAs(cp, e) && e.status == status && e.hitlVerdict == verdict)
    || (exists others, step, exit, noop :: WrittenBare(cp, others, step, status, exit, verdict, noop))
  }

  ghost predicate WrittenAs(cp: Checkpoint, e: CheckpointEnvelope) {
    InRange(e) && ToCheckpointValue(e) == Success(cp.1)
  }

  ghost predicate WrittenBare(cp: Checkpoint, others: map<Key, Json>, step: string, status: string, exit: Option<int>,
                              verdict: Option<string>, noop: Option<bool>) {
    && others.Keys !! {Version, Exit, HitlVerdict, Noop}
    && cp.1 == LegacyObject(others, step, status, exit, verdict, noop)
  }

  lemma SaidIsRead(cp: Checkpoint, status: string, verdict: Option<string>, task: Uuid)
    requires Says(cp, status, verdict)
    ensures ParseCheckpoint(cp.1, task).status == status && ParseCheckpoint(cp.1, task).hitlVerdict == verdict
  {
    hide ParseCheckpoint, Serialize, LegacyObject;
    if e :| WrittenAs(cp, e) && e.status == status && e.hitlVerdict == verdict {
      RoundTrip(e, task);
    } else {
      var others, step, exit, noop :| WrittenBare(cp, others, step, status, exit, verdict, noop);
      LegacyCheckpoint(others, step, status, exit, verdict, noop, task);
    }
  }

  /** What to do next, by what the last checkpoint was written with: go on after
      a completion, run again after an approval or an override, fail after a
      rejection, and ask the human otherwise. */
  lemma ResumeFollows(c: Config, cps: seq<Checkpoint>, status: string, verdict: Option<string>)
    requires cps != [] && Says(cps[|cps| - 1], status, verdict)
    ensures ResumePoint(c.Steps(), Last(cps), c.task).1
            == if status == "COMPLETED" || verdict == Some("APPROVED") || verdict == Some("OVERRIDDEN") then Run
               else if verdict == Some("REJECTED") then FailHitl
               else AwaitHitl
  {
    hide ParseCheckpoint;
    SaidIsRead(cps[|cps| - 1], status, verdict, c.task);
  }

  /** The checkpoint names that step: in its envelope, in its bare object, or in
      its row if the object names none. */
  ghost predicate NamedBy(cp: Checkpoint, name: string) {
    || (exists e :: WrittenAs(cp, e) && e.stepName == name)
    || (exists others, step, status, exit, verdict, noop ::
          WrittenBare(cp, others, step, status, exit, verdict, noop) && name == if step != "" then step else cp.0)
  }

  lemma NamedIsRead(cp: Checkpoint, name: string, task: Uuid)
    requires NamedBy(cp, name)
    ensures TargetName(cp, task) == name
  {
    hide ParseCheckpoint, Serialize, LegacyObject;
    if e :| WrittenAs(cp, e) && e.stepName == name {
      RoundTrip(e, task);
    } else {
      var others, step, status, exit, verdict, noop :|
        WrittenBare(cp, others, step, status, exit, verdict, noop) && name == if step != "" then step else cp.0;
      LegacyCheckpoint(others, step, status, exit, verdict, noop, task);
    }
  }

  /** Where to go on: behind the step the last checkpoint names if that is
      completed, else at that step. */
  lemma ResumesAt(c: Config, cps: seq<Checkpoint>, i: nat, status: string, verdict: Option<string>)
    requires ValidConfig(c) && i < c.Size() && cps != []
    requires NamedBy(cps[|cps| - 1], c.Steps()[i].name) && Says(cps[|cps| - 1], status, verdict)
    ensures ResumePoint(c.Steps(), Last(cps), c.task).0 == if status == "COMPLETED" then i + 1 else i
  {
    hide ParseCheckpoint, TargetName, NamedBy, Says;
    SaidIsRead(cps[|cps| - 1], status, verdict, c.task);
    NamedIsRead(cps[|cps| - 1], c.Steps()[i].name, c.task);
    PositionOfStep(c, 0, i);
  }

  /** The envelope `run_steps` writes for a finished step. */
  function DoneEnvelope(c: Config, i: nat): CheckpointEnvelope
    requires i < c.Size()
  {
    var step := c.Steps()[i];
    if step.command.Some?
    then NewEnvelope(c.task, step.name, COMPLETED, Some(0), None, None, Obj(map[Exit := Int(0)]))
    else NewEnvelope(c.task, step.name, COMPLETED, Some(0), None, Some(true), Obj(map[]))
  }

  function DoneCheckpoint(c: Config, i: nat): Checkpoint
    requires i < c.Size()
  {
    (c.Steps()[i].name, Serialize(DoneEnvelope(c, i)))
  }

  /** The written checkpoint is never refused, and reads back as that step, done. */
  lemma DoneReadsBack(c: Config, i: nat)
    requires ValidConfig(c) && i < c.Size()
    ensures ToCheckpointValue(DoneEnvelope(c, i)) == Success(DoneCheckpoint(c, i).1)
    ensures IsDone(DoneCheckpoint(c, i), c.task) && TargetName(DoneCheckpoint(c, i), c.task) == c.Steps()[i].name
    ensures ReadsDone(c, i, DoneCheckpoint(c, i))
  {
    RoundTrip(DoneEnvelope(c, i), c.task);
  }

  /** What a finished step's checkpoint tells whoever reads it: exit code 0, and
      for a step without a command that nothing was done. */
  ghost predicate ReadsDone(c: Config, i: nat, cp: Checkpoint)
    requires i < c.Size()
  {
    var e := ParseCheckpoint(cp.1, c.task);
    && e.taskId == c.task && e.stepName == c.Steps()[i].name == cp.0 && e.status == "COMPLETED"
    && e.exitCode == Some(0) && e.hitlVerdict == None
    && (if c.Steps()[i].command.Some? then e.noop == None && e.stateData.Get(Exit) == Some(Int(0))
        else e.noop == Some(true) && e.stateData == Obj(map[]))
  }

  lemma CheckpointAdvances(c: Config, cps: seq<Checkpoint>, cp: Checkpoint)
    requires ValidConfig(c) && PrefixOk(c, cps) && |CompletedNames(cps, c.task)| < c.Size()
    requires IsDone(cp, c.task) && TargetName(cp, c.task) == c.Steps()[|CompletedNames(cps, c.task)|].name
    ensures PrefixOk(c, cps + [cp]) && LastDone(cps + [cp], c.task)
    ensures CompletedNames(cps + [cp], c.task) == CompletedNames(cps, c.task) + [TargetName(cp, c.task)]
  {
    var k := |CompletedNames(cps, c.task)|;
    var after := cps + [cp];
    assert after[..|after| - 1] == cps;
    assert Names(c.Steps(), k) + [c.Steps()[k].name] == Names(c.Steps(), k + 1);
  }

  /** A checkpoint the engine writes about the awaited step: a suspension or a
      verdict, never a completion. */
  predicate NoteFor(c: Config, i: nat, cp: Checkpoint)
    requires i < c.Size()
  {
    !IsDone(cp, c.task) && TargetName(cp, c.task) == c.Steps()[i].name
  }

  lemma NoteKeepsPrefix(c: Config, cps: seq<Checkpoint>, cp: Checkpoint)
    requires PrefixOk(c, cps) && |CompletedNames(cps, c.task)| < c.Size()
    requires NoteFor(c, |CompletedNames(cps, c.task)|, cp)
    ensures PrefixOk(c, cps + [cp]) && CompletedNames(cps + [cp], c.task) == CompletedNames(cps, c.task)
  {
    assert (cps + [cp])[..|cps|] == cps;
  }

  // --- Session limits -------------------------------------------------------

  /** How many sessions one run of a step may start: at least one, at most its
      correction limit (3 when unset); none for a placeholder step. */
  function Limit(step: StepDef): nat {
    if step.command.None? then 0
    else
      var most := if step.maxCorrections.Some? then step.maxCorrections.value else 3;
      if most == 0 then 1 else most
  }

  function SumLimits(steps: seq<StepDef>, k: nat): nat
    requires k <= |steps|
  {
    if k == 0 then 0 else SumLimits(steps, k - 1) + Limit(steps[k - 1])
  }

  function MaxLimit(steps: seq<StepDef>): nat {
    if steps == [] then 0
    else
      var m := MaxLimit(steps[..|steps| - 1]);
      if Limit(steps[|steps| - 1]) > m then Limit(steps[|steps| - 1]) else m
  }

  /** `times` allowances of `most` sessions each. */
  function Allowance(most: nat, times: nat): nat {
    if times == 0 then 0 else Allowance(most, times - 1) + most
  }

  lemma {:induction false} AllowanceIsProduct(most: nat, times: nat)
    ensures Allowance(most, times) == times * most
  {
    if times > 0 {
      AllowanceIsProduct(most, times - 1);
    }
  }

  lemma {:induction false} AllowanceGrows(most: nat, a: nat, b: nat)
    requires a <= b
    ensures Allowance(most, a) <= Allowance(most, b)
  {
    if a < b {
      AllowanceGrows(most, a, b - 1);
    }
  }

  lemma {:induction false} LimitBelowMax(steps: seq<StepDef>, i: nat)
    requires i < |steps|
    ensures Limit(steps[i]) <= MaxLimit(steps)
  {
    if i < |steps| - 1 {
      LimitBelowMax(steps[..|steps| - 1], i);
    }
  }

  // --- The whole state ------------------------------------------------------

  datatype Place = OnHost(host: Option<string>) | SandboxSocket(task: Uuid)

  datatype Session = Session(place: Place, name: string)

  /** One session start: the step, its correction number, and how many steps
      were checkpointed when it happened. */
  datatype Launch = Launch(step: nat, correction: nat, completedBefore: nat)

  datatype Snap = Snap(
    engine: EngineState,
    rows: Rows,
    sessions: set<Session>,
    launches: seq<Launch>,
    passed: set<nat>,   // the steps one of whose sessions exited with 0
    starts: nat,     // how often the step loop was entered
    resumed: nat)    // how often that was due to a verdict or a wake-up

  function Cps(c: Config, s: Snap): seq<Checkpoint> {
    Checkpoints(s.engine, c.task)
  }

  /** The number of checkpointed steps. */
  function Progress(c: Config, s: Snap): nat {
    |CompletedNames(Cps(c, s), c.task)|
  }

  function TaskOf(c: Config, s: Snap): FakeTask
    requires c.task in s.engine.tasks
  {
    s.engine.tasks[c.task]
  }

  /** The session of a try: the first one has correction number 0. */
  function StepSession(c: Config, idx: nat, correction: nat): Session
    requires idx < c.Size()
  {
    var step := c.Steps()[idx];
    Session(if step.sandbox then SandboxSocket(c.task) else OnHost(StepHost(c.recipe, step)),
            SessionName(c.task, idx, correction))
  }

  /** This task's sessions, wherever they run. */
  function TaskSessions(c: Config, sessions: set<Session>): set<Session> {
    set x | x in sessions && StartsWith(x.name, SweepPrefix(c.task))
  }

  /** This task's sessions outside sandboxes. */
  function Alive(c: Config, sessions: set<Session>): set<Session> {
    set x | x in sessions && x.place.OnHost? && StartsWith(x.name, SweepPrefix(c.task))
  }

  ghost predicate UsesHost(c: Config, h: Option<string>) {
    h == None || exists i :: 0 <= i < c.Size() && StepHost(c.recipe, c.Steps()[i]) == h
  }

  ghost predicate EngineOk(c: Config, s: Snap) {
    Inv(s.engine) && c.task in s.engine.tasks && Order(s.engine, c.queue) == [c.task]
  }

  /** An overlay row that reads COMPLETED has its checkpoint. */
  ghost predicate RowsOk(c: Config, s: Snap) {
    forall name | (c.task, name) in s.rows && s.rows[(c.task, name)].status == StepStatus.Completed ::
      name in CompletedNames(Cps(c, s), c.task)
  }

  /** Every session start is for the first step that was not yet checkpointed,
      and the starts follow the progress. */
  ghost predicate LaunchesOk(c: Config, s: Snap) {
    && (forall l | l in s.launches :: l.step == l.completedBefore <= Progress(c, s) && l.step < c.Size())
    && (forall i, j | 0 <= i < j < |s.launches| :: s.launches[i].step <= s.launches[j].step)
  }

  /** A step with a command is checkpointed only after a session of it exited with 0. */
  ghost predicate PassedOk(c: Config, s: Snap) {
    forall i | 0 <= i < Progress(c, s) && i < c.Size() && c.Steps()[i].command.Some? :: i in s.passed
  }

  ghost predicate BudgetOk(c: Config, s: Snap) {
    && Progress(c, s) <= c.Size()
    && c.task in s.engine.tasks
    && |s.launches| <= SumLimits(c.Steps(), Progress(c, s)) + Allowance(MaxLimit(c.Steps()), s.starts)
    && s.starts <= TaskOf(c, s).attempts + s.resumed
  }

  ghost predicate AliveOk(c: Config, s: Snap) {
    && |Alive(c, s.sessions)| <= 1
    && (forall x | x in Alive(c, s.sessions) :: UsesHost(c, x.place.host))
  }

  /** No step runs corrections in the sandbox, which the stale sweep does not see. */
  ghost predicate Tame(c: Config) {
    forall i | 0 <= i < c.Size() && c.Steps()[i].sandbox && c.Steps()[i].command.Some? :: Limit(c.Steps()[i]) <= 1
  }

  /** No run of the task can be claimed any more. */
  predicate NoMore(t: FakeTask) {
    t.pendingRuns == [] && t.parked.None? && t.attempts >= t.maxAttempts
  }

  /** When one session of the task at most is ever alive. */
  ghost predicate Lone(c: Config, s: Snap) {
    c.task in s.engine.tasks && (Tame(c) || TaskOf(c, s).maxAttempts <= 1)
  }

  /** The session that the next entry of the step loop kills before its first try. */
  function FrontFirst(c: Config, s: Snap): set<Session> {
    if Progress(c, s) < c.Size() && c.Steps()[Progress(c, s)].command.Some?
    then {StepSession(c, Progress(c, s), 0)} else {}
  }

  ghost predicate SessionsOk(c: Config, s: Snap) {
    Lone(c, s) ==>
      && |TaskSessions(c, s.sessions)| <= 1
      && (NoMore(TaskOf(c, s)) || forall x | x in TaskSessions(c, s.sessions) :: x.place.OnHost? || x in FrontFirst(c, s))
  }

  /** Of this task only sessions of `keep` are alive, and one more may be started. */
  ghost predicate Cleared(c: Config, s: Snap, keep: set<Session>) {
    Lone(c, s) ==> TaskSessions(c, s.sessions) <= keep && (Tame(c) || NoMore(TaskOf(c, s)))
  }

  /** What the step loop needs of the sessions when it is entered. */
  ghost predicate Ready(c: Config, s: Snap) {
    Alive(c, s.sessions) == {} && Cleared(c, s, FrontFirst(c, s))
  }

  /** The invariant of every reachable state. */
  ghost predicate Good(c: Config, s: Snap) {
    && ValidConfig(c)
    && EngineOk(c, s)
    && PrefixOk(c, Cps(c, s))
    && (TaskOf(c, s).state == TaskState.Completed ==> Progress(c, s) == c.Size())
    && RowsOk(c, s)
    && LaunchesOk(c, s)
    && PassedOk(c, s)
    && BudgetOk(c, s)
    && AliveOk(c, s)
    && SessionsOk(c, s)
  }

  /** The step the task is at has an overlay row, or the task has none at all. */
  ghost predicate RowFront(c: Config, s: Snap) {
    Progress(c, s) < c.Size() ==>
      || (c.task, c.Steps()[Progress(c, s)].name) in s.rows
      || forall name :: (c.task, name) !in s.rows
  }

  /** Neither asleep on a verdict nor woken from one. */
  predicate CalmTask(t: FakeTask) {
    t.parked.None? && !t.woken
  }

  /** Nobody has claimed the task and it is not parked. */
  predicate Waiting(t: FakeTask) {
    t.currentRun.None? && t.parked.None?
  }

  /** The claim was lost: the task is retried while attempts remain, else failed. */
  predicate Lost(t: FakeTask) {
    && Waiting(t)
    && (if t.attempts < t.maxAttempts then t.state == Sleeping && t.pendingRuns != [] else t.state == TaskState.Failed)
  }

  /** What any stretch of a run may do to the engine's task table. */
  ghost predicate TasksMove(c: Config, s: Snap, s': Snap) {
    && c.task in s.engine.tasks
    && s'.engine.tasks.Keys == s.engine.tasks.Keys
    && (forall id | id in s.engine.tasks && id != c.task ::
          s'.engine.tasks[id].currentRun == s.engine.tasks[id].currentRun)
    && TaskOf(c, s').attempts == TaskOf(c, s).attempts
    && TaskOf(c, s').maxAttempts == TaskOf(c, s).maxAttempts
    && (TaskOf(c, s').currentRun == TaskOf(c, s).currentRun || TaskOf(c, s').currentRun.None?)
    && (CalmTask(TaskOf(c, s)) ==> CalmTask(TaskOf(c, s')))
    && (Waiting(TaskOf(c, s)) ==> TaskOf(c, s') == TaskOf(c, s))
    && (NoMore(TaskOf(c, s)) ==> NoMore(TaskOf(c, s')))
  }

  /** A claim is kept as it is, or lost. */
  ghost predicate HeldOrLost(c: Config, s: Snap, s': Snap) {
    && c.task in s.engine.tasks && c.task in s'.engine.tasks
    && (TaskOf(c, s).currentRun.Some? ==> TaskOf(c, s') == TaskOf(c, s) || Lost(TaskOf(c, s')))
  }

  /** A step that leaves progress and sessions alone. */
  ghost predicate Still(c: Config, s: Snap, s': Snap) {
    && s'.sessions == s.sessions && s'.launches == s.launches && s'.passed == s.passed
    && s'.starts == s.starts && s'.resumed == s.resumed
    && Cps(c, s') == Cps(c, s)
    && TasksMove(c, s, s')
    && s.rows.Keys <= s'.rows.Keys
  }

  /** Such a step that resolves no claim other than by failing it. */
  ghost predicate Quiet(c: Config, s: Snap, s': Snap) {
    Still(c, s, s') && HeldOrLost(c, s, s')
  }

  /** The claim `run` of the task is held, or lost to its lease. */
  ghost predicate Ours(c: Config, s: Snap, run: RunId) {
    c.task in s.engine.tasks && (TaskOf(c, s).currentRun == Some(run) || Lost(TaskOf(c, s)))
  }

  lemma OursStays(c: Config, s: Snap, s': Snap, run: RunId)
    requires TasksMove(c, s, s') && HeldOrLost(c, s, s') && Ours(c, s, run)
    ensures Ours(c, s', run)
  {
  }

  /** A stretch of one step loop: it only moves forward, and every session it
      starts is for a step that was not checkpointed when it began. */
  ghost predicate Onward(c: Config, s: Snap, s': Snap) {
    && s'.starts == s.starts && s'.resumed == s.resumed
    && TasksMove(c, s, s') && HeldOrLost(c, s, s')
    && s.rows.Keys <= s'.rows.Keys
    && Progress(c, s) <= Progress(c, s')
    && (LastDone(Cps(c, s), c.task) ==> LastDone(Cps(c, s'), c.task))
    && s.launches <= s'.launches && s.passed <= s'.passed
    && (forall i | |s.launches| <= i < |s'.launches| :: s'.launches[i].step >= Progress(c, s))
  }

  lemma QuietOnward(c: Config, s: Snap, s': Snap)
    requires Quiet(c, s, s')
    ensures Onward(c, s, s')
  {
  }

  lemma QuietStill(c: Config, s: Snap, s': Snap, s'': Snap)
    requires Quiet(c, s, s') && Still(c, s', s'')
    ensures Still(c, s, s'')
  {
  }

  lemma QuietTwice(c: Config, s: Snap, s': Snap, s'': Snap)
    requires Quiet(c, s, s') && Quiet(c, s', s'')
    ensures Quiet(c, s, s'')
  {
  }

  lemma OnwardTwice(c: Config, s: Snap, s': Snap, s'': Snap)
    requires Onward(c, s, s') && Onward(c, s', s'')
    ensures Onward(c, s, s'')
  {
  }

  lemma SessionsOnward(c: Config, s: Snap, s': Snap, sessions: set<Session>)
    requires Onward(c, s, s')
    ensures Onward(c, s, s'.(sessions := sessions)) && Progress(c, s'.(sessions := sessions)) == Progress(c, s')
    ensures forall t: nat :: InRun(c, s', t) ==> InRun(c, s'.(sessions := sessions), t)
  {
  }

  /** No other task claims `run`. */
  ghost predicate OwnRun(c: Config, s: Snap, run: RunId) {
    forall id | id in s.engine.tasks && id != c.task :: s.engine.tasks[id].currentRun != Some(run)
  }

  /** A still step keeps the invariant if the engine stays sound and no row turns COMPLETED. */
  lemma StillKeepsGood(c: Config, s: Snap, s': Snap)
    requires Good(c, s) && Still(c, s, s')
    requires Inv(s'.engine) && s'.engine.order == s.engine.order
    requires TaskOf(c, s').state == TaskState.Completed ==> Progress(c, s) == c.Size()
    requires forall name | (c.task, name) in s'.rows && s'.rows[(c.task, name)].status == StepStatus.Completed ::
        name in CompletedNames(Cps(c, s), c.task)
    ensures Good(c, s')
  {
    hide ValidConfig, Inv, PrefixOk, CompletedNames, Alive, UsesHost, IsDone, TargetName, TaskSessions, Tame, StepSession;
  }

  lemma ClearedStays(c: Config, s: Snap, s': Snap, keep: set<Session>)
    requires TasksMove(c, s, s') && s'.sessions == s.sessions && Cleared(c, s, keep)
    ensures Cleared(c, s', keep)
  {
  }

  lemma ReadyStays(c: Config, s: Snap, s': Snap)
    requires TasksMove(c, s, s') && s'.sessions == s.sessions && Progress(c, s') == Progress(c, s) && Ready(c, s)
    ensures Ready(c, s')
  {
    hide TaskSessions, StepSession, Tame, Alive;
  }

  /** A session is killed. */
  lemma KillKeepsGood(c: Config, s: Snap, x: Session)
    requires Good(c, s)
    ensures var s' := s.(sessions := s.sessions - {x});
            && Good(c, s') && (Alive(c, s.sessions) == {} ==> Alive(c, s'.sessions) == {})
            && (Alive(c, s.sessions - {x}) == {} ==> Alive(c, s'.sessions) == {})
            && (Cleared(c, s, {x}) ==> Cleared(c, s', {}))
  {
    hide ValidConfig, Inv, PrefixOk, CompletedNames, UsesHost, IsDone, TargetName, Tame, StepSession;
    var s' := s.(sessions := s.sessions - {x});
    assert Cps(c, s') == Cps(c, s);
    Fewer(Alive(c, s'.sessions), Alive(c, s.sessions));
    Fewer(TaskSessions(c, s'.sessions), TaskSessions(c, s.sessions));
  }

  lemma Fewer<T>(a: set<T>, b: set<T>)
    requires a <= b
    ensures |a| <= |b|
  {
    assert b == a + (b - a);
  }

  /** A session of the front step starts where none is alive. */
  lemma StartKeepsGood(c: Config, s: Snap, correction: nat)
    requires Good(c, s) && Progress(c, s) < c.Size() && correction < Limit(c.Steps()[Progress(c, s)])
    requires Alive(c, s.sessions) == {} && Cleared(c, s, {})
    ensures var x := StepSession(c, Progress(c, s), correction);
            var s' := s.(sessions := s.sessions + {x});
            Good(c, s') && Cleared(c, s', {x}) && Alive(c, s'.sessions - {x}) == {}
  {
    hide ValidConfig, Inv, PrefixOk, CompletedNames, IsDone, TargetName;
    var x := StepSession(c, Progress(c, s), correction);
    var s' := s.(sessions := s.sessions + {x});
    assert Cps(c, s') == Cps(c, s);
    assert Alive(c, s'.sessions) <= {x} && UsesHost(c, StepHost(c.recipe, c.Steps()[Progress(c, s)]));
    Fewer(Alive(c, s'.sessions), {x});
    assert Lone(c, s) ==> TaskSessions(c, s'.sessions) <= {x};
    if Lone(c, s) {
      Fewer(TaskSessions(c, s'.sessions), {x});
    }
    assert forall y | y in Alive(c, s'.sessions - {x}) :: y in Alive(c, s.sessions);
  }

  // --- The outside world ----------------------------------------------------

  lemma TaskIsOk(c: Config, s: Snap)
    requires Good(c, s)
    ensures TaskOk(TaskOf(c, s))
  {
  }

  /** Waking parked runs moves the task table as others may. */
  lemma WokenMoves(c: Config, s: Snap, after: EngineState)
    requires c.task in s.engine.tasks && TaskOk(TaskOf(c, s)) && after.tasks.Keys == s.engine.tasks.Keys && after.checkpoints == s.engine.checkpoints
    requires forall id | id in s.engine.tasks ::
               after.tasks[id] == s.engine.tasks[id] || after.tasks[id] == WakeTask(s.engine.tasks[id])
    ensures Quiet(c, s, s.(engine := after))
  {
    hide CompletedNames;
    assert Cps(c, s.(engine := after)) == Cps(c, s);
  }

  lemma WokenKeepsGood(c: Config, s: Snap, after: EngineState)
    requires Good(c, s) && Quiet(c, s, s.(engine := after)) && Inv(after) && after.order == s.engine.order
    requires after.tasks[c.task].state == TaskOf(c, s).state
    ensures Good(c, s.(engine := after))
  {
    hide ValidConfig, Inv, PrefixOk, CompletedNames, Alive, UsesHost, IsDone, TargetName, TaskSessions, Tame, StepSession,
         HeldOrLost, SessionsOk;
    StillKeepsGood(c, s, s.(engine := after));
  }

  lemma EmitIsQuiet(c: Config, s: Snap, payload: Json)
    requires Good(c, s)
    ensures var s' := s.(engine := Emit(s.engine, c.queue, c.Event(), payload)); Good(c, s') && Quiet(c, s, s')
  {
    GoodEngine(c, s);
    TaskIsOk(c, s);
    hide Good, Quiet, Inv;
    var after := Emit(s.engine, c.queue, c.Event(), payload);
    WokenInv(s.engine, after);
    WokenMoves(c, s, after);
    WokenKeepsGood(c, s, after);
  }

  lemma WakeIsQuiet(c: Config, s: Snap)
    requires Good(c, s)
    ensures var s' := s.(engine := Wake(s.engine, c.task)); Good(c, s') && Quiet(c, s, s')
  {
    GoodEngine(c, s);
    TaskIsOk(c, s);
    hide Good, Quiet, Inv;
    var after := Wake(s.engine, c.task);
    WokenInv(s.engine, after);
    WokenMoves(c, s, after);
    WokenKeepsGood(c, s, after);
  }

  /** A run of this task, or a stale one, is resolved: only this task moves. */
  lemma ResolveIsStill(c: Config, s: Snap, run: RunId, after: EngineState, t: FakeTask)
    requires Good(c, s) && OwnRun(c, s, run) && Inv(after)
    requires (after == s.engine && TaskOf(c, s).currentRun != Some(run))
          || (TaskOf(c, s).currentRun == Some(run) && after.tasks == s.engine.tasks[c.task := t]
              && after.order == s.engine.order && after.checkpoints == s.engine.checkpoints)
    requires t.currentRun.None? && t.attempts == TaskOf(c, s).attempts && t.maxAttempts == TaskOf(c, s).maxAttempts
    requires t.parked == TaskOf(c, s).parked && t.woken == TaskOf(c, s).woken
    requires t.state == TaskState.Completed ==> Progress(c, s) == c.Size()
    requires NoMore(TaskOf(c, s)) ==> NoMore(t)
    ensures Good(c, s.(engine := after)) && Still(c, s, s.(engine := after))
    ensures TaskOf(c, s.(engine := after)).currentRun != Some(run)
  {
    hide ValidConfig, Inv, PrefixOk, CompletedNames, Alive, UsesHost, IsDone, TargetName, TaskSessions, Tame, StepSession;
    StillKeepsGood(c, s, s.(engine := after));
  }

  lemma HolderIsTask(c: Config, s: Snap, run: RunId)
    requires c.task in s.engine.tasks && OwnRun(c, s, run)
    ensures Holder(s.engine, run) == if TaskOf(c, s).currentRun == Some(run) then Some(c.task) else None
  {
    assert TaskOf(c, s).currentRun == Some(run) ==> Holds(s.engine, c.task, run);
  }

  lemma FailIsQuiet(c: Config, s: Snap, run: RunId)
    requires Good(c, s) && OwnRun(c, s, run)
    ensures var s' := s.(engine := Fail(s.engine, run));
            Good(c, s') && Quiet(c, s, s') && TaskOf(c, s').currentRun != Some(run)
  {
    hide ValidConfig, Inv, PrefixOk, CompletedNames, Alive, UsesHost, IsDone, TargetName, TaskSessions, Tame, StepSession;
    ResolveInv(s.engine, run);
    HolderIsTask(c, s, run);
    TaskIsOk(c, s);
    ResolveIsStill(c, s, run, Fail(s.engine, run), FailTask(TaskOf(c, s), s.engine.nextRun));
  }

  /** Completing a run once every step is checkpointed. */
  lemma CompleteIsStill(c: Config, s: Snap, run: RunId)
    requires Good(c, s) && OwnRun(c, s, run) && Progress(c, s) == c.Size()
    ensures var s' := s.(engine := Complete(s.engine, run));
            Good(c, s') && Still(c, s, s') && TaskOf(c, s').currentRun != Some(run)
  {
    hide ValidConfig, Inv, PrefixOk, CompletedNames, Alive, UsesHost, IsDone, TargetName, TaskSessions, Tame, StepSession;
    ResolveInv(s.engine, run);
    HolderIsTask(c, s, run);
    ResolveIsStill(c, s, run, Complete(s.engine, run), CompleteTask(TaskOf(c, s)));
  }

  lemma OwnRunInv(c: Config, s: Snap, run: RunId)
    requires Good(c, s) && TaskOf(c, s).currentRun == Some(run)
    ensures OwnRun(c, s, run)
  {
  }

  lemma OwnRunStays(c: Config, s: Snap, s': Snap, run: RunId)
    requires TasksMove(c, s, s') && OwnRun(c, s, run)
    ensures OwnRun(c, s', run)
  {
  }

  /** Overlay writes that keep every row and turn none COMPLETED unduly. */
  lemma RowsAreQuiet(c: Config, s: Snap, rows: Rows)
    requires Good(c, s) && s.rows.Keys <= rows.Keys
    requires forall name | (c.task, name) in rows && rows[(c.task, name)].status == StepStatus.Completed ::
        name in CompletedNames(Cps(c, s), c.task)
    ensures Good(c, s.(rows := rows)) && Quiet(c, s, s.(rows := rows))
  {
  }

  lemma StartRowIsQuiet(c: Config, s: Snap, name: string, session: string)
    requires Good(c, s)
    ensures var s' := s.(rows := UpsertStart(s.rows, (c.task, name), session)); Good(c, s') && Quiet(c, s, s')
  {
    RowsAreQuiet(c, s, UpsertStart(s.rows, (c.task, name), session));
  }

  lemma StatusIsQuiet(c: Config, s: Snap, name: string, status: StepStatus)
    requires Good(c, s) && status != StepStatus.Completed
    ensures var s' := s.(rows := SetStatus(s.rows, (c.task, name), status)); Good(c, s') && Quiet(c, s, s')
  {
    RowsAreQuiet(c, s, SetStatus(s.rows, (c.task, name), status));
  }

  lemma FinalizeIsQuiet(c: Config, s: Snap, name: string, status: StepStatus, exitCode: Option<int>)
    requires Good(c, s) && (status == StepStatus.Completed ==> name in CompletedNames(Cps(c, s), c.task))
    ensures var s' := s.(rows := Finalize(s.rows, (c.task, name), status, exitCode)); Good(c, s') && Quiet(c, s, s')
  {
    RowsAreQuiet(c, s, Finalize(s.rows, (c.task, name), status, exitCode));
  }

  // --- Facts for callers that keep the big predicates folded ----------------

  lemma QuietSame(c: Config, s: Snap)
    requires Good(c, s)
    ensures Quiet(c, s, s)
  {
  }

  lemma GoodEngine(c: Config, s: Snap)
    requires Good(c, s)
    ensures ValidConfig(c) && Inv(s.engine) && c.task in s.engine.tasks && Progress(c, s) <= c.Size()
  {
  }

  lemma QuietFacts(c: Config, s: Snap, s': Snap)
    requires Quiet(c, s, s')
    ensures Still(c, s, s') && HeldOrLost(c, s, s')
    ensures Cps(c, s') == Cps(c, s) && Progress(c, s') == Progress(c, s)
    ensures s'.sessions == s.sessions && s'.launches == s.launches && s.rows.Keys <= s'.rows.Keys
    ensures s'.passed == s.passed && s'.starts == s.starts && s'.resumed == s.resumed && TasksMove(c, s, s')
  {
  }

  lemma StillFacts(c: Config, s: Snap, s': Snap)
    requires Still(c, s, s')
    ensures Cps(c, s') == Cps(c, s) && Progress(c, s') == Progress(c, s)
    ensures s'.sessions == s.sessions && s'.launches == s.launches && s.rows.Keys <= s'.rows.Keys
    ensures s'.passed == s.passed && s'.starts == s.starts && s'.resumed == s.resumed && TasksMove(c, s, s')
  {
  }

  lemma OnwardFacts(c: Config, s: Snap, s': Snap)
    requires Onward(c, s, s')
    ensures Progress(c, s) <= Progress(c, s') && s.launches <= s'.launches && s.rows.Keys <= s'.rows.Keys
    ensures s'.starts == s.starts && s'.resumed == s.resumed && TasksMove(c, s, s') && HeldOrLost(c, s, s')
    ensures LastDone(Cps(c, s), c.task) ==> LastDone(Cps(c, s'), c.task)
  {
  }

  // --- Progress and launches ------------------------------------------------

  /** Inside one entry of the step loop, `t` sessions into the current step. */
  ghost predicate InRun(c: Config, s: Snap, t: nat) {
    && s.starts >= 1
    && Progress(c, s) <= c.Size()
    && |s.launches| <= SumLimits(c.Steps(), Progress(c, s)) + Allowance(MaxLimit(c.Steps()), s.starts - 1) + t
  }

  lemma InRunQuiet(c: Config, s: Snap, s': Snap, t: nat)
    requires InRun(c, s, t) && Quiet(c, s, s')
    ensures InRun(c, s', t)
  {
  }

  /** One more session for the step at the front. */
  lemma LaunchKeepsGood(c: Config, s: Snap, correction: nat, t: nat)
    requires Good(c, s) && InRun(c, s, t) && Progress(c, s) < c.Size() && t < Limit(c.Steps()[Progress(c, s)])
    ensures var s' := s.(launches := s.launches + [Launch(Progress(c, s), correction, Progress(c, s))]);
            Good(c, s') && InRun(c, s', t + 1) && Onward(c, s, s')
  {
    hide ValidConfig, Inv, PrefixOk, CompletedNames, Alive, UsesHost, IsDone, TargetName, TaskSessions, Tame, StepSession;
    var k := Progress(c, s);
    var s' := s.(launches := s.launches + [Launch(k, correction, k)]);
    LimitBelowMax(c.Steps(), k);
    assert Cps(c, s') == Cps(c, s);
    assert LaunchesOk(c, s');
    assert BudgetOk(c, s');
  }

  /** A session of the step at the front exited with 0. */
  lemma PassKeepsGood(c: Config, s: Snap, i: nat, t: nat)
    requires Good(c, s) && InRun(c, s, t)
    ensures var s' := s.(passed := s.passed + {i});
            Good(c, s') && InRun(c, s', t) && Onward(c, s, s') && Progress(c, s') == Progress(c, s)
  {
    hide ValidConfig, Inv, PrefixOk, CompletedNames, Alive, UsesHost, IsDone, TargetName, TaskSessions, Tame, StepSession;
    assert Cps(c, s.(passed := s.passed + {i})) == Cps(c, s);
  }

  /** The checkpoint of the step at the front. */
  lemma StepCheckpointed(c: Config, s: Snap, t: nat)
    requires Good(c, s) && InRun(c, s, t) && Progress(c, s) < c.Size() && t <= Limit(c.Steps()[Progress(c, s)])
    requires c.Steps()[Progress(c, s)].command.Some? ==> Progress(c, s) in s.passed
    requires Cleared(c, s, {})
    ensures var k := Progress(c, s);
            var s' := s.(engine := AddCheckpoint(s.engine, c.task, DoneCheckpoint(c, k).0, DoneCheckpoint(c, k).1));
            && Good(c, s') && InRun(c, s', 0) && Onward(c, s, s') && Progress(c, s') == k + 1
            && LastDone(Cps(c, s'), c.task) && c.Steps()[k].name in CompletedNames(Cps(c, s'), c.task)
            && Cps(c, s') == Cps(c, s) + [DoneCheckpoint(c, k)]
  {
    hide ValidConfig, Inv, Alive, UsesHost, IsDone, TargetName, PrefixOk, DoneCheckpoint, InRun, ReadsDone, TaskSessions,
         Tame, StepSession;
    var k := Progress(c, s);
    var cp := DoneCheckpoint(c, k);
    var s' := s.(engine := AddCheckpoint(s.engine, c.task, cp.0, cp.1));
    DoneReadsBack(c, k);
    CheckpointInv(s.engine, c.task, cp.0, cp.1);
    assert Cps(c, s') == Cps(c, s) + [cp];
    CheckpointAdvances(c, Cps(c, s), cp);
    ProgressBudget(c, s, s', t);
    assert RowsOk(c, s') && LaunchesOk(c, s') && PassedOk(c, s');
  }

  lemma ProgressBudget(c: Config, s: Snap, s': Snap, t: nat)
    requires BudgetOk(c, s) && InRun(c, s, t) && Progress(c, s) < c.Size() && t <= Limit(c.Steps()[Progress(c, s)])
    requires Progress(c, s') == Progress(c, s) + 1 && s'.launches == s.launches && s'.starts == s.starts
    requires s'.resumed == s.resumed && s'.engine.tasks == s.engine.tasks
    ensures BudgetOk(c, s') && InRun(c, s', 0)
  {
    assert SumLimits(c.Steps(), Progress(c, s')) == SumLimits(c.Steps(), Progress(c, s)) + Limit(c.Steps()[Progress(c, s)]);
  }

  /** A note of the engine about the step at the front. */
  lemma NoteKeepsGood(c: Config, s: Snap, cp: Checkpoint)
    requires Good(c, s) && Progress(c, s) < c.Size() && NoteFor(c, Progress(c, s), cp)
    ensures var s' := s.(engine := AddCheckpoint(s.engine, c.task, cp.0, cp.1));
            Good(c, s') && Progress(c, s') == Progress(c, s) && s'.engine.tasks == s.engine.tasks
  {
    hide ValidConfig, Alive, UsesHost, IsDone, TargetName, PrefixOk, TaskSessions, Tame, StepSession;
    NoteKeepsPrefix(c, Cps(c, s), cp);
    CheckpointInv(s.engine, c.task, cp.0, cp.1);
    var s' := s.(engine := AddCheckpoint(s.engine, c.task, cp.0, cp.1));
    assert Cps(c, s') == Cps(c, s) + [cp];
  }

  // --- Claims and awaits ----------------------------------------------------

  /** The state keeps everything but the engine's task table. */
  lemma TasksKeepGood(c: Config, s: Snap, after: EngineState, resumed: nat)
    requires Good(c, s) && Inv(after) && c.task in after.tasks
    requires after.order == s.engine.order && after.checkpoints == s.engine.checkpoints
    requires after.tasks[c.task].state == TaskState.Completed ==> Progress(c, s) == c.Size()
    requires s.starts <= after.tasks[c.task].attempts + resumed
    requires SessionsOk(c, s.(engine := after))
    ensures Good(c, s.(engine := after, resumed := resumed)) && Cps(c, s.(engine := after, resumed := resumed)) == Cps(c, s)
    ensures Ready(c, s.(engine := after)) ==> Ready(c, s.(engine := after, resumed := resumed))
  {
    hide ValidConfig, Inv, PrefixOk, CompletedNames, Alive, UsesHost, IsDone, TargetName, TaskSessions, Tame, StepSession;
    var s' := s.(engine := after, resumed := resumed);
    assert Cps(c, s') == Cps(c, s);
  }

  /** The queue holds one task, so a successful claim is a claim of that task. */
  lemma ClaimOfQueue(c: Config, s: Snap)
    requires Good(c, s)
    ensures Claimable(s.engine, c.task) ==>
              Claim(s.engine, c.queue) == (s.engine.(tasks := s.engine.tasks[c.task := ClaimTask(TaskOf(c, s))]),
                                           Some(ClaimedTask(TaskOf(c, s).pendingRuns[0], c.task, TaskOf(c, s).name, TaskOf(c, s).params)))
    ensures !Claimable(s.engine, c.task) ==> Claim(s.engine, c.queue) == (s.engine, None)
  {
  }

  lemma ClaimKeepsGood(c: Config, s: Snap)
    requires Good(c, s) && Claimable(s.engine, c.task)
    ensures var t := TaskOf(c, s);
            var s' := s.(engine := Claim(s.engine, c.queue).0, resumed := s.resumed + if t.woken then 1 else 0);
            && Good(c, s') && OwnRun(c, s', t.pendingRuns[0]) && TaskOf(c, s').currentRun == Some(t.pendingRuns[0])
            && Cps(c, s') == Cps(c, s) && s'.starts + 1 <= TaskOf(c, s').attempts + s'.resumed
            && (Alive(c, s.sessions) == {} ==> Ready(c, s'))
  {
    GoodEngine(c, s);
    hide Good, Inv, Claim, ClaimTask, Cps, Progress, Ready, OwnRun, Alive, Order, NonTerminal;
    var t := TaskOf(c, s);
    var resumed := s.resumed + if t.woken then 1 else 0;
    ClaimOfQueue(c, s);
    var after := s.engine.(tasks := s.engine.tasks[c.task := ClaimTask(t)]);
    assert Claim(s.engine, c.queue).0 == after;
    ClaimInv(s.engine, c.queue);
    ClaimedFields(t);
    ClaimedKeepsGood(c, s, after, resumed);
    OwnRunInv(c, s.(engine := after, resumed := resumed), t.pendingRuns[0]);
  }

  lemma ClaimedKeepsGood(c: Config, s: Snap, after: EngineState, resumed: nat)
    requires Good(c, s) && Claimable(s.engine, c.task) && Inv(after)
    requires after == s.engine.(tasks := s.engine.tasks[c.task := ClaimTask(TaskOf(c, s))])
    requires resumed == s.resumed + if TaskOf(c, s).woken then 1 else 0
    ensures Good(c, s.(engine := after, resumed := resumed)) && Cps(c, s.(engine := after, resumed := resumed)) == Cps(c, s)
    ensures Alive(c, s.sessions) == {} ==> Ready(c, s.(engine := after, resumed := resumed))
    ensures s.starts + 1 <= after.tasks[c.task].attempts + resumed
  {
    StartsBelowAttempts(c, s);
    ClaimSessions(c, s, s.(engine := after));
    hide *;
    assert after.tasks[c.task] == ClaimTask(TaskOf(c, s));
    ClaimedFields(TaskOf(c, s));
    TasksKeepGood(c, s, after, resumed);
  }

  lemma ClaimedFields(t: FakeTask)
    requires t.pendingRuns != []
    ensures ClaimTask(t).state != TaskState.Completed && ClaimTask(t).currentRun == Some(t.pendingRuns[0])
    ensures ClaimTask(t).attempts == t.attempts + if t.woken then 0 else 1
  {
  }

  lemma StartsBelowAttempts(c: Config, s: Snap)
    requires Good(c, s)
    ensures c.task in s.engine.tasks && s.starts <= TaskOf(c, s).attempts + s.resumed
  {
  }

  /** Where a run could be claimed, only the session that the step loop kills
      first can be alive in the sandbox. */
  lemma ClaimSessions(c: Config, s: Snap, s': Snap)
    requires Good(c, s) && Claimable(s.engine, c.task)
    requires s'.sessions == s.sessions && s'.engine.checkpoints == s.engine.checkpoints
    requires s'.engine.tasks == s.engine.tasks[c.task := ClaimTask(TaskOf(c, s))]
    ensures SessionsOk(c, s') && (Alive(c, s.sessions) == {} ==> Ready(c, s'))
  {
    hide ValidConfig, PrefixOk, CompletedNames, IsDone, TargetName, StepSession, Tame, RowsOk, LaunchesOk, PassedOk;
    assert Cps(c, s') == Cps(c, s);
    TaskIsOk(c, s);
    assert NoMore(TaskOf(c, s')) || TaskOf(c, s').maxAttempts > 1;
    NotInSandbox(c, s);
    hide Inv, Alive, TaskSessions;
  }

  /** Outside the sandbox and the hosts nothing runs. */
  lemma NotInSandbox(c: Config, s: Snap)
    ensures Alive(c, s.sessions) <= TaskSessions(c, s.sessions)
    ensures forall x | x in TaskSessions(c, s.sessions) && x !in Alive(c, s.sessions) :: !x.place.OnHost?
    ensures forall x | x in Alive(c, s.sessions) :: x.place.OnHost?
  {
  }

  /** A suspended await may park the run, whatever is left in the sandbox. */
  lemma AwaitKeepsGood(c: Config, s: Snap, run: RunId, timedOut: bool)
    requires Good(c, s) && Ready(c, s)
    ensures var (e, outcome) := Await(s.engine, c.queue, c.task, run, c.Event(), timedOut);
            var s' := s.(engine := e);
            && Good(c, s') && Cps(c, s') == Cps(c, s) && (OwnRun(c, s, run) ==> OwnRun(c, s', run))
            && SameMax(c, s, s') && (outcome != AwaitOutcome.Suspended ==> e == s.engine)
  {
    hide ValidConfig, Inv, PrefixOk, CompletedNames, Alive, UsesHost, IsDone, TargetName, TaskSessions, Tame, StepSession;
    var after := Await(s.engine, c.queue, c.task, run, c.Event(), timedOut).0;
    AwaitInv(s.engine, c.queue, c.task, run, c.Event(), timedOut);
    TasksKeepGood(c, s, after, s.resumed);
  }

  lemma EnterKeepsGood(c: Config, s: Snap, resumed: nat)
    requires Good(c, s) && resumed >= s.resumed && s.starts + 1 <= TaskOf(c, s).attempts + resumed
    ensures Good(c, s.(starts := s.starts + 1, resumed := resumed)) && InRun(c, s.(starts := s.starts + 1, resumed := resumed), 0)
  {
    hide ValidConfig, Inv, PrefixOk, CompletedNames, Alive, UsesHost, IsDone, TargetName, TaskSessions, Tame, StepSession;
    var s' := s.(starts := s.starts + 1, resumed := resumed);
    assert Cps(c, s') == Cps(c, s);
    assert BudgetOk(c, s');
  }

  // --- Between claims -------------------------------------------------------

  /** How often the task may be tried is settled when it is dispatched. */
  ghost predicate SameMax(c: Config, s: Snap, s': Snap) {
    c.task in s.engine.tasks && c.task in s'.engine.tasks && TaskOf(c, s').maxAttempts == TaskOf(c, s).maxAttempts
  }

  /** What any part of any run does: progress never falls, the log only grows,
      and everything launched is a step that was not checkpointed before. */
  ghost predicate Forward(c: Config, s: Snap, s': Snap) {
    && SameMax(c, s, s')
    && Progress(c, s) <= Progress(c, s')
    && s.launches <= s'.launches
    && (forall i | |s.launches| <= i < |s'.launches| :: s'.launches[i].step >= Progress(c, s))
  }

  lemma ForwardTwice(c: Config, s: Snap, s': Snap, s'': Snap)
    requires Forward(c, s, s') && Forward(c, s', s'')
    ensures Forward(c, s, s'')
  {
  }

  lemma OnwardForward(c: Config, s: Snap, s': Snap)
    requires Onward(c, s, s')
    ensures Forward(c, s, s')
  {
  }

  lemma SameForward(c: Config, s: Snap, s': Snap)
    requires s'.launches == s.launches && Progress(c, s') == Progress(c, s)
    requires SameMax(c, s, s')
    ensures Forward(c, s, s')
  {
  }

  lemma StillForward(c: Config, s: Snap, s': Snap)
    requires Still(c, s, s')
    ensures Forward(c, s, s')
  {
  }

  /** A calm task that nobody holds, at a checkpoint boundary. */
  ghost predicate AtRest(c: Config, s: Snap) {
    c.task in s.engine.tasks && CalmTask(TaskOf(c, s)) && LastDone(Cps(c, s), c.task)
  }

  lemma WaitingIsClaimableOrFinal(c: Config, s: Snap)
    requires Good(c, s) && Waiting(TaskOf(c, s))
    ensures Claimable(s.engine, c.task) <==> NonTerminal(TaskOf(c, s))
  {
  }
}
