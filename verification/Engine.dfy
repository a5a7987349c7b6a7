/** The durable engine as `FakeEngine` executes it
    (`janus/src/absurd/adapter.rs`), with the sleeping and wake-up of a run that
    awaits an event, which that file documents for the production engine.
    Fresh ids are parameters: a uuid is taken never to repeat. */
module Engine {
  import opened Wrappers
  import opened Envelope

  type RunId = nat

  datatype TaskState = Pending | Running | Sleeping | Completed | Failed

  /** A run that sleeps until an event is emitted. */
  datatype Parked = Parked(run: RunId, queue: string, event: string)

  datatype FakeTask = FakeTask(
    name: string,
    params: Json,
    state: TaskState,
    maxAttempts: nat,
    attempts: nat,
    currentRun: Option<RunId>,
    pendingRuns: seq<RunId>,
    parked: Option<Parked>,
    woken: bool)          // the pending run has been claimed before and woke up

  datatype ClaimedTask = ClaimedTask(run: RunId, taskId: Uuid, name: string, params: Json)

  datatype AwaitOutcome = Suspended | Resolved(payload: Json)

  datatype EngineState = EngineState(
    queues: set<string>,
    tasks: map<Uuid, FakeTask>,
    order: map<string, seq<Uuid>>,
    checkpoints: map<Uuid, seq<(string, Json)>>,
    events: map<(string, string), seq<Json>>,
    nextRun: RunId)

  // --- What each operation does to the state --------------------------------

  function Order(s: EngineState, q: string): seq<Uuid> {
    if q in s.order then s.order[q] else []
  }

  function Checkpoints(s: EngineState, t: Uuid): seq<(string, Json)> {
    if t in s.checkpoints then s.checkpoints[t] else []
  }

  function Events(s: EngineState, q: string, ev: string): seq<Json> {
    if (q, ev) in s.events then s.events[(q, ev)] else []
  }

  function Spawn(s: EngineState, q: string, name: string, params: Json, max: nat, id: Uuid): EngineState {
    s.(queues := s.queues + {q},
       tasks := s.tasks[id := FakeTask(name, params, Pending, max, 0, None, [s.nextRun], None, false)],
       order := s.order[q := Order(s, q) + [id]],
       nextRun := s.nextRun + 1)
  }

  predicate Claimable(s: EngineState, id: Uuid) {
    && id in s.tasks
    && (s.tasks[id].state == Pending || s.tasks[id].state == Sleeping)
    && s.tasks[id].pendingRuns != []
  }

  /** The first claimable task of the list. */
  function FirstClaimable(s: EngineState, ids: seq<Uuid>): (r: Option<Uuid>)
    ensures r.Some? ==> r.value in ids && Claimable(s, r.value)
    ensures r.None? ==> forall id | id in ids :: !Claimable(s, id)
  {
    if ids == [] then None
    else if Claimable(s, ids[0]) then Some(ids[0])
    else FirstClaimable(s, ids[1..])
  }

  function ClaimTask(t: FakeTask): FakeTask
    requires t.pendingRuns != []
  {
    t.(state := Running, attempts := t.attempts + (if t.woken then 0 else 1), woken := false,
       currentRun := Some(t.pendingRuns[0]), pendingRuns := t.pendingRuns[1..])
  }

  function Claim(s: EngineState, q: string): (EngineState, Option<ClaimedTask>) {
    var found := FirstClaimable(s, Order(s, q));
    if found.None? then (s, None)
    else
      var t := s.tasks[found.value];
      (s.(tasks := s.tasks[found.value := ClaimTask(t)]),
       Some(ClaimedTask(t.pendingRuns[0], found.value, t.name, t.params)))
  }

  ghost predicate Holds(s: EngineState, id: Uuid, run: RunId) {
    id in s.tasks && s.tasks[id].currentRun == Some(run)
  }

  /** The task that holds the claim `run`, if one does. */
  ghost function Holder(s: EngineState, run: RunId): (r: Option<Uuid>)
    ensures r.Some? ==> Holds(s, r.value, run)
    ensures r.None? ==> forall id :: !Holds(s, id, run)
  {
    if id: Uuid :| Holds(s, id, run) then Some(id) else None
  }

  function CompleteTask(t: FakeTask): FakeTask {
    t.(currentRun := None, state := Completed)
  }

  ghost function Complete(s: EngineState, run: RunId): EngineState {
    var h := Holder(s, run);
    if h.None? then s else s.(tasks := s.tasks[h.value := CompleteTask(s.tasks[h.value])])
  }

  /** A failed run is retried by a fresh run while attempts remain. */
  function FailTask(t: FakeTask, retry: RunId): FakeTask {
    if t.attempts < t.maxAttempts
    then t.(currentRun := None, pendingRuns := t.pendingRuns + [retry], state := Sleeping)
    else t.(currentRun := None, state := Failed)
  }

  ghost function Fail(s: EngineState, run: RunId): EngineState {
    var h := Holder(s, run);
    if h.None? then s
    else s.(tasks := s.tasks[h.value := FailTask(s.tasks[h.value], s.nextRun)], nextRun := s.nextRun + 1)
  }

  function AddCheckpoint(s: EngineState, id: Uuid, step: string, v: Json): EngineState {
    s.(checkpoints := s.checkpoints[id := Checkpoints(s, id) + [(step, v)]])
  }

  function LastCheckpoint(s: EngineState, id: Uuid): Option<(string, Json)> {
    var cs := Checkpoints(s, id);
    if cs == [] then None else Some(cs[|cs| - 1])
  }

  predicate NonTerminal(t: FakeTask) {
    t.state == Pending || t.state == Sleeping || t.state == Running
  }

  function WakeTask(t: FakeTask): FakeTask {
    if t.parked.Some? then t.(pendingRuns := t.pendingRuns + [t.parked.value.run], parked := None, woken := true) else t
  }

  function WakeParked(tasks: map<Uuid, FakeTask>, q: string, ev: string): map<Uuid, FakeTask> {
    map id | id in tasks ::
      if tasks[id].parked.Some? && tasks[id].parked.value.queue == q && tasks[id].parked.value.event == ev
      then WakeTask(tasks[id]) else tasks[id]
  }

  /** The event is kept, and every run parked on it becomes claimable again. */
  function Emit(s: EngineState, q: string, ev: string, payload: Json): EngineState {
    s.(events := s.events[(q, ev) := Events(s, q, ev) + [payload]],
       tasks := WakeParked(s.tasks, q, ev))
  }

  function ParkTask(t: FakeTask, run: RunId, q: string, ev: string): FakeTask {
    t.(currentRun := None, state := Sleeping, parked := Some(Parked(run, q, ev)))
  }

  /** The first payload emitted so far answers every later await (it is read,
      not removed); otherwise a timed-out await resolves to null, and any other
      one puts the run to sleep. */
  function Await(s: EngineState, q: string, id: Uuid, run: RunId, ev: string, timedOut: bool): (EngineState, AwaitOutcome) {
    if Events(s, q, ev) != [] then (s, Resolved(Events(s, q, ev)[0]))
    else if timedOut then (s, Resolved(Null))
    else if id in s.tasks && s.tasks[id].currentRun == Some(run)
    then (s.(tasks := s.tasks[id := ParkTask(s.tasks[id], run, q, ev)]), Suspended)
    else (s, Suspended)
  }

  function Wake(s: EngineState, id: Uuid): EngineState {
    if id in s.tasks then s.(tasks := s.tasks[id := WakeTask(s.tasks[id])]) else s
  }

  // --- The invariant --------------------------------------------------------

  function Cap(maxAttempts: nat): nat {
    if maxAttempts == 0 then 1 else maxAttempts
  }

  /** Running exactly when claimed; pending or sleeping exactly when one run
      waits (queued or parked); a final task has no run left; a task that was ever
      claimed has used an attempt. */
  predicate TaskOk(t: FakeTask) {
    && (t.state == Running <==> t.currentRun.Some?)
    && |t.pendingRuns| + (if t.parked.Some? then 1 else 0)
       == (if t.state == Pending || t.state == Sleeping then 1 else 0)
    && t.attempts <= Cap(t.maxAttempts)
    && (t.pendingRuns != [] && !t.woken ==> t.attempts < Cap(t.maxAttempts))
    && (t.currentRun.Some? || t.parked.Some? || t.woken ==> t.attempts >= 1)
  }

  /** The one run a non-final task owns. */
  function LiveRun(t: FakeTask): Option<RunId> {
    if t.currentRun.Some? then t.currentRun
    else if t.pendingRuns != [] then Some(t.pendingRuns[0])
    else if t.parked.Some? then Some(t.parked.value.run)
    else None
  }

  ghost predicate Inv(s: EngineState) {
    && (forall id | id in s.tasks :: TaskOk(s.tasks[id]))
    && (forall id | id in s.tasks && LiveRun(s.tasks[id]).Some? :: LiveRun(s.tasks[id]).value < s.nextRun)
    && (forall a, b | a in s.tasks && b in s.tasks && a != b && LiveRun(s.tasks[a]).Some? ::
          LiveRun(s.tasks[a]) != LiveRun(s.tasks[b]))
  }

  datatype Op =
    | SpawnOp(q: string, name: string, params: Json, max: nat, id: Uuid)
    | ClaimOp(q: string)
    | CompleteOp(run: RunId)
    | FailOp(run: RunId)
    | CheckpointOp(id: Uuid, step: string, v: Json)
    | EmitOp(q: string, ev: string, payload: Json)
    | AwaitOp(q: string, id: Uuid, run: RunId, ev: string, timedOut: bool)
    | WakeOp(id: Uuid)

  ghost function Apply(s: EngineState, op: Op): EngineState {
    match op
    case SpawnOp(q, name, params, max, id) => if id in s.tasks then s else Spawn(s, q, name, params, max, id)
    case ClaimOp(q) => Claim(s, q).0
    case CompleteOp(run) => Complete(s, run)
    case FailOp(run) => Fail(s, run)
    case CheckpointOp(id, step, v) => AddCheckpoint(s, id, step, v)
    case EmitOp(q, ev, payload) => Emit(s, q, ev, payload)
    case AwaitOp(q, id, run, ev, timedOut) => Await(s, q, id, run, ev, timedOut).0
    case WakeOp(id) => Wake(s, id)
  }

  ghost function Exec(s: EngineState, ops: seq<Op>): EngineState {
    if ops == [] then s else Apply(Exec(s, ops[..|ops| - 1]), ops[|ops| - 1])
  }

  /** A single task changed and kept, renewed or gave up its run. */
  lemma InvUpdate(s: EngineState, s': EngineState, id: Uuid, t: FakeTask)
    requires Inv(s) && id in s.tasks && s'.tasks == s.tasks[id := t] && s'.nextRun >= s.nextRun
    requires TaskOk(t)
    requires LiveRun(t).Some? ==> LiveRun(t) == LiveRun(s.tasks[id]) || s.nextRun <= LiveRun(t).value < s'.nextRun
    ensures Inv(s')
  {
  }

  lemma ClaimInv(s: EngineState, q: string)
    requires Inv(s)
    ensures Inv(Claim(s, q).0)
  {
    var found := FirstClaimable(s, Order(s, q));
    if found.Some? {
      assert TaskOk(s.tasks[found.value]);
      InvUpdate(s, Claim(s, q).0, found.value, ClaimTask(s.tasks[found.value]));
    }
  }

  lemma ResolveInv(s: EngineState, run: RunId)
    requires Inv(s)
    ensures Inv(Complete(s, run)) && Inv(Fail(s, run))
  {
    if Holder(s, run).Some? {
      var id := Holder(s, run).value;
      assert TaskOk(s.tasks[id]);
      InvUpdate(s, Complete(s, run), id, CompleteTask(s.tasks[id]));
      InvUpdate(s, Fail(s, run), id, FailTask(s.tasks[id], s.nextRun));
    }
  }

  lemma AwaitInv(s: EngineState, q: string, id: Uuid, run: RunId, ev: string, timedOut: bool)
    requires Inv(s)
    ensures Inv(Await(s, q, id, run, ev, timedOut).0)
  {
    var s' := Await(s, q, id, run, ev, timedOut).0;
    if s' != s {
      assert TaskOk(s.tasks[id]);
      InvUpdate(s, s', id, ParkTask(s.tasks[id], run, q, ev));
    }
  }

  lemma SpawnInv(s: EngineState, q: string, name: string, params: Json, max: nat, id: Uuid)
    requires Inv(s) && id !in s.tasks
    ensures Inv(Spawn(s, q, name, params, max, id))
  {
  }

  lemma CheckpointInv(s: EngineState, id: Uuid, step: string, v: Json)
    requires Inv(s)
    ensures Inv(AddCheckpoint(s, id, step, v))
  {
  }

  lemma ApplyKeepsInv(s: EngineState, op: Op)
    requires Inv(s)
    ensures Inv(Apply(s, op))
  {
    hide Spawn, Claim, Complete, Fail, Await;
    match op
    case SpawnOp(q, name, params, max, id) =>
      if id !in s.tasks {
        SpawnInv(s, q, name, params, max, id);
      }
    case ClaimOp(q) => ClaimInv(s, q);
    case CompleteOp(run) => ResolveInv(s, run);
    case FailOp(run) => ResolveInv(s, run);
    case CheckpointOp(id, step, v) =>
    case EmitOp(q, ev, payload) => WokenInv(s, Emit(s, q, ev, payload));
    case AwaitOp(q, id, run, ev, timedOut) => AwaitInv(s, q, id, run, ev, timedOut);
    case WakeOp(id) => WokenInv(s, Wake(s, id));
  }

  /** Waking any set of parked runs. */
  lemma WokenInv(s: EngineState, s': EngineState)
    requires Inv(s) && s'.tasks.Keys == s.tasks.Keys && s'.nextRun == s.nextRun
    requires forall id | id in s.tasks :: s'.tasks[id] == s.tasks[id] || s'.tasks[id] == WakeTask(s.tasks[id])
    ensures Inv(s')
  {
    forall id | id in s.tasks
      ensures TaskOk(s'.tasks[id]) && LiveRun(s'.tasks[id]) == LiveRun(s.tasks[id])
    {
      assert TaskOk(s.tasks[id]);
    }
  }

  /** Every reachable engine state satisfies the invariant. */
  lemma {:induction false} ReachableInv(s: EngineState, ops: seq<Op>)
    requires Inv(s)
    ensures Inv(Exec(s, ops))
  {
    if ops != [] {
      ReachableInv(s, ops[..|ops| - 1]);
      ApplyKeepsInv(Exec(s, ops[..|ops| - 1]), ops[|ops| - 1]);
    }
  }

  // --- Consequences over runs -----------------------------------------------

  /** No task owns `run` and it will never be minted again. */
  ghost predicate DeadRun(s: EngineState, run: RunId) {
    run < s.nextRun && forall id | id in s.tasks :: LiveRun(s.tasks[id]) != Some(run)
  }

  /** Only one task changed, and it did not take up `run`. */
  lemma DeadRunUpdate(s: EngineState, s': EngineState, id: Uuid, run: RunId)
    requires DeadRun(s, run) && id in s'.tasks && s'.nextRun >= s.nextRun
    requires s'.tasks == s.tasks[id := s'.tasks[id]] && LiveRun(s'.tasks[id]) != Some(run)
    ensures DeadRun(s', run)
  {
  }

  lemma DeadRunWoken(s: EngineState, s': EngineState, run: RunId)
    requires Inv(s) && DeadRun(s, run) && s'.tasks.Keys == s.tasks.Keys && s'.nextRun == s.nextRun
    requires forall id | id in s.tasks :: s'.tasks[id] == s.tasks[id] || s'.tasks[id] == WakeTask(s.tasks[id])
    ensures DeadRun(s', run)
  {
  }

  lemma DeadRunResolved(s: EngineState, r: RunId, run: RunId)
    requires Inv(s) && DeadRun(s, run)
    ensures DeadRun(Complete(s, r), run) && DeadRun(Fail(s, r), run)
  {
    if Holder(s, r).Some? {
      var id := Holder(s, r).value;
      assert TaskOk(s.tasks[id]);
      DeadRunUpdate(s, Complete(s, r), id, run);
      DeadRunUpdate(s, Fail(s, r), id, run);
    }
  }

  lemma DeadRunClaimed(s: EngineState, q: string, run: RunId)
    requires Inv(s) && DeadRun(s, run)
    ensures DeadRun(Claim(s, q).0, run)
  {
    var found := FirstClaimable(s, Order(s, q));
    if found.Some? {
      assert TaskOk(s.tasks[found.value]);
      DeadRunUpdate(s, Claim(s, q).0, found.value, run);
    }
  }

  lemma DeadRunAwaited(s: EngineState, q: string, id: Uuid, r: RunId, ev: string, timedOut: bool, run: RunId)
    requires Inv(s) && DeadRun(s, run)
    ensures DeadRun(Await(s, q, id, r, ev, timedOut).0, run)
  {
    var s' := Await(s, q, id, r, ev, timedOut).0;
    if s' != s {
      assert TaskOk(s.tasks[id]);
      DeadRunUpdate(s, s', id, run);
    }
  }

  lemma DeadRunSpawned(s: EngineState, q: string, name: string, params: Json, max: nat, id: Uuid, run: RunId)
    requires DeadRun(s, run)
    ensures DeadRun(Spawn(s, q, name, params, max, id), run)
  {
  }

  lemma DeadRunStays(s: EngineState, op: Op, run: RunId)
    requires Inv(s) && DeadRun(s, run)
    ensures DeadRun(Apply(s, op), run)
  {
    hide Inv, LiveRun, Spawn, Claim, Await, Complete, Fail;
    match op
    case SpawnOp(q, name, params, max, id) => DeadRunSpawned(s, q, name, params, max, id, run);
    case ClaimOp(q) => DeadRunClaimed(s, q, run);
    case CompleteOp(r) => DeadRunResolved(s, r, run);
    case FailOp(r) => DeadRunResolved(s, r, run);
    case CheckpointOp(id, step, v) =>
    case EmitOp(q, ev, payload) => DeadRunWoken(s, Emit(s, q, ev, payload), run);
    case AwaitOp(q, id, r, ev, timedOut) => DeadRunAwaited(s, q, id, r, ev, timedOut, run);
    case WakeOp(id) => DeadRunWoken(s, Wake(s, id), run);
  }

  /** The run id that an operation resolves (completes or fails) in state `s`. */
  ghost function Resolves(s: EngineState, op: Op): Option<RunId> {
    match op
    case CompleteOp(run) => if Holder(s, run).Some? then Some(run) else None
    case FailOp(run) => if Holder(s, run).Some? then Some(run) else None
    case _ => None
  }

  lemma ResolvedRunIsDead(s: EngineState, op: Op)
    requires Inv(s) && Resolves(s, op).Some?
    ensures DeadRun(Apply(s, op), Resolves(s, op).value)
  {
    var run := Resolves(s, op).value;
    var h := Holder(s, run).value;
    assert TaskOk(s.tasks[h]) && LiveRun(s.tasks[h]) == Some(run);
  }

  lemma {:induction false} DeadRunStaysForever(s: EngineState, ops: seq<Op>, run: RunId)
    requires Inv(s) && DeadRun(s, run)
    ensures DeadRun(Exec(s, ops), run)
  {
    if ops != [] {
      DeadRunStaysForever(s, ops[..|ops| - 1], run);
      ReachableInv(s, ops[..|ops| - 1]);
      DeadRunStays(Exec(s, ops[..|ops| - 1]), ops[|ops| - 1], run);
    }
  }

  lemma {:induction false} ExecConcat(s: EngineState, a: seq<Op>, b: seq<Op>)
    ensures Exec(s, a + b) == Exec(Exec(s, a), b)
  {
    if b == [] {
      assert a + b == a;
    } else {
      ExecConcat(s, a, b[..|b| - 1]);
      assert (a + b)[..|a + b| - 1] == a + b[..|b| - 1];
    }
  }

  /** Completing or failing a run id that no task holds changes nothing. */
  lemma StaleRunChangesNothing(s: EngineState, run: RunId)
    requires Inv(s) && DeadRun(s, run)
    ensures Complete(s, run) == s && Fail(s, run) == s
  {
  }

  /** In every run of the engine each run id is resolved at most once, and any
      later attempt to resolve it changes nothing. */
  lemma ResolvedAtMostOnce(s: EngineState, ops: seq<Op>, i: nat, j: nat)
    requires Inv(s) && i < j < |ops| && Resolves(Exec(s, ops[..i]), ops[i]).Some?
    requires ops[j] == CompleteOp(Resolves(Exec(s, ops[..i]), ops[i]).value)
          || ops[j] == FailOp(Resolves(Exec(s, ops[..i]), ops[i]).value)
    ensures Exec(s, ops[..j + 1]) == Exec(s, ops[..j])
  {
    var run := Resolves(Exec(s, ops[..i]), ops[i]).value;
    ReachableInv(s, ops[..i]);
    ResolvedRunIsDead(Exec(s, ops[..i]), ops[i]);
    StepOf(s, ops, i);
    DeadLater(s, ops, i + 1, j, run);
    ReachableInv(s, ops[..j]);
    StaleRunChangesNothing(Exec(s, ops[..j]), run);
    StepOf(s, ops, j);
  }

  lemma StepOf(s: EngineState, ops: seq<Op>, k: nat)
    requires k < |ops|
    ensures Exec(s, ops[..k + 1]) == Apply(Exec(s, ops[..k]), ops[k])
  {
    assert ops[..k + 1][..k] == ops[..k];
  }

  lemma DeadLater(s: EngineState, ops: seq<Op>, i: nat, j: nat, run: RunId)
    requires Inv(s) && i <= j <= |ops| && DeadRun(Exec(s, ops[..i]), run)
    ensures DeadRun(Exec(s, ops[..j]), run)
  {
    ReachableInv(s, ops[..i]);
    DeadRunStaysForever(Exec(s, ops[..i]), ops[i..j], run);
    ExecConcat(s, ops[..i], ops[i..j]);
    assert ops[..i] + ops[i..j] == ops[..j];
  }

  predicate Final(t: FakeTask) {
    t.state == Completed || t.state == Failed
  }

  lemma FinalStaysOneStep(s: EngineState, op: Op, id: Uuid)
    requires Inv(s) && id in s.tasks && Final(s.tasks[id])
    ensures id in Apply(s, op).tasks && Apply(s, op).tasks[id] == s.tasks[id]
  {
  }

  /** A completed or failed task never changes again, and owns no run. */
  lemma {:induction false} FinalIsAbsorbing(s: EngineState, ops: seq<Op>, id: Uuid)
    requires Inv(s) && id in s.tasks && Final(s.tasks[id])
    ensures id in Exec(s, ops).tasks && Exec(s, ops).tasks[id] == s.tasks[id]
    ensures LiveRun(s.tasks[id]) == None && !NonTerminal(s.tasks[id])
  {
    assert TaskOk(s.tasks[id]);
    if ops != [] {
      FinalIsAbsorbing(s, ops[..|ops| - 1], id);
      ReachableInv(s, ops[..|ops| - 1]);
      FinalStaysOneStep(Exec(s, ops[..|ops| - 1]), ops[|ops| - 1], id);
    }
  }

  lemma CheckpointsGrowByStep(s: EngineState, op: Op, id: Uuid)
    ensures Checkpoints(s, id) <= Checkpoints(Apply(s, op), id)
  {
  }

  /** Checkpoints are only ever appended. */
  lemma {:induction false} CheckpointsOnlyGrow(s: EngineState, ops: seq<Op>, id: Uuid)
    ensures Checkpoints(s, id) <= Checkpoints(Exec(s, ops), id)
  {
    if ops != [] {
      CheckpointsOnlyGrow(s, ops[..|ops| - 1], id);
      CheckpointsGrowByStep(Exec(s, ops[..|ops| - 1]), ops[|ops| - 1], id);
    }
  }

  lemma EventsGrowByStep(s: EngineState, op: Op, q: string, ev: string)
    ensures Events(s, q, ev) <= Events(Apply(s, op), q, ev)
  {
  }

  lemma {:induction false} EventsOnlyGrow(s: EngineState, ops: seq<Op>, q: string, ev: string)
    ensures Events(s, q, ev) <= Events(Exec(s, ops), q, ev)
  {
    if ops != [] {
      EventsOnlyGrow(s, ops[..|ops| - 1], q, ev);
      EventsGrowByStep(Exec(s, ops[..|ops| - 1]), ops[|ops| - 1], q, ev);
    }
  }

  /** The first payload of an event answers every later await of it, whatever
      else is emitted: payloads are not consumed. */
  lemma FirstPayloadAnswersForever(s: EngineState, ops: seq<Op>, q: string, ev: string, id: Uuid, run: RunId, timedOut: bool)
    requires Events(s, q, ev) != []
    ensures Await(Exec(s, ops), q, id, run, ev, timedOut) == (Exec(s, ops), Resolved(Events(s, q, ev)[0]))
  {
    EventsOnlyGrow(s, ops, q, ev);
  }

  /** A run of the task waits to be claimed. */
  ghost predicate Waits(s: EngineState, id: Uuid) {
    id in s.tasks && s.tasks[id].pendingRuns != [] && s.tasks[id].state in {TaskState.Pending, TaskState.Sleeping}
  }

  /** First come, first claimed: no task before the claimed one in the queue has
      a run waiting, and nothing is claimed exactly when no task has. */
  lemma FirstComeFirstClaimed(s: EngineState, q: string) returns (i: nat)
    ensures var claimed := Claim(s, q).1;
            if claimed.None? then forall j | 0 <= j < |Order(s, q)| :: !Waits(s, Order(s, q)[j])
            else
              && i < |Order(s, q)| && Order(s, q)[i] == claimed.value.taskId && Waits(s, Order(s, q)[i])
              && claimed.value.run == s.tasks[Order(s, q)[i]].pendingRuns[0]
              && claimed.value.name == s.tasks[Order(s, q)[i]].name && claimed.value.params == s.tasks[Order(s, q)[i]].params
              && forall j | 0 <= j < i :: !Waits(s, Order(s, q)[j])
  {
    i := FirstWaiting(s, Order(s, q));
  }

  lemma {:induction false} FirstWaiting(s: EngineState, ids: seq<Uuid>) returns (i: nat)
    ensures var found := FirstClaimable(s, ids);
            if found.None? then forall j | 0 <= j < |ids| :: !Waits(s, ids[j])
            else i < |ids| && ids[i] == found.value && Waits(s, ids[i]) && forall j | 0 <= j < i :: !Waits(s, ids[j])
  {
    i := 0;
    if ids != [] && !Claimable(s, ids[0]) {
      i := FirstWaiting(s, ids[1..]);
      assert forall j | 1 <= j < |ids| :: ids[j] == ids[1..][j - 1];
      i := i + 1;
    }
  }

  /** Queues keep the order of spawning: an operation adds at most the task it
      spawns, behind all others. */
  lemma SpawnedLast(s: EngineState, op: Op, q: string)
    ensures Order(Apply(s, op), q) ==
              Order(s, q) + if op.SpawnOp? && op.q == q && op.id !in s.tasks then [op.id] else []
  {
  }

  lemma {:induction false} QueueOnlyGrows(s: EngineState, ops: seq<Op>, q: string)
    ensures Order(s, q) <= Order(Exec(s, ops), q)
  {
    if ops != [] {
      QueueOnlyGrows(s, ops[..|ops| - 1], q);
      SpawnedLast(Exec(s, ops[..|ops| - 1]), ops[|ops| - 1], q);
    }
  }

  lemma JobStays(s: EngineState, op: Op, id: Uuid)
    requires id in s.tasks
    ensures id in Apply(s, op).tasks && SameJob(s.tasks[id], Apply(s, op).tasks[id])
  {
  }

  /** What a task was spawned with. */
  predicate SameJob(t: FakeTask, t': FakeTask) {
    t'.name == t.name && t'.params == t.params && t'.maxAttempts == t.maxAttempts
  }

  /** A task keeps the name, the parameters and the maximum of attempts it was
      spawned with; with `FirstComeFirstClaimed`, they are what its claims get. */
  lemma {:induction false} SpawnedForGood(s: EngineState, ops: seq<Op>, q: string, name: string, params: Json, max: nat, id: Uuid)
    requires id !in s.tasks
    ensures var t := Exec(Apply(s, SpawnOp(q, name, params, max, id)), ops).tasks;
            id in t && t[id].name == name && t[id].params == params && t[id].maxAttempts == max
  {
    hide Apply;
    var s1 := Apply(s, SpawnOp(q, name, params, max, id));
    if ops == [] {
      JustSpawned(s, q, name, params, max, id);
    } else {
      SpawnedForGood(s, ops[..|ops| - 1], q, name, params, max, id);
      JobStays(Exec(s1, ops[..|ops| - 1]), ops[|ops| - 1], id);
    }
  }

  lemma JustSpawned(s: EngineState, q: string, name: string, params: Json, max: nat, id: Uuid)
    requires id !in s.tasks
    ensures var t := Apply(s, SpawnOp(q, name, params, max, id)).tasks;
            id in t && t[id].name == name && t[id].params == params && t[id].maxAttempts == max
  {
  }

  /** A run that awaits an event nobody emitted sleeps, and an emission wakes it
      exactly when it is of that event in that queue: then the same run can be
      claimed again, which costs no attempt. */
  lemma SleeperWakes(s: EngineState, q: string, id: Uuid, run: RunId, ev: string, q': string, ev': string, payload: Json)
    requires Inv(s) && Holds(s, id, run) && Events(s, q, ev) == []
    ensures var (slept, outcome) := Await(s, q, id, run, ev, false);
            var woken := Emit(slept, q', ev', payload);
            && outcome == Suspended && id in woken.tasks && !Claimable(slept, id) && slept.tasks[id].currentRun.None?
            && if q' == q && ev' == ev
               then
                 && Claimable(woken, id) && ClaimTask(woken.tasks[id]).currentRun == Some(run)
                 && ClaimTask(woken.tasks[id]).attempts == s.tasks[id].attempts
               else woken.tasks[id] == slept.tasks[id]
  {
    assert TaskOk(s.tasks[id]);
  }

  /** What resolving a held run makes of its task: completed, or after a failure
      asleep with one fresh run while attempts are left, and failed when none is. */
  lemma ResolvedAs(s: EngineState, id: Uuid, run: RunId)
    requires Inv(s) && Holds(s, id, run)
    ensures var t, done, failed := s.tasks[id], Complete(s, run).tasks, Fail(s, run).tasks;
            && done.Keys == failed.Keys == s.tasks.Keys && done - {id} == failed - {id} == s.tasks - {id}
            && done[id].state == TaskState.Completed && LiveRun(done[id]).None?
            && (if t.attempts < t.maxAttempts
                then failed[id].state == TaskState.Sleeping && failed[id].pendingRuns == [s.nextRun] && LiveRun(failed[id]) == Some(s.nextRun)
                else failed[id].state == TaskState.Failed && LiveRun(failed[id]).None?)
  {
    assert TaskOk(s.tasks[id]);
    var h := Holder(s, run).value;
    assert TaskOk(s.tasks[h]) && LiveRun(s.tasks[h]) == LiveRun(s.tasks[id]) == Some(run);
  }

  // --- The class ------------------------------------------------------------

  class FakeEngine {
    var queues: set<string>
    var tasks: map<Uuid, FakeTask>
    var order: map<string, seq<Uuid>>
    var checkpoints: map<Uuid, seq<(string, Json)>>
    var events: map<(string, string), seq<Json>>
    var nextRun: RunId
    const defaultMaxAttempts: nat

    function View(): EngineState
      reads this
    {
      EngineState(queues, tasks, order, checkpoints, events, nextRun)
    }

    constructor (maxAttempts: nat)
      ensures View() == EngineState({}, map[], map[], map[], map[], 0) && Inv(View())
      ensures defaultMaxAttempts == maxAttempts
    {
      queues, tasks, order, checkpoints, events, nextRun := {}, map[], map[], map[], map[], 0;
      defaultMaxAttempts := maxAttempts;
    }

    method CreateQueue(q: string)
      modifies this
      ensures View() == old(View()).(queues := old(queues) + {q})
    {
      queues := queues + {q};
    }

    method SpawnTask(q: string, name: string, params: Json, id: Uuid)
      requires Inv(View()) && id !in tasks
      modifies this
      ensures View() == Spawn(old(View()), q, name, params, defaultMaxAttempts, id) && Inv(View())
    {
      var run := nextRun;
      nextRun := nextRun + 1;
      queues := queues + {q};
      tasks := tasks[id := FakeTask(name, params, Pending, defaultMaxAttempts, 0, None, [run], None, false)];
      order := order[q := (if q in order then order[q] else []) + [id]];
    }

    method ClaimTask(q: string) returns (claimed: Option<ClaimedTask>)
      requires Inv(View())
      modifies this
      ensures (View(), claimed) == Claim(old(View()), q) && Inv(View())
    {
      hide Inv;
      ghost var before := View();
      ClaimInv(before, q);
      var ids := if q in order then order[q] else [];
      var i := 0;
      while i < |ids| && !Claimable(View(), ids[i])
        invariant 0 <= i <= |ids| && View() == before
        invariant FirstClaimable(before, ids) == FirstClaimable(before, ids[i..])
      {
        i := i + 1;
      }
      if i == |ids| {
        return None;
      }
      var id := ids[i];
      var t := tasks[id];
      var run := t.pendingRuns[0];
      tasks := tasks[id := t.(pendingRuns := t.pendingRuns[1..], attempts := t.attempts + (if t.woken then 0 else 1),
                              woken := false, currentRun := Some(run), state := Running)];
      return Some(ClaimedTask(run, id, t.name, t.params));
    }

    /** The search over the task table that `complete_run` and `fail_run` share. */
    method FindHolder(run: RunId) returns (h: Option<Uuid>)
      requires Inv(View())
      ensures h == Holder(View(), run)
    {
      var left := tasks.Keys;
      while left != {}
        invariant left <= tasks.Keys
        invariant forall id | id in tasks && id !in left :: !Holds(View(), id, run)
        decreases left
      {
        var id :| id in left;
        if tasks[id].currentRun == Some(run) {
          assert Holds(View(), id, run);
          assert LiveRun(tasks[id]) == Some(run);
          return Some(id);
        }
        left := left - {id};
      }
      return None;
    }

    method CompleteRun(run: RunId)
      requires Inv(View())
      modifies this
      ensures View() == Complete(old(View()), run) && Inv(View())
    {
      ResolveInv(View(), run);
      var h := FindHolder(run);
      if h.Some? {
        tasks := tasks[h.value := tasks[h.value].(currentRun := None, state := Completed)];
      }
    }

    method FailRun(run: RunId)
      requires Inv(View())
      modifies this
      ensures View() == Fail(old(View()), run) && Inv(View())
    {
      ResolveInv(View(), run);
      var h := FindHolder(run);
      if h.Some? {
        var t := tasks[h.value].(currentRun := None);
        if t.attempts < t.maxAttempts {
          tasks := tasks[h.value := t.(pendingRuns := t.pendingRuns + [nextRun], state := Sleeping)];
        } else {
          tasks := tasks[h.value := t.(state := Failed)];
        }
        nextRun := nextRun + 1;
      }
    }

    method SetCheckpoint(id: Uuid, step: string, v: Json)
      requires Inv(View())
      modifies this
      ensures View() == AddCheckpoint(old(View()), id, step, v) && Inv(View())
    {
      checkpoints := checkpoints[id := (if id in checkpoints then checkpoints[id] else []) + [(step, v)]];
    }

    method GetLastCheckpoint(id: Uuid) returns (r: Option<(string, Json)>)
      ensures r == LastCheckpoint(View(), id)
    {
      if id !in checkpoints || checkpoints[id] == [] {
        return None;
      }
      return Some(checkpoints[id][|checkpoints[id]| - 1]);
    }

    /** The pending, sleeping and running tasks of the queue, in spawn order. */
    method NonTerminalTasks(q: string) returns (ids: seq<Uuid>)
      ensures forall id :: id in ids <==> id in Order(View(), q) && id in tasks && NonTerminal(tasks[id])
    {
      var all := if q in order then order[q] else [];
      ids := [];
      for i := 0 to |all|
        invariant forall id :: id in ids <==> id in all[..i] && id in tasks && NonTerminal(tasks[id])
      {
        if all[i] in tasks && NonTerminal(tasks[all[i]]) {
          ids := ids + [all[i]];
        }
        assert all[..i + 1] == all[..i] + [all[i]];
      }
      assert all[..|all|] == all;
    }

    method EmitEvent(q: string, ev: string, payload: Json)
      requires Inv(View())
      modifies this
      ensures View() == Emit(old(View()), q, ev, payload) && Inv(View())
    {
      hide Inv;
      WokenInv(View(), Emit(View(), q, ev, payload));
      events := events[(q, ev) := (if (q, ev) in events then events[(q, ev)] else []) + [payload]];
      tasks := WakeParked(tasks, q, ev);
    }

    /** The await of a parked run times out: the run becomes claimable again. */
    method WakeUp(id: Uuid)
      requires Inv(View())
      modifies this
      ensures View() == Wake(old(View()), id) && Inv(View())
    {
      hide Inv;
      WokenInv(View(), Wake(View(), id));
      if id in tasks {
        tasks := tasks[id := WakeTask(tasks[id])];
      }
    }

    method AwaitEvent(q: string, id: Uuid, run: RunId, ev: string, timedOut: bool) returns (outcome: AwaitOutcome)
      requires Inv(View())
      modifies this
      ensures (View(), outcome) == Await(old(View()), q, id, run, ev, timedOut) && Inv(View())
    {
      hide Inv;
      AwaitInv(View(), q, id, run, ev, timedOut);
      if (q, ev) in events && events[(q, ev)] != [] {
        return Resolved(events[(q, ev)][0]);
      }
      if timedOut {
        return Resolved(Null);
      }
      if id in tasks && tasks[id].currentRun == Some(run) {
        tasks := tasks[id := ParkTask(tasks[id], run, q, ev)];
      }
      return Suspended;
    }
  }
}
