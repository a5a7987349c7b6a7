/** The level-barrier dispatcher (`handle_dispatch_dag` in
    `janus/src/bin/janus_daemon.rs`). What it does is recorded as a trace; what
    the world answers is an arbitrary function of the time of the question. */
module DagDriver {
  import opened Wrappers
  import opened Dag
  import opened DagTheorems
  import opened Overlay

  type Tid = nat

  /** How a task's handle is resolved. */
  datatype Join = Returned | RuntimeError | Panicked

  datatype Event =
    | LoadFailed(node: Node)
    | DispatchFailed(node: Node)
    | Dispatched(node: Node, tid: Tid)
    | Joined(tid: Tid, outcome: Join)
    | Checked(tid: Tid, ok: bool)
    | AllLevelsDone

  /** The world's answers; `nat` arguments are trace positions, so the same
      question may be answered differently each time it is asked. */
  datatype World = World(
    pgOnline: bool,
    inlined: set<string>,
    loads: (string, nat) -> bool,
    dispatches: (Node, nat) -> bool,
    join: (Tid, nat) -> Join,
    snapshot: (Tid, nat) -> nat -> Option<seq<Row>>)

  datatype DispatchError = Offline | NotPlanned(error: DagError) | NoLevels | LevelZero

  // --- What a trace says ----------------------------------------------------

  /** The nodes dispatched, in order. */
  function DispatchedNodes(trace: seq<Event>): seq<Node> {
    if trace == [] then []
    else
      var e := trace[|trace| - 1];
      DispatchedNodes(trace[..|trace| - 1]) + if e.Dispatched? then [e.node] else []
  }

  /** Before position `i`, `n` was dispatched, its handle returned, and its
      task was then observed successful. */
  ghost predicate SeenSuccessful(trace: seq<Event>, n: Node, i: nat) {
    exists a, b, c :: SuccessAt(trace, n, a, b, c) && c < i
  }

  ghost predicate SuccessAt(trace: seq<Event>, n: Node, a: int, b: int, c: int) {
    && 0 <= a < b < c < |trace|
    && trace[a].Dispatched? && trace[a].node == n
    && trace[b] == Joined(trace[a].tid, Returned)
    && trace[c] == Checked(trace[a].tid, true)
  }

  /** Every node of an earlier level was seen successful before `i`. */
  ghost predicate LevelsSeen(trace: seq<Event>, levels: seq<seq<Node>>, k: nat, i: nat) {
    forall j, m | 0 <= j < k && j < |levels| && m in levels[j] :: SeenSuccessful(trace, m, i)
  }

  /** The barrier: a node is dispatched only after all earlier levels were seen successful. */
  ghost predicate Barrier(trace: seq<Event>, levels: seq<seq<Node>>) {
    forall i, k | 0 <= i < |trace| && trace[i].Dispatched? && 0 <= k < |levels| && trace[i].node in levels[k] ::
      LevelsSeen(trace, levels, k, i)
  }

  /** The workflow of the node is registered, or loads when it is asked for. */
  ghost predicate Loads(world: World, n: Node, at: nat) {
    n.workflow in world.inlined || world.loads(n.workflow, at)
  }

  /** The `at`-th event is what the world answered then. */
  ghost predicate Answers(world: World, at: nat, e: Event) {
    match e
    case LoadFailed(n) => !Loads(world, n, at)
    case DispatchFailed(n) => Loads(world, n, at) && !world.dispatches(n, at)
    case Dispatched(n, tid) => tid == at && Loads(world, n, at) && world.dispatches(n, at)
    case Joined(tid, outcome) => outcome == world.join(tid, at)
    case Checked(tid, ok) => ok <==> SuccessSeen(world.snapshot(tid, at))
    case AllLevelsDone => true
  }

  /** Every node of the levels `n` is in was dispatched. */
  ghost predicate LevelOut(trace: seq<Event>, levels: seq<seq<Node>>, n: Node) {
    forall k, m | 0 <= k < |levels| && n in levels[k] && m in levels[k] :: WasDispatched(trace, m)
  }

  ghost predicate WasDispatched(trace: seq<Event>, m: Node) {
    exists a :: 0 <= a < |trace| && trace[a].Dispatched? && trace[a].node == m
  }

  /** Handles are awaited in the order of their dispatch, each once, and only
      when their whole level is out; a task is checked right after it returned. */
  ghost predicate InPlace(trace: seq<Event>, levels: seq<seq<Node>>, e: Event) {
    match e
    case Joined(tid, _) =>
      && tid < |trace| && trace[tid].Dispatched? && LevelOut(trace, levels, trace[tid].node)
      && (forall b | 0 <= b < |trace| && trace[b].Joined? :: trace[b].tid < tid)
    case Checked(tid, _) => trace != [] && trace[|trace| - 1] == Joined(tid, Returned)
    case _ => true
  }

  ghost predicate Faithful(world: World, trace: seq<Event>, levels: seq<seq<Node>>) {
    forall i | 0 <= i < |trace| :: Answers(world, i, trace[i]) && InPlace(trace[..i], levels, trace[i])
  }

  ghost predicate Orderly(world: World, trace: seq<Event>, levels: seq<seq<Node>>) {
    Barrier(trace, levels) && Faithful(world, trace, levels)
  }

  /** Nothing went wrong so far. */
  predicate Good(e: Event) {
    match e
    case LoadFailed(_) => false
    case DispatchFailed(_) => false
    case Joined(_, outcome) => outcome == Returned
    case Checked(_, ok) => ok
    case _ => true
  }

  lemma SeenLater(trace: seq<Event>, more: seq<Event>, n: Node, i: nat, i': nat)
    requires SeenSuccessful(trace, n, i) && i <= i'
    ensures SeenSuccessful(trace + more, n, i')
  {
    var a, b, c :| SuccessAt(trace, n, a, b, c) && c < i;
    assert SuccessAt(trace + more, n, a, b, c);
  }

  /** Appending anything but a dispatch keeps the trace orderly. */
  lemma AppendOther(world: World, trace: seq<Event>, levels: seq<seq<Node>>, e: Event)
    requires Orderly(world, trace, levels) && !e.Dispatched?
    requires Answers(world, |trace|, e) && InPlace(trace, levels, e)
    ensures Orderly(world, trace + [e], levels)
    ensures DispatchedNodes(trace + [e]) == DispatchedNodes(trace)
  {
    hide Barrier, Faithful, Answers, InPlace;
    BarrierAppend(trace, levels, e);
    FaithfulAppend(world, trace, levels, e);
    assert (trace + [e])[..|trace|] == trace;
  }

  lemma FaithfulAppend(world: World, trace: seq<Event>, levels: seq<seq<Node>>, e: Event)
    requires Faithful(world, trace, levels) && Answers(world, |trace|, e) && InPlace(trace, levels, e)
    ensures Faithful(world, trace + [e], levels)
  {
    hide Answers, InPlace;
    forall i | 0 <= i < |trace| + 1
      ensures Answers(world, i, (trace + [e])[i]) && InPlace((trace + [e])[..i], levels, (trace + [e])[i])
    {
      if i < |trace| {
        assert (trace + [e])[..i] == trace[..i];
      } else {
        assert (trace + [e])[..i] == trace;
      }
    }
  }

  lemma BarrierAppend(trace: seq<Event>, levels: seq<seq<Node>>, e: Event)
    requires Barrier(trace, levels)
    requires e.Dispatched? ==> forall k | 0 <= k < |levels| && e.node in levels[k] :: LevelsSeen(trace, levels, k, |trace|)
    ensures Barrier(trace + [e], levels)
  {
    var after := trace + [e];
    forall i, k, j, m | 0 <= i < |after| && after[i].Dispatched? && 0 <= k < |levels| && after[i].node in levels[k]
                        && 0 <= j < k && m in levels[j]
      ensures SeenSuccessful(after, m, i)
    {
      if i < |trace| {
        assert after[i] == trace[i];
        assert LevelsSeen(trace, levels, k, i);
        SeenLater(trace, [e], m, i, i);
      } else {
        assert LevelsSeen(trace, levels, k, |trace|);
        SeenLater(trace, [e], m, |trace|, i);
      }
    }
  }

  /** A node belongs to one level only. */
  ghost predicate Separate(levels: seq<seq<Node>>) {
    forall j, k, n | 0 <= j < |levels| && 0 <= k < |levels| && n in levels[j] && n in levels[k] :: j == k
  }

  ghost predicate AllGood(trace: seq<Event>) {
    forall e | e in trace :: Good(e)
  }

  /** Only the last event may be bad: the driver stops there. */
  ghost predicate StoppedAtFirstBad(trace: seq<Event>) {
    trace != [] && AllGood(trace[..|trace| - 1]) && !Good(trace[|trace| - 1])
  }

  /** Every handle of the level belongs to a recorded dispatch. */
  ghost predicate HandlesOf(trace: seq<Event>, level: seq<Node>, handles: seq<Tid>) {
    && |handles| == |level|
    && (forall h | 0 <= h < |level| :: handles[h] < |trace| && trace[handles[h]] == Dispatched(level[h], handles[h]))
  }

  /** None of the handles from `h` on was awaited, and later dispatches have later handles. */
  ghost predicate Unawaited(trace: seq<Event>, handles: seq<Tid>, h: nat) {
    && (forall f, g | 0 <= f < g < |handles| :: handles[f] < handles[g])
    && (forall b, g | 0 <= b < |trace| && trace[b].Joined? && h <= g < |handles| :: trace[b].tid < handles[g])
  }

  /** The handles of a level dispatched just now. */
  lemma FreshHandles(world: World, levels: seq<seq<Node>>, trace0: seq<Event>, trace: seq<Event>, handles: seq<Tid>)
    requires Orderly(world, trace0, levels) && trace0 <= trace
    requires forall b | |trace0| <= b < |trace| :: !trace[b].Joined?
    requires forall h | 0 <= h < |handles| :: handles[h] == |trace0| + h
    ensures Unawaited(trace, handles, 0)
  {
    hide Barrier, Answers;
    assert Faithful(world, trace0, levels);
    forall b | 0 <= b < |trace| && trace[b].Joined?
      ensures trace[b].tid < |trace0|
    {
      assert trace[b] == trace0[b] && InPlace(trace0[..b], levels, trace0[b]);
    }
  }

  lemma WholeLevelOut(levels: seq<seq<Node>>, k: nat, trace: seq<Event>, handles: seq<Tid>, h: nat)
    requires Separate(levels) && k < |levels| && HandlesOf(trace, levels[k], handles) && h < |handles|
    ensures LevelOut(trace, levels, levels[k][h])
  {
    forall j, m | 0 <= j < |levels| && levels[k][h] in levels[j] && m in levels[j]
      ensures WasDispatched(trace, m)
    {
      assert j == k;
      var g :| 0 <= g < |levels[k]| && levels[k][g] == m;
      assert trace[handles[g]].node == m;
    }
  }

  /** The next handle is awaited. */
  lemma JoinInPlace(levels: seq<seq<Node>>, k: nat, trace: seq<Event>, handles: seq<Tid>, h: nat, outcome: Join)
    requires Separate(levels) && k < |levels| && HandlesOf(trace, levels[k], handles) && h < |handles|
    requires Unawaited(trace, handles, h)
    ensures InPlace(trace, levels, Joined(handles[h], outcome))
    ensures Unawaited(trace + [Joined(handles[h], outcome)], handles, h + 1)
  {
    WholeLevelOut(levels, k, trace, handles, h);
  }

  lemma NothingOut(trace: seq<Event>, level: seq<Node>)
    ensures HandlesOf(trace, level[..0], []) && DispatchedNodes(trace) == DispatchedNodes(trace) + level[..0]
  {
  }

  /** The next node of the level is dispatched. */
  lemma HandleAdded(trace: seq<Event>, level: seq<Node>, h: nat, handles: seq<Tid>)
    requires h < |level| && HandlesOf(trace, level[..h], handles)
    ensures HandlesOf(trace + [Dispatched(level[h], |trace|)], level[..h + 1], handles + [|trace|])
    ensures level[..h + 1] == level[..h] + [level[h]]
  {
  }

  lemma AppendDispatch(world: World, trace: seq<Event>, levels: seq<seq<Node>>, k: nat, n: Node)
    requires Orderly(world, trace, levels) && Separate(levels) && k < |levels| && n in levels[k]
    requires LevelsSeen(trace, levels, k, |trace|)
    requires Loads(world, n, |trace|) && world.dispatches(n, |trace|)
    ensures Orderly(world, trace + [Dispatched(n, |trace|)], levels)
    ensures DispatchedNodes(trace + [Dispatched(n, |trace|)]) == DispatchedNodes(trace) + [n]
    ensures LevelsSeen(trace + [Dispatched(n, |trace|)], levels, k, |trace| + 1)
  {
    var e := Dispatched(n, |trace|);
    BarrierAppend(trace, levels, e);
    FaithfulAppend(world, trace, levels, e);
    assert (trace + [e])[..|trace|] == trace;
    forall j, m | 0 <= j < k && m in levels[j]
      ensures SeenSuccessful(trace + [e], m, |trace| + 1)
    {
      SeenLater(trace, [e], m, |trace|, |trace| + 1);
    }
  }

  lemma AllGoodAppend(trace: seq<Event>, e: Event)
    requires AllGood(trace)
    ensures Good(e) ==> AllGood(trace + [e])
    ensures !Good(e) ==> StoppedAtFirstBad(trace + [e])
  {
  }

  /** Loads and dispatches every node of one level, collecting the handles;
      stops at the first load or dispatch error. */
  method DispatchLevel(world: World, ghost levels: seq<seq<Node>>, ghost k: nat, level: seq<Node>, trace0: seq<Event>)
    returns (ok: bool, trace: seq<Event>, handles: seq<Tid>)
    requires Separate(levels) && k < |levels| && levels[k] == level
    requires Orderly(world, trace0, levels) && LevelsSeen(trace0, levels, k, |trace0|) && AllGood(trace0)
    ensures Orderly(world, trace, levels) && trace0 <= trace
    ensures ok ==> AllGood(trace) && HandlesOf(trace, level, handles)
    ensures ok ==> DispatchedNodes(trace) == DispatchedNodes(trace0) + level && Unawaited(trace, handles, 0)
    ensures !ok ==> StoppedAtFirstBad(trace) && |handles| <= |level|
    ensures !ok ==> DispatchedNodes(trace) == DispatchedNodes(trace0) + level[..|handles|]
  {
    hide Orderly, AllGood, StoppedAtFirstBad, LevelsSeen, HandlesOf, Separate, Unawaited, DispatchedNodes;
    trace, handles := trace0, [];
    NothingOut(trace0, level);
    for h := 0 to |level|
      invariant |handles| == h && trace0 <= trace && AllGood(trace)
      invariant Orderly(world, trace, levels) && LevelsSeen(trace, levels, k, |trace|)
      invariant HandlesOf(trace, level[..h], handles)
      invariant forall b | |trace0| <= b < |trace| :: !trace[b].Joined?
      invariant |trace| == |trace0| + h && forall g | 0 <= g < h :: handles[g] == |trace0| + g
      invariant DispatchedNodes(trace) == DispatchedNodes(trace0) + level[..h]
    {
      var node := level[h];
      if node.workflow !in world.inlined && !world.loads(node.workflow, |trace|) {
        AppendOther(world, trace, levels, LoadFailed(node));
        AllGoodAppend(trace, LoadFailed(node));
        return false, trace + [LoadFailed(node)], handles;
      }
      if !world.dispatches(node, |trace|) {
        AppendOther(world, trace, levels, DispatchFailed(node));
        AllGoodAppend(trace, DispatchFailed(node));
        return false, trace + [DispatchFailed(node)], handles;
      }
      var tid := |trace|;
      HandleAdded(trace, level, h, handles);
      AppendDispatch(world, trace, levels, k, node);
      AllGoodAppend(trace, Dispatched(node, tid));
      assert DispatchedNodes(trace + [Dispatched(node, tid)]) == DispatchedNodes(trace0) + level[..h + 1];
      trace := trace + [Dispatched(node, tid)];
      handles := handles + [tid];
    }
    assert level[..|level|] == level;
    FreshHandles(world, levels, trace0, trace, handles);
    return true, trace, handles;
  }

  /** Awaits the handles in order and checks each task; stops at the first
      error, panic or unsuccessful task. */
  method AwaitLevel(world: World, ghost levels: seq<seq<Node>>, ghost k: nat, level: seq<Node>, handles: seq<Tid>, trace0: seq<Event>)
    returns (ok: bool, trace: seq<Event>)
    requires Separate(levels) && k < |levels| && levels[k] == level
    requires Orderly(world, trace0, levels) && AllGood(trace0) && HandlesOf(trace0, level, handles) && Unawaited(trace0, handles, 0)
    ensures Orderly(world, trace, levels) && trace0 <= trace
    ensures DispatchedNodes(trace) == DispatchedNodes(trace0)
    ensures ok ==> AllGood(trace) && forall n | n in level :: SeenSuccessful(trace, n, |trace|)
    ensures !ok ==> StoppedAtFirstBad(trace)
  {
    hide Orderly, AllGood, StoppedAtFirstBad, SuccessSeen, Separate, Unawaited, LevelOut;
    trace := trace0;
    for h := 0 to |handles|
      invariant Orderly(world, trace, levels) && AllGood(trace) && trace0 <= trace
      invariant DispatchedNodes(trace) == DispatchedNodes(trace0)
      invariant HandlesOf(trace, level, handles) && Unawaited(trace, handles, h)
      invariant forall g | 0 <= g < h :: SeenSuccessful(trace, level[g], |trace|)
    {
      var tid := handles[h];
      var joined := Joined(tid, world.join(tid, |trace|));
      ghost var before := trace;
      JoinInPlace(levels, k, trace, handles, h, joined.outcome);
      AppendOther(world, trace, levels, joined);
      AllGoodAppend(trace, joined);
      trace := trace + [joined];
      if joined.outcome != Returned {
        return false, trace;
      }
      var success := IsTaskSuccessful(world.snapshot(tid, |trace|));
      var checked := Checked(tid, success);
      AppendOther(world, trace, levels, checked);
      AllGoodAppend(trace, checked);
      CheckedAwaitsNone(trace, handles, h + 1, checked);
      trace := trace + [checked];
      if !success {
        return false, trace;
      }
      assert trace == before + [joined, checked];
      assert SuccessAt(trace, level[h], tid, |before|, |before| + 1);
      forall g | 0 <= g < h
        ensures SeenSuccessful(trace, level[g], |trace|)
      {
        SeenLater(before, [joined, checked], level[g], |before|, |trace|);
      }
    }
    return true, trace;
  }

  lemma CheckedAwaitsNone(trace: seq<Event>, handles: seq<Tid>, h: nat, e: Event)
    requires Unawaited(trace, handles, h) && !e.Joined?
    ensures Unawaited(trace + [e], handles, h)
  {
  }

  lemma {:induction false} FlattenTake<T>(levels: seq<seq<T>>, k: nat)
    requires k <= |levels|
    ensures Flatten(levels[..k]) <= Flatten(levels)
  {
    if k == |levels| {
      assert levels[..k] == levels;
    } else {
      FlattenTake(levels[..|levels| - 1], k);
      assert levels[..|levels| - 1][..k] == levels[..k];
    }
  }

  /** Part of level `k` on top of all earlier levels is a prefix of the plan. */
  lemma PartOfPlan(levels: seq<seq<Node>>, k: nat, m: nat)
    requires k < |levels| && m <= |levels[k]|
    ensures Flatten(levels[..k]) + levels[k][..m] <= Flatten(levels)
    ensures Flatten(levels[..k + 1]) == Flatten(levels[..k]) + levels[k]
  {
    FlattenTake(levels, k + 1);
    assert levels[..k + 1][..k] == levels[..k];
  }

  lemma SeenAllLevels(trace0: seq<Event>, trace: seq<Event>, levels: seq<seq<Node>>, k: nat)
    requires k < |levels| && trace0 <= trace && LevelsSeen(trace0, levels, k, |trace0|)
    requires forall n | n in levels[k] :: SeenSuccessful(trace, n, |trace|)
    ensures LevelsSeen(trace, levels, k + 1, |trace|)
  {
    forall j, m | 0 <= j < k + 1 && j < |levels| && m in levels[j]
      ensures SeenSuccessful(trace, m, |trace|)
    {
      if j < k {
        SeenLater(trace0, trace[|trace0|..], m, |trace0|, |trace|);
        assert trace0 + trace[|trace0|..] == trace;
      }
    }
  }

  /** The driver is at the barrier below level `k`. */
  ghost predicate AtBarrier(world: World, levels: seq<seq<Node>>, k: nat, trace: seq<Event>) {
    && k <= |levels|
    && Orderly(world, trace, levels) && AllGood(trace)
    && LevelsSeen(trace, levels, k, |trace|)
    && DispatchedNodes(trace) == Flatten(levels[..k])
  }

  /** What one whole run of the dispatcher leaves behind. */
  ghost predicate DriverTrace(world: World, levels: seq<seq<Node>>, trace: seq<Event>) {
    && Orderly(world, trace, levels)
    && DispatchedNodes(trace) <= Flatten(levels)
  }

  /** The whole plan ran and was seen successful. */
  ghost predicate Completed(levels: seq<seq<Node>>, trace: seq<Event>) {
    && AllGood(trace) && trace != [] && trace[|trace| - 1] == AllLevelsDone
    && DispatchedNodes(trace) == Flatten(levels)
    && LevelsSeen(trace, levels, |levels|, |trace|)
  }

  /** A world in which nothing goes wrong. */
  ghost predicate Agreeable(world: World) {
    && world.pgOnline && (forall w, at :: world.loads(w, at)) && (forall n, at :: world.dispatches(n, at))
    && (forall tid, at :: world.join(tid, at) == Returned) && (forall tid, at :: SuccessSeen(world.snapshot(tid, at)))
  }

  /** No event of such a world is bad, so that nothing stops the driver. */
  lemma AgreeableNeverStops(world: World, levels: seq<seq<Node>>, trace: seq<Event>)
    requires Agreeable(world) && DriverTrace(world, levels, trace)
    ensures !StoppedAtFirstBad(trace)
  {
    hide SuccessSeen, InPlace;
    if trace != [] {
      assert Answers(world, |trace| - 1, trace[|trace| - 1]);
    }
  }

  lemma FinishTrace(world: World, levels: seq<seq<Node>>, trace: seq<Event>)
    requires AtBarrier(world, levels, |levels|, trace)
    ensures DriverTrace(world, levels, trace + [AllLevelsDone]) && Completed(levels, trace + [AllLevelsDone])
  {
    hide Orderly, AllGood, SeenSuccessful;
    assert levels[..|levels|] == levels;
    AppendOther(world, trace, levels, AllLevelsDone);
    AllGoodAppend(trace, AllLevelsDone);
    forall j, m | 0 <= j < |levels| && m in levels[j]
      ensures SeenSuccessful(trace + [AllLevelsDone], m, |trace| + 1)
    {
      SeenLater(trace, [AllLevelsDone], m, |trace|, |trace| + 1);
    }
  }

  /** One level in the background: dispatch all of it, then await all of it. */
  method DriveLevel(world: World, levels: seq<seq<Node>>, k: nat, trace0: seq<Event>) returns (ok: bool, trace: seq<Event>)
    requires Separate(levels) && k < |levels| && AtBarrier(world, levels, k, trace0)
    ensures trace0 <= trace
    ensures ok ==> AtBarrier(world, levels, k + 1, trace)
    ensures !ok ==> DriverTrace(world, levels, trace) && StoppedAtFirstBad(trace)
  {
    hide Separate, Orderly, AllGood, SeenSuccessful, LevelsSeen, StoppedAtFirstBad, HandlesOf, Unawaited;
    var handles;
    ok, trace, handles := DispatchLevel(world, levels, k, levels[k], trace0);
    if !ok {
      PartOfPlan(levels, k, |handles|);
      return;
    }
    PartOfPlan(levels, k, |levels[k]|);
    assert levels[k][..|levels[k]|] == levels[k];
    ok, trace := AwaitLevel(world, levels, k, levels[k], handles, trace);
    if ok {
      SeenAllLevels(trace0, trace, levels, k);
    }
  }

  /** Awaits level 0 and drives the remaining levels in the background. */
  method Background(world: World, levels: seq<seq<Node>>, handles0: seq<Tid>, trace0: seq<Event>) returns (trace: seq<Event>)
    requires Separate(levels) && levels != []
    requires Orderly(world, trace0, levels) && AllGood(trace0) && HandlesOf(trace0, levels[0], handles0)
    requires Unawaited(trace0, handles0, 0)
    requires DispatchedNodes(trace0) == levels[0]
    ensures DriverTrace(world, levels, trace) && trace0 <= trace
    ensures Completed(levels, trace) || StoppedAtFirstBad(trace)
  {
    PartOfPlan(levels, 0, |levels[0]|);
    assert levels[0][..|levels[0]|] == levels[0];
    assert Flatten(levels[..0]) == [];
    assert LevelsSeen(trace0, levels, 0, |trace0|);
    hide Separate, Orderly, AllGood, SeenSuccessful, LevelsSeen, StoppedAtFirstBad, HandlesOf, Completed, Unawaited;
    var ok;
    ok, trace := AwaitLevel(world, levels, 0, levels[0], handles0, trace0);
    if !ok {
      return;
    }
    SeenAllLevels(trace0, trace, levels, 0);
    for k := 1 to |levels|
      invariant AtBarrier(world, levels, k, trace) && trace0 <= trace
    {
      ok, trace := DriveLevel(world, levels, k, trace);
      if !ok {
        return;
      }
    }
    FinishTrace(world, levels, trace);
    trace := trace + [AllLevelsDone];
  }

  lemma EmptyPlan(nodes: seq<Node>, levels: seq<seq<Node>>)
    requires IsPlan(nodes, levels)
    ensures levels == [] <==> nodes == []
    ensures levels != [] ==> levels[0] != []
  {
  }

  /** Dispatches level 0 in the foreground, the rest in the background. */
  method Drive(world: World, levels: seq<seq<Node>>)
    returns (r: Result<Tid, DispatchError>, trace: seq<Event>)
    requires Separate(levels) && levels != [] && levels[0] != []
    ensures DriverTrace(world, levels, trace)
    ensures r.Success? ==> Completed(levels, trace) || StoppedAtFirstBad(trace)
    ensures r.Success? ==> r.value < |trace| && trace[r.value] == Dispatched(levels[0][0], r.value)
    ensures r.Failure? ==> r.error == LevelZero && StoppedAtFirstBad(trace)
  {
    var dispatched, handles;
    dispatched, trace, handles := DispatchLevel(world, levels, 0, levels[0], []);
    PartOfPlan(levels, 0, |handles|);
    assert Flatten(levels[..0]) == [];
    if !dispatched {
      return Failure(LevelZero), trace;
    }
    var first := handles[0];
    assert trace[first] == Dispatched(levels[0][0], first);
    trace := Background(world, levels, handles, trace);
    return Success(first), trace;
  }

  /** `handle_dispatch_dag`. An error while dispatching level 0 is returned to
      the caller; everything later happens in the background. */
  method HandleDispatchDag(nodes: seq<Node>, world: World)
    returns (r: Result<Tid, DispatchError>, trace: seq<Event>, ghost levels: seq<seq<Node>>)
    requires UniqueIds(nodes)
    ensures trace == [] || (IsPlan(nodes, levels) && DriverTrace(world, levels, trace))
    ensures r.Success? ==> IsPlan(nodes, levels) && (Completed(levels, trace) || StoppedAtFirstBad(trace))
    ensures r.Success? ==> r.value < |trace| && trace[r.value].Dispatched? && FirstFree(nodes, trace[r.value].node)
    ensures r.Failure? && r.error == LevelZero ==> StoppedAtFirstBad(trace)
    ensures r.Failure? && r.error != LevelZero ==> trace == []
    ensures r == Failure(Offline) <==> !world.pgOnline
    ensures r.Failure? && r.error.NotPlanned? <==> world.pgOnline && !forall n | n in nodes :: !Blocked(nodes, n.id)
    ensures r == Failure(NoLevels) <==> world.pgOnline && nodes == []
    ensures Agreeable(world) && nodes != [] && (forall n | n in nodes :: !Blocked(nodes, n.id)) ==>
              r.Success? && Completed(levels, trace)
  {
    trace, levels := [], [];
    if !world.pgOnline {
      return Failure(Offline), [], [];
    }
    var plan := Plan(nodes);
    if plan.Failure? {
      return Failure(NotPlanned(plan.error)), [], [];
    }
    levels := plan.value;
    EmptyPlan(nodes, levels);
    if plan.value == [] || plan.value[0] == [] {
      return Failure(NoLevels), [], levels;
    }
    PlanSeparate(nodes, levels);
    FirstPlanned(nodes, levels);
    hide IsPlan, Separate, DriverTrace, Completed, StoppedAtFirstBad, Agreeable, Blocked, UniqueIds, FirstFree;
    r, trace := Drive(world, plan.value);
    if Agreeable(world) {
      AgreeableNeverStops(world, levels, trace);
    }
  }

  /** The first node of the file that needs nothing. */
  ghost predicate FirstFree(nodes: seq<Node>, n: Node) {
    exists i :: 0 <= i < |nodes| && nodes[i] == n && n.needs == [] && forall j | 0 <= j < i :: nodes[j].needs != []
  }

  lemma FirstPlanned(nodes: seq<Node>, levels: seq<seq<Node>>)
    requires UniqueIds(nodes) && IsPlan(nodes, levels) && levels != [] && levels[0] != []
    requires |levels[0]| == |FreeIds(nodes)| && forall i | 0 <= i < |levels[0]| :: levels[0][i].id == FreeIds(nodes)[i]
    ensures FirstFree(nodes, levels[0][0])
  {
    var k := FirstFreeId(nodes);
    var n := levels[0][0];
    PlannedNodeIsNode(nodes, levels, 0, n);
    assert n.id == nodes[k].id;
    SameNode(nodes, n, nodes[k]);
  }

  lemma {:induction false} FirstFreeId(nodes: seq<Node>) returns (k: nat)
    requires FreeIds(nodes) != []
    ensures k < |nodes| && nodes[k].needs == [] && nodes[k].id == FreeIds(nodes)[0]
    ensures forall j | 0 <= j < k :: nodes[j].needs != []
  {
    var init := nodes[..|nodes| - 1];
    if FreeIds(init) == [] {
      NoFreeIds(init);
      k := |nodes| - 1;
    } else {
      k := FirstFreeId(init);
    }
  }

  lemma {:induction false} NoFreeIds(nodes: seq<Node>)
    requires FreeIds(nodes) == []
    ensures forall j | 0 <= j < |nodes| :: nodes[j].needs != []
  {
    if nodes != [] {
      NoFreeIds(nodes[..|nodes| - 1]);
    }
  }

  lemma FirstEdge(nodes: seq<Node>, n: Node, d: string)
    requires n in nodes && d in n.needs
    ensures ReachesUnknown(nodes, n.id) || (WalkFrom(nodes, n.id, [n.id, d]) && |[n.id, d]| == 2)
  {
  }

  lemma PlanSeparate(nodes: seq<Node>, levels: seq<seq<Node>>)
    requires IsPlan(nodes, levels)
    ensures Separate(levels)
  {
    forall j, k, n | 0 <= j < |levels| && 0 <= k < |levels| && n in levels[j] && n in levels[k]
      ensures j == k
    {
      LongestWalkUnique(nodes, n.id, j, k);
    }
  }

  // --- The whole run --------------------------------------------------------

  /** `m` is a direct or indirect need of `n`. */
  ghost predicate NeedsTransitively(nodes: seq<Node>, n: Node, m: Node) {
    exists p :: WalkFrom(nodes, n.id, p) && |p| > 1 && p[|p| - 1] == m.id
  }

  lemma {:induction false} WalkLowers(nodes: seq<Node>, p: seq<string>, k: nat, j: nat)
    requires Walk(nodes, p) && |p| > 1
    requires LongestWalk(nodes, p[0], k) && LongestWalk(nodes, p[|p| - 1], j)
    ensures j < k
  {
    var q :| WalkFrom(nodes, p[|p| - 1], q) && |q| == j + 1;
    WalkJoin(nodes, p, q);
  }

  lemma WalkJoin(nodes: seq<Node>, p: seq<string>, q: seq<string>)
    requires Walk(nodes, p) && Walk(nodes, q) && p[|p| - 1] == q[0]
    ensures WalkFrom(nodes, p[0], p[..|p| - 1] + q)
  {
  }

  lemma {:induction false} DispatchedIn(trace: seq<Event>, i: nat)
    requires i < |trace| && trace[i].Dispatched?
    ensures trace[i].node in DispatchedNodes(trace)
  {
    if i < |trace| - 1 {
      DispatchedIn(trace[..|trace| - 1], i);
    }
  }

  /** In every run, whatever the world answers, a node is dispatched only after
      each of its transitive needs was dispatched, finished and was seen successful. */
  lemma NeedsSucceedFirst(nodes: seq<Node>, world: World, levels: seq<seq<Node>>, trace: seq<Event>, i: nat, m: Node)
    requires UniqueIds(nodes) && IsPlan(nodes, levels) && DriverTrace(world, levels, trace)
    requires i < |trace| && trace[i].Dispatched? && m in nodes && NeedsTransitively(nodes, trace[i].node, m)
    ensures SeenSuccessful(trace, m, i)
  {
    var n := trace[i].node;
    DispatchedIn(trace, i);
    var k := FlattenMember(levels, n);
    var j := PlanMember(nodes, levels, m);
    var p :| WalkFrom(nodes, n.id, p) && |p| > 1 && p[|p| - 1] == m.id;
    WalkLowers(nodes, p, k, j);
    assert LevelsSeen(trace, levels, k, i);
  }

  /** Seen successful means: the task's overlay table was read as non-empty
      with every row COMPLETED and no non-zero exit code. */
  lemma SuccessWasObserved(world: World, levels: seq<seq<Node>>, trace: seq<Event>, n: Node, i: nat)
    requires DriverTrace(world, levels, trace) && SeenSuccessful(trace, n, i)
    ensures exists a, c: nat, poll: nat :: 0 <= a < c < i && c < |trace| && trace[a].Dispatched? && trace[a].node == n
                   && DoneAt(world.snapshot(trace[a].tid, c), poll)
  {
  }

  lemma {:induction false} DispatchPosition(trace: seq<Event>, i: nat, j: nat)
    requires i < j < |trace| && trace[i].Dispatched? && trace[j].Dispatched?
    ensures exists a, b :: 0 <= a < b < |DispatchedNodes(trace)|
                           && DispatchedNodes(trace)[a] == trace[i].node && DispatchedNodes(trace)[b] == trace[j].node
  {
    var init := trace[..|trace| - 1];
    if j < |trace| - 1 {
      DispatchPosition(init, i, j);
      var a, b :| 0 <= a < b < |DispatchedNodes(init)|
                  && DispatchedNodes(init)[a] == init[i].node && DispatchedNodes(init)[b] == init[j].node;
      assert DispatchedNodes(trace)[a] == trace[i].node && DispatchedNodes(trace)[b] == trace[j].node;
    } else {
      DispatchedIn(init, i);
      var a :| 0 <= a < |DispatchedNodes(init)| && DispatchedNodes(init)[a] == init[i].node;
      assert DispatchedNodes(trace)[a] == trace[i].node && DispatchedNodes(trace)[|DispatchedNodes(init)|] == trace[j].node;
    }
  }

  /** No node is ever dispatched twice. */
  lemma DispatchedOnce(nodes: seq<Node>, world: World, levels: seq<seq<Node>>, trace: seq<Event>, i: nat, j: nat)
    requires UniqueIds(nodes) && IsPlan(nodes, levels) && DriverTrace(world, levels, trace)
    requires i < j < |trace| && trace[i].Dispatched? && trace[j].Dispatched?
    ensures trace[i].node.id != trace[j].node.id
  {
    DispatchPosition(trace, i, j);
    var flat := Flatten(levels);
    var a, b :| 0 <= a < b < |DispatchedNodes(trace)|
                && DispatchedNodes(trace)[a] == trace[i].node && DispatchedNodes(trace)[b] == trace[j].node;
    assert flat[a] == trace[i].node && flat[b] == trace[j].node;
    assert flat[a] in multiset(flat) && flat[b] in multiset(flat);
    if flat[a].id == flat[b].id {
      SameNode(nodes, flat[a], flat[b]);
      CountTwice(flat, a, b);
      NoDupMultiset(nodes, flat[a]);
    }
  }

  /** The dispatched nodes are closed under needs. */
  lemma DispatchedClosed(nodes: seq<Node>, world: World, levels: seq<seq<Node>>, trace: seq<Event>, i: nat, m: Node)
    requires UniqueIds(nodes) && IsPlan(nodes, levels) && DriverTrace(world, levels, trace)
    requires i < |trace| && trace[i].Dispatched? && m in nodes && m.id in trace[i].node.needs
    ensures exists a :: 0 <= a < i && trace[a].Dispatched? && trace[a].node == m
  {
    var n := trace[i].node;
    DispatchedIn(trace, i);
    assert n in multiset(Flatten(levels));
    FirstEdge(nodes, n, m.id);
    assert Edge(nodes, n.id, m.id);
    assert WalkFrom(nodes, n.id, [n.id, m.id]);
    NeedsSucceedFirst(nodes, world, levels, trace, i, m);
    var a, b, c :| SuccessAt(trace, m, a, b, c) && c < i;
  }

  /** A run in which nothing fails dispatches every node exactly once and sees
      every one successful. */
  lemma CompletedRunIsComplete(nodes: seq<Node>, world: World, levels: seq<seq<Node>>, trace: seq<Event>, n: Node)
    requires UniqueIds(nodes) && IsPlan(nodes, levels) && DriverTrace(world, levels, trace) && Completed(levels, trace)
    requires n in nodes
    ensures multiset(DispatchedNodes(trace)) == multiset(nodes)
    ensures SeenSuccessful(trace, n, |trace|)
  {
    var k := PlanMember(nodes, levels, n);
  }
}
