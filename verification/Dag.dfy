/** The DAG planner (`janus/src/workflow/dag.rs`): Kahn's algorithm by levels,
    with in-degree counters that count a repeated `needs` entry each time. */
module Dag {
  import opened Wrappers

  datatype Node = Node(
    id: string,
    workflow: string,
    needs: seq<string>,
    isolation: Option<string>,
    bestOfN: Option<nat>,
    writes: Option<seq<string>>)

  /** The reasons `validate` and `plan` bail with. */
  datatype DagError =
    | NoNodes
    | DuplicateId(id: string)
    | UnknownDependency(id: string, need: string)
    | CycleDetected(unresolved: seq<string>)

  // --- What the planner is about: walks that follow `needs` -----------------

  function Ids(nodes: seq<Node>): set<string> {
    set n | n in nodes :: n.id
  }

  ghost predicate UniqueIds(nodes: seq<Node>) {
    forall i, j :: 0 <= i < j < |nodes| ==> nodes[i].id != nodes[j].id
  }

  ghost predicate KnownNeeds(nodes: seq<Node>) {
    forall n, d | n in nodes && d in n.needs :: d in Ids(nodes)
  }

  /** The node called `x` lists `y` among its needs. */
  ghost predicate Edge(nodes: seq<Node>, x: string, y: string) {
    exists n :: n in nodes && n.id == x && y in n.needs
  }

  /** A non-empty sequence of node ids in which each id needs the next one. */
  ghost predicate Walk(nodes: seq<Node>, p: seq<string>) {
    && |p| > 0
    && (forall i | 0 <= i < |p| :: p[i] in Ids(nodes))
    && (forall i | 0 <= i < |p| - 1 :: Edge(nodes, p[i], p[i + 1]))
  }

  ghost predicate WalkFrom(nodes: seq<Node>, x: string, p: seq<string>) {
    Walk(nodes, p) && p[0] == x
  }

  /** The walk comes back to a node it has already visited: it runs into a cycle. */
  ghost predicate Repeats(p: seq<string>) {
    exists i, j :: 0 <= i < j < |p| && p[i] == p[j]
  }

  ghost predicate HasUnknownNeed(nodes: seq<Node>, x: string) {
    exists d :: Edge(nodes, x, d) && d !in Ids(nodes)
  }

  /** Following needs from `x` reaches a cycle. */
  ghost predicate ReachesCycle(nodes: seq<Node>, x: string) {
    exists p :: WalkFrom(nodes, x, p) && Repeats(p)
  }

  /** Following needs from `x` reaches a node with a need that names no node. */
  ghost predicate ReachesUnknown(nodes: seq<Node>, x: string) {
    exists p :: WalkFrom(nodes, x, p) && HasUnknownNeed(nodes, p[|p| - 1])
  }

  ghost predicate Acyclic(nodes: seq<Node>) {
    forall p | Walk(nodes, p) :: !Repeats(p)
  }

  ghost predicate Blocked(nodes: seq<Node>, x: string) {
    ReachesCycle(nodes, x) || ReachesUnknown(nodes, x)
  }

  /** `k` edges is the length of the longest walk from `x`. */
  ghost predicate LongestWalk(nodes: seq<Node>, x: string, k: nat) {
    && (exists p :: WalkFrom(nodes, x, p) && |p| == k + 1)
    && (forall p | WalkFrom(nodes, x, p) :: |p| <= k + 1)
  }

  function Flatten<T>(levels: seq<seq<T>>): seq<T> {
    if levels == [] then [] else Flatten(levels[..|levels| - 1]) + levels[|levels| - 1]
  }

  /** What a plan promises: each node exactly once, in non-empty levels, at the
      level that is the length of its longest chain of needs. */
  ghost predicate IsPlan(nodes: seq<Node>, levels: seq<seq<Node>>) {
    && multiset(Flatten(levels)) == multiset(nodes)
    && (forall k | 0 <= k < |levels| :: levels[k] != [])
    && (forall k, n | 0 <= k < |levels| && n in levels[k] :: LongestWalk(nodes, n.id, k))
  }

  /** The ids of the blocked nodes among `part`, in file order. */
  ghost function BlockedIds(nodes: seq<Node>, part: seq<Node>): seq<string> {
    if part == [] then []
    else
      var last := part[|part| - 1];
      BlockedIds(nodes, part[..|part| - 1]) + if Blocked(nodes, last.id) then [last.id] else []
  }

  // --- Counting needs -------------------------------------------------------

  /** How often `x` occurs in `s`. */
  function Occ(s: seq<string>, x: string): nat {
    if s == [] then 0 else Occ(s[..|s| - 1], x) + if s[|s| - 1] == x then 1 else 0
  }

  /** How many entries of `needs` are not in `done` (repeats counted each time). */
  function Pending(needs: seq<string>, done: set<string>): nat {
    if needs == [] then 0
    else Pending(needs[..|needs| - 1], done) + if needs[|needs| - 1] in done then 0 else 1
  }

  lemma OccAppend(s: seq<string>, y: string, x: string)
    ensures Occ(s + [y], x) == Occ(s, x) + if y == x then 1 else 0
  {
  }

  lemma {:induction false} OccTake(s: seq<string>, b: nat, x: string)
    requires b <= |s|
    ensures Occ(s[..b], x) <= Occ(s, x)
  {
    if b < |s| {
      OccTake(s[..|s| - 1], b, x);
      assert s[..|s| - 1][..b] == s[..b];
    } else {
      assert s[..b] == s;
    }
  }

  lemma {:induction false} OccIn(s: seq<string>, x: string)
    ensures Occ(s, x) > 0 <==> x in s
  {
    if s != [] {
      OccIn(s[..|s| - 1], x);
      assert s == s[..|s| - 1] + [s[|s| - 1]];
    }
  }

  lemma {:induction false} PendingAdd(needs: seq<string>, done: set<string>, c: string)
    requires c !in done
    ensures Pending(needs, done + {c}) + Occ(needs, c) == Pending(needs, done)
  {
    if needs != [] {
      PendingAdd(needs[..|needs| - 1], done, c);
    }
  }

  lemma {:induction false} PendingZero(needs: seq<string>, done: set<string>)
    ensures Pending(needs, done) == 0 <==> forall d | d in needs :: d in done
  {
    if needs != [] {
      PendingZero(needs[..|needs| - 1], done);
      assert needs == needs[..|needs| - 1] + [needs[|needs| - 1]];
    }
  }

  lemma {:induction false} PendingNone(needs: seq<string>)
    ensures Pending(needs, {}) == |needs|
  {
    if needs != [] {
      PendingNone(needs[..|needs| - 1]);
    }
  }

  function Dependents(dependents: map<string, seq<string>>, d: string): seq<string> {
    if d in dependents then dependents[d] else []
  }

  /** `dependents` lists each node once for each time it names a need. */
  ghost predicate IndexOf(nodes: seq<Node>, dependents: map<string, seq<string>>) {
    && (forall n, d | n in nodes :: Occ(Dependents(dependents, d), n.id) == Occ(n.needs, d))
    && (forall d, x | x in Dependents(dependents, d) :: x in Ids(nodes))
  }

  /** The counters agree with the needs that are not done. */
  ghost predicate Counts(nodes: seq<Node>, inDegree: map<string, nat>, done: set<string>) {
    && inDegree.Keys == Ids(nodes)
    && (forall n | n in nodes :: inDegree[n.id] == Pending(n.needs, done))
  }

  lemma SameNode(nodes: seq<Node>, a: Node, b: Node)
    requires UniqueIds(nodes) && a in nodes && b in nodes && a.id == b.id
    ensures a == b
  {
  }

  /** `after` is `before` with `id` appended once per entry of `part`. */
  ghost predicate Appended(before: map<string, seq<string>>, after: map<string, seq<string>>, id: string, part: seq<string>) {
    forall d, x {:trigger Occ(Dependents(after, d), x)} ::
      Occ(Dependents(after, d), x) == Occ(Dependents(before, d), x) + if x == id then Occ(part, d) else 0
  }

  lemma IndexExtends(nodes: seq<Node>, node: Node, before: map<string, seq<string>>, after: map<string, seq<string>>)
    requires IndexOf(nodes, before) && node.id !in Ids(nodes)
    requires Appended(before, after, node.id, node.needs)
    ensures IndexOf(nodes + [node], after)
  {
    forall n, d | n in nodes + [node]
      ensures Occ(Dependents(after, d), n.id) == Occ(n.needs, d)
    {
      if n !in nodes {
        OccIn(Dependents(before, d), node.id);
      }
    }
    forall d, x | x in Dependents(after, d)
      ensures x in Ids(nodes + [node])
    {
      OccIn(Dependents(after, d), x);
      OccIn(Dependents(before, d), x);
      if x == node.id {
        assert node in nodes + [node];
      } else {
        assert x in Ids(nodes);
      }
    }
  }

  lemma AppendNone(before: map<string, seq<string>>, id: string, part: seq<string>)
    requires part == []
    ensures Appended(before, before, id, part)
  {
    forall d: string
      ensures Occ(part, d) == 0
    {
    }
  }

  lemma AppendStep(before: map<string, seq<string>>, now: map<string, seq<string>>, id: string, part: seq<string>, dep: string)
    requires Appended(before, now, id, part)
    ensures Appended(before, now[dep := Dependents(now, dep) + [id]], id, part + [dep])
  {
    var after := now[dep := Dependents(now, dep) + [id]];
    forall d, x
      ensures Occ(Dependents(after, d), x) == Occ(Dependents(before, d), x) + if x == id then Occ(part + [dep], d) else 0
    {
      OccAppend(part, dep, d);
      OccAppend(Dependents(now, dep), id, x);
      assert Occ(Dependents(now, d), x) == Occ(Dependents(before, d), x) + if x == id then Occ(part, d) else 0;
    }
  }

  /** The inner loop over one node's needs. */
  method CountNeeds(node: Node, before: map<string, seq<string>>, degrees: map<string, nat>)
    returns (dependents: map<string, seq<string>>, inDegree: map<string, nat>)
    requires node.id !in degrees
    ensures Appended(before, dependents, node.id, node.needs)
    ensures inDegree == degrees[node.id := |node.needs|]
  {
    dependents, inDegree := before, degrees[node.id := 0];
    AppendNone(before, node.id, node.needs[..0]);
    for j := 0 to |node.needs|
      invariant Appended(before, dependents, node.id, node.needs[..j])
      invariant inDegree == degrees[node.id := j]
    {
      var dep := node.needs[j];
      AppendStep(before, dependents, node.id, node.needs[..j], dep);
      assert node.needs[..j + 1] == node.needs[..j] + [dep];
      dependents := dependents[dep := Dependents(dependents, dep) + [node.id]];
      inDegree := inDegree[node.id := inDegree[node.id] + 1];
    }
    assert node.needs[..|node.needs|] == node.needs;
  }

  /** The first loop of `plan`: fills `dependents` and `in_degree`. */
  method BuildCounters(nodes: seq<Node>) returns (dependents: map<string, seq<string>>, inDegree: map<string, nat>)
    requires UniqueIds(nodes)
    ensures IndexOf(nodes, dependents) && Counts(nodes, inDegree, {})
  {
    dependents, inDegree := map[], map[];
    for i := 0 to |nodes|
      invariant IndexOf(nodes[..i], dependents)
      invariant inDegree.Keys == Ids(nodes[..i])
      invariant forall k | 0 <= k < i :: inDegree[nodes[k].id] == |nodes[k].needs|
    {
      ghost var before := dependents;
      assert nodes[..i + 1] == nodes[..i] + [nodes[i]];
      dependents, inDegree := CountNeeds(nodes[i], dependents, inDegree);
      IndexExtends(nodes[..i], nodes[i], before, dependents);
    }
    assert nodes[..|nodes|] == nodes;
    forall n | n in nodes
      ensures inDegree[n.id] == Pending(n.needs, {})
    {
      PendingNone(n.needs);
    }
  }

  // --- One level ------------------------------------------------------------

  function SetOf(s: seq<string>): set<string> {
    set x | x in s
  }

  ghost predicate NoDup<T>(s: seq<T>) {
    forall i, j :: 0 <= i < j < |s| ==> s[i] != s[j]
  }

  /** Exactly the ids in `ready` have a zero counter. */
  ghost predicate ZeroAt(inDegree: map<string, nat>, ready: set<string>) {
    forall x | x in inDegree :: inDegree[x] == 0 <==> x in ready
  }

  /** What the inner loop knows after `b` dependents of `c` were counted down. */
  ghost predicate CountsWithin(nodes: seq<Node>, inDegree: map<string, nat>, done: set<string>, part: seq<string>) {
    && inDegree.Keys == Ids(nodes)
    && (forall n | n in nodes :: inDegree[n.id] + Occ(part, n.id) == Pending(n.needs, done))
  }

  lemma CounterPositive(nodes: seq<Node>, dependents: map<string, seq<string>>, inDegree: map<string, nat>,
                        done: set<string>, c: string, b: nat)
    requires IndexOf(nodes, dependents) && c !in done && b < |Dependents(dependents, c)|
    requires CountsWithin(nodes, inDegree, done, Dependents(dependents, c)[..b])
    ensures Dependents(dependents, c)[b] in inDegree && inDegree[Dependents(dependents, c)[b]] > 0
  {
    var deps := Dependents(dependents, c);
    var x := deps[b];
    assert x in deps;
    assert x in Ids(nodes);
    var n :| n in nodes && n.id == x;
    PendingAdd(n.needs, done, c);
    OccAppend(deps[..b], x, x);
    assert deps[..b + 1] == deps[..b] + [x];
    OccTake(deps, b + 1, x);
  }

  lemma CountDown(nodes: seq<Node>, inDegree: map<string, nat>, done: set<string>, part: seq<string>, dep: string)
    requires CountsWithin(nodes, inDegree, done, part) && dep in inDegree && inDegree[dep] > 0
    ensures CountsWithin(nodes, inDegree[dep := inDegree[dep] - 1], done, part + [dep])
  {
  }

  lemma CountsAfter(nodes: seq<Node>, dependents: map<string, seq<string>>, inDegree: map<string, nat>,
                    done: set<string>, c: string)
    requires IndexOf(nodes, dependents) && c !in done
    requires CountsWithin(nodes, inDegree, done, Dependents(dependents, c))
    ensures Counts(nodes, inDegree, done + {c})
  {
    forall n | n in nodes
      ensures inDegree[n.id] == Pending(n.needs, done + {c})
    {
      PendingAdd(n.needs, done, c);
    }
  }

  /** Counts down every dependent of `id`; a counter that reaches zero joins
      the next queue. The counter never underflows. */
  method Release(nodes: seq<Node>, dependents: map<string, seq<string>>, inDegree0: map<string, nat>, queue0: seq<string>,
                 id: string, ghost done: set<string>, ghost ready: set<string>)
    returns (inDegree: map<string, nat>, queue: seq<string>)
    requires IndexOf(nodes, dependents) && Counts(nodes, inDegree0, done) && id !in done
    requires NoDup(queue0) && SetOf(queue0) !! ready && SetOf(queue0) <= Ids(nodes)
    requires ZeroAt(inDegree0, ready + SetOf(queue0))
    ensures Counts(nodes, inDegree, done + {id})
    ensures NoDup(queue) && SetOf(queue) !! ready && SetOf(queue) <= Ids(nodes) && queue0 <= queue
    ensures ZeroAt(inDegree, ready + SetOf(queue))
  {
    inDegree, queue := inDegree0, queue0;
    var deps := Dependents(dependents, id);
    for b := 0 to |deps|
      invariant CountsWithin(nodes, inDegree, done, deps[..b])
      invariant NoDup(queue) && SetOf(queue) !! ready && SetOf(queue) <= Ids(nodes) && queue0 <= queue
      invariant ZeroAt(inDegree, ready + SetOf(queue))
    {
      CounterPositive(nodes, dependents, inDegree, done, id, b);
      var dep := deps[b];
      assert deps[..b + 1] == deps[..b] + [dep];
      CountDown(nodes, inDegree, done, deps[..b], dep);
      inDegree := inDegree[dep := inDegree[dep] - 1];
      if inDegree[dep] == 0 {
        assert dep !in SetOf(queue);
        queue := queue + [dep];
      }
    }
    assert deps[..|deps|] == deps;
    CountsAfter(nodes, dependents, inDegree, done, id);
  }

  /** Processes one level and returns the next queue. */
  method ProcessLevel(nodes: seq<Node>, dependents: map<string, seq<string>>, inDegree0: map<string, nat>, level: seq<string>,
                      ghost done: set<string>)
    returns (inDegree: map<string, nat>, queue: seq<string>)
    requires IndexOf(nodes, dependents) && Counts(nodes, inDegree0, done)
    requires NoDup(level) && SetOf(level) !! done && ZeroAt(inDegree0, done + SetOf(level))
    ensures Counts(nodes, inDegree, done + SetOf(level))
    ensures NoDup(queue) && SetOf(queue) !! done + SetOf(level) && SetOf(queue) <= Ids(nodes)
    ensures ZeroAt(inDegree, done + SetOf(level) + SetOf(queue))
  {
    inDegree, queue := inDegree0, [];
    assert done + SetOf(level[..0]) == done;
    for a := 0 to |level|
      invariant Counts(nodes, inDegree, done + SetOf(level[..a]))
      invariant NoDup(queue) && SetOf(queue) !! done + SetOf(level) && SetOf(queue) <= Ids(nodes)
      invariant ZeroAt(inDegree, done + SetOf(level) + SetOf(queue))
    {
      assert level[a] !in done + SetOf(level[..a]);
      inDegree, queue := Release(nodes, dependents, inDegree, queue, level[a],
                                 done + SetOf(level[..a]), done + SetOf(level));
      assert level[..a + 1] == level[..a] + [level[a]];
      assert done + SetOf(level[..a]) + {level[a]} == done + SetOf(level[..a + 1]);
    }
    assert level[..|level|] == level;
  }

  // --- The finished levels --------------------------------------------------

  ghost function AtLevel(xs: set<string>, k: nat): map<string, nat> {
    map x | x in xs :: k
  }

  /** Every finished node has all its needs finished earlier, and (above level
      0) one of them exactly one level earlier. */
  ghost predicate Ranked(nodes: seq<Node>, depth: map<string, nat>) {
    && depth.Keys <= Ids(nodes)
    && (forall x, d {:trigger Edge(nodes, x, d)} ::
          x in depth && Edge(nodes, x, d) ==> d in depth && depth[d] < depth[x])
    && (forall x {:trigger OneBelow(nodes, depth, x, depth[x])} ::
          x in depth && depth[x] > 0 ==> OneBelow(nodes, depth, x, depth[x]))
  }

  ghost predicate OneBelow(nodes: seq<Node>, depth: map<string, nat>, x: string, k: nat)
    requires k > 0
  {
    exists y :: Edge(nodes, x, y) && y in depth && depth[y] == k - 1
  }

  /** `levels` lists the finished nodes by depth, and `sorted` is their concatenation. */
  ghost predicate Listed(levels: seq<seq<string>>, sorted: seq<string>, depth: map<string, nat>) {
    && depth.Keys == SetOf(sorted)
    && NoDup(sorted)
    && Flatten(levels) == sorted
    && (forall x | x in depth :: depth[x] < |levels|)
    && (forall k | 0 <= k < |levels| :: levels[k] != [])
    && (forall k, x | 0 <= k < |levels| && x in levels[k] :: x in depth && depth[x] == k)
  }

  ghost predicate Finished(nodes: seq<Node>, levels: seq<seq<string>>, sorted: seq<string>, depth: map<string, nat>) {
    Ranked(nodes, depth) && Listed(levels, sorted, depth)
  }

  /** The nodes waiting in `queue` belong at level `k`. */
  ghost predicate Front(nodes: seq<Node>, depth: map<string, nat>, queue: seq<string>, k: nat) {
    forall x | x in queue :: ReadyAt(nodes, depth, x, k)
  }

  ghost predicate ReadyAt(nodes: seq<Node>, depth: map<string, nat>, x: string, k: nat) {
    && (forall d {:trigger Edge(nodes, x, d)} :: Edge(nodes, x, d) ==> d in depth)
    && (k > 0 ==> OneBelow(nodes, depth, x, k))
  }

  lemma NeedsOf(nodes: seq<Node>, n: Node, d: string)
    requires UniqueIds(nodes) && n in nodes
    ensures Edge(nodes, n.id, d) <==> d in n.needs
  {
  }

  lemma FirstFront(nodes: seq<Node>, inDegree: map<string, nat>, queue: seq<string>)
    requires UniqueIds(nodes) && Counts(nodes, inDegree, {}) && ZeroAt(inDegree, SetOf(queue))
    requires SetOf(queue) <= Ids(nodes)
    ensures Front(nodes, map[], queue, 0)
  {
  }

  lemma NoDupConcat(s: seq<string>, t: seq<string>)
    requires NoDup(s) && NoDup(t) && SetOf(s) !! SetOf(t)
    ensures NoDup(s + t)
  {
    forall i, j | 0 <= i < j < |s + t|
      ensures (s + t)[i] != (s + t)[j]
    {
      if i < |s| <= j {
        assert s[i] in SetOf(s) && t[j - |s|] in SetOf(t);
      }
    }
  }

  lemma AddRanks(nodes: seq<Node>, depth: map<string, nat>, level: set<string>, k: nat)
    requires Ranked(nodes, depth) && (forall x | x in depth :: depth[x] < k)
    requires level !! depth.Keys && level <= Ids(nodes)
    requires forall x | x in level :: ReadyAt(nodes, depth, x, k)
    ensures Ranked(nodes, depth + AtLevel(level, k))
  {
    var after := depth + AtLevel(level, k);
    assert forall x | x in depth :: after[x] == depth[x];
    forall x | x in after && after[x] > 0
      ensures OneBelow(nodes, after, x, after[x])
    {
      assert x in level ==> ReadyAt(nodes, depth, x, k);
      assert OneBelow(nodes, depth, x, after[x]);
      var y :| Edge(nodes, x, y) && y in depth && depth[y] == after[x] - 1;
      assert y in after && after[y] == after[x] - 1;
    }
    forall x, d | x in after && Edge(nodes, x, d)
      ensures d in after && after[d] < after[x]
    {
      assert x in level ==> ReadyAt(nodes, depth, x, k);
    }
  }

  lemma AddLevel(nodes: seq<Node>, levels: seq<seq<string>>, sorted: seq<string>, depth: map<string, nat>, level: seq<string>)
    requires Finished(nodes, levels, sorted, depth) && Front(nodes, depth, level, |levels|)
    requires level != [] && NoDup(level) && SetOf(level) !! SetOf(sorted) && SetOf(level) <= Ids(nodes)
    ensures Finished(nodes, levels + [level], sorted + level, depth + AtLevel(SetOf(level), |levels|))
  {
    AddRanks(nodes, depth, SetOf(level), |levels|);
    AddListed(levels, sorted, depth, level);
  }

  lemma AddListed(levels: seq<seq<string>>, sorted: seq<string>, depth: map<string, nat>, level: seq<string>)
    requires Listed(levels, sorted, depth)
    requires level != [] && NoDup(level) && SetOf(level) !! SetOf(sorted)
    ensures Listed(levels + [level], sorted + level, depth + AtLevel(SetOf(level), |levels|))
  {
    assert (levels + [level])[..|levels|] == levels;
    assert SetOf(sorted + level) == SetOf(sorted) + SetOf(level);
    NoDupConcat(sorted, level);
    LevelIndex(levels, depth, level);
  }

  lemma LevelIndex(levels: seq<seq<string>>, depth: map<string, nat>, level: seq<string>)
    requires forall k, x | 0 <= k < |levels| && x in levels[k] :: x in depth && depth[x] == k
    requires SetOf(level) !! depth.Keys
    ensures forall k, x | 0 <= k < |levels + [level]| && x in (levels + [level])[k] ::
        x in depth + AtLevel(SetOf(level), |levels|) && (depth + AtLevel(SetOf(level), |levels|))[x] == k
  {
  }

  lemma NextFront(nodes: seq<Node>, before: map<string, nat>, after: map<string, nat>, depth: map<string, nat>,
                  done: set<string>, level: seq<string>, queue: seq<string>, k: nat)
    requires UniqueIds(nodes) && Counts(nodes, before, done) && Counts(nodes, after, done + SetOf(level))
    requires ZeroAt(before, done + SetOf(level)) && ZeroAt(after, done + SetOf(level) + SetOf(queue))
    requires SetOf(queue) !! done + SetOf(level) && SetOf(queue) <= Ids(nodes)
    requires depth.Keys == done + SetOf(level) && forall x | x in level :: depth[x] == k
    ensures Front(nodes, depth, queue, k + 1)
  {
    forall x | x in queue
      ensures ReadyAt(nodes, depth, x, k + 1)
    {
      assert x in SetOf(queue);
      var n :| n in nodes && n.id == x;
      PendingZero(n.needs, done + SetOf(level));
      PendingZero(n.needs, done);
      assert before[x] != 0 && after[x] == 0;
      forall d | Edge(nodes, x, d)
        ensures d in depth
      {
        NeedsOf(nodes, n, d);
      }
      var d :| d in n.needs && d !in done;
      assert Edge(nodes, x, d) && depth[d] == k;
    }
  }

  // --- Finished nodes: longest walks, no cycle ------------------------------

  lemma SubWalk(nodes: seq<Node>, p: seq<string>, i: nat, j: nat)
    requires Walk(nodes, p) && i < j <= |p|
    ensures Walk(nodes, p[i..j])
  {
  }

  lemma {:induction false} WalkDescends(nodes: seq<Node>, depth: map<string, nat>, p: seq<string>)
    requires Ranked(nodes, depth) && Walk(nodes, p) && p[0] in depth
    ensures p[|p| - 1] in depth && depth[p[|p| - 1]] + |p| - 1 <= depth[p[0]]
  {
    if |p| > 1 {
      SubWalk(nodes, p, 0, |p| - 1);
      WalkDescends(nodes, depth, p[0..|p| - 1]);
      assert Edge(nodes, p[|p| - 2], p[|p| - 2 + 1]);
    }
  }

  lemma WalkNeverRepeats(nodes: seq<Node>, depth: map<string, nat>, p: seq<string>)
    requires Ranked(nodes, depth) && Walk(nodes, p) && p[0] in depth
    ensures !Repeats(p)
  {
    forall i, j | 0 <= i < j < |p|
      ensures p[i] != p[j]
    {
      DepthDrops(nodes, depth, p, i, j);
    }
  }

  lemma DepthDrops(nodes: seq<Node>, depth: map<string, nat>, p: seq<string>, i: nat, j: nat)
    requires Ranked(nodes, depth) && Walk(nodes, p) && p[0] in depth && i < j < |p|
    ensures p[i] in depth && p[j] in depth && depth[p[j]] < depth[p[i]]
  {
    SubWalk(nodes, p, 0, i + 1);
    var head := p[0..i + 1];
    WalkDescends(nodes, depth, head);
    assert head[|head| - 1] == p[i];
    SubWalk(nodes, p, i, j + 1);
    var part := p[i..j + 1];
    assert part[0] == p[i] && part[|part| - 1] == p[j];
    WalkDescends(nodes, depth, part);
  }

  lemma {:induction false} FullWalk(nodes: seq<Node>, depth: map<string, nat>, x: string) returns (p: seq<string>)
    requires Ranked(nodes, depth) && x in depth
    ensures WalkFrom(nodes, x, p) && |p| == depth[x] + 1
    decreases depth[x]
  {
    if depth[x] == 0 {
      p := [x];
    } else {
      assert OneBelow(nodes, depth, x, depth[x]);
      var y :| Edge(nodes, x, y) && y in depth && depth[y] == depth[x] - 1;
      var q := FullWalk(nodes, depth, y);
      p := [x] + q;
      forall i | 0 <= i < |p| - 1
        ensures Edge(nodes, p[i], p[i + 1])
      {
        if i > 0 {
          assert Edge(nodes, q[i - 1], q[i - 1 + 1]);
        }
      }
    }
  }

  /** A finished node is at its longest-walk level and nothing below it is
      cyclic or unknown. */
  lemma FinishedNode(nodes: seq<Node>, depth: map<string, nat>, x: string)
    requires Ranked(nodes, depth) && x in depth
    ensures LongestWalk(nodes, x, depth[x]) && !Blocked(nodes, x)
  {
    var full := FullWalk(nodes, depth, x);
    forall p | WalkFrom(nodes, x, p)
      ensures |p| <= depth[x] + 1 && !Repeats(p) && !HasUnknownNeed(nodes, p[|p| - 1])
    {
      WalkDescends(nodes, depth, p);
      WalkNeverRepeats(nodes, depth, p);
    }
  }

  // --- Unfinished nodes: a walk that never ends -----------------------------

  lemma {:induction false} EndlessWalk(nodes: seq<Node>, done: set<string>, x: string, n: nat) returns (p: seq<string>)
    requires x in Ids(nodes) - done
    requires forall y | y in Ids(nodes) - done :: exists d :: Edge(nodes, y, d) && d !in done
    ensures WalkFrom(nodes, x, p)
    ensures |p| == n + 1 || HasUnknownNeed(nodes, p[|p| - 1])
    decreases n
  {
    if n == 0 {
      p := [x];
    } else {
      var d :| Edge(nodes, x, d) && d !in done;
      if d !in Ids(nodes) {
        p := [x];
      } else {
        var q := EndlessWalk(nodes, done, d, n - 1);
        p := [x] + q;
        forall i | 0 <= i < |p| - 1
          ensures Edge(nodes, p[i], p[i + 1])
        {
          if i > 0 {
            assert Edge(nodes, q[i - 1], q[i - 1 + 1]);
          }
        }
      }
    }
  }

  lemma {:induction false} SizeOfNoDup<T>(s: seq<T>, bag: set<T>)
    requires NoDup(s) && forall x | x in s :: x in bag
    ensures |s| <= |bag|
    ensures |s| == |bag| ==> forall x | x in bag :: x in s
  {
    if s != [] {
      var last := s[|s| - 1];
      var init := s[..|s| - 1];
      assert forall x | x in init :: x in bag - {last};
      SizeOfNoDup(init, bag - {last});
      assert s == init + [last];
    }
  }

  lemma Pigeonhole(p: seq<string>, bag: set<string>)
    requires |p| > |bag| && forall i | 0 <= i < |p| :: p[i] in bag
    ensures Repeats(p)
  {
    if !Repeats(p) {
      SizeOfNoDup(p, bag);
    }
  }

  lemma UnfinishedNode(nodes: seq<Node>, inDegree: map<string, nat>, done: set<string>, x: string)
    requires UniqueIds(nodes) && Counts(nodes, inDegree, done) && ZeroAt(inDegree, done)
    requires x in Ids(nodes) - done
    ensures Blocked(nodes, x)
  {
    forall y | y in Ids(nodes) - done
      ensures exists d :: Edge(nodes, y, d) && d !in done
    {
      var n :| n in nodes && n.id == y;
      PendingZero(n.needs, done);
      var d :| d in n.needs && d !in done;
      assert Edge(nodes, y, d);
    }
    var p := EndlessWalk(nodes, done, x, |Ids(nodes)|);
    if !HasUnknownNeed(nodes, p[|p| - 1]) {
      Pigeonhole(p, Ids(nodes));
    }
  }

  // --- plan -----------------------------------------------------------------

  /** The ids of the nodes with no need, in file order. */
  function FreeIds(nodes: seq<Node>): seq<string> {
    if nodes == [] then []
    else FreeIds(nodes[..|nodes| - 1]) + if nodes[|nodes| - 1].needs == [] then [nodes[|nodes| - 1].id] else []
  }

  /** The nodes with no need, in file order. */
  method FirstQueue(nodes: seq<Node>, inDegree: map<string, nat>) returns (queue: seq<string>)
    requires UniqueIds(nodes) && Counts(nodes, inDegree, {})
    ensures NoDup(queue) && SetOf(queue) <= Ids(nodes) && ZeroAt(inDegree, SetOf(queue)) && queue == FreeIds(nodes)
  {
    queue := [];
    for i := 0 to |nodes|
      invariant queue == FreeIds(nodes[..i])
    {
      assert nodes[..i + 1][..i] == nodes[..i];
      PendingNone(nodes[i].needs);
      if inDegree[nodes[i].id] == 0 {
        queue := queue + [nodes[i].id];
      }
    }
    assert nodes[..|nodes|] == nodes;
    FreeIdsAre(nodes);
    FreeIdsDiffer(nodes);
    FreeIdsAreZero(nodes, inDegree);
  }

  lemma {:induction false} FreeIdsAre(nodes: seq<Node>)
    ensures forall x :: x in FreeIds(nodes) <==> exists n :: n in nodes && n.id == x && n.needs == []
  {
    if nodes != [] {
      var init, last := nodes[..|nodes| - 1], nodes[|nodes| - 1];
      FreeIdsAre(init);
      assert nodes == init + [last];
      assert forall n :: n in nodes <==> n in init || n == last;
    }
  }

  lemma {:induction false} FreeIdsDiffer(nodes: seq<Node>)
    requires UniqueIds(nodes)
    ensures NoDup(FreeIds(nodes))
  {
    if nodes != [] {
      var init, last := nodes[..|nodes| - 1], nodes[|nodes| - 1];
      FreeIdsDiffer(init);
      FreeIdsAre(init);
      assert forall n | n in init :: n.id != last.id;
      assert last.id !in FreeIds(init);
    }
  }

  lemma FreeIdsAreZero(nodes: seq<Node>, inDegree: map<string, nat>)
    requires UniqueIds(nodes) && Counts(nodes, inDegree, {})
    requires forall x :: x in FreeIds(nodes) <==> exists n :: n in nodes && n.id == x && n.needs == []
    ensures SetOf(FreeIds(nodes)) <= Ids(nodes) && ZeroAt(inDegree, SetOf(FreeIds(nodes)))
  {
    hide FreeIds;
    forall n | n in nodes
      ensures inDegree[n.id] == |n.needs|
    {
      PendingNone(n.needs);
    }
  }

  /** The nodes that never reached the sorted list, in file order. */
  method Unvisited(nodes: seq<Node>, sorted: seq<string>) returns (ids: seq<string>)
    requires forall n | n in nodes :: Blocked(nodes, n.id) <==> n.id !in sorted
    ensures ids == BlockedIds(nodes, nodes)
  {
    ids := [];
    for i := 0 to |nodes|
      invariant ids == BlockedIds(nodes, nodes[..i])
    {
      assert nodes[..i + 1][..i] == nodes[..i];
      if nodes[i].id !in sorted {
        ids := ids + [nodes[i].id];
      }
    }
    assert nodes[..|nodes|] == nodes;
  }

  ghost predicate NodeMap(nodes: seq<Node>, nodeMap: map<string, Node>) {
    nodeMap.Keys == Ids(nodes) && forall n | n in nodes :: nodeMap[n.id] == n
  }

  function Resolve(nodeMap: map<string, Node>, ids: seq<string>): (r: seq<Node>)
    requires forall x | x in ids :: x in nodeMap
    ensures |r| == |ids| && forall i | 0 <= i < |ids| :: r[i] == nodeMap[ids[i]]
  {
    seq(|ids|, i requires 0 <= i < |ids| => nodeMap[ids[i]])
  }

  lemma {:induction false} InFlatten<T>(levels: seq<seq<T>>, k: nat, x: T)
    requires k < |levels| && x in levels[k]
    ensures x in Flatten(levels)
  {
    if k < |levels| - 1 {
      InFlatten(levels[..|levels| - 1], k, x);
    }
  }

  function ResolveLevels(nodeMap: map<string, Node>, levels: seq<seq<string>>): (r: seq<seq<Node>>)
    requires forall k, x | 0 <= k < |levels| && x in levels[k] :: x in nodeMap
    ensures |r| == |levels| && forall k | 0 <= k < |levels| :: r[k] == Resolve(nodeMap, levels[k])
  {
    seq(|levels|, k requires 0 <= k < |levels| => Resolve(nodeMap, levels[k]))
  }

  lemma ResolveConcat(nodeMap: map<string, Node>, a: seq<string>, b: seq<string>)
    requires forall x | x in a + b :: x in nodeMap
    requires forall x | x in a || x in b :: x in nodeMap
    ensures Resolve(nodeMap, a + b) == Resolve(nodeMap, a) + Resolve(nodeMap, b)
  {
  }

  lemma {:induction false} FlattenResolve(nodeMap: map<string, Node>, levels: seq<seq<string>>)
    requires forall k, x | 0 <= k < |levels| && x in levels[k] :: x in nodeMap
    ensures forall x | x in Flatten(levels) :: x in nodeMap
    ensures Flatten(ResolveLevels(nodeMap, levels)) == Resolve(nodeMap, Flatten(levels))
  {
    if levels != [] {
      var init := levels[..|levels| - 1];
      var last := levels[|levels| - 1];
      FlattenResolve(nodeMap, init);
      var out := ResolveLevels(nodeMap, levels);
      assert out[..|out| - 1] == ResolveLevels(nodeMap, init);
      ResolveConcat(nodeMap, Flatten(init), last);
    }
  }

  lemma {:induction false} NoDupMultiset<T>(s: seq<T>, x: T)
    requires NoDup(s)
    ensures multiset(s)[x] == if x in s then 1 else 0
  {
    if s != [] {
      var last := s[|s| - 1];
      var init := s[..|s| - 1];
      NoDupMultiset(init, x);
      assert s == init + [last];
      assert last !in init;
    }
  }

  lemma SameBag<T>(s: seq<T>, t: seq<T>)
    requires NoDup(s) && NoDup(t) && forall x :: x in s <==> x in t
    ensures multiset(s) == multiset(t)
  {
    forall x
      ensures multiset(s)[x] == multiset(t)[x]
    {
      NoDupMultiset(s, x);
      NoDupMultiset(t, x);
    }
  }

  method BuildNodeMap(nodes: seq<Node>) returns (nodeMap: map<string, Node>)
    requires UniqueIds(nodes)
    ensures NodeMap(nodes, nodeMap)
  {
    nodeMap := map[];
    for i := 0 to |nodes|
      invariant NodeMap(nodes[..i], nodeMap)
    {
      assert nodes[..i + 1] == nodes[..i] + [nodes[i]];
      nodeMap := nodeMap[nodes[i].id := nodes[i]];
    }
    assert nodes[..|nodes|] == nodes;
  }

  lemma ResolvedBag(nodes: seq<Node>, sorted: seq<string>, nodeMap: map<string, Node>)
    requires UniqueIds(nodes) && NodeMap(nodes, nodeMap) && NoDup(sorted) && SetOf(sorted) == Ids(nodes)
    requires forall x | x in sorted :: x in nodeMap
    ensures multiset(Resolve(nodeMap, sorted)) == multiset(nodes)
  {
    var flat := Resolve(nodeMap, sorted);
    forall i | 0 <= i < |sorted|
      ensures flat[i] in nodes && flat[i].id == sorted[i]
    {
      assert sorted[i] in SetOf(sorted);
      var m :| m in nodes && m.id == sorted[i];
    }
    forall n | n in nodes
      ensures n in flat
    {
      assert n.id in SetOf(sorted);
      var i :| 0 <= i < |sorted| && sorted[i] == n.id;
      assert flat[i] == n;
    }
    SameBag(flat, nodes);
  }

  lemma PlanLevels(nodes: seq<Node>, levels: seq<seq<string>>, depth: map<string, nat>, nodeMap: map<string, Node>)
    requires Ranked(nodes, depth) && NodeMap(nodes, nodeMap)
    requires forall k, x | 0 <= k < |levels| && x in levels[k] :: x in nodeMap && x in depth && depth[x] == k
    ensures forall k, n | 0 <= k < |levels| && n in ResolveLevels(nodeMap, levels)[k] :: LongestWalk(nodes, n.id, k)
  {
    var out := ResolveLevels(nodeMap, levels);
    forall k, n: Node | 0 <= k < |levels| && n in out[k]
      ensures LongestWalk(nodes, n.id, k)
    {
      LevelReady(nodes, depth, nodeMap, levels[k], k);
    }
  }

  lemma PlanReady(nodes: seq<Node>, levels: seq<seq<string>>, sorted: seq<string>, depth: map<string, nat>, nodeMap: map<string, Node>)
    requires UniqueIds(nodes) && Finished(nodes, levels, sorted, depth) && NodeMap(nodes, nodeMap)
    requires SetOf(sorted) == Ids(nodes)
    ensures forall k, x | 0 <= k < |levels| && x in levels[k] :: x in nodeMap
    ensures IsPlan(nodes, ResolveLevels(nodeMap, levels))
  {
    assert forall x | x in depth.Keys :: x in nodeMap.Keys;
    assert forall k, x | 0 <= k < |levels| && x in levels[k] :: x in depth.Keys;
    PlanLevels(nodes, levels, depth, nodeMap);
    FlattenResolve(nodeMap, levels);
    ResolvedBag(nodes, sorted, nodeMap);
  }

  lemma LevelReady(nodes: seq<Node>, depth: map<string, nat>, nodeMap: map<string, Node>, level: seq<string>, k: nat)
    requires Ranked(nodes, depth) && NodeMap(nodes, nodeMap)
    requires forall x | x in level :: x in nodeMap && x in depth && depth[x] == k
    ensures forall n | n in Resolve(nodeMap, level) :: LongestWalk(nodes, n.id, k)
  {
    forall n | n in Resolve(nodeMap, level)
      ensures LongestWalk(nodes, n.id, k)
    {
      var i :| 0 <= i < |level| && nodeMap[level[i]] == n;
      assert level[i] in nodeMap.Keys;
      var m :| m in nodes && m.id == level[i];
      FinishedNode(nodes, depth, m.id);
    }
  }

  lemma {:induction false} SetSize<T>(s: seq<T>)
    ensures |(set x | x in s)| <= |s|
    ensures NoDup(s) ==> |(set x | x in s)| == |s|
  {
    if s != [] {
      var init := s[..|s| - 1];
      SetSize(init);
      assert (set x | x in s) == (set x | x in init) + {s[|s| - 1]};
    } else {
      assert (set x | x in s) == {};
    }
  }

  lemma SortedSize(nodes: seq<Node>, sorted: seq<string>)
    requires UniqueIds(nodes) && NoDup(sorted) && SetOf(sorted) <= Ids(nodes)
    ensures |sorted| == |nodes| <==> SetOf(sorted) == Ids(nodes)
  {
    var ids := seq(|nodes|, i requires 0 <= i < |nodes| => nodes[i].id);
    SetSize(ids);
    SetSize(sorted);
    assert SetOf(ids) == Ids(nodes) by {
      forall x | x in Ids(nodes)
        ensures x in ids
      {
        var i :| 0 <= i < |nodes| && nodes[i].id == x;
        assert ids[i] == x;
      }
    }
    if |sorted| == |nodes| {
      SubsetSize(SetOf(sorted), Ids(nodes));
    }
  }

  lemma SubsetSize<T>(a: set<T>, b: set<T>)
    requires a <= b
    ensures |a| == |b| ==> a == b
  {
    assert |b - a| == |b| - |a|;
  }

  /** What the main loop of `plan` maintains. */
  ghost predicate InProgress(nodes: seq<Node>, inDegree: map<string, nat>, queue: seq<string>,
                             levels: seq<seq<string>>, sorted: seq<string>, depth: map<string, nat>) {
    && Counts(nodes, inDegree, SetOf(sorted))
    && NoDup(queue) && SetOf(queue) !! SetOf(sorted) && SetOf(queue) <= Ids(nodes)
    && ZeroAt(inDegree, SetOf(sorted) + SetOf(queue))
    && Finished(nodes, levels, sorted, depth)
    && Front(nodes, depth, queue, |levels|)
  }

  lemma StartProgress(nodes: seq<Node>, inDegree: map<string, nat>, queue: seq<string>)
    requires UniqueIds(nodes) && Counts(nodes, inDegree, {})
    requires NoDup(queue) && SetOf(queue) <= Ids(nodes) && ZeroAt(inDegree, SetOf(queue))
    ensures InProgress(nodes, inDegree, queue, [], [], map[])
  {
    FirstFront(nodes, inDegree, queue);
    assert SetOf([]) == {} && {} + SetOf(queue) == SetOf(queue);
  }

  /** One round of the main loop. */
  method Advance(nodes: seq<Node>, dependents: map<string, seq<string>>, inDegree0: map<string, nat>, level: seq<string>,
                 ghost levels: seq<seq<string>>, ghost sorted: seq<string>, ghost depth: map<string, nat>)
    returns (inDegree: map<string, nat>, queue: seq<string>, ghost depth': map<string, nat>)
    requires UniqueIds(nodes) && IndexOf(nodes, dependents) && level != []
    requires InProgress(nodes, inDegree0, level, levels, sorted, depth)
    ensures InProgress(nodes, inDegree, queue, levels + [level], sorted + level, depth')
  {
    AddLevel(nodes, levels, sorted, depth, level);
    depth' := depth + AtLevel(SetOf(level), |levels|);
    inDegree, queue := ProcessLevel(nodes, dependents, inDegree0, level, SetOf(sorted));
    assert SetOf(sorted + level) == SetOf(sorted) + SetOf(level);
    assert forall x | x in level :: x in SetOf(level);
    NextFront(nodes, inDegree0, inDegree, depth', SetOf(sorted), level, queue, |levels|);
  }

  /** The levels of Kahn's algorithm, and the ids in the order they were taken. */
  method Kahn(nodes: seq<Node>) returns (levels: seq<seq<string>>, sorted: seq<string>, ghost depth: map<string, nat>)
    requires UniqueIds(nodes)
    ensures Finished(nodes, levels, sorted, depth)
    ensures (if levels == [] then [] else levels[0]) == FreeIds(nodes)
    ensures forall x | x in Ids(nodes) - SetOf(sorted) :: Blocked(nodes, x)
  {
    hide FreeIds, Finished, Counts, ZeroAt, Front, UniqueIds, IndexOf, Blocked;
    var dependents, inDegree := BuildCounters(nodes);
    var queue := FirstQueue(nodes, inDegree);
    StartProgress(nodes, inDegree, queue);
    levels, sorted, depth := [], [], map[];
    while queue != []
      invariant InProgress(nodes, inDegree, queue, levels, sorted, depth)
      invariant (if levels == [] then queue else levels[0]) == FreeIds(nodes)
      decreases Ids(nodes) - SetOf(sorted)
    {
      var level := queue;
      inDegree, queue, depth := Advance(nodes, dependents, inDegree, level, levels, sorted, depth);
      assert level[0] in SetOf(level);
      assert SetOf(sorted + level) == SetOf(sorted) + SetOf(level);
      sorted := sorted + level;
      levels := levels + [level];
    }
    assert SetOf(sorted) + SetOf(queue) == SetOf(sorted);
    forall x | x in Ids(nodes) - SetOf(sorted)
      ensures Blocked(nodes, x)
    {
      UnfinishedNode(nodes, inDegree, SetOf(sorted), x);
    }
  }

  lemma SortedIsUnblocked(nodes: seq<Node>, levels: seq<seq<string>>, sorted: seq<string>, depth: map<string, nat>)
    requires UniqueIds(nodes) && Finished(nodes, levels, sorted, depth)
    requires forall x | x in Ids(nodes) - SetOf(sorted) :: Blocked(nodes, x)
    ensures forall x | x in Ids(nodes) :: Blocked(nodes, x) <==> x !in sorted
    ensures NoDup(sorted) && SetOf(sorted) <= Ids(nodes)
  {
    forall x | x in Ids(nodes)
      ensures Blocked(nodes, x) <==> x !in sorted
    {
      if x in SetOf(sorted) {
        FinishedNode(nodes, depth, x);
      }
    }
  }

  /** The nodes behind the sorted ids are the plan. */
  lemma ResolvedPlan(nodes: seq<Node>, levels: seq<seq<string>>, sorted: seq<string>, depth: map<string, nat>, nodeMap: map<string, Node>)
    requires UniqueIds(nodes) && Finished(nodes, levels, sorted, depth) && NodeMap(nodes, nodeMap)
    requires SetOf(sorted) == Ids(nodes) && (if levels == [] then [] else levels[0]) == FreeIds(nodes)
    ensures forall k, x | 0 <= k < |levels| && x in levels[k] :: x in nodeMap
    ensures var plan := ResolveLevels(nodeMap, levels);
            && IsPlan(nodes, plan)
            && (plan != [] ==>
                  |plan[0]| == |FreeIds(nodes)| && forall i | 0 <= i < |plan[0]| :: plan[0][i].id == FreeIds(nodes)[i])
  {
    PlanReady(nodes, levels, sorted, depth, nodeMap);
    hide FreeIds, IsPlan, Finished, UniqueIds;
    if levels != [] {
      forall i | 0 <= i < |levels[0]|
        ensures nodeMap[levels[0][i]].id == levels[0][i]
      {
        assert levels[0][i] in Ids(nodes);
      }
    }
  }

  /** Topologically sorts into levels; refuses exactly when some node's needs
      lead to a cycle or to an unknown id, and then names exactly those nodes. */
  method Plan(nodes: seq<Node>) returns (r: Result<seq<seq<Node>>, DagError>)
    requires UniqueIds(nodes)
    ensures r.Success? <==> forall n | n in nodes :: !Blocked(nodes, n.id)
    ensures r.Success? ==> IsPlan(nodes, r.value)
    ensures r.Success? && r.value != [] ==>
              |r.value[0]| == |FreeIds(nodes)| && forall i | 0 <= i < |r.value[0]| :: r.value[0][i].id == FreeIds(nodes)[i]
    ensures r.Failure? ==> r.error == CycleDetected(BlockedIds(nodes, nodes))
  {
    hide FreeIds;
    ghost var depth;
    var levels, sorted;
    levels, sorted, depth := Kahn(nodes);
    SortedIsUnblocked(nodes, levels, sorted, depth);
    SortedSize(nodes, sorted);
    hide Finished, Blocked, BlockedIds;
    if |sorted| != |nodes| {
      var unvisited := Unvisited(nodes, sorted);
      return Failure(CycleDetected(unvisited));
    }
    assert forall x | x in Ids(nodes) :: x in SetOf(sorted);
    assert forall n | n in nodes :: n.id in Ids(nodes);
    var nodeMap := BuildNodeMap(nodes);
    hide UniqueIds, IsPlan, NodeMap, ResolveLevels, NoDup;
    ResolvedPlan(nodes, levels, sorted, depth, nodeMap);
    return Success(ResolveLevels(nodeMap, levels));
  }
}
