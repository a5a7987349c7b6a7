/** What a plan is good for: needs come strictly earlier, no other layering is
    earlier anywhere, and validation accepts exactly the acyclic graphs. */
module DagTheorems {
  import opened Wrappers
  import opened Dag

  lemma {:induction false} FlattenMember<T>(levels: seq<seq<T>>, x: T) returns (k: nat)
    requires x in Flatten(levels)
    ensures k < |levels| && x in levels[k]
  {
    if x in levels[|levels| - 1] {
      k := |levels| - 1;
    } else {
      k := FlattenMember(levels[..|levels| - 1], x);
    }
  }

  lemma PlanMember(nodes: seq<Node>, levels: seq<seq<Node>>, n: Node) returns (k: nat)
    requires IsPlan(nodes, levels) && n in nodes
    ensures k < |levels| && n in levels[k] && LongestWalk(nodes, n.id, k)
  {
    assert n in multiset(nodes);
    assert n in Flatten(levels);
    k := FlattenMember(levels, n);
  }

  lemma PlannedNodeIsNode(nodes: seq<Node>, levels: seq<seq<Node>>, k: nat, n: Node)
    requires IsPlan(nodes, levels) && k < |levels| && n in levels[k]
    ensures n in nodes
  {
    InFlatten(levels, k, n);
    assert n in multiset(Flatten(levels));
  }

  lemma LongestWalkUnique(nodes: seq<Node>, x: string, j: nat, k: nat)
    requires LongestWalk(nodes, x, j) && LongestWalk(nodes, x, k)
    ensures j == k
  {
  }

  lemma Prepend(nodes: seq<Node>, x: string, q: seq<string>)
    requires x in Ids(nodes) && Walk(nodes, q) && Edge(nodes, x, q[0])
    ensures WalkFrom(nodes, x, [x] + q)
  {
  }

  lemma LongerWalk(nodes: seq<Node>, x: string, y: string, k: nat, j: nat)
    requires x in Ids(nodes) && Edge(nodes, x, y)
    requires LongestWalk(nodes, x, k) && LongestWalk(nodes, y, j)
    ensures j < k
  {
    var q :| WalkFrom(nodes, y, q) && |q| == j + 1;
    Prepend(nodes, x, q);
  }

  /** Every need of a planned node is a planned node of a strictly earlier level. */
  lemma NeedsComeEarlier(nodes: seq<Node>, levels: seq<seq<Node>>, k: nat, n: Node, d: string)
    requires UniqueIds(nodes) && KnownNeeds(nodes) && IsPlan(nodes, levels)
    requires k < |levels| && n in levels[k] && d in n.needs
    ensures exists j, m :: 0 <= j < k && m in levels[j] && m.id == d
  {
    PlannedNodeIsNode(nodes, levels, k, n);
    assert d in Ids(nodes);
    var m :| m in nodes && m.id == d;
    var j := PlanMember(nodes, levels, m);
    assert Edge(nodes, n.id, d);
    LongerWalk(nodes, n.id, d, k, j);
  }

  /** No node appears twice, in one level or in two. */
  lemma PlannedOnce(nodes: seq<Node>, levels: seq<seq<Node>>, k: nat, i: nat, k': nat, i': nat)
    requires UniqueIds(nodes) && IsPlan(nodes, levels)
    requires k < |levels| && i < |levels[k]| && k' < |levels| && i' < |levels[k']|
    requires levels[k][i].id == levels[k'][i'].id
    ensures k == k' && i == i'
  {
    var n := levels[k][i];
    assert n in levels[k] && levels[k'][i'] in levels[k'];
    PlannedNodeIsNode(nodes, levels, k, n);
    PlannedNodeIsNode(nodes, levels, k', levels[k'][i']);
    SameNode(nodes, n, levels[k'][i']);
    LongestWalkUnique(nodes, n.id, k, k');
    CountInFlatten(levels, k, n);
    NoDupMultiset(nodes, n);
    if i < i' {
      CountTwice(levels[k], i, i');
    } else if i' < i {
      CountTwice(levels[k], i', i);
    }
  }

  lemma CountTwice<T>(s: seq<T>, i: nat, j: nat)
    requires i < j < |s| && s[i] == s[j]
    ensures multiset(s)[s[i]] >= 2
  {
    assert s == s[..i] + [s[i]] + s[i + 1..j] + [s[j]] + s[j + 1..];
  }

  lemma {:induction false} CountInFlatten<T>(levels: seq<seq<T>>, k: nat, x: T)
    requires k < |levels|
    ensures multiset(levels[k])[x] <= multiset(Flatten(levels))[x]
  {
    if k < |levels| - 1 {
      CountInFlatten(levels[..|levels| - 1], k, x);
    }
  }

  /** An assignment of levels that puts every need strictly earlier. */
  ghost predicate Layering(nodes: seq<Node>, at: map<string, nat>) {
    && Ids(nodes) <= at.Keys
    && (forall n, d | n in nodes && d in n.needs && d in Ids(nodes) :: at[d] < at[n.id])
  }

  lemma {:induction false} WalkFits(nodes: seq<Node>, at: map<string, nat>, p: seq<string>)
    requires Layering(nodes, at) && Walk(nodes, p)
    ensures at[p[0]] >= at[p[|p| - 1]] + |p| - 1
  {
    if |p| > 1 {
      SubWalk(nodes, p, 0, |p| - 1);
      WalkFits(nodes, at, p[0..|p| - 1]);
      assert Edge(nodes, p[|p| - 2], p[|p| - 2 + 1]);
    }
  }

  /** The plan is the optimal layering: any other one places every node at
      least as late, hence needs at least as many levels. */
  lemma PlanIsOptimal(nodes: seq<Node>, levels: seq<seq<Node>>, at: map<string, nat>)
    requires IsPlan(nodes, levels) && Layering(nodes, at)
    ensures forall k, n | 0 <= k < |levels| && n in levels[k] :: n.id in at && k <= at[n.id]
    ensures levels != [] ==> exists n :: n in nodes && n.id in at && at[n.id] >= |levels| - 1
  {
    forall k, n | 0 <= k < |levels| && n in levels[k]
      ensures n in nodes && n.id in at && k <= at[n.id]
    {
      PlannedNodeIsNode(nodes, levels, k, n);
      var p :| WalkFrom(nodes, n.id, p) && |p| == k + 1;
      WalkFits(nodes, at, p);
    }
    if levels != [] {
      var last := levels[|levels| - 1][0];
      assert last in levels[|levels| - 1];
      PlannedNodeIsNode(nodes, levels, |levels| - 1, last);
    }
  }

  /** With known needs, "no node is blocked" is plain acyclicity, and a blocked
      node is one from which following needs reaches a cycle. */
  lemma BlockedMeansCycle(nodes: seq<Node>)
    requires KnownNeeds(nodes)
    ensures forall x :: Blocked(nodes, x) <==> ReachesCycle(nodes, x)
    ensures (forall n | n in nodes :: !Blocked(nodes, n.id)) <==> Acyclic(nodes)
  {
  }

  // --- validate -------------------------------------------------------------

  ghost predicate FirstDuplicate(nodes: seq<Node>, id: string) {
    exists j :: 0 <= j < |nodes| && nodes[j].id == id && id in Ids(nodes[..j]) && UniqueIds(nodes[..j])
  }

  /** Everything before the `j`-th need of node `i` is known, and that need is not. */
  ghost predicate UnknownAt(nodes: seq<Node>, i: nat, j: nat) {
    && i < |nodes| && j < |nodes[i].needs| && nodes[i].needs[j] !in Ids(nodes)
    && (forall k, d | 0 <= k < i && d in nodes[k].needs :: d in Ids(nodes))
    && (forall l | 0 <= l < j :: nodes[i].needs[l] in Ids(nodes))
  }

  ghost predicate FirstUnknown(nodes: seq<Node>, id: string, need: string) {
    exists i: nat, j: nat :: UnknownAt(nodes, i, j) && id == nodes[i].id && need == nodes[i].needs[j]
  }

  method CheckIds(nodes: seq<Node>) returns (r: Option<string>)
    ensures r.None? <==> UniqueIds(nodes)
    ensures r.Some? ==> FirstDuplicate(nodes, r.value)
  {
    var seen := {};
    for i := 0 to |nodes|
      invariant seen == Ids(nodes[..i]) && UniqueIds(nodes[..i])
    {
      assert nodes[..i + 1] == nodes[..i] + [nodes[i]];
      if nodes[i].id in seen {
        var k :| 0 <= k < i && nodes[..i][k].id == nodes[i].id;
        assert nodes[k].id == nodes[i].id;
        return Some(nodes[i].id);
      }
      seen := seen + {nodes[i].id};
    }
    assert nodes[..|nodes|] == nodes;
    return None;
  }

  method CheckNeeds(nodes: seq<Node>) returns (r: Option<(string, string)>)
    ensures r.None? <==> KnownNeeds(nodes)
    ensures r.Some? ==> FirstUnknown(nodes, r.value.0, r.value.1)
  {
    var seen := Ids(nodes);
    for i := 0 to |nodes|
      invariant forall k, d | 0 <= k < i && d in nodes[k].needs :: d in seen
    {
      for j := 0 to |nodes[i].needs|
        invariant forall l | 0 <= l < j :: nodes[i].needs[l] in seen
      {
        if nodes[i].needs[j] !in seen {
          assert UnknownAt(nodes, i, j);
          assert nodes[i] in nodes;
          return Some((nodes[i].id, nodes[i].needs[j]));
        }
      }
    }
    return None;
  }

  /** `validate`: the checks in the order they are made. */
  method Validate(nodes: seq<Node>) returns (r: Result<(), DagError>)
    ensures r.Success? <==> nodes != [] && UniqueIds(nodes) && KnownNeeds(nodes) && Acyclic(nodes)
    ensures nodes == [] <==> r == Failure(NoNodes)
    ensures nodes != [] && !UniqueIds(nodes) <==> r.Failure? && r.error.DuplicateId?
    ensures r.Failure? && r.error.DuplicateId? ==> FirstDuplicate(nodes, r.error.id)
    ensures nodes != [] && UniqueIds(nodes) && !KnownNeeds(nodes) <==> r.Failure? && r.error.UnknownDependency?
    ensures r.Failure? && r.error.UnknownDependency? ==> FirstUnknown(nodes, r.error.id, r.error.need)
    ensures r.Failure? && r.error.CycleDetected? ==> r.error.unresolved == BlockedIds(nodes, nodes)
  {
    if nodes == [] {
      return Failure(NoNodes);
    }
    var dup := CheckIds(nodes);
    if dup.Some? {
      return Failure(DuplicateId(dup.value));
    }
    var unknown := CheckNeeds(nodes);
    if unknown.Some? {
      return Failure(UnknownDependency(unknown.value.0, unknown.value.1));
    }
    BlockedMeansCycle(nodes);
    var plan := Plan(nodes);
    if plan.Failure? {
      return Failure(plan.error);
    }
    return Success(());
  }
}
