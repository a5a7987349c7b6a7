/** DAG workflow files (`janus/src/recipe.rs:147-164, 231-301`): each node names
    a workflow or carries its steps, which go into a register of their own. */
module Recipe {
  import opened Wrappers
  import opened Dag
  import opened DagTheorems
  import opened StepEngine
  import opened Ansi

  datatype FileNode = FileNode(
    id: string,
    workflow: Option<string>,
    steps: Option<seq<StepDef>>,
    needs: seq<string>,
    isolation: Option<string>,
    bestOfN: Option<nat>,
    writes: Option<seq<string>>)

  datatype ParseError =
    | NoHeader
    | EmptyWorkflowName(id: string)
    | NoSteps(workflow: string)
    | UnnamedStep(workflow: string, index: nat)
    | StepWithoutAgent(workflow: string, index: nat)
    | BothGiven(id: string)
    | NeitherGiven(id: string)
    | Invalid(error: DagError)

  datatype DagWorkflow = DagWorkflow(nodes: seq<Node>, register: map<string, seq<StepDef>>)

  predicate Empty(s: string) {
    Trim(s) == ""
  }

  /** Empty means nothing but white space. */
  lemma EmptyIsBlank(s: string)
    ensures Empty(s) <==> AllWhite(s)
  {
    hide IsWhite, Trim;
    var pre, post := TrimIsExact(s);
    if Trim(s) == "" {
      assert s == pre + post;
    } else {
      assert s[|pre|] == Trim(s)[0];
    }
  }

  // --- validate_workflow_steps ----------------------------------------------

  predicate StepOk(s: StepDef) {
    !Empty(s.name) && !Empty(s.agent)
  }

  predicate StepsOk(steps: seq<StepDef>) {
    steps != [] && forall i | 0 <= i < |steps| :: StepOk(steps[i])
  }

  /** What is wrong with the first bad step. */
  predicate StepsErrorIs(steps: seq<StepDef>, workflow: string, e: ParseError) {
    match e
    case NoSteps(w) => w == workflow && steps == []
    case UnnamedStep(w, i) => w == workflow && i < |steps| && StepsOkUpTo(steps, i) && Empty(steps[i].name)
    case StepWithoutAgent(w, i) =>
      w == workflow && i < |steps| && StepsOkUpTo(steps, i) && !Empty(steps[i].name) && Empty(steps[i].agent)
    case _ => false
  }

  predicate StepsOkUpTo(steps: seq<StepDef>, i: nat)
    requires i <= |steps|
  {
    forall j | 0 <= j < i :: StepOk(steps[j])
  }

  method ValidateWorkflowSteps(steps: seq<StepDef>, workflow: string) returns (e: Option<ParseError>)
    ensures e.None? <==> StepsOk(steps)
    ensures e.Some? ==> StepsErrorIs(steps, workflow, e.value)
  {
    if steps == [] {
      return Some(NoSteps(workflow));
    }
    for i := 0 to |steps|
      invariant StepsOkUpTo(steps, i)
    {
      if Empty(steps[i].name) {
        return Some(UnnamedStep(workflow, i));
      }
      if Empty(steps[i].agent) {
        return Some(StepWithoutAgent(workflow, i));
      }
    }
    return None;
  }

  // --- parse_dag_workflow ---------------------------------------------------

  function InlineName(id: string): string {
    "__inline_" + id
  }

  predicate NodeOk(n: FileNode) {
    || (n.workflow.Some? && n.steps.None? && !Empty(n.workflow.value))
    || (n.workflow.None? && n.steps.Some? && StepsOk(n.steps.value))
  }

  function Parsed(n: FileNode): Node {
    Node(n.id, if n.workflow.Some? then n.workflow.value else InlineName(n.id), n.needs, n.isolation, n.bestOfN, n.writes)
  }

  function ParsedAll(nodes: seq<FileNode>): (r: seq<Node>)
    ensures |r| == |nodes| && forall i | 0 <= i < |nodes| :: r[i] == Parsed(nodes[i])
  {
    if nodes == [] then [] else ParsedAll(nodes[..|nodes| - 1]) + [Parsed(nodes[|nodes| - 1])]
  }

  /** What is wrong with the first bad node. */
  predicate NodeErrorIs(n: FileNode, e: ParseError) {
    match e
    case EmptyWorkflowName(id) => id == n.id && n.workflow.Some? && n.steps.None? && Empty(n.workflow.value)
    case BothGiven(id) => id == n.id && n.workflow.Some? && n.steps.Some?
    case NeitherGiven(id) => id == n.id && n.workflow.None? && n.steps.None?
    case _ => n.workflow.None? && n.steps.Some? && StepsErrorIs(n.steps.value, InlineName(n.id), e)
  }

  ghost predicate FirstBadNode(nodes: seq<FileNode>, e: ParseError) {
    exists i :: 0 <= i < |nodes| && NodeErrorIs(nodes[i], e) && forall j | 0 <= j < i :: NodeOk(nodes[j])
  }

  ghost predicate AllOk(nodes: seq<FileNode>) {
    forall i | 0 <= i < |nodes| :: NodeOk(nodes[i])
  }

  predicate IsInline(n: FileNode) {
    n.workflow.None? && n.steps.Some?
  }

  /** The register holds an entry for the inline nodes and for nothing else; of
      two nodes with one id the later one's. */
  ghost predicate RegisterOk(nodes: seq<FileNode>, register: map<string, seq<StepDef>>) {
    && (forall i | 0 <= i < |nodes| && IsInline(nodes[i]) :: InlineName(nodes[i].id) in register)
    && (forall w | w in register :: exists i :: InlineAt(nodes, i, w))
    && (forall i | 0 <= i < |nodes| && IsInline(nodes[i]) && (forall j | i < j < |nodes| :: nodes[j].id != nodes[i].id) ::
          InlineName(nodes[i].id) in register && register[InlineName(nodes[i].id)] == nodes[i].steps.value)
  }

  ghost predicate InlineAt(nodes: seq<FileNode>, i: int, w: string) {
    0 <= i < |nodes| && IsInline(nodes[i]) && w == InlineName(nodes[i].id)
  }

  lemma InlineNameInjective(a: string, b: string)
    requires InlineName(a) == InlineName(b)
    ensures a == b
  {
    assert a == InlineName(a)[9..] && b == InlineName(b)[9..];
  }

  function WithNode(n: FileNode, register: map<string, seq<StepDef>>): map<string, seq<StepDef>> {
    if IsInline(n) then register[InlineName(n.id) := n.steps.value] else register
  }

  lemma EntriesGrow(nodes: seq<FileNode>, k: nat, register: map<string, seq<StepDef>>, w: string) returns (i: int)
    requires k < |nodes| && RegisterOk(nodes[..k], register) && w in WithNode(nodes[k], register)
    ensures InlineAt(nodes[..k + 1], i, w)
  {
    hide InlineName;
    if w in register {
      var before := nodes[..k];
      i :| InlineAt(before, i, w);
    } else {
      i := k;
    }
  }

  lemma LastEntryGrows(nodes: seq<FileNode>, k: nat, register: map<string, seq<StepDef>>, i: nat)
    requires i < k < |nodes| && RegisterOk(nodes[..k], register) && IsInline(nodes[i])
    requires forall j | i < j < k + 1 :: nodes[j].id != nodes[i].id
    ensures var now := WithNode(nodes[k], register);
            InlineName(nodes[i].id) in now && now[InlineName(nodes[i].id)] == nodes[i].steps.value
  {
    hide InlineName;
    var before := nodes[..k];
    assert before[i] == nodes[i] && forall j | i < j < k :: before[j].id != before[i].id;
    if InlineName(nodes[i].id) == InlineName(nodes[k].id) {
      InlineNameInjective(nodes[i].id, nodes[k].id);
    }
  }

  lemma RegisterGrows(nodes: seq<FileNode>, k: nat, register: map<string, seq<StepDef>>)
    requires k < |nodes| && RegisterOk(nodes[..k], register)
    ensures RegisterOk(nodes[..k + 1], WithNode(nodes[k], register))
  {
    var after, now := nodes[..k + 1], WithNode(nodes[k], register);
    forall w | w in now
      ensures exists i :: InlineAt(after, i, w)
    {
      var i := EntriesGrow(nodes, k, register, w);
    }
    forall i | 0 <= i < k && IsInline(after[i]) && (forall j | i < j < k + 1 :: after[j].id != after[i].id)
      ensures InlineName(after[i].id) in now && now[InlineName(after[i].id)] == after[i].steps.value
    {
      assert forall j | i < j < k + 1 :: nodes[j].id == after[j].id;
      LastEntryGrows(nodes, k, register, i);
    }
    forall i | 0 <= i < k && IsInline(after[i])
      ensures InlineName(after[i].id) in now
    {
      assert nodes[..k][i] == after[i];
    }
  }

  // --- What the file says, in its own terms ---------------------------------

  /** A node of the graph is its node of the file; inline steps go under a name of their own. */
  predicate Keeps(n: Node, f: FileNode) {
    && n.id == f.id && n.needs == f.needs && n.isolation == f.isolation && n.bestOfN == f.bestOfN && n.writes == f.writes
    && n.workflow == if f.workflow.Some? then f.workflow.value else "__inline_" + f.id
  }

  predicate KeepsAll(nodes: seq<Node>, file: seq<FileNode>) {
    |nodes| == |file| && forall i | 0 <= i < |file| :: Keeps(nodes[i], file[i])
  }

  ghost predicate DistinctIds(file: seq<FileNode>) {
    forall i, j | 0 <= i < j < |file| :: file[i].id != file[j].id
  }

  ghost predicate IsFileId(file: seq<FileNode>, x: string) {
    exists i :: 0 <= i < |file| && file[i].id == x
  }

  ghost predicate NeedsKnown(file: seq<FileNode>) {
    forall i, d | 0 <= i < |file| && d in file[i].needs :: IsFileId(file, d)
  }

  /** The node called `x` needs `y`. */
  ghost predicate FileNeeds(file: seq<FileNode>, x: string, y: string) {
    exists i :: 0 <= i < |file| && file[i].id == x && y in file[i].needs
  }

  /** Ids of the file, each of which needs the next one. */
  ghost predicate Chain(file: seq<FileNode>, p: seq<string>) {
    && p != [] && (forall k | 0 <= k < |p| :: IsFileId(file, p[k]))
    && (forall k | 0 <= k < |p| - 1 :: FileNeeds(file, p[k], p[k + 1]))
  }

  ghost predicate NoNeedsCycle(file: seq<FileNode>) {
    forall p | Chain(file, p) :: !Repeats(p)
  }

  lemma ParsedKeeps(file: seq<FileNode>)
    ensures KeepsAll(ParsedAll(file), file)
  {
  }

  /** The graph of the parsed nodes is the graph of the file. */
  lemma SameGraph(nodes: seq<Node>, file: seq<FileNode>)
    requires KeepsAll(nodes, file)
    ensures UniqueIds(nodes) <==> DistinctIds(file)
    ensures KnownNeeds(nodes) <==> NeedsKnown(file)
    ensures Acyclic(nodes) <==> NoNeedsCycle(file)
  {
    SameIds(nodes, file);
    SameUnique(nodes, file);
    SameNeeds(nodes, file);
    forall p
      ensures Walk(nodes, p) <==> Chain(file, p)
    {
      SameWalks(nodes, file, p);
    }
  }

  lemma SameIds(nodes: seq<Node>, file: seq<FileNode>)
    requires KeepsAll(nodes, file)
    ensures forall x :: x in Ids(nodes) <==> IsFileId(file, x)
  {
    forall x | IsFileId(file, x)
      ensures x in Ids(nodes)
    {
      var i :| 0 <= i < |file| && file[i].id == x;
      assert nodes[i] in nodes && Keeps(nodes[i], file[i]);
    }
    forall x | x in Ids(nodes)
      ensures IsFileId(file, x)
    {
      var i :| 0 <= i < |nodes| && nodes[i].id == x;
      assert Keeps(nodes[i], file[i]);
    }
  }

  lemma SameUnique(nodes: seq<Node>, file: seq<FileNode>)
    requires KeepsAll(nodes, file)
    ensures UniqueIds(nodes) <==> DistinctIds(file)
  {
    assert forall i | 0 <= i < |file| :: Keeps(nodes[i], file[i]);
  }

  lemma SameNeeds(nodes: seq<Node>, file: seq<FileNode>)
    requires KeepsAll(nodes, file) && (forall x :: x in Ids(nodes) <==> IsFileId(file, x))
    ensures KnownNeeds(nodes) <==> NeedsKnown(file)
    ensures forall x, y :: Edge(nodes, x, y) <==> FileNeeds(file, x, y)
  {
    hide Ids, IsFileId;
    assert forall i | 0 <= i < |file| :: nodes[i] in nodes && Keeps(nodes[i], file[i]);
    forall x, y | Edge(nodes, x, y)
      ensures FileNeeds(file, x, y)
    {
      var n :| n in nodes && n.id == x && y in n.needs;
      var i :| 0 <= i < |nodes| && nodes[i] == n;
      assert Keeps(nodes[i], file[i]);
    }
    if NeedsKnown(file) {
      forall n, d | n in nodes && d in n.needs
        ensures d in Ids(nodes)
      {
        var i :| 0 <= i < |nodes| && nodes[i] == n;
        assert Keeps(nodes[i], file[i]);
      }
    }
  }

  lemma SameWalks(nodes: seq<Node>, file: seq<FileNode>, p: seq<string>)
    requires forall x :: x in Ids(nodes) <==> IsFileId(file, x)
    requires forall x, y :: Edge(nodes, x, y) <==> FileNeeds(file, x, y)
    ensures Walk(nodes, p) <==> Chain(file, p)
  {
    hide Ids, IsFileId, Edge, FileNeeds;
  }

  method ParseNode(n: FileNode, register0: map<string, seq<StepDef>>)
      returns (r: Result<Node, ParseError>, register: map<string, seq<StepDef>>)
    ensures r.Success? <==> NodeOk(n)
    ensures r.Success? ==> r.value == Parsed(n)
    ensures r.Success? ==> register == WithNode(n, register0)
    ensures r.Failure? ==> NodeErrorIs(n, r.error) && !r.error.NoHeader? && !r.error.Invalid?
  {
    hide StepsErrorIs, StepsOk, Empty, InlineName;
    register := register0;
    if n.workflow.Some? && n.steps.None? {
      if Empty(n.workflow.value) {
        return Failure(EmptyWorkflowName(n.id)), register;
      }
      return Success(Node(n.id, n.workflow.value, n.needs, n.isolation, n.bestOfN, n.writes)), register;
    }
    if n.workflow.None? && n.steps.Some? {
      var name := InlineName(n.id);
      var e := ValidateWorkflowSteps(n.steps.value, name);
      if e.Some? {
        StepsErrorKind(n.steps.value, name, e.value);
        return Failure(e.value), register;
      }
      register := register[name := n.steps.value];
      return Success(Node(n.id, name, n.needs, n.isolation, n.bestOfN, n.writes)), register;
    }
    return Failure(if n.workflow.Some? then BothGiven(n.id) else NeitherGiven(n.id)), register;
  }

  method ParseDagWorkflow(header: bool, nodes: seq<FileNode>) returns (r: Result<DagWorkflow, ParseError>)
    ensures r.Success? <==>
              && header && AllOk(nodes)
              && nodes != [] && DistinctIds(nodes) && NeedsKnown(nodes) && NoNeedsCycle(nodes)
    ensures r.Success? ==> KeepsAll(r.value.nodes, nodes) && RegisterOk(nodes, r.value.register)
    ensures r.Success? ==> r.value.nodes == ParsedAll(nodes)
    ensures r == Failure(NoHeader) <==> !header
    ensures r.Failure? && header && !AllOk(nodes) ==> FirstBadNode(nodes, r.error)
    ensures r.Failure? && header && AllOk(nodes) ==> r.error.Invalid?
  {
    hide UniqueIds, KnownNeeds, Acyclic, RegisterOk, NodeErrorIs, NodeOk, Parsed, IsInline, WithNode, DistinctIds,
         NeedsKnown, NoNeedsCycle, KeepsAll;
    ParsedKeeps(nodes);
    SameGraph(ParsedAll(nodes), nodes);
    if !header {
      return Failure(NoHeader);
    }
    var dagNodes: seq<Node> := [];
    var register: map<string, seq<StepDef>> := map[];
    NoRegister(nodes);
    for i := 0 to |nodes|
      invariant dagNodes == ParsedAll(nodes[..i]) && RegisterOk(nodes[..i], register)
      invariant forall j | 0 <= j < i :: NodeOk(nodes[j])
    {
      RegisterGrows(nodes, i, register);
      ParsedNext(nodes, i);
      var parsed;
      parsed, register := ParseNode(nodes[i], register);
      if parsed.Failure? {
        return Failure(parsed.error);
      }
      dagNodes := dagNodes + [parsed.value];
    }
    assert nodes[..|nodes|] == nodes;
    var checked := Validate(dagNodes);
    if checked.Failure? {
      return Failure(Invalid(checked.error));
    }
    return Success(DagWorkflow(dagNodes, register));
  }

  lemma StepsErrorKind(steps: seq<StepDef>, workflow: string, e: ParseError)
    requires StepsErrorIs(steps, workflow, e)
    ensures !e.EmptyWorkflowName? && !e.BothGiven? && !e.NeitherGiven? && !e.Invalid? && !e.NoHeader?
  {
  }

  lemma NoRegister(nodes: seq<FileNode>)
    ensures RegisterOk(nodes[..0], map[]) && ParsedAll(nodes[..0]) == []
  {
  }

  lemma ParsedNext(nodes: seq<FileNode>, i: nat)
    requires i < |nodes|
    ensures ParsedAll(nodes[..i + 1]) == ParsedAll(nodes[..i]) + [Parsed(nodes[i])]
  {
  }

  lemma {:induction false} IdsDiffer(nodes: seq<FileNode>, i: nat, j: nat)
    requires UniqueIds(ParsedAll(nodes)) && i < j < |nodes|
    ensures nodes[j].id != nodes[i].id
  {
  }

  /** In a parsed workflow every inline node is registered with its own steps. */
  lemma {:induction false} InlineNodesKeepTheirSteps(nodes: seq<FileNode>, register: map<string, seq<StepDef>>, i: nat)
    requires UniqueIds(ParsedAll(nodes)) && RegisterOk(nodes, register) && i < |nodes| && IsInline(nodes[i])
    ensures Parsed(nodes[i]).workflow in register && register[Parsed(nodes[i]).workflow] == nodes[i].steps.value
  {
    hide UniqueIds, InlineName;
    forall j: nat | i < j < |nodes|
      ensures nodes[j].id != nodes[i].id
    {
      IdsDiffer(nodes, i, j);
    }
  }

  /** What the dispatcher runs for a node: the registered steps, else those of the
      stored workflow, if it loads. */
  function Loaded(register: map<string, seq<StepDef>>, stored: string -> Option<seq<StepDef>>, n: Node): Option<seq<StepDef>> {
    if n.workflow in register then Some(register[n.workflow]) else stored(n.workflow)
  }

  /** An inline node runs its own steps; a reference runs the stored workflow of
      that name, unless the name is the register name of an inline node, whose
      steps it then runs instead. */
  lemma {:induction false} WhatANodeRuns(nodes: seq<FileNode>, register: map<string, seq<StepDef>>,
                                        stored: string -> Option<seq<StepDef>>, i: nat)
    requires UniqueIds(ParsedAll(nodes)) && AllOk(nodes) && RegisterOk(nodes, register) && i < |nodes|
    ensures IsInline(nodes[i]) ==> Loaded(register, stored, ParsedAll(nodes)[i]) == nodes[i].steps
    ensures nodes[i].workflow.Some? ==>
              var w := nodes[i].workflow.value;
              && (forall j | InlineAt(nodes, j, w) :: Loaded(register, stored, ParsedAll(nodes)[i]) == nodes[j].steps)
              && ((forall j :: !InlineAt(nodes, j, w)) ==> Loaded(register, stored, ParsedAll(nodes)[i]) == stored(w))
  {
    hide UniqueIds, InlineName, StepsOk, Empty;
    if IsInline(nodes[i]) {
      InlineNodesKeepTheirSteps(nodes, register, i);
    } else {
      forall j | InlineAt(nodes, j, nodes[i].workflow.value)
        ensures Loaded(register, stored, ParsedAll(nodes)[i]) == nodes[j].steps
      {
        InlineNodesKeepTheirSteps(nodes, register, j);
      }
    }
  }
}
