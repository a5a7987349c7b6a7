/** Planner, barrier and step engine together: what dispatching a node says
    about the checkpoints of everything it needs. */
module EndToEnd {
  import opened Wrappers
  import opened Dag
  import opened DagTheorems
  import opened DagDriver
  import opened Overlay
  import Recipe
  import SE = StepEngine
  import SR = StepRunner
  import ST = StepTheorems

  /** A task as its driver left it. */
  datatype Left = Left(c: SE.Config, s: SE.Snap, result: SR.RunResult)
  {
    ghost predicate AllCheckpointed() {
      forall i: nat | i < c.Size() :: ST.Checkpointed(c, s, i)
    }
  }

  /** How the dispatcher's world comes about: a task runs the steps of the node it
      was dispatched for, `run_workflow` leaves it as `DriveNode` says, its handle
      returns when that was Ok, and the success test reads the rows left there. */
  ghost predicate Backed(world: World, register: map<string, seq<SE.StepDef>>, stored: string -> Option<seq<SE.StepDef>>,
                         trace: seq<Event>, left: Tid -> Left) {
    && (forall a: nat | a < |trace| && trace[a].Dispatched? ::
          Recipe.Loaded(register, stored, trace[a].node) == Some(left(trace[a].tid).c.Steps()))
    && (forall b: nat | b < |trace| && trace[b].Joined? ::
          var l := left(trace[b].tid);
          ST.Driven(l.c, l.s, l.result) && (trace[b].outcome == Returned ==> l.result == SR.Finished))
    && (forall i: nat, k: nat | i < |trace| && trace[i].Checked? && world.snapshot(trace[i].tid, i)(k).Some? ::
          ST.ListsRows(left(trace[i].tid).c, left(trace[i].tid).s.rows, world.snapshot(trace[i].tid, i)(k).value))
  }

  /** A check that succeeds after the handle returned. */
  lemma CheckedMeansCheckpointed(world: World, register: map<string, seq<SE.StepDef>>, stored: string -> Option<seq<SE.StepDef>>,
                                 trace: seq<Event>, left: Tid -> Left, b: nat, i: nat)
    requires Backed(world, register, stored, trace, left) && b < i < |trace| && trace[i].Checked?
    requires trace[b] == Joined(trace[i].tid, Returned) && SuccessSeen(world.snapshot(trace[i].tid, i))
    ensures left(trace[i].tid).AllCheckpointed()
  {
    hide SE.Good, SE.RowFront, ST.ListsRows, SuccessSeen;
    var l := left(trace[i].tid);
    assert trace[b].Joined?;
    forall n: nat | n < l.c.Size()
      ensures ST.Checkpointed(l.c, l.s, n)
    {
      ST.BarrierIsSound(l.c, l.s, world.snapshot(trace[i].tid, i), n);
    }
  }

  lemma SuccessWasSeen(world: World, levels: seq<seq<Node>>, trace: seq<Event>, n: Node, a: int, b: int, c: int)
    requires DriverTrace(world, levels, trace) && SuccessAt(trace, n, a, b, c)
    ensures SuccessSeen(world.snapshot(trace[a].tid, c))
  {
    hide SuccessSeen;
    assert trace[c].Checked? && trace[c].ok;
  }

  /** No node is dispatched while a step of anything it needs, directly or
      indirectly, is not checkpointed. */
  lemma NeedsAreCheckpointed(nodes: seq<Node>, world: World, levels: seq<seq<Node>>, trace: seq<Event>,
                             register: map<string, seq<SE.StepDef>>, stored: string -> Option<seq<SE.StepDef>>,
                             left: Tid -> Left, i: nat, m: Node)
    requires UniqueIds(nodes) && IsPlan(nodes, levels) && DriverTrace(world, levels, trace)
    requires Backed(world, register, stored, trace, left)
    requires i < |trace| && trace[i].Dispatched? && m in nodes && NeedsTransitively(nodes, trace[i].node, m)
    ensures exists a: nat ::
              && a < i && trace[a].Dispatched? && trace[a].node == m
              && Recipe.Loaded(register, stored, m) == Some(left(trace[a].tid).c.Steps()) && left(trace[a].tid).AllCheckpointed()
  {
    hide UniqueIds, IsPlan, DriverTrace, NeedsTransitively, SuccessSeen, Left.AllCheckpointed;
    NeedsSucceedFirst(nodes, world, levels, trace, i, m);
    var a: int, b: int, c: int :| SuccessAt(trace, m, a, b, c) && c < i;
    SuccessWasSeen(world, levels, trace, m, a, b, c);
    CheckedMeansCheckpointed(world, register, stored, trace, left, b, c);
    assert trace[a].Dispatched?;
  }
}
