# MetaMach, verified

MetaMach runs workflows of shell steps durably: a daemon dispatches the tasks of
a DAG, runs each task's steps in tmux sessions under a leased claim, writes a
checkpoint per finished step, asks a human when a guard suspends a step, and
keeps short logs and a fallback ring for database outages. This project models
that behaviour in Dafny and proves what it promises.

| file | what it models |
|---|---|
| `Dag.dfy`, `DagTheorems.dfy` | Kahn's algorithm by levels with its counters, validation, and what a plan is: the layering by longest `needs` chain |
| `DagDriver.dfy` | the dispatcher with its level barrier, against a world that answers every question as it likes |
| `Recipe.dfy` | DAG workflow files: referenced and inline nodes, the register of inline steps |
| `Envelope.dfy` | JSON, task ids, the checkpoint envelope and its legacy decoding |
| `Engine.dfy` | the durable engine as `FakeEngine` executes it, with the sleeping and waking of an awaiting run that `janus/src/absurd/adapter.rs:35-43` documents |
| `Sessions.dfy`, `Overlay.dfy` | session names and the stale sweep; overlay rows and the barrier's success test |
| `StepEngine.dfy`, `StepRunner.dfy`, `StepTheorems.dfy` | `run_workflow` and `run_steps` over engine, overlay and sessions: the invariant, the loops, and what follows for whole runs |
| `EndToEnd.dfy` | planner, barrier and step engine together |
| `Gateway.dfy` | the verdict gateway as interleaved atomic steps |
| `Quote.dfy` | shell quoting and the step command line, against the POSIX rules |
| `Utf8.dfy`, `Ansi.dfy`, `LogLines.dfy`, `LogFilter.dfy`, `Truncate.dfy` | UTF-8, the log filter and the 16 KiB budget |
| `Fallback.dfy` | the fallback ring and its replay |
| `Lease.dfy` | polling a pane while renewing the lease |

How the parts are stated:

* Every part that updates state in the source is a class or a loop here, proved
  equal to a specification function of its inputs or of the old state; the
  theorems are about those functions and about all runs of them.
* In `StepRunner` the environment is a script with one entry per fallible call:
  exit codes, session failures, HEAD moves, guard and stop decisions, verdict
  events, lease expiry. A failing entry, or the end of the script, is an error
  passed up by `?` or the daemon dying there; calling `RunWorkflow` again on the
  same engine, overlay and session state is the restart. A theorem about every
  script is a theorem about every run.
* `Good` is the invariant of the step engine. It holds from dispatch on through
  any number of claims, corrections, approvals, crashes and restarts, and the
  statements of `StepTheorems` are its consequences.
* A gateway callback is two steps, marking under the lock and sending outside
  it; an awaiter is taking the receiver, waiting, and finishing. `Op` lists the
  steps, and a run is any sequence of them.

Assumed, and not checked by the source: the step names of a workflow are distinct
(`resume_point` looks them up; `validate_workflow_steps` checks only that they
are not blank), a queue holds one task, the recipe is the same across restarts,
a correlation id and a run id are never minted twice, a kill of a tmux session
succeeds, receiving and timing out is one atomic step in which a waiting value
wins, and wall clock and timer agree.

Where the code does not do what a reader might expect, the model follows the
code and a lemma says exactly what happens:

* A verdict answered 200 can be lost: it arrives while the cards are still being
  sent, and a second callback after expiry removes the entry with the verdict in
  it (`Gateway.VerdictCanBeLost`; `Gateway.LostExactlyByExpiry` is the exact
  condition).
* A correction running in the sandbox survives a crash: the stale sweep looks at
  host backends only (`StepTheorems.SweepSpares`), and the kill before the next
  first try names another session. Two sessions of one task can so be alive,
  exactly when some sandbox step runs corrections and the task may be tried
  again: `StepTheorems.OrphanedCorrection` runs a script that gets there, and
  otherwise `StepTheorems.OneSessionAlive` holds of every run.
* A `create_session` that fails may leave its placeholder session behind
  (`janus/src/tmux/mod.rs:235-249`). On a host the sweep before the next claim
  takes it (`StepRunner.Runner.NextRun`); in the sandbox only the kill before the
  next try of the same number does.
* All overlay rows of a task that is not done can read done: exactly when
  a crash or an error came between a checkpoint and the next step's first row
  (`StepTheorems.LooksDoneExactlyInGap`). The DAG driver does not meet this gap,
  because it applies its success test only when `run_workflow` returned Ok in
  the process that dispatched the task (`StepTheorems.DriveNode`).
* Event payloads are read, not consumed, although a comment at
  `janus/src/absurd/adapter.rs:445` speaks of draining them first in, first out: the first verdict of
  a task answers every later await (`Engine.FirstPayloadAnswersForever`).
* The host name of a remote step is not quoted: the command line means what it
  should exactly when no character of the name needs quoting
  (`Quote.RemoteCommandExactly`).
* When a claim's lease is lost before `complete_run`, that call changes nothing
  and `run_workflow` still returns Ok. The task, with every step checkpointed, is
  retried while attempts remain; after its last attempt it stays failed
  (`StepRunner.Runner.RunFresh`, `StepTheorems.LateCompletion`).

## Model

| member | source | states |
|---|---|---|
| Dag.Plan | janus/src/workflow/dag.rs:97-162 | `plan` succeeds exactly when from no node following `needs` reaches a cycle or an unknown id; a plan is a permutation of the nodes in non-empty levels, each node at its longest `needs` chain, level 0 being the nodes without needs in file order; otherwise it reports exactly the ids from which a cycle or unknown id is reached, in node order |
| Dag.Kahn | janus/src/workflow/dag.rs:97-136 | Kahn's loop ends with every node either listed once, at its depth, or blocked; no counter underflows, also with duplicate needs |
| Dag.BuildCounters | janus/src/workflow/dag.rs:101-107 | each in-degree counts every entry of `needs`, repetitions included, and the dependents lists hold the same multiplicities |
| Dag.FinishedNode | janus/src/workflow/dag.rs:109-136 | a node the loop finished reaches no cycle and no unknown id, and its depth is its longest chain |
| Dag.UnfinishedNode | janus/src/workflow/dag.rs:138-151 | a node the loop left reaches a cycle or an unknown id |
| DagTheorems.NeedsComeEarlier | janus/src/workflow/dag.rs:97-162 | in a plan every need is in a strictly earlier level |
| DagTheorems.PlannedOnce | janus/src/workflow/dag.rs:97-162 | no node id occurs at two places of a plan |
| DagTheorems.PlanIsOptimal | janus/src/workflow/dag.rs:109-136 | any assignment that puts needs strictly earlier places every node at least as late and uses at least as many levels |
| DagTheorems.BlockedMeansCycle | janus/src/workflow/dag.rs:138-151 | with known needs, a node is blocked exactly when it reaches a cycle, and no node is exactly when `needs` is acyclic |
| DagTheorems.Validate | janus/src/workflow/dag.rs:73-95 | accepts exactly non-empty, duplicate-free, closed, acyclic configurations; each error names the first offender |
| DagDriver.HandleDispatchDag | janus/src/bin/janus_daemon.rs:962-1080 | for every world: each event of the trace is what the world answered then, whole levels are dispatched behind the barrier of a plan, handles are awaited once each in dispatch order and checked right after they return; the run ends completed or at the first bad event, and completed when the world answers yes everywhere; the task returned is that of the first node without needs; each error is returned exactly in its case |
| DagDriver.DriveLevel | janus/src/bin/janus_daemon.rs:1026-1075 | from one barrier to the next: the whole level is dispatched, then every handle awaited and every task seen successful, each event being the world's answer, or the driver stops at the first bad event |
| DagDriver.Background | janus/src/bin/janus_daemon.rs:1004-1077 | level N+1 is dispatched only after every task of level N joined and was seen successful, all of it as the world answered |
| DagDriver.AgreeableNeverStops | janus/src/bin/janus_daemon.rs:962-1080 | where every load, dispatch, handle and check goes well nothing stops the driver |
| DagDriver.NeedsSucceedFirst | janus/src/bin/janus_daemon.rs:972-1080 | a node is dispatched only after each transitive need was dispatched, finished and seen successful |
| DagDriver.DispatchedOnce | janus/src/bin/janus_daemon.rs:972-1080 | no node is dispatched twice |
| DagDriver.DispatchedClosed | janus/src/bin/janus_daemon.rs:972-1080 | the dispatched nodes are closed under `needs` |
| DagDriver.CompletedRunIsComplete | janus/src/bin/janus_daemon.rs:972-1080 | a run in which nothing fails dispatches every node exactly once and sees each succeed |
| DagDriver.SuccessWasObserved | janus/src/bin/janus_daemon.rs:927-957 | seen successful means that one of five polls found rows, all COMPLETED without a non-zero exit code, and no earlier one a failure |
| EndToEnd.NeedsAreCheckpointed | janus/src/bin/janus_daemon.rs:927-1080 | no node is dispatched while a step of the workflow of anything it needs is not checkpointed, where each task runs the steps loaded for its node and is left as `DriveNode` says |
| Recipe.ValidateWorkflowSteps | janus/src/recipe.rs:148-164 | accepts exactly non-empty step lists without blank names or agents; the error is about the first bad step |
| Recipe.EmptyIsBlank | janus/src/recipe.rs:148-164 | a name is refused as empty exactly when it is all white space |
| Recipe.ParseDagWorkflow | janus/src/recipe.rs:231-301 | succeeds exactly on a header, well-formed nodes, distinct ids, known needs and no cycle of needs, all read off the file; every node keeps its id, needs, isolation, best-of and writes in order, and names its workflow or its register entry; the register holds the inline nodes only; an error is about the first bad node |
| Recipe.SameGraph | janus/src/recipe.rs:238-295 | the parsed nodes have the ids, needs and cycles of the file, and no others |
| Recipe.InlineNodesKeepTheirSteps | janus/src/recipe.rs:256-275 | in a parsed workflow every inline node is registered with its own steps |
| Recipe.WhatANodeRuns | janus/src/bin/janus_daemon.rs:983-987 | an inline node runs its own steps; a reference runs the stored workflow, unless its name is the register name of an inline node, whose steps it then runs |
| Envelope.RoundTrip | janus/src/workflow/envelope.rs:34-37 | writing an envelope and parsing it gives it back, whatever the default id; it is refused exactly for an empty name or status |
| Envelope.LegacyCheckpoint | janus/src/workflow/envelope.rs:151-184 | a checkpoint without a version decodes as version 0 with its step, status, exit code (64 bits truncated), verdict and no-op mark, whatever other fields it has |
| Envelope.ReadAsWritten | janus/src/workflow/envelope.rs:151-184 | of any JSON value the decoded status and verdict are the text of that field or none, so nothing counts as COMPLETED or approved that does not say so |
| Envelope.WrapI32 | janus/src/workflow/envelope.rs:165-176 | a 64-bit exit code is truncated to the signed 32-bit number congruent to it |
| Engine.ApplyKeepsInv | janus/src/absurd/adapter.rs:547-784 | every engine operation keeps: running iff claimed, pending or sleeping iff one run waits, final tasks own none, attempts within the maximum, live runs distinct |
| Engine.ReachableInv | janus/src/absurd/adapter.rs:547-784 | that invariant holds after any operations |
| Engine.StaleRunChangesNothing | janus/src/absurd/adapter.rs:632-675 | completing or failing a run no task holds changes nothing |
| Engine.ResolvedAtMostOnce | janus/src/absurd/adapter.rs:632-675 | in every run each run id is resolved at most once; later attempts change nothing |
| Engine.FinalIsAbsorbing | janus/src/absurd/adapter.rs:580-675 | a completed or failed task never changes again and owns no run |
| Engine.CheckpointsOnlyGrow | janus/src/absurd/adapter.rs:677-696 | checkpoints are only ever appended |
| Engine.FirstPayloadAnswersForever | janus/src/absurd/adapter.rs:756-785 | the first emitted payload answers every later await of the event |
| Engine.FirstComeFirstClaimed | janus/src/absurd/adapter.rs:580-619 | a claim gets the waiting run, name and parameters of the first task of the queue that has one; none exactly when no task has |
| Engine.SpawnedLast | janus/src/absurd/adapter.rs:547-578 | an operation changes a queue only by putting the task it spawns behind all others |
| Engine.QueueOnlyGrows | janus/src/absurd/adapter.rs:547-578 | over any run a queue keeps its order and only grows |
| Engine.SpawnedForGood | janus/src/absurd/adapter.rs:547-619 | over any run a task keeps the name, parameters and attempt limit it was spawned with |
| Engine.ResolvedAs | janus/src/absurd/adapter.rs:632-675 | resolving a held run completes its task, or puts it to sleep with one fresh run while attempts remain, or fails it; no other task changes |
| Engine.SleeperWakes | janus/src/absurd/adapter.rs:35-43 | a run that awaits a missing event sleeps, and wakes exactly on that event of that queue, as the same run and for no further attempt |
| Engine.FakeEngine.SpawnTask | janus/src/absurd/adapter.rs:547-578 | the new task is pending with one fresh run, last in its queue |
| Engine.FakeEngine.ClaimTask | janus/src/absurd/adapter.rs:580-619 | the first claimable task of the queue runs its first pending run; None exactly when there is none |
| Engine.FakeEngine.FindHolder | janus/src/absurd/adapter.rs:632-675 | the search finds the task that holds the run, if any does |
| Engine.FakeEngine.CompleteRun | janus/src/absurd/adapter.rs:632-649 | the holder becomes completed; without one nothing changes |
| Engine.FakeEngine.FailRun | janus/src/absurd/adapter.rs:651-675 | the holder gets a retry run while attempts remain, else fails |
| Engine.FakeEngine.NonTerminalTasks | janus/src/absurd/adapter.rs:714-735 | exactly the pending, sleeping and running tasks of the queue |
| Engine.FakeEngine.AwaitEvent | janus/src/absurd/adapter.rs:756-785 | resolves with the first payload, with null on a timeout, and else puts the run to sleep |
| Sessions.NameInjective | janus/src/workflow/mod.rs:476-482 | session names determine task, step and correction |
| Sessions.SweepIsExact | janus/src/workflow/mod.rs:782-806 | the sweep prefix of a task matches exactly its own sessions |
| Overlay.IsTaskSuccessful | janus/src/bin/janus_daemon.rs:927-957 | true exactly when one of five polls finds rows, all COMPLETED without a non-zero exit code, and no earlier one a FAILED row or a non-zero exit code |
| Overlay.RowExistsExactly | janus/src/absurd/mod.rs:501-624 | after any overlay writes a step has a row exactly when it had one or was started; no other write makes or removes one |
| Overlay.VerdictSurvives | janus/src/absurd/mod.rs:501-566 | a recorded verdict stays with its step until the next one, however often the step is started again |
| Overlay.ExitIsOfLastTry | janus/src/absurd/mod.rs:530-624 | a row's exit code is that of the try it was started for last: none until that one is finalized, then what it was finalized with |
| Overlay.StatusIsOfLastWrite | janus/src/absurd/mod.rs:501-624 | a row reads STARTING after its last start, else the status written last, whatever was ruled in between |
| Overlay.SessionIsOfLastStart | janus/src/absurd/mod.rs:501-566 | a row names the session of its last start |
| Overlay.OtherRowsKept | janus/src/absurd/mod.rs:501-624 | writes of other steps leave a row alone |
| StepEngine.ResumeIsPrefixLength | janus/src/workflow/mod.rs:829-864 | whatever was retried, approved or interrupted, `resume_point` is the length of the completed prefix, and says to run when the last checkpoint is COMPLETED |
| StepEngine.ResumeFollows | janus/src/workflow/mod.rs:829-864 | the next action by what the last checkpoint was written with, as envelope or legacy object: run after COMPLETED, APPROVED or OVERRIDDEN, fail after REJECTED, else ask the human |
| StepEngine.ResumesAt | janus/src/workflow/mod.rs:829-864 | resuming goes to the step the last checkpoint names, in its envelope, its legacy object or its row, and behind it if that is COMPLETED |
| StepEngine.CheckpointAdvances | janus/src/workflow/mod.rs:656-672 | the next step's COMPLETED checkpoint extends the prefix by exactly that step |
| StepEngine.NoteKeepsPrefix | janus/src/absurd/adapter.rs:35-43 | a checkpoint the engine writes for an awaited step leaves the prefix alone |
| StepEngine.DoneReadsBack | janus/src/workflow/mod.rs:656-672 | the written envelope is never refused and reads back as that step, COMPLETED, with exit code 0 and its state data, or as a no-op for a step without a command |
| StepEngine.StepCheckpointed | janus/src/workflow/mod.rs:656-672 | writing a step's checkpoint keeps the whole invariant |
| StepEngine.LaunchKeepsGood | janus/src/workflow/mod.rs:476-535 | starting a session for the front step, within its limit, keeps the invariant and the launch budget |
| StepEngine.ClaimKeepsGood | janus/src/workflow/mod.rs:190-215 | so does a claim |
| StepRunner.Runner.CreateSession | janus/src/tmux/mod.rs:223-255 | one session is there when it was created, and also when it was not but its placeholder was left behind; it is the only one of the task on a host |
| StepRunner.Runner.OpenSession | janus/src/workflow/mod.rs:485-522 | row, running, kill, create: exactly one new session on success, in the sandbox, on the step's own host or else on the recipe's; on failure the row is FAILED with -1, and the session is there exactly if its placeholder was left |
| StepRunner.Runner.PollExit | janus/src/workflow/mod.rs:524-535 | after the exit of the pane no session of the step is left |
| StepRunner.Runner.Judge | janus/src/workflow/mod.rs:537-722 | the fate of a step by the exit of its pane and the status found in its row at that call: done only on exit 0 in a row neither suspended nor stopped, again only on a failure in such a row without quota and with a correction left; with the row's last status and exit code |
| StepRunner.Runner.Blame | janus/src/workflow/mod.rs:537-722 | a poll error, a suspended or stopped row, quota, another correction, or failure, each exactly in its case and in that order |
| StepRunner.Runner.CheckHead | janus/src/workflow/mod.rs:593-615 | the step ends stale exactly when a pinned hash is no longer HEAD |
| StepRunner.Runner.CheckWrites | janus/src/workflow/mod.rs:618-641 | the step ends suspended exactly when its declared writes were violated |
| StepRunner.Runner.Accept | janus/src/workflow/mod.rs:587-683 | exit 0 ends stale when HEAD moved off a pinned hash, suspended on a refused write, else checkpointed and COMPLETED |
| StepRunner.Runner.WriteCheckpoint | janus/src/workflow/mod.rs:656-672 | appends exactly this step's COMPLETED envelope, with exit code 0 and its no-op mark or state data, and only after a session of it exited with 0 |
| StepRunner.Runner.RunStep | janus/src/workflow/mod.rs:472-725 | the correction loop starts at most as many sessions as the step's limit, three when unset and at least one; none is left alive, unless a creation failed or the daemon died |
| StepRunner.Runner.RunSteps | janus/src/workflow/mod.rs:378-774 | from the resume point on, each step in order once; Done means every step is checkpointed; any other outcome leaves the front step's row |
| StepRunner.Runner.KillStaleSessions | janus/src/workflow/mod.rs:782-806 | sweeps this task's sessions, and no others, from every host the workflow can use |
| StepRunner.Runner.NextRun | janus/src/workflow/mod.rs:182-215 | no session of the task is left on a host when a run is claimed; a run is claimed whenever one waits, or the lease of a dead daemon's claim expires first and attempts remain |
| StepRunner.Runner.ClaimNext | janus/src/workflow/mod.rs:190-215 | a claim is of this task's waiting run; None for an unclaimed task exactly when it is final |
| StepRunner.Runner.Settle | janus/src/workflow/mod.rs:268-310 | a finished step loop completes the run, every other ending fails it; the task is then completed exactly if it still held the claim, else retried while attempts remain, else failed |
| StepRunner.Runner.RunFresh | janus/src/workflow/mod.rs:252-345 | the same for the whole step loop under a claim: an Ok return after the last step leaves the task completed exactly if the claim was still held |
| StepRunner.Runner.AwaitVerdict | janus/src/workflow/mod.rs:879-906 | the answer by the fields of the task's first verdict event: approved on "APPROVED" or "OVERRIDDEN", refused on anything else and on a timeout without an event, and otherwise the run sleeps |
| StepRunner.Runner.HitlAwaitAndRerun | janus/src/workflow/mod.rs:912-980 | an approval enters the step loop exactly once more; a refusal or a timeout starts nothing, lets go of the run and returns; without an answer nothing starts and the loop goes round |
| StepRunner.Runner.RunClaimed | janus/src/workflow/mod.rs:217-345 | by the fields of the last checkpoint, as envelope or legacy object: COMPLETED, APPROVED or OVERRIDDEN starts the step loop, REJECTED starts nothing and gives the run up, anything else is decided by the human's answer; the invariant is kept |
| StepRunner.Runner.RunWorkflow | janus/src/workflow/mod.rs:182-350 | keeps the invariant and only moves forward; returns Ok only when nobody holds the task, no run of it sleeps on a verdict and no session of it is left on a host; without suspensions nothing is resumed, and a calm run spends one attempt per turn and a bounded number of calls, ending with every step checkpointed or the task final |
| StepRunner.Runner.Lifetimes | janus/src/workflow/mod.rs:182-350 | any number of restarts keep the invariant and only move forward |
| StepTheorems.FreshGood | janus/src/workflow/mod.rs:131-160 | dispatching a workflow with distinct step names establishes the invariant |
| StepTheorems.AllLifetimes | janus/src/workflow/mod.rs:131-350 | from dispatch through any script of returns, errors and crashes the invariant holds; at most one session of the task is alive if no sandbox step runs corrections or there is one attempt; without suspensions all sessions ever started are at most the sum of the limits plus the largest limit per attempt |
| StepTheorems.CompletedPrefix | janus/src/workflow/mod.rs:829-864 | the COMPLETED checkpoints are a prefix of the step names, in order, each once, and `resume_point` is its length |
| StepTheorems.CompletedTaskIsComplete | janus/src/workflow/mod.rs:268-275 | a completed task has every step checkpointed |
| StepTheorems.CheckpointedStepPassed | janus/src/workflow/mod.rs:587-672 | a checkpointed step with a command had a session that exited with 0 |
| StepTheorems.LaunchedInOrder | janus/src/workflow/mod.rs:396-535 | a step is launched only after all earlier ones are checkpointed, and launches never go back |
| StepTheorems.NeverRelaunched | janus/src/workflow/mod.rs:396-535 | no later claim or restart launches a step that was checkpointed |
| StepTheorems.LaunchesBounded | janus/src/workflow/mod.rs:472-725 | all sessions ever started, with suspensions: the sum of the steps' limits plus the largest limit per attempt and per resumption by a human or a wake-up |
| StepTheorems.RunCalm | janus/src/workflow/mod.rs:182-350 | with no suspension and every session exiting, `run_workflow` returns within a bounded number of calls, with every step checkpointed or the task final, without a resumption, within the launch bound |
| StepTheorems.SweepSpares | janus/src/workflow/mod.rs:782-806 | a session survives the sweep exactly when it is another task's or in the sandbox |
| StepTheorems.OneSessionAlive | janus/src/workflow/mod.rs:456-535 | if no sandbox step runs corrections, or the task has one attempt, no two sessions of it are ever alive, on hosts and in the sandbox together |
| StepTheorems.OrphanedCorrection | janus/src/workflow/mod.rs:456-535 | otherwise: a run in which the daemon dies during a sandbox correction, the claim's lease expires, and the restart leaves two sessions of that step alive |
| StepTheorems.CompletedRowIsCheckpointed | janus/src/workflow/mod.rs:656-683 | an overlay row that reads COMPLETED has its checkpoint |
| StepTheorems.BarrierIsSound | janus/src/bin/janus_daemon.rs:927-957 | after an Ok return without a crash, a task that looks successful has every step checkpointed |
| StepTheorems.LooksDoneExactlyInGap | janus/src/bin/janus_daemon.rs:927-957 | the rows of an unfinished task look done exactly when the front step has no row yet and every row that exists is done |
| StepTheorems.DriveNode | janus/src/bin/janus_daemon.rs:1004-1075 | dispatch, `run_workflow` and the success test in one process: if the test succeeds, the run returned Ok and every step is checkpointed; it does succeed when the run returned Ok, one of five queries is answered and every row is done |
| StepTheorems.LateCompletion | janus/src/workflow/mod.rs:268-275 | a lease lost between the last checkpoint and `complete_run`: completing changes nothing, and the task is retried exactly while attempts remain, else failed |
| Gateway.ApplyInv | janus/src/gateway/mod.rs:234-409 | every atomic step of callbacks, awaiters and clock keeps the invariant |
| Gateway.ReachableInv | janus/src/gateway/mod.rs:234-409 | so it holds in every interleaving |
| Gateway.AtMostOneResolved | janus/src/gateway/mod.rs:245-274 | at most one callback per correlation id is answered Resolved |
| Gateway.SinkTellsTheVerdict | janus/src/gateway/mod.rs:390-397 | the sink is told at most once per id, with the Resolved callback's verdict |
| Gateway.FirstRequestDecides | janus/src/gateway/mod.rs:234-259 | in every run the first request of a callback decides: refused exactly when unauthenticated or malformed, else it asks for the verdict that request carried, for that id |
| Gateway.SinkTellsWhatWasAsked | janus/src/gateway/mod.rs:234-274 | in every run each sink entry is the verdict some authenticated request or TUI decision carried for that id, and that callback was answered Resolved |
| Gateway.RequestAnswered | janus/src/gateway/mod.rs:245-259 | a request is answered Gone without an entry or with an expired one, which it removes, Conflict on a resolved one, and otherwise takes the sender; no other entry changes |
| Gateway.MarkedIsAnswered | janus/src/gateway/mod.rs:260-274 | a callback with the sender is answered Resolved, or Gone with the entry removed when nobody can receive |
| Gateway.SenderIsThere | janus/src/gateway/mod.rs:256-268 | an unresolved entry holds its sender, so the branch without one is dead |
| Gateway.ResolvedReachesAwaiter | janus/src/gateway/mod.rs:279-299 | once the receiver is taken, Resolved means that awaiter receives that verdict and never times out |
| Gateway.TakenOnce | janus/src/gateway/mod.rs:284-293 | an awaiter gets the receiver exactly when the entry is there and nobody took it before; a second one and one without an entry are told which |
| Gateway.WaitEndsAs | janus/src/gateway/mod.rs:294-299 | a wait ends with the value that was sent, else when the sender is gone, else at the deadline |
| Gateway.TimesOutInTime | janus/src/gateway/mod.rs:284-299 | in every run whoever took the receiver times out only after its whole timeout, and a poll after that ends the wait |
| Gateway.ExpiresInTime | janus/src/gateway/mod.rs:349-370 | in every run a card expires exactly its timeout after its dispatch, and its task awaits it that long |
| Gateway.DeliveredExactly | janus/src/gateway/mod.rs:260-274 | a marked callback is answered Resolved exactly when the awaiter still waits, or the entry still holds the receiver |
| Gateway.LostExactlyByExpiry | janus/src/gateway/mod.rs:248-255 | a step loses a verdict exactly when a callback finds the entry expired with verdict and receiver inside |
| Gateway.LostMeansExpired | janus/src/gateway/mod.rs:248-255 | a verdict is lost only after `expires_at` |
| Gateway.VerdictCanBeLost | janus/src/gateway/mod.rs:248-299 | a run in which a Resolved verdict is lost |
| Gateway.GaveUpIsFinal | janus/src/gateway/mod.rs:260-274 | after the awaiter gave up no callback is ever answered Resolved, not even one that holds the sender |
| Gateway.ClosedStaysAbsent | janus/src/gateway/mod.rs:398-405 | an entry the verdict task removed never comes back |
| Gateway.ReceivedIsReported | janus/src/gateway/mod.rs:382-397 | a verdict the task received is always reported |
| Gateway.RefusedTouchesNothing | janus/src/gateway/mod.rs:234-244 | an unauthenticated or malformed callback changes nothing but its own answer |
| Gateway.HitlGateway.DispatchCard | janus/src/gateway/mod.rs:349-370 | a fresh id gets an unresolved entry with both channel ends, expiring after the timeout |
| Gateway.HitlGateway.ResolveCallback | janus/src/gateway/mod.rs:234-259 | authentication before parsing before the map |
| Gateway.HitlGateway.ResolveTui | janus/src/gateway/mod.rs:314-332 | the same critical section without authentication |
| Gateway.HitlGateway.MarkEntry | janus/src/gateway/mod.rs:245-259 | the critical section of both callbacks: gone, expired and removed, conflict, or marked with the sender taken |
| Gateway.HitlGateway.SendVerdict | janus/src/gateway/mod.rs:260-268 | the send succeeds exactly when the receiver is not gone |
| Gateway.HitlGateway.DiscardEntry | janus/src/gateway/mod.rs:269-272 | an undeliverable verdict removes the entry and is answered Gone |
| Gateway.HitlGateway.TakeReceiver | janus/src/gateway/mod.rs:284-293 | the receiver is taken once; later awaiters fail |
| Gateway.HitlGateway.ReceiveOrTimeOut | janus/src/gateway/mod.rs:294-298 | a value wins, then a dropped sender, then the deadline |
| Gateway.HitlGateway.FinishTask | janus/src/gateway/mod.rs:388-406 | a verdict is reported, an error removes the entry |
| Quote.ShellQuote | janus/src/workflow/mod.rs:1094-1106 | the loop builds the quotation that the following lemmas read back |
| Quote.QuotedReads | janus/src/workflow/mod.rs:1094-1106 | a quoted NUL-free text adds exactly itself to the word being read, whatever follows |
| Quote.QuotedListRoundTrip | janus/src/workflow/mod.rs:1094-1106 | space-joined quotations of any NUL-free list split back into the list |
| Quote.QuotedInjective | janus/src/workflow/mod.rs:1094-1106 | no two texts share a quotation |
| Quote.StepCommandReads | janus/src/workflow/mod.rs:1027-1068 | a local command line splits into exactly the intended words, the step's command being the one argument after `-c` |
| Quote.RemoteCommandExactly | janus/src/workflow/mod.rs:1045-1068 | a remote command line splits into the intended words, with the socket of the tunnel named after the host, exactly when no character of the unquoted host name needs quoting |
| Utf8.RoundTrip | janus/src/workflow/filter.rs:68-70 | decoding an encoded text is the identity |
| Ansi.StripBytes | janus/src/workflow/filter.rs:25-67 | the index loop computes the grammar of escape sequences on bytes |
| Ansi.StripDecodes | janus/src/workflow/filter.rs:25-71 | stripping bytes and decoding them is the grammar on characters, a cut character leaving U+FFFD |
| Ansi.ControlSequenceGoes | janus/src/workflow/filter.rs:32-41 | ESC [, any parameters and one final byte in @ to ~ vanish, whatever follows |
| Ansi.CommandGoes | janus/src/workflow/filter.rs:42-57 | ESC ], any text and its terminator vanish, whatever follows |
| Ansi.ShortEscapeGoes | janus/src/workflow/filter.rs:58-61 | any other ESC takes one character with it |
| Ansi.TrimIsExact | janus/src/workflow/filter.rs:68-71 | trimming takes all white space off both ends and nothing else |
| Ansi.PlainTextKept | janus/src/workflow/filter.rs:25-71 | text without ESC is kept apart from the trim |
| Ansi.EscapeLeftOnlyAtEnd | janus/src/workflow/filter.rs:25-71 | an ESC is left only at the end, and only when the input ends with one |
| Ansi.EscapeLeftExactly | janus/src/workflow/filter.rs:25-71 | an ESC is left exactly when a left-to-right reader stands right behind an opening one |
| Ansi.DanglingEscape | janus/src/workflow/filter.rs:30-66 | an ESC that ends an otherwise plain text is left |
| Ansi.StripIsIdempotent | janus/src/workflow/filter.rs:25-71 | stripping twice is stripping once |
| LogLines.CollapseLines | janus/src/workflow/filter.rs:83-117 | the loop computes the summaries of the maximal progress runs |
| LogLines.EveryLineCounted | janus/src/workflow/filter.rs:83-117 | every input line is in exactly one group, in order |
| LogLines.CollapsedHasNoTwoAdjacent | janus/src/workflow/filter.rs:83-117 | no two adjacent progress lines are left |
| LogLines.OtherLinesKept | janus/src/workflow/filter.rs:83-117 | all other lines are kept, in order |
| LogLines.SummaryIsProgress | janus/src/workflow/filter.rs:107-112 | a summary is itself a progress line, with the first percentage of its run |
| LogLines.SummaryTells | janus/src/workflow/filter.rs:107-112 | a summary prints the first and last percentage of its run and its number of lines, each as digits of that value |
| LogLines.BarePercentage | janus/src/workflow/filter.rs:121-131 | a number up to 100 and a percent sign, with any white space around them, is progress of that percentage |
| LogLines.CollapseIsIdempotent | janus/src/workflow/filter.rs:83-117 | collapsing the lines twice is collapsing them once |
| LogLines.LinesReadBack | janus/src/workflow/filter.rs:83-117 | joined lines read back as they were, unless the last one is empty |
| LogLines.DeduplicateAll | janus/src/workflow/filter.rs:146-163 | the loop renders the runs of equal lines |
| LogLines.RenderTells | janus/src/workflow/filter.rs:146-163 | a line that stands for several says how many, as digits of that number |
| LogLines.RunsExpand | janus/src/workflow/filter.rs:146-163 | the runs are maximal and expand to the input |
| LogLines.RunsAreUnique | janus/src/workflow/filter.rs:146-163 | no other maximal runs do |
| LogLines.KeptExactly | janus/src/workflow/filter.rs:146-163 | the stage changes a log exactly when two neighbouring lines are equal |
| LogFilter.CleanPtyOutput | janus/src/workflow/filter.rs:12-17 | the three stages in their order |
| LogFilter.ProgressBecomesOneLine | janus/src/workflow/filter.rs:12-17 | output that is progress lines once its escapes are gone is stored as the one summary of all of them, equal lines included, so the stages run in that order |
| LogFilter.CleanedHasNoEscape | janus/src/workflow/filter.rs:12-17 | unless the raw output ends right behind an opening ESC, the cleaned log has none |
| Truncate.Truncate16k | janus/src/protocol.rs:205-218 | the loop backs up to the last character boundary that leaves room for the tag |
| Truncate.LongestPrefix | janus/src/protocol.rs:205-218 | a fitting text is kept, any other becomes its longest whole-character prefix plus the tag, found within three bytes |
| Truncate.FitsAndIdempotent | janus/src/protocol.rs:205-218 | the result is valid UTF-8 of at most 16384 bytes and is not truncated again |
| Utf8.BoundaryIsOffset | janus/src/protocol.rs:210-213 | a byte position is a boundary exactly when whole characters lie before it |
| Fallback.FallbackDb.Record | janus/src/absurd/fallback.rs:77-98 | the event is inserted with its cache cut to the budget, and the newest 1000 rows stay |
| Fallback.RingHoldsLast | janus/src/absurd/fallback.rs:77-128 | after any records and drains a drain returns exactly the last 1000 events since the previous one, oldest first; the count is their number |
| Fallback.Replayer.ReplayFallback | janus/src/absurd/mod.rs:419-468 | the ring is emptied whatever happens; events are merged in order up to the first pool error; the count is that of the merged ones |
| Fallback.LastWriterWins | janus/src/absurd/mod.rs:427-464 | the last merged event of a row decides its status and nothing else of it |
| Fallback.UntouchedRow | janus/src/absurd/mod.rs:427-464 | rows no event is merged into stay as they are |
| Fallback.LastStatusSurvives | janus/src/absurd/mod.rs:419-468 | the last status recorded for a step is what its row reads after the replay, if fewer than 1000 events followed it and the replay merged this one, whatever became of all the others |
| Fallback.StatusReadsBack | janus/src/absurd/mod.rs:427-464 | no two status texts become one in the row |
| Fallback.RingBytesBounded | janus/src/absurd/fallback.rs:22-24 | whatever caches are recorded, the cached output in the ring never exceeds 16,384,000 bytes |
| Lease.PollExitWithLease | janus/src/workflow/mod.rs:990-1015 | the first turn in which the pane is not alive, or a renewal fails, decides: an exit is its code, anything else a failure; with prompt calls the lease is unexpired at every poll, and at every renewal if one call more fits, for any pane lifetime |
| Lease.PromptEnough | janus/src/workflow/mod.rs:50-55 | prompt means below 400 ms per turn, and at most 392 ms for the renewals |

## Left out

- Postgres, SQLite, tmux, git, ssh tunnels, sockets and process spawning: only the state they hold for the engine, overlay, ring and sessions is modelled; a call that fails is an entry of the script.
- The production engine behind `absurd.sql`: its semantics here are those of `FakeEngine`, plus the sleeping and waking its interface documents.
- DagDriver.HandleDispatchDag: the order of the ids inside the levels after level 0 is not stated, because nothing depends on it.
- Fresh run ids are numbers; uuids in other than the canonical hyphenated lower-case spelling do not read as task ids.
- The fallback path of overlay writes inside the step engine: rows are written directly there, and the ring is modelled on its own.
- Sandbox worktrees, harvesting, raw log files, the environment snapshot and the text of the correction context.
- StepRunner.Runner.HitlAwaitAndRerun: that a suspended step is ever approved, or that repeated suspension ends, is not claimed; only safety is.
- StepRunner.Runner.RunWorkflow: a calm run is bounded when it starts with nobody holding the claim; one that starts while a dead daemon's lease still runs polls until that lease expires.
- StepRunner.Runner.KillStaleSessions: a kill that fails is ignored by the source and assumed to succeed here.
- Envelope.Deserialize: an envelope spelled as a JSON array, which serde also reads, decodes as a legacy checkpoint here; the code never writes one.
- Gateway: HTTP parsing, the HMAC computation, the cards, splitting an override command into words, and the task lookup of the TUI.
- LogLines.CollapseProgressBars: idempotence is stated on lines; as text, joining drops a trailing newline, and a carriage return at the end of a line is read as part of the line break.
- Quote.Fields: the shell of the POSIX standard; extensions such as brace expansion or a tilde behind a colon are not modelled.
- Fallback.Replayer.ReplayFallback: two blueprint names that are sanitized to one database name are told apart here.
- Lease.PollExitWithLease: nothing is said across several short steps, none of which renews the lease.
- The remaining `validate_name` checks, queue names, `handle_stop`, `handle_continue`, cold start of a DAG, the observer, LLM calls and webhooks: they would add only easy members or belong to libraries.
