# The execution kernel, verified

A Dafny 4.11 model of the orchestrator's execution kernel: the graph scheduler,
the level-by-level concurrent executor with its repair, retry and budget loops,
the gapless event log, the replay engine that reads the log back, and a few
self-contained algorithms around them. `dafny verify dfyconfig.toml` checks
everything.

## How the model is built

- **Graphs** (`Graph`, `Layering`, `Reach`): nodes of the ten types, edges,
  nested graphs. `levels` and `_has_upstream_approval` are methods over a
  mutable `remaining` map and a shared `seen` set, proved against
  specifications about walks and layerings.
- **Coroutines as task trees** (`Tasks`, `Kernel`). A `Proc` is a suspended
  coroutine: its next await is a store transaction (`Emit`), a call that leaves
  the executor (`Ask`, followed by the row its answer leaves, `Note`), or the
  wait for children (`Fork`). `Kernel.RunWhole` is the whole of `Executor.run`
  with one constructor per await. A schedule is a sequence of steps, each
  naming which suspended task moves; a timeout is a step (`Cut`) that replaces
  a child by its `except TimeoutError` branch. `Exec(p, sched)` gives what is
  left of the tree and the tape of everything logged and heard, so a statement
  over all schedules is a statement over all interleavings. `Completes` is a
  finished schedule in which no timeout fired; `View` is one node's part of a
  tape.
- **What the log tells** (`NodeRuns`, `Contexts`, `Handoffs`, `Tales`): every
  run is taken apart into runs of single coroutines, each started on what the
  levels before it left, and then every coroutine into laws about rows and
  answers alone: the context a model is put, what is kept from it, when a
  correction is asked for and when a handoff ends, what a gate, a pass-through
  node or a nested graph leaves. `Tales.RunAccounted` says the whole of it for a
  finished run in those terms.
- **The same code, imperative** (`Engine`, `Journals`, `Executors`): the
  `Executor` object, `repair_loop`, `_with_retries` and `produce` as methods
  that update `results`, `outputs`, `failed`, `spent` and the event store. Each
  is proved to take its task tree from where it was to where it is (`Went`),
  with every answer coming from the completer in force and no other run's rows
  touched. Hence each theorem about task trees holds of what these methods log.
- **Store and replay** (`Store`, `Replay`, `Unclarified`, `ReplayExact`,
  `ReplayRuns`, `ReplayLimits`): one table shared by all runs, appends that bump `last_seq`,
  and `LoggedCompleter`'s per-key queues.
- **Around the kernel**: `Sse` and `SseCuts` (frontend stream parser), `LogTail`,
  `GraphCanvas`, `MemoryStores`, `FileCaches`, `Compiler` with
  `CompiledGraphs`, `Fitness`.

The language model, the injection screen, JSON-Schema validation, conditions
and the artifact store's key guard are arbitrary functions (`World`, `Oracle`).
Validation has three verdicts: accept, reject and crash. Whether a gate is
approved is an answer the environment gives; the executor's set membership test
is one such environment (`Journals.Gated`). Each store transaction commits
whole. A negative `max_retries` makes `range` empty and the code raises; the
model does so too.

## What the proofs found

- **Compensators.** The validator walks through compensators, the scheduler
  ignores the edges that leave them. A graph gate -> compensator -> agent is
  accepted and its agent can be called with nothing granted
  (`Shelters.BypassIsAccepted`, `Shelters.BypassIsUnsafe`). Safety holds
  of every accepted graph in which no edge leaves a compensator
  (`Approvals.ApprovalSafety`), and, more sharply, exactly of those in which
  every declaring node that could ever be called is scheduled below an approval
  (`Shelters.SafeIffSheltered`).
- **Replay drops clarifications.** `replay_run` gives its executor none, so
  where the graph has a clarify node a condition on an answer can go the other
  way. And an approved gate whose id is the empty string is not read back. For
  version-1 runs without completer exceptions and timeouts these are the only
  gaps: `ReplayExact.ReplayIsExact`, `ReplayLimits.ExactIff`.
- **SSE.** Where the network cuts the text can show in the frames dispatched.
  It cannot for exactly the texts that consist of whole frames without CR CR LF
  and a remainder without separator that is blank or holds no CR CR CR LF
  (`SseCuts.CutsDispatchAlike`). In what the reader keeps besides frames, some
  cut shows for every text with CR CR LF and for no other
  (`Sse.CutsDoNotMatter`).
- **Memory.** Eviction never changes which keys a reader sees, but can change
  which of two live copies of one key it gets (`MemoryStores.EvictionMovesKeys`).
  After any history of calls it does so exactly when two unexpired copies differ
  and one of them was stored again, after its earlier slot had expired and been
  swept, and thereby changed places with the other
  (`MemoryStores.EvictionUnnoticed`, `MemoryStores.OnlyReentry`).
- **Compiler.** Ids are unique exactly when branch names avoid the reserved
  ones (`Compiler.UniqueIffUnreserved`); nothing in `build_graph` enforces that.
- The comment at backend/engine/spec.py:29-35 says subgraph dispatch is gated
  on version 2; `_run_node` does not look at the version, and neither does the
  model. `append_many` of an empty list succeeds for an unknown run. A node
  whose budget is not positive raises BudgetExceeded without a BUDGET_EXCEEDED
  row. A TimeoutError raised by the completer on the last attempt is handled as
  the node's own timeout.

## Model

| member | source | states |
|---|---|---|
| `Layering.Levels` | backend/engine/spec.py:130-154 | the Kahn loop over the decremented `remaining` dict returns the specified levels, and raises exactly where they do not exist; duplicate edges and self-loops included |
| `Layering.LevelsExist` | backend/engine/spec.py:145-147 | levels() succeeds if and only if some assignment of levels respects every counted edge |
| `Layering.LevelsOptimal` | backend/engine/spec.py:130-154 | a node on level k ends a walk of k edges and none longer, and every valid layering places it at k or later |
| `Layering.LevelsFewest` | backend/engine/spec.py:130-154 | no valid layering reaches a lower top level |
| `Layering.RaisesExactly` | backend/engine/spec.py:137-147 | levels() raises if and only if some counted edge comes from an id that is no node or the scheduled nodes contain a cycle |
| `Layering.CyclesRaise` | backend/engine/spec.py:146-147 | any cycle among scheduled nodes, self-loops included, makes levels() raise |
| `Layering.DanglingRaises` | backend/engine/spec.py:137-147 | a counted edge from an id that is no node makes levels() raise |
| `Reach.HasUpstreamApproval` | backend/engine/spec.py:176-186 | the recursion with its shared mutable `seen` set (an empty set is replaced by a fresh one) terminates on every graph and computes the specified search and final set |
| `Reach.UpstreamApprovalExact` | backend/engine/spec.py:176-186 | on any graph: true only if an approval node reaches the node, false exactly when everything that reaches it exists and is no approval, KeyError only if something that reaches it is missing |
| `Reach.UpstreamApprovalDecides` | backend/engine/spec.py:176-186 | with no dangling parent: true exactly when some approval node reaches the node by one or more edges |
| `Approvals.ValidCovers` | backend/engine/spec.py:156-174 | if validation reports nothing, every declaring node has an approval above it in its own graph, and every nested graph validates |
| `Approvals.ValidIffCovered` | backend/engine/spec.py:156-186 | where no edge comes from a missing node: validation reports nothing if and only if every declaring node at every depth has an approval above it |
| `Approvals.FirmIsSheltered` | backend/engine/spec.py:156-186 | where no edge leaves a compensator, at any depth, every declaring agent node of a validated graph has an approval that the scheduler places above it |
| `Confluence.Confluent` | backend/engine/executor.py:147-189 | two complete runs of any well-scoped task tree, from pasts no node can tell apart and with answers that depend on the asking node's own history, end alike and show every node the same history |
| `Confluence.Progress` | backend/engine/executor.py:147-189 | a well-scoped task that is not done always has a step the world allows |
| `Schedules.ScheduleIndependent` | backend/engine/executor.py:97-189 | for any two complete runs with answers that depend on the asking node's own history: the same results, outputs, failed list, compensated list and per-node rows, however the node coroutines interleave |
| `Schedules.NestedScheduleIndependent` | backend/engine/executor.py:238-281 | the same for a nested graph at any depth and from any seeded context |
| `Schedules.NeverStuck` | backend/engine/executor.py:97-189 | however far a run has come, unless it is over some coroutine can move |
| `CausalLog.LogIsCausal` | backend/engine/executor.py:157-186 | in every run, finished or not, with timeouts or not, nested graphs included: for an edge p to c that leaves no compensator, no row or call of p follows one of c |
| `NodeRuns.OwnHistory` | backend/engine/executor.py:147-189 | what any run shows of one agent node, at any depth, is what some run of that node's own coroutine shows |
| `NodeRuns.LevelsRun` | backend/engine/executor.py:157-186 | any run of the level loop, finished or not, with timeouts or not: a level is reached with every earlier node explained by a finished run of its own coroutine on what the levels before left, or skipped in silence because a parent did not pass or its condition did not hold; the level's ready nodes have begun, all later ones are silent, and `failed` lists the failed ones level by level |
| `NodeRuns.RunStory` | backend/engine/executor.py:238-281 | the same for whichever node of whichever nested graph has logged anything, with the context its graph was seeded from |
| `Tales.RunAccounted` | backend/engine/executor.py:97-189 | a run that ends logs RUN_START, the graph, and the RUN_END that reports its failed and compensated lists; every scheduled node did what its kind does on the outputs of the levels before it or was skipped in silence; last come the COMPENSATE rows |
| `Tales.GraphAccounted` | backend/engine/executor.py:147-189 | the same for every nested graph, from any seed |
| `Tales.ExecutorAccounted` | backend/engine/executor.py:97-145 | the same of what the imperative `run` writes into an empty log |
| `Tales.NodeDoes` | backend/engine/executor.py:227-318 | a gate asks and passes exactly on yes; a pass-through node passes one entry for each parent, and the answers at a clarify node; a nested graph too deep, refused or unlayerable fails in silence, and otherwise passes exactly if nothing in it failed, with the outputs of its sinks; an agent node ends as its handoff does |
| `Tales.ContextsTold` | backend/engine/executor.py:472-510 | whenever a model is called, in whatever nested graph: its context holds for every scheduled parent the output it passed with, for an agent parent the payload of a HANDOFF_VALIDATED row already logged, for a gate `approved` after its grant; and otherwise only `__parent__` from around a nested graph and, in version 2, live memory under it |
| `Contexts.UpstreamIs` | backend/engine/executor.py:472-480 | the context has each key once: exactly the parents with an output, with that output, and `__parent__` if the graph has one |
| `Contexts.PutAllIs` | backend/engine/executor.py:506-510 | of live memory and parents' outputs the latter win |
| `Contexts.ChildSeedIs` | backend/engine/executor.py:266-268 | a nested graph starts from nothing, or from `__parent__` holding exactly what its node is given |
| `Contexts.SchemaIs` | backend/engine/executor.py:394-394 | the schema is that of the first outgoing edge that has one, else the agent's, else any object |
| `Tales.FlaggedNeverAsked` | backend/engine/executor.py:335-349 | in every run, no call's context holds a value the screen flags |
| `Tales.QuarantineHolds` | backend/permissions/injection.py:66-104 | in every run, a node with an INJECTION_BLOCKED row calls no model, before or after |
| `Tales.QuarantinedFails` | backend/engine/executor.py:337-349 | and in a finished graph it failed as blocked |
| `Tales.RowsRight` | backend/engine/executor.py:320-429 | in every run, each row and call of an agent node says what happened before it: numbers of rejections, of calls since the last RETRY, of retries, the verdict on the last reply, the tokens spent |
| `Tales.RepairsExhausted` | backend/handoff/repair.py:60-122 | a handoff is unrepairable only after max_repair_attempts + 1 rejections, and as many calls, since the last RETRY or the start; the row says that number |
| `Handoffs.OwnTale` | backend/engine/executor.py:320-452 | every run of an agent node's coroutine keeps this at every moment, and ends only quarantined, timed out, over budget or with none left, on an accepted reply, on the last rejection it may have, or on an exception with no retry left; otherwise a further call follows |
| `Queries.QueriesProper` | backend/engine/executor.py:361-370 | every completer call of every run is allowed between 1 and 1024 tokens; version-1 graphs never read shared memory |
| `Approvals.GatesFirst` | backend/engine/executor.py:193-295 | whenever a model is called, every approval the scheduler places above the caller, in its own graph and above each nested graph around it, has already logged APPROVAL_GRANTED; callers are agent nodes with an agent, a budget and an attempt, and nothing scheduled above them is a node that can never pass |
| `Approvals.ApprovalSafety` | backend/engine/executor.py:97-111 | if the run starts and no edge leaves a compensator at any depth, a declaring node's model is called only after an approval that reaches it in the same graph logged its grant |
| `Approvals.ShelteredIsSafe` | backend/engine/executor.py:193-295 | the same for every graph, whatever leaves its compensators, whose declaring agent nodes have a scheduled approval above them |
| `Approvals.ClosedGates` | backend/engine/executor.py:283-290 | in a run in which no gate says yes, no node that the scheduler places below a gate of the top-level graph is ever a caller |
| `Shelters.SafeIffSheltered` | backend/engine/spec.py:130-186 | for every graph with no nested graph above a declaring node: the side-effect rule holds of its nodes in all worlds and runs if and only if it does not start or every declaring node that could ever be called is scheduled below an approval |
| `Shelters.UnshelteredIsCalled` | backend/engine/executor.py:147-202 | in every graph that starts, whatever else it nests, an agent node that can be called, all of whose scheduled ancestors can pass, is called in some run in which nothing was granted; the run is constructed |
| `Shelters.GraphEnds` | backend/engine/executor.py:147-189 | every graph, nested ones included, has a run to its end, or to its exception, in which no gate opens |
| `Shelters.BypassIsAccepted` | backend/engine/spec.py:136-141 | gate -> compensator -> agent passes validation although the scheduler puts no approval above the agent |
| `Shelters.BypassIsUnsafe` | backend/engine/spec.py:180-185 | in some run of that graph the agent's model is called with nothing granted |
| `Approvals.GraphsEndStructured` | backend/engine/executor.py:147-202 | a graph run to its end, nested or not: every scheduled node has one of the three results, `failed` lists exactly the failed ones once each, a child of a failed or skipped node is skipped, `compensated` is exact |
| `Approvals.RunsEndStructured` | backend/engine/executor.py:97-189 | moreover a gate passed only with its grant logged, gates are not skipped and pass-through nodes pass once all they wait for passed |
| `Approvals.FailureStructure` | backend/engine/executor.py:147-202 | a run that ends: every scheduled node succeeded, failed or was skipped; failed nodes are an antichain, listed once each; all below a failed or skipped node was skipped; the compensators of failed nodes, and no others, ran once each in node order |
| `Failures.BelowIsSkipped` | backend/engine/executor.py:193-202 | everything reachable below a failed or skipped node is skipped |
| `Failures.CompensatorsExact` | backend/engine/executor.py:456-468 | the compensated list holds exactly the compensators whose target is in the failed list, once each and in node order |
| `Accounting.LogBalances` | backend/handoff/repair.py:60-122 | over a whole complete log: completions = emissions + overruns, rejections = repairs + unrepairable failures, and without validator crashes emissions = validations + rejections |
| `Handoffs.NodeConversation` | backend/engine/executor.py:351-452 | in every run the calls of an agent node form one conversation: each starts below budget and asks for at most the rest, feedback is exactly the errors of the previous rejected reply and absent after an exception, none follows an accepted reply, at most (max_retries + 1) * (max_repair_attempts + 1) in all |
| `Handoffs.NoCallAfterOvershoot` | backend/engine/executor.py:353-391 | in every run, whenever an agent node makes a further call, the tokens of its calls so far are below its budget |
| `Handoffs.SpendingBound` | backend/engine/executor.py:361-391 | in every run, a node with prompts of at most i tokens and replies within their allowance spends at most its budget + i |
| `Schedules.WhatWasHeardIsLogged` | backend/engine/executor.py:283-295 | in every complete run each node's TOOL_RESULT and APPROVAL_GRANTED rows are, in order, exactly the answers it got |
| `Receipts.ReceiptsMatch` | backend/engine/executor.py:365-384 | the same of any well-scoped task tree that keeps its receipts |
| `Engine.Produce` | backend/engine/executor.py:353-392 | follows the tree to the logged text, to BudgetExceeded with or without its row, or to the exception; `spent` is charged exactly when a reply came |
| `Engine.Validate` | backend/handoff/repair.py:63-97 | logs emission and verdict and reports accept, reject or crash as the validator judged |
| `Engine.Round` | backend/handoff/repair.py:60-110 | one turn of the repair loop leads to the end of the handoff or to its next turn |
| `Engine.RepairLoop` | backend/handoff/repair.py:40-122 | from a fresh feedback and the tokens spent so far to the outcome or the exception, after at most max_repair_attempts repairs |
| `Engine.WithRetries` | backend/engine/executor.py:431-452 | the whole handoff: retries share one budget and start a fresh repair loop; BudgetExceeded is never retried |
| `Executors.Executor.Approve` | backend/engine/executor.py:283-295 | asks, and passes exactly after logging the grant |
| `Executors.Executor.PassThrough` | backend/engine/executor.py:297-318 | both rows in one transaction, output merged from all parents |
| `Executors.Executor.ScreenPayload` | backend/permissions/injection.py:66-100 | one INJECTION_BLOCKED row per flagged source, in context order; blocked iff there was one |
| `Executors.Executor.MergeMemory` | backend/engine/executor.py:489-510 | live memory below direct upstream output, after its MEMORY rows |
| `Executors.Executor.RunAgent` | backend/engine/executor.py:337-408 | quarantine, handoff and its exceptions, from the merged context on |
| `Executors.Executor.Finish` | backend/engine/executor.py:396-429 | each way a handoff can end leaves the rows and the result the tree prescribes |
| `Executors.Executor.AgentTask` | backend/engine/executor.py:320-429 | a whole agent node follows its tree from NODE_START to its result |
| `Executors.Executor.RunTask` | backend/engine/executor.py:227-236 | dispatch by node type; a compensator is skipped whatever its agent |
| `Executors.Executor.SubgraphTask` | backend/engine/executor.py:238-281 | a child executor on the same log, depth limit and validation first, sink outputs as its output |
| `Executors.Executor.Gather` | backend/engine/executor.py:166-170 | the coroutines of a level from the fork to its join, one after the other |
| `Executors.Executor.RunLevel` | backend/engine/executor.py:157-186 | one iteration of the level loop: `results`, `outputs` and `failed` move from one level's board to the next |
| `Executors.Executor.Undo` | backend/engine/executor.py:465-465 | nothing is logged or asked for a compensator itself; its result is skipped if it has an agent and passed otherwise |
| `Executors.Executor.Compensate` | backend/engine/executor.py:456-468 | COMPENSATE rows and results of exactly the compensators due, in node order |
| `Executors.Executor.RunGraph` | backend/engine/executor.py:147-189 | all levels, then compensation; an unlayerable graph raises |
| `Executors.Executor.Run` | backend/engine/executor.py:97-145 | refusal without a RUN_START, or the top-level graph between RUN_START and RUN_END, and the run's status accordingly; an exception from layering escapes after RUN_START |
| `Journals.Journal.AskFor` | backend/engine/executor.py:365-370 | every question is answered by the completer in force, gates by the approval set |
| `Journals.Journal.PutReceipt` | backend/engine/executor.py:374-384 | the answer's row is the next row of this run, billed at a live call's price or as served, and changes no other run |
| `Journals.Journal.PutMany` | backend/events/store.py:226-286 | a batch is one step: its rows are contiguous |
| `Store.EventStore.CreateRun` | backend/events/store.py:95-122 | an existing id is refused and changes nothing; a new run starts with an empty log and last_seq 0 |
| `Store.EventStore.Append` | backend/events/store.py:180-224 | keeps every run's rows numbered 1..last_seq without gap or duplicate, adds the row with the number it returns, changes no earlier row and no other run; unknown run: nothing changes |
| `Store.EventStore.AppendMany` | backend/events/store.py:226-286 | the batch takes consecutive numbers; an empty batch succeeds without looking for the run |
| `Store.EventStore.AppendAndSetStatus` | backend/events/store.py:288-340 | row and status change together or not at all |
| `Store.EventStore.SetRunStatus` | backend/events/store.py:165-178 | leaves the log, the numbering and every other run alone |
| `Store.EventStore.Read` | backend/events/store.py:342-365 | exactly the rest of the run's log after `from_seq`, in order |
| `Store.InsertKeeps` | backend/events/store.py:203-222 | reserving a range of last_seq and inserting under it keeps all runs' numbering gapless |
| `Store.AggregateCost` | backend/events/store.py:430-446 | token totals, rounded cost and row count over the log |
| `Replay.RecordedCompletions` | backend/replay/replay.py:79-95 | under each key, in log order, exactly the completions that were not themselves replayed |
| `Replay.LoggedCompleter.Call` | backend/replay/replay.py:56-76 | serves the oldest recording of the caller's own key, or raises and counts it missing |
| `Replay.ServedObeys` | backend/replay/replay.py:43-76 | serving calls in the order they arrive is serving each node from its own past: concurrent branches cannot steal |
| `ReplayExact.ReplayApprovals` | backend/replay/replay.py:132-135 | the nodes with a logged grant, the empty id excepted |
| `ReplayExact.FinalOutputs` | backend/replay/replay.py:98-104 | for each node its last validated payload |
| `ReplayExact.BuildDiff` | backend/replay/replay.py:149-169 | lists exactly the nodes whose serialised outputs differ, sorted and once each; identical iff none does and the nodes are the same |
| `ReplayExact.ReplayAgrees` | backend/replay/replay.py:107-146 | for a version-1 original with no completer exception and no timeout, every replay by an executor of the same inputs has the original's outcome and node histories, misses no recording and leaves none |
| `Unclarified.SameRuns` | backend/engine/executor.py:297-318 | a graph with no clarify node at any depth has the same complete runs, with the same logs, whatever the clarifications |
| `ReplayExact.ReplayRestores` | backend/replay/replay.py:132-140 | the replay's executor gets no clarifications, and still agrees with every original that either had none or has no clarify node, and either approved no empty id or has no node with one |
| `ReplayExact.ReplayIsExact` | backend/replay/replay.py:43-169 | and then with the same validated outputs and token totals, at zero cost, with a log that itself has nothing to replay, however either run interleaved |
| `ReplayLimits.ExactIff` | backend/replay/replay.py:132-140 | over all version-1 graphs, or those without clarify nodes, or without an empty id: every replay ends as its run did if and only if no clarifications were given, where the graphs may ask, and the empty id was not approved, where they may have it |
| `ReplayLimits.AnswersAreLost` | backend/replay/replay.py:137-140 | for any clarifications there is a run that succeeds and whose replay fails; both are constructed |
| `ReplayLimits.EmptyGateIsLost` | backend/replay/replay.py:132-135 | an approved gate with an empty id is refused in the replay |
| `ReplayRuns.ReplayRun` | backend/replay/replay.py:107-169 | on the imperative store and executor, for any original and any version: which calls raise and when; the original's log is untouched; the new log is that of a complete run of the graph without clarifications, served from the recording; the diff lists exactly the nodes whose serialised final outputs in the two logs differ, is identical iff there are none and the same nodes have outputs, and the totals are those of the two logs. For a complete, restorable version-1 original, moreover, the outcome is the original's, the diff is identical, tokens are equal and cost is zero, or it raises what the original raised |
| `ReplayRuns.Compare` | backend/replay/replay.py:149-169 | the diff and both totals are read from the two logs |
| `LogTail.Send` | backend/api/routes.py:366-371 | what has been sent is the log up to its first RUN_END, and it finishes exactly when there is one |
| `LogTail.Stream` | backend/api/routes.py:358-376 | however appends and polls interleave: each row once and in order, nothing lost; stops at the first RUN_END, at disconnection, or after 601 polls that found nothing new |
| `Sse.CutsDoNotMatter` | frontend/src/api.ts:349-369 | every way of cutting a text into chunks leaves the frames and the kept tail of one normalisation of the whole text, if and only if the text contains no CR CR LF |
| `SseCuts.CutsDispatchAlike` | frontend/src/api.ts:349-370 | all ways of cutting a text dispatch the same frames if and only if it is whole frames without CR CR LF followed by a remainder that holds no separator, however often normalised, and is blank or without CR CR CR LF |
| `SseCuts.Delivers` | frontend/src/api.ts:349-370 | for such a text every cutting dispatches those frames, and the remainder with every CR before a LF gone unless it is blank |
| `SseCuts.TwoCuts` | frontend/src/api.ts:349-370 | for every other text, sending it in one chunk and sending it character by character with enough empty chunks dispatch different frames; the second cutting is constructed |
| `SseCuts.PlainIsRobust` | frontend/src/api.ts:349-370 | texts without CR CR LF are among those cut without effect |
| `Sse.ReadsWhole` | frontend/src/api.ts:349-368 | chunked reading of such a text equals normalising and splitting it once, the unterminated tail included |
| `Sse.ReadFrames` | frontend/src/api.ts:349-368 | the loop over the carried buffer computes that reading |
| `Sse.StreamChat` | frontend/src/api.ts:349-370 | the frames dispatched are the complete ones and a non-blank final one, for every cutting |
| `GraphCanvas.LevelsAreKahn` | frontend/src/GraphCanvas.tsx:83-97 | the scheduler's levels satisfy the recurrence that `resolve` computes, one past the highest counted parent |
| `GraphCanvas.Canvas.Resolve` | frontend/src/GraphCanvas.tsx:88-96 | on a graph that layers, the memoised recursion with its shared `seen` set returns the node's scheduler level and never hits the cycle case |
| `GraphCanvas.Canvas.Highest` | frontend/src/GraphCanvas.tsx:92-93 | exceeds every counted parent's level by at least one, and the node's own level bounds it |
| `GraphCanvas.Canvas.ResolveAll` | frontend/src/GraphCanvas.tsx:97-97 | whatever the visiting order, every node gets a level and each step its scheduler level |
| `GraphCanvas.Canvas.Group` | frontend/src/GraphCanvas.tsx:103-107 | a row holds exactly the listed non-compensators of that level |
| `GraphCanvas.Canvas.Rows` | frontend/src/GraphCanvas.tsx:83-107 | row k of the canvas is level k of the scheduler |
| `MemoryStores.ScratchIsPrivate` | backend/memory/store.py:26-30 | no two agents share a scratch bucket, and none is the shared pool |
| `MemoryStores.MemoryStore.Sweep` | backend/memory/store.py:87-92 | drops exactly the expired entries, keeping the order and every entry a reader could still see |
| `MemoryStores.MemoryStore.Write` | backend/memory/store.py:38-54 | the own scratch entry always and the shared one if asked, in a dict that still mirrors one that never deletes |
| `MemoryStores.MemoryStore.ReadFor` | backend/memory/store.py:56-85 | against a table that never deletes: exactly the unexpired keys of the visible buckets, each with an unexpired copy's value, equal to that table's reading if and only if no eviction is noticed; evicted keys reported once each |
| `MemoryStores.EvictionUnnoticed` | backend/memory/store.py:38-92 | after any history of writes, reads and sweeps under a clock that does not go back, a reading equals that of a dict that never deletes if and only if the reader does not see a name whose two unexpired copies differ and stand in the other order there |
| `MemoryStores.OnlyReentry` | backend/memory/store.py:50-85 | two copies stand in the other order only if one of them entered the dict again after the other was first stored |
| `MemoryStores.ReentryAfterExpiry` | backend/memory/store.py:87-92 | a key is missing from the dict, and so enters again, only when its earlier slot has expired |
| `MemoryStores.EvictionMovesKeys` | backend/memory/store.py:50-85 | in every history where an agent stores a name, another shares it, the first copy expires and is stored again, with another value, the reading differs from that of a dict that never deletes |
| `FileCaches.FileCache.EvictExpired` | backend/chat/files.py:249-252 | leaves the longest unexpired suffix of what was held |
| `FileCaches.FileCache.StoreFile` | backend/chat/files.py:255-262 | afterwards the cache is the longest suffix of everything ever stored that is unexpired and at most 200 long |
| `FileCaches.FileCache.GetFile` | backend/chat/files.py:265-268 | a file is found exactly while it is unexpired and fewer than 200 later ones were stored |
| `FileCaches.Oldest` | backend/chat/files.py:258-258 | the first of the entries with the least expiry |
| `FileCaches.HeldLater` | backend/chat/files.py:249-252 | eviction at a later time keeps the suffix property for that time |
| `FileCaches.RoomForOne` | backend/chat/files.py:257-259 | dropping the oldest entry of a full cache leaves the suffix that fits one place less |
| `FileCaches.HeldMore` | backend/chat/files.py:261-261 | storing an entry extends the suffix by it |
| `Compiler.CleanBranches` | backend/council/compiler.py:171-182 | keeps the first usable occurrence of each branch id, in order |
| `Compiler.ChosenShape` | backend/council/compiler.py:171-193 | two to four distinct branches, whatever was proposed |
| `Compiler.BuildGraph` | backend/council/compiler.py:150-247 | the loops build the canonical graph over the chosen branches; an empty model list raises |
| `Compiler.UniqueIffUnreserved` | backend/council/compiler.py:171-247 | compiled ids are unique if and only if no branch is named like a fixed node or another branch's compensator |
| `CompiledGraphs.CompiledIsWellFormed` | backend/council/compiler.py:150-247 | unique ids, accepted by validation, six levels with exactly the branches on one of them, one compensator per branch and no other |
| `CompiledGraphs.InertUntilApproved` | backend/council/compiler.py:195-203 | in no run with `approve` ungranted is any model called |
| `CompiledGraphs.DeniedFailsOnlyApprove` | backend/council/compiler.py:195-245 | such a run fails at `approve` alone and compensates nothing |
| `Fitness.FitnessInRange` | backend/workflow_dna/service.py:120-131 | the recorded score lies in [0, 100] |
| `Fitness.FitnessFalls` | backend/workflow_dna/service.py:120-131 | more aborts or resumes, fewer starts, longer time or higher cost never raise it, although the cost range is re-chosen per call |
| `Fitness.FitnessParts` | backend/workflow_dna/service.py:120-131 | losing all of reliability, cost, speed, or quality with reliability costs 10, 20, 30 and 50 points of a flawless 100 |

## Left out

- `Shelters.SafeIffSheltered`: a nested graph above a declaring node is excluded, as whether it can pass depends on what the world answers inside it, and it speaks of the graph's own nodes; `Approvals.ShelteredIsSafe` gives safety at every depth and for every graph, without the converse.
- `Schedules.ScheduleIndependent`: runs in which a timeout fires are excluded, since when it fires is up to the clock.
- `Accounting.LogBalances`: complete runs without timeouts; a timeout can cut a handoff between two of its rows.
- `ReplayLimits.ExactIff`: quantifies over classes of graphs; whether one given graph with a clarify node ever loses an answer depends on its conditions.
- `ReplayExact.ReplayIsExact`: completer exceptions and timeouts in the original are excluded, as a raised call leaves no row; version 2 is excluded, as shared memory feeds the screen.
- `ReplayRuns.ReplayRun`: the comparison of graph hashes is a flag; rows that others append may be of any kind replay does not read, so not the APPROVAL_GRANTED rows of the approve route.
- `Tales.ContextsTold`: the order of the context's keys; and, if live memory repeats a key, which a dict cannot, nothing is said of the context.
- `Handoffs.OwnTale`: the text of the exception raised when max_retries is negative.
- `Executors.Executor.Gather`: runs the coroutines of a level one after the other on the mutable state; every other interleaving is covered on task trees by `Schedules.ScheduleIndependent`, not on the object.
- `MemoryStores.MemoryStore.ReadFor`: the order of the keys in the returned dict.
- `Sse.StreamChat`: JSON parsing inside `dispatch`, and the decoder's flush of a malformed tail; characters arrive decoded.
- `Compiler.BuildGraph`: roles, tools, contracts and model ranking; the ranked models and both schemas are parameters, and string clean-up is a function parameter.
- `GraphCanvas.Canvas.Resolve`: pixel positions, the place of compensators, and ids that collide with properties of JavaScript objects.
- `Fitness.FitnessInRange`: floating point; scores are reals, `log1p` any rising function and rounding any rising function that fixes 0 and 100.
- `Store.AggregateCost`: which function rounds to six decimals; it is a parameter.
- Store failures between UPDATE and INSERT, since each transaction is taken to commit whole.
- A bound on the length of a run: runs never get stuck, each node's calls are bounded, but no single measure over whole runs is given.
- Latencies, wall clock, parallel efficiency, artifact rows, and the text of prompts beyond the feedback's errors and schema.
- Condition syntax, regular expressions of the injection screen, JSON Schema semantics, hashing: arbitrary functions.
- Pause, resume and cancel, which only append rows the executor never reads.
- HTTP routes other than the log tail, provider adapters, web search, the council's network calls, planner heuristics, lineage, migrations and the user interface: I/O, libraries, or single-branch facts.
