// Event vocabulary (backend/events/types.py) and the values a run exchanges.
module Events {
  import opened Base
  import opened Graph

  /** JSON as the engine sees it: opaque text, or a dict it built itself. */
  datatype Value = Null | Bool(b: bool) | Json(text: string) | Dict(fields: map<Id, Value>)

  /** An insertion-ordered dict. */
  type Ctx = seq<(Id, Value)>

  datatype Completion = Completion(
    text: string, tokensIn: nat, tokensOut: nat, model: string, usedFallback: bool)

  /** What only the log keeps of a completion. */
  datatype Bill = Bill(cost: real, latency: nat, replayed: bool)

  const FREE := Bill(0.0, 0, false)

  datatype Error = Timeout | OtherError(message: string)

  /** The text REPAIR_INSTRUCTION is filled with. */
  datatype Feedback = Feedback(errors: seq<string>, schema: Schema)

  datatype Kind =
    | RunStart
    | RunEnd(ok: bool, failed: seq<Id>, compensated: seq<Id>)
    | GraphRejected(problems: seq<Id>)                        // BRANCH_FAILED of the whole run
    | NodeStart
    | NodeEnd(nodeOk: bool, attempts: nat)
    | BlockedEnd                                              // NODE_END of a quarantined node
    | ToolResult(agent: Id, c: Completion)
    | BudgetExceeded(spent: int, budget: int)
    | TimedOut                                                // BUDGET_EXCEEDED with reason timeout_s
    | HandoffEmitted(attempt: nat, raw: string)
    | HandoffValidated(attempt: nat, payload: Value)
    | HandoffRejected(attempt: nat, errors: seq<string>)
    | RepairAttempt(attempt: nat, of: nat, errors: seq<string>)
    | Unrepairable(calls: nat, errors: seq<string>)           // BRANCH_FAILED of one handoff
    | Retry(retry: int, retries: int)
    | Compensated(target: Id)
    | ApprovalRequested
    | ApprovalGranted
    | InjectionBlocked(source: Id)
    | MemoryRead(keys: seq<Id>)
    | MemoryEvicted(gone: seq<Id>)
    | MemoryWrite(shared: bool)
    | Other(name: string)                                     // a row the executor does not write, such as GRAPH_APPROVED

  /** One row's content; `who` is its node_id. */
  datatype Event = Event(kind: Kind, who: Option<Id>)

  /** What a node asks of the world outside the executor. */
  datatype Query =
    | Complete(node: Id, agent: Id, model: string, context: Ctx, feedback: Option<Feedback>, maxTokens: int)
    | Gate(node: Id)                                          // is this approval granted?
    | Recall(node: Id, agent: Id, shared: bool)               // live shared memory, version 2 only

  datatype Answer =
    | Reply(c: Completion)
    | Raised(e: Error)
    | Granted(yes: bool)
    | Memory(live: Ctx, gone: seq<Id>)

  predicate Fits(q: Query, a: Answer) {
    match q
    case Complete(_, _, _, _, _, _) => a.Reply? || a.Raised?
    case Gate(_) => a.Granted?
    case Recall(_, _, _) => a.Memory?
  }

  /** The row an answer leaves in the log, if it leaves one. */
  function Receipt(q: Query, a: Answer): Option<Event> {
    match (q, a)
    case (Complete(n, agent, _, _, _, _), Reply(c)) => Some(Event(ToolResult(agent, c), Some(n)))
    case (Gate(n), Granted(true)) => Some(Event(ApprovalGranted, Some(n)))
    case _ => None
  }

  predicate IsReceipt(e: Event) {
    e.kind.ToolResult? || e.kind.ApprovalGranted?
  }

  /** NodeResult, without its timings. */
  datatype NodeResult = Passed(output: Option<Value>) | Failed(error: string, blocked: bool) | Skipped

  /** What `_run_graph` leaves behind. */
  datatype GraphEnd = GraphEnd(
    results: map<Id, NodeResult>, outputs: map<Id, Value>, failed: seq<Id>, compensated: seq<Id>)

  /** What an awaited coroutine delivers. */
  datatype Outcome =
    | Settled(result: NodeResult)
    | Threw(error: Error)
    | Accepted(payload: Value, repairs: nat)                  // repair_loop returned ok
    | GaveUp(errors: seq<string>, calls: nat)                 // repair_loop returned not ok
    | OverBudget                                              // BudgetExceeded was raised
    | Ended(end: GraphEnd)
    | Rejected(problems: seq<Id>)                             // run() refused the graph
}
