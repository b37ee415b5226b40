// backend/engine/executor.py and backend/handoff/repair.py as task trees: one
// constructor per await, the same branches in the same order.
module Kernel {
  import opened Base
  import opened Graph
  import opened Layering
  import opened Events
  import opened Tasks

  const MAX_SUBGRAPH_DEPTH := 3
  const MAX_COMPLETION_TOKENS := 1024
  const CLIP := 4000
  const PARENT: Id := "__parent__"
  const DEFAULT_SCHEMA: Schema := "{\"type\": \"object\"}"

  /** validate(): a bare JSON scalar crashes it, whether or not it satisfies the schema. */
  datatype Judgement = Accept(payload: Value) | Reject(errors: seq<string>) | Crash(message: string)

  /** The deterministic collaborators the executor calls. */
  datatype World = World(
    flagged: Value -> bool,                          // injection screen
    judge: (string, Schema) -> Judgement,            // schema validation
    holds: (string, map<Id, Value>) -> bool,         // conditions
    leaks: Value -> bool,                            // key guard of the artifact store
    clarifications: Option<Value>,
    maxRepairs: nat)

  // ---------- contexts ----------

  /** dict[k] = v */
  function Put(c: Ctx, k: Id, v: Value): Ctx {
    if c == [] then [(k, v)]
    else if c[0].0 == k then [(k, v)] + c[1..]
    else [c[0]] + Put(c[1..], k, v)
  }

  function ToMap(c: Ctx): map<Id, Value> {
    if c == [] then map[] else map[c[0].0 := c[0].1] + ToMap(c[1..])
  }

  function PutAll(c: Ctx, more: Ctx): Ctx
    decreases |more|
  {
    if more == [] then c else PutAll(Put(c, more[0].0, more[0].1), more[1..])
  }

  function FromParents(ps: seq<Id>, outputs: map<Id, Value>, c: Ctx): Ctx {
    if ps == [] then c
    else FromParents(ps[1..], outputs, if ps[0] in outputs then Put(c, ps[0], outputs[ps[0]]) else c)
  }

  function UpstreamContext(g: GraphSpec, outputs: map<Id, Value>, id: Id): Ctx {
    var c := FromParents(Parents(g, id), outputs, []);
    if id != PARENT && PARENT in outputs && PARENT !in ToMap(c) then c + [(PARENT, outputs[PARENT])] else c
  }

  function OutgoingSchema(edges: seq<Edge>, id: Id): Schema {
    if edges == [] then ""
    else if edges[0].src == id && edges[0].schema != "" then edges[0].schema
    else OutgoingSchema(edges[1..], id)
  }

  function SchemaFor(g: GraphSpec, n: Node, agent: AgentSpec): Schema {
    var out := OutgoingSchema(g.edges, n.id);
    if out != "" then out
    else if agent.outputSchema != "" then agent.outputSchema
    else DEFAULT_SCHEMA
  }

  function ErrorText(e: Error): string {
    match e case Timeout => "timeout" case OtherError(m) => m
  }

  // ---------- one handoff: produce, repair_loop, _with_retries ----------

  datatype Job = Job(node: Id, agent: AgentSpec, context: Ctx, schema: Schema, retries: nat)

  /** The loop variables: retry attempt, repair attempt, tokens spent, feedback. */
  datatype Turn = Turn(retry: nat, repair: nat, spent: nat, feedback: Option<Feedback>)

  function Log(kind: Kind, id: Id): Event { Event(kind, Some(id)) }

  function Clip(text: string): string {
    if |text| <= CLIP then text else text[..CLIP]
  }

  function Min(a: int, b: int): int { if a <= b then a else b }

  function Request(j: Job, t: Turn): Query {
    Complete(j.node, j.agent.id, j.agent.model, j.context, t.feedback,
             Min(j.agent.budgetTokens - t.spent, MAX_COMPLETION_TOKENS))
  }

  predicate InLoops(w: World, j: Job, t: Turn) {
    t.retry <= j.retries && t.repair <= w.maxRepairs
  }

  function Produce(w: World, j: Job, t: Turn): Proc
    requires InLoops(w, j, t)
    decreases j.retries - t.retry, w.maxRepairs - t.repair, 3
  {
    if j.agent.budgetTokens - t.spent <= 0 then Done(OverBudget)
    else Ask(Request(j, t), a => Produced(w, j, t, a))
  }

  function Produced(w: World, j: Job, t: Turn, a: Answer): Proc
    requires InLoops(w, j, t)
    decreases j.retries - t.retry, w.maxRepairs - t.repair, 2
  {
    match a
    case Reply(c) =>
      var spent := t.spent + c.tokensIn + c.tokensOut;
      if spent > j.agent.budgetTokens then
        Emit([Log(BudgetExceeded(spent, j.agent.budgetTokens), j.node)], Done(OverBudget))
      else
        Emit([Log(HandoffEmitted(t.repair, Clip(c.text)), j.node)], Judged(w, j, t.(spent := spent), c.text))
    case Raised(e) => TryAgain(w, j, t, e)
    case _ => Done(Threw(OtherError("")))            // no such answer fits the request
  }

  function Judged(w: World, j: Job, t: Turn, text: string): Proc
    requires InLoops(w, j, t)
    decreases j.retries - t.retry, w.maxRepairs - t.repair, 1
  {
    match w.judge(text, j.schema)
    case Accept(v) =>
      Emit([Log(HandoffValidated(t.repair, v), j.node)], Done(Accepted(v, t.repair)))
    case Reject(errors) => Rejection(w, j, t, errors)
    case Crash(m) => TryAgain(w, j, t, OtherError(m))
  }

  /** The turn after a rejection: the validator's errors go back as they are. */
  function Corrected(j: Job, t: Turn, errors: seq<string>): Turn {
    t.(repair := t.repair + 1, feedback := Some(Feedback(errors, j.schema)))
  }

  function Rejection(w: World, j: Job, t: Turn, errors: seq<string>): Proc
    requires InLoops(w, j, t)
    decreases j.retries - t.retry, w.maxRepairs - t.repair, 0
  {
    Emit([Log(HandoffRejected(t.repair, errors), j.node)],
      if t.repair == w.maxRepairs then
        Emit([Log(Unrepairable(w.maxRepairs + 1, errors), j.node)], Done(GaveUp(errors, w.maxRepairs + 1)))
      else
        Emit([Log(RepairAttempt(t.repair + 1, w.maxRepairs, errors), j.node)],
             Produce(w, j, Corrected(j, t, errors))))
  }

  /** An exception other than BudgetExceeded: a fresh repair loop, or give up. */
  function TryAgain(w: World, j: Job, t: Turn, e: Error): Proc
    requires InLoops(w, j, t)
    decreases j.retries - t.retry, 0, 0
  {
    if t.retry == j.retries then Done(Threw(e))
    else
      Emit([Log(Retry(t.retry + 1, j.retries), j.node)],
           Produce(w, j, Turn(t.retry + 1, 0, t.spent, None)))
  }

  /** A negative max_retries runs no attempt and raises None. */
  function Handoff(w: World, g: GraphSpec, n: Node, agent: AgentSpec, c: Ctx): Proc {
    if n.maxRetries < 0 then Done(Threw(OtherError("exceptions must derive from BaseException")))
    else Produce(w, Job(n.id, agent, c, SchemaFor(g, n, agent), n.maxRetries), Turn(0, 0, 0, None))
  }

  // ---------- agent nodes ----------

  function EmitIf(cond: bool, e: Event, next: Proc): Proc {
    if cond then Emit([e], next) else next
  }

  /** One INJECTION_BLOCKED row per poisoned source; nothing poisoned reaches the model. */
  function Screen(w: World, g: GraphSpec, n: Node, agent: AgentSpec, c: Ctx, left: Ctx, blocked: bool): Proc
    decreases |left|
  {
    if left == [] then
      if blocked then
        Emit([Log(BlockedEnd, n.id)], Done(Settled(Failed("handoff quarantined", true))))
      else
        Fork([Kid({Some(n.id)}, Handoff(w, g, n, agent, c), Some(Late(n)))],
             outs => if |outs| == 1 then AfterHandoff(w, g, n, agent, outs[0]) else Done(OverBudget))
    else
      var bad := w.flagged(left[0].1);
      EmitIf(bad, Log(InjectionBlocked(left[0].0), n.id), Screen(w, g, n, agent, c, left[1..], blocked || bad))
  }

  /** The except TimeoutError branch. */
  function Late(n: Node): Proc {
    Emit([Log(TimedOut, n.id)], Done(Settled(Failed("timeout", false))))
  }

  /** The artifact store raises on a null payload, and on one that holds a key. */
  predicate Unstorable(w: World, v: Value) { v == Null || w.leaks(v) }

  function AfterHandoff(w: World, g: GraphSpec, n: Node, agent: AgentSpec, o: Outcome): Proc {
    match o
    case Accepted(v, repairs) =>
      Emit([Log(NodeEnd(true, repairs), n.id)],
        if Unstorable(w, v) then Done(Threw(OtherError("artifact refused")))
        else EmitIf(g.version >= 2, Log(MemoryWrite(agent.memoryScope == SharedRw), n.id),
                    Done(Settled(Passed(Some(v))))))
    case GaveUp(errors, calls) =>
      Emit([Log(NodeEnd(false, calls), n.id)], Done(Settled(Failed(Joined(errors), false))))
    case OverBudget => Done(Settled(Failed("budget", false)))
    case Threw(e) => if e.Timeout? then Late(n) else Done(o)
    case _ => Done(o)                                // the timeout branch already settled it
  }

  function Joined(errors: seq<string>): string {
    if errors == [] then "" else if |errors| == 1 then errors[0] else errors[0] + "; " + Joined(errors[1..])
  }

  /** Node types that `_run_node` hands to `_agent_node`. */
  predicate RunsAgent(n: Node) {
    n.ntype == AgentNode || n.ntype == VerifyNode || n.ntype == CouncilNode || n.ntype == ConditionalNode
  }

  function AgentRun(w: World, g: GraphSpec, outputs: map<Id, Value>, n: Node): Proc {
    match n.agent
    case None => Done(Settled(Skipped))
    case Some(agent) =>
      var up := UpstreamContext(g, outputs, n.id);
      Emit([Log(NodeStart, n.id)],
        if g.version >= 2 then
          Ask(Recall(n.id, agent.id, agent.memoryScope != Isolated), a => Recalled(w, g, n, agent, up, a))
        else Screen(w, g, n, agent, up, up, false))
  }

  /** Live memory under direct upstream output, after its MEMORY rows. */
  function Recalled(w: World, g: GraphSpec, n: Node, agent: AgentSpec, up: Ctx, a: Answer): Proc {
    match a
    case Memory(live, gone) =>
      EmitIf(gone != [], Log(MemoryEvicted(gone), n.id),
        if live == [] then Screen(w, g, n, agent, up, up, false)
        else
          var c := PutAll(live, up);
          Emit([Log(MemoryRead(KeysOf(live)), n.id)], Screen(w, g, n, agent, c, c, false)))
    case _ => Done(Threw(OtherError("")))            // no such answer fits the request
  }

  function KeysOf(c: Ctx): seq<Id> {
    if c == [] then [] else [c[0].0] + KeysOf(c[1..])
  }

  // ---------- the other node types ----------

  function Approval(n: Node): Proc {
    Emit([Log(ApprovalRequested, n.id)],
      Ask(Gate(n.id), a =>
        if a == Granted(true) then Done(Settled(Passed(Some(Dict(map["approved" := Bool(true)])))))
        else Done(Settled(Failed("approval not granted", true)))))
  }

  /** `{p: self.outputs.get(p) for p in parents}` */
  function Gathered(ps: seq<Id>, outputs: map<Id, Value>): (r: map<Id, Value>)
    ensures forall p :: p in r <==> p in ps
    ensures forall p | p in r :: r[p] == if p in outputs then outputs[p] else Null
  {
    if ps == [] then map[]
    else Gathered(ps[1..], outputs)[ps[0] := if ps[0] in outputs then outputs[ps[0]] else Null]
  }

  /** What a fanout, join or clarify node outputs: its parents' outputs, None where there is none. */
  function Merged(w: World, g: GraphSpec, outputs: map<Id, Value>, n: Node): Value {
    var merged := Gathered(Parents(g, n.id), outputs);
    Dict(if n.ntype == ClarifyNode && w.clarifications.Some? then merged["answers" := w.clarifications.value] else merged)
  }

  function Passthrough(w: World, g: GraphSpec, outputs: map<Id, Value>, n: Node): Proc {
    Emit([Log(NodeStart, n.id), Log(NodeEnd(true, 0), n.id)], Done(Settled(Passed(Some(Merged(w, g, outputs, n))))))
  }

  /** Every id a node's task can log under. */
  function ScopeOf(n: Node): set<Option<Id>> {
    {Some(n.id)} + if n.subgraph.Some? then GraphScope(n.subgraph.value) else {}
  }

  function GraphScope(g: GraphSpec): set<Option<Id>> {
    set x | x in AllIds(g) :: Some(x)
  }

  ghost function RunNode(w: World, g: GraphSpec, depth: nat, outputs: map<Id, Value>, n: Node): Proc
    requires n in g.nodes
    decreases g, 0, 1
  {
    match n.ntype
    case ApprovalNode => Approval(n)
    case FanoutNode => Passthrough(w, g, outputs, n)
    case JoinNode => Passthrough(w, g, outputs, n)
    case ClarifyNode => Passthrough(w, g, outputs, n)
    case AgentNode => AgentRun(w, g, outputs, n)
    case VerifyNode => AgentRun(w, g, outputs, n)
    case CouncilNode => AgentRun(w, g, outputs, n)
    case ConditionalNode => AgentRun(w, g, outputs, n)
    case CompensateNode => Done(Settled(Skipped))
    case SubgraphNode => SubgraphRun(w, g, depth, outputs, n)
  }

  /** child.outputs as `_subgraph_node` seeds it. */
  function ChildSeed(g: GraphSpec, outputs: map<Id, Value>, id: Id): map<Id, Value> {
    var up := UpstreamContext(g, outputs, id);
    if up == [] then map[] else map[PARENT := Dict(ToMap(up))]
  }

  /** A nested graph run as one node of its parent, in the same log. */
  ghost function SubgraphRun(w: World, g: GraphSpec, depth: nat, outputs: map<Id, Value>, n: Node): Proc
    requires n in g.nodes
    decreases g, 0, 0
  {
    match n.subgraph
    case None => Done(Settled(Skipped))
    case Some(sub) =>
      if depth >= MAX_SUBGRAPH_DEPTH then Done(Settled(Failed("max subgraph nesting depth exceeded", false)))
      else match Validate(sub)
        case Raises => Done(Threw(OtherError("KeyError")))
        case Problems(ps) =>
          if ps != [] then Done(Settled(Failed("unapproved side effects in subgraph", false)))
          else
            Fork([Kid(GraphScope(sub), RunGraph(w, sub, depth + 1, ChildSeed(g, outputs, n.id)), None)],
                 outs => if |outs| == 1 then AfterSubgraph(sub, outs[0]) else Done(OverBudget))
  }

  function AfterSubgraph(sub: GraphSpec, o: Outcome): Proc {
    match o
    case Ended(end) =>
      if end.failed == [] then Done(Settled(Passed(Some(Dict(SinkOutputs(sub, end.outputs))))))
      else Done(Settled(Failed("", false)))
    case _ => Done(o)                                // an exception passes through
  }

  /** The ids of sink nodes, and what they left in `outputs`. */
  function Sinks(sub: GraphSpec, nodes: seq<Node>, outputs: map<Id, Value>): map<Id, Value> {
    if nodes == [] then map[]
    else
      var rest, id := Sinks(sub, nodes[1..], outputs), nodes[0].id;
      if nodes[0].ntype != CompensateNode && Children(sub, id) == [] && id in outputs then rest[id := outputs[id]] else rest
  }

  function SinkOutputs(sub: GraphSpec, outputs: map<Id, Value>): map<Id, Value> { Sinks(sub, sub.nodes, outputs) }

  // ---------- the level loop ----------

  /** self.results, self.outputs and the local list `failed`. */
  datatype Board = Board(results: map<Id, NodeResult>, outputs: map<Id, Value>, failed: seq<Id>)

  predicate ShouldRun(w: World, g: GraphSpec, b: Board, id: Id) {
    && (forall p | p in Parents(g, id) && p in b.results :: b.results[p].Passed?)
    && match FindNode(g, id)
       case None => true
       case Some(n) => n.ntype == ConditionalNode && n.condition != "" ==> w.holds(n.condition, b.outputs)
  }

  function Runnable(w: World, g: GraphSpec, b: Board, level: seq<Id>): (r: seq<Id>)
    ensures forall id :: id in r <==> id in level && ShouldRun(w, g, b, id)
  {
    if level == [] then []
    else (if ShouldRun(w, g, b, level[0]) then [level[0]] else []) + Runnable(w, g, b, level[1..])
  }

  function Skips(results: map<Id, NodeResult>, level: seq<Id>, runnable: seq<Id>): (r: map<Id, NodeResult>)
    ensures forall id :: id in r <==> id in results || (id in level && id !in runnable)
    ensures forall id | id in r :: r[id] == if id in level && id !in runnable then Skipped else results[id]
    decreases |level|
  {
    if level == [] then results
    else Skips(if level[0] in runnable then results else results[level[0] := Skipped], level[1..], runnable)
  }

  function SkipOthers(b: Board, level: seq<Id>, runnable: seq<Id>): Board {
    b.(results := Skips(b.results, level, runnable))
  }

  function ResultOf(o: Outcome): NodeResult {
    match o
    case Settled(r) => r
    case Threw(e) => Failed(ErrorText(e), false)
    case _ => Failed("", false)                      // no node task ends like that
  }

  function Place1(b: Board, id: Id, r: NodeResult): Board {
    Board(b.results[id := r],
          if r.Passed? && r.output.Some? then b.outputs[id := r.output.value] else b.outputs,
          if r.Failed? then b.failed + [id] else b.failed)
  }

  function SettleAll(b: Board, ids: seq<Id>, outs: seq<Outcome>): Board
    decreases |ids|
  {
    if ids == [] || outs == [] then b
    else SettleAll(Place1(b, ids[0], ResultOf(outs[0])), ids[1..], outs[1..])
  }

  ghost predicate Known(g: GraphSpec, ids: seq<Id>) {
    forall id | id in ids :: id in Ids(g)
  }

  ghost function NodeKids(w: World, g: GraphSpec, depth: nat, outputs: map<Id, Value>, ids: seq<Id>): (r: seq<Kid>)
    requires Known(g, ids)
    ensures |r| == |ids|
    decreases g, 0, 2
  {
    seq(|ids|, i requires 0 <= i < |ids| =>
      var n := FindNode(g, ids[i]).value;
      Kid(ScopeOf(n), RunNode(w, g, depth, outputs, n), None))
  }

  ghost function RunLevels(w: World, g: GraphSpec, depth: nat, ls: seq<seq<Id>>, b: Board): Proc
    requires forall l | l in ls :: Known(g, l)
    decreases g, 1, |ls|
  {
    if ls == [] then Compensate(g.nodes, b, [])
    else
      var runnable := Runnable(w, g, b, ls[0]);
      var b1 := SkipOthers(b, ls[0], runnable);
      if runnable == [] then RunLevels(w, g, depth, ls[1..], b1)
      else
        assert ls[0] in ls && Known(g, ls[0]);
        Fork(NodeKids(w, g, depth, b.outputs, runnable),
             outs => RunLevels(w, g, depth, ls[1..], SettleAll(b1, runnable, outs)))
  }

  predicate Undoes(n: Node, failed: seq<Id>) {
    n.ntype == CompensateNode && n.compensates.Some? && n.compensates.value in failed
  }

  /** A compensator's own agent is never called: _run_node skips the type. */
  function Compensate(nodes: seq<Node>, b: Board, done: seq<Id>): Proc {
    if nodes == [] then Done(Ended(GraphEnd(b.results, b.outputs, b.failed, done)))
    else if !Undoes(nodes[0], b.failed) then Compensate(nodes[1..], b, done)
    else
      var r := if nodes[0].agent.Some? then Skipped else Passed(None);
      Emit([Log(Compensated(nodes[0].compensates.value), nodes[0].id)],
           Compensate(nodes[1..], b.(results := b.results[nodes[0].id := r]), done + [nodes[0].id]))
  }

  lemma LevelsKnown(g: GraphSpec, ls: seq<seq<Id>>)
    requires LevelsOf(g) == Some(ls)
    ensures forall l | l in ls :: Known(g, l)
  {
    LevelsShape(g);
    forall l, id | l in ls && id in l ensures id in Ids(g) {
      var k :| 0 <= k < |ls| && ls[k] == l;
      assert At(ls, k, id);
      assert Placed(ls, id);
    }
  }

  /** `_run_graph`; an unlayerable graph raises ValueError. */
  ghost function RunGraph(w: World, g: GraphSpec, depth: nat, seed: map<Id, Value>): Proc
    decreases g, 2
  {
    match LevelsOf(g)
    case None => Done(Threw(OtherError("cycle detected")))
    case Some(ls) =>
      LevelsKnown(g, ls);
      RunLevels(w, g, depth, ls, Board(map[], seed, []))
  }

  /** `Executor.run` on the top-level graph. */
  ghost function RunWhole(w: World, g: GraphSpec): Proc {
    match Validate(g)
    case Raises => Done(Threw(OtherError("KeyError")))
    case Problems(ps) =>
      if ps != [] || !NoDup(AllIds(g)) then Emit([Event(GraphRejected(ps), None)], Done(Rejected(ps)))
      else
        Emit([Event(RunStart, None)],
          Fork([Kid(GraphScope(g), RunGraph(w, g, 0, map[]), None)],
               outs => if |outs| == 1 then AfterRun(outs[0]) else Done(OverBudget)))
  }

  function AfterRun(o: Outcome): Proc {
    match o
    case Ended(end) =>
      Emit([Event(RunEnd(end.failed == [], end.failed, end.compensated), None)], Done(o))
    case _ => Done(o)                                // the ValueError escapes run()
  }
}
