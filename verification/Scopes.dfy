// Node ids of nested graphs, and the scope each task of the executor keeps to.
module Scopes {
  import opened Base
  import opened Graph
  import opened Layering
  import opened Events
  import opened Tasks
  import opened Receipts
  import opened Kernel

  // ---------- ids across nesting levels ----------

  /** The facts the executor's duplicate check is for. */
  ghost predicate UniqueIds(g: GraphSpec) { NoDup(AllIds(g)) }

  lemma NoDupParts<T>(a: seq<T>, b: seq<T>)
    requires NoDup(a + b)
    ensures NoDup(a) && NoDup(b)
    ensures forall x | x in a :: x !in b
  {
    forall i, j | 0 <= i < j < |a| ensures a[i] != a[j] {
      assert (a + b)[i] == a[i] && (a + b)[j] == a[j];
    }
    forall i, j | 0 <= i < j < |b| ensures b[i] != b[j] {
      assert (a + b)[|a| + i] == b[i] && (a + b)[|a| + j] == b[j];
    }
    forall i, j | 0 <= i < |a| && 0 <= j < |b| ensures a[i] != b[j] {
      assert (a + b)[i] == a[i] && (a + b)[|a| + j] == b[j];
    }
  }

  function SubIds(n: Node): seq<Id> {
    if n.subgraph.Some? then AllIds(n.subgraph.value) else []
  }

  lemma {:induction false} NestedHas(nodes: seq<Node>, n: Node)
    requires n in nodes
    ensures forall x | x in SubIds(n) :: x in NestedIds(nodes)
  {
    if nodes[0] != n { NestedHas(nodes[1..], n); }
  }

  lemma {:induction false} NestedUnique(nodes: seq<Node>, n: Node)
    requires n in nodes && NoDup(NestedIds(nodes))
    ensures NoDup(SubIds(n))
  {
    NoDupParts(SubIds(nodes[0]), NestedIds(nodes[1..]));
    if nodes[0] != n { NestedUnique(nodes[1..], n); }
  }

  lemma {:induction false} NestedApart(nodes: seq<Node>, m: Node, n: Node)
    requires m in nodes && n in nodes && m != n && NoDup(NestedIds(nodes))
    ensures forall x | x in SubIds(m) :: x !in SubIds(n)
  {
    NoDupParts(SubIds(nodes[0]), NestedIds(nodes[1..]));
    if nodes[0] == m {
      NestedHas(nodes[1..], n);
    } else if nodes[0] == n {
      NestedHas(nodes[1..], m);
    } else {
      NestedApart(nodes[1..], m, n);
    }
  }

  lemma {:induction false} OwnIds(nodes: seq<Node>)
    ensures forall x :: x in IdsOf(nodes) <==> exists n :: n in nodes && n.id == x
  {
    if nodes != [] {
      OwnIds(nodes[1..]);
      assert forall n :: n in nodes <==> n == nodes[0] || n in nodes[1..];
    }
  }

  lemma {:induction false} NothingNested(nodes: seq<Node>)
    requires forall n | n in nodes :: n.subgraph.None?
    ensures NestedIds(nodes) == []
  {
    if nodes != [] { NothingNested(nodes[1..]); }
  }

  /** The validator reports nothing of nodes that nest nothing and need no approval, or have one. */
  lemma {:induction false} AllCovered(g: GraphSpec, nodes: seq<Node>)
    requires forall n | n in nodes :: n in g.nodes && n.subgraph.None? && (Declares(n) ==> UpstreamApproval(g, n.id) == Found)
    ensures ValidateNodes(g, nodes) == Problems([])
  {
    if nodes != [] {
      assert nodes[0] in nodes;
      AllCovered(g, nodes[1..]);
    }
  }

  /** A node's scope lies in its graph's, apart from the graph's other own ids. */
  lemma NodeScope(g: GraphSpec, n: Node)
    requires n in g.nodes
    ensures ScopeOf(n) <= GraphScope(g)
    ensures UniqueIds(g) && n.subgraph.Some? ==> UniqueIds(n.subgraph.value)
    ensures UniqueIds(g) ==> forall x | Some(x) in ScopeOf(n) && x in Ids(g) :: x == n.id
  {
    OwnIds(g.nodes);
    NestedHas(g.nodes, n);
    assert AllIds(g) == IdsOf(g.nodes) + NestedIds(g.nodes);
    if UniqueIds(g) {
      NoDupParts(IdsOf(g.nodes), NestedIds(g.nodes));
      NestedUnique(g.nodes, n);
      forall x | Some(x) in ScopeOf(n) && x in Ids(g) ensures x == n.id {
        assert x in IdsOf(g.nodes);
      }
    }
  }

  lemma ScopesApart(g: GraphSpec, m: Node, n: Node)
    requires UniqueIds(g) && m in g.nodes && n in g.nodes && m.id != n.id
    ensures ScopeOf(m) !! ScopeOf(n)
  {
    NodeScope(g, m);
    NodeScope(g, n);
    NoDupParts(IdsOf(g.nodes), NestedIds(g.nodes));
    NestedApart(g.nodes, m, n);
    assert m.id in Ids(g) && n.id in Ids(g);
    forall x | Some(x) in ScopeOf(m) ensures Some(x) !in ScopeOf(n) {
      assert x == m.id || x in SubIds(m);
      assert Some(x) in ScopeOf(n) ==> x == n.id || x in SubIds(n);
    }
  }

  /** `h` is `g` or a graph nested in it. */
  ghost predicate Within(h: GraphSpec, g: GraphSpec) {
    h == g || exists n :: n in g.nodes && n.subgraph.Some? && Within(h, n.subgraph.value)
  }

  lemma {:induction false} IdsWithin(h: GraphSpec, g: GraphSpec, n: Node)
    requires Within(h, g) && n in h.nodes
    ensures Some(n.id) in GraphScope(g)
    decreases g
  {
    if h == g {
      NodeScope(g, n);
    } else {
      var m :| m in g.nodes && m.subgraph.Some? && Within(h, m.subgraph.value);
      IdsWithin(h, m.subgraph.value, n);
      NodeScope(g, m);
    }
  }

  lemma {:induction false} RunnableNoDup(w: World, g: GraphSpec, b: Board, level: seq<Id>)
    requires NoDup(level)
    ensures NoDup(Runnable(w, g, b, level))
  {
    if level != [] {
      assert level == [level[0]] + level[1..];
      NoDupParts([level[0]], level[1..]);
      RunnableNoDup(w, g, b, level[1..]);
    }
  }

  // ---------- every task is tidy and owes no receipt ----------

  greatest lemma TidyWider(p: Proc, S: set<Option<Id>>, more: set<Option<Id>>)
    requires Tidy(p, S) && S <= more
    ensures Tidy(p, more)
  {
    match p
    case Done(_) =>
    case Emit(_, next) => TidyWider(next, S, more);
    case Ask(q, k) => forall a | Fits(q, a) { TidyWider(k(a), S, more); }
    case Note(_, next) => TidyWider(next, S, more);
    case Fork(kids, join) => forall outs | |outs| == |kids| { TidyWider(join(outs), S, more); }
  }

  ghost predicate Clean(p: Proc, S: set<Option<Id>>) { Tidy(p, S) && Fresh(p) }

  lemma CleanDone(o: Outcome, S: set<Option<Id>>)
    ensures Clean(Done(o), S)
  {
  }

  lemma CleanEmit(e: Event, next: Proc, S: set<Option<Id>>)
    requires Clean(next, S) && e.who in S && !IsReceipt(e)
    ensures Clean(Emit([e], next), S)
  {
  }

  ghost predicate CleanKid(k: Kid, S: set<Option<Id>>) {
    && k.scope <= S
    && Clean(k.body, k.scope)
    && (k.late.Some? ==> Tidy(k.late.value, k.scope))
  }

  lemma CleanFork(p: Proc, S: set<Option<Id>>)
    requires p.Fork?
    requires forall i | 0 <= i < |p.kids| :: CleanKid(p.kids[i], S)
    requires forall i, j | 0 <= i < j < |p.kids| :: p.kids[i].scope !! p.kids[j].scope
    requires forall outs | |outs| == |p.kids| :: Clean(p.join(outs), S)
    ensures Clean(p, S)
  {
    assert forall i | 0 <= i < |p.kids| :: CleanKid(p.kids[i], S);
  }

  lemma {:induction false} CleanProduce(w: World, j: Job, t: Turn)
    requires InLoops(w, j, t)
    ensures Clean(Produce(w, j, t), {Some(j.node)})
    decreases j.retries - t.retry, w.maxRepairs - t.repair, 3
  {
    if j.agent.budgetTokens - t.spent > 0 {
      forall a | Fits(Request(j, t), a) ensures Clean(Produced(w, j, t, a), {Some(j.node)}) {
        CleanProduced(w, j, t, a);
      }
    }
  }

  lemma {:induction false} CleanProduced(w: World, j: Job, t: Turn, a: Answer)
    requires InLoops(w, j, t)
    ensures Clean(Produced(w, j, t, a), {Some(j.node)})
    decreases j.retries - t.retry, w.maxRepairs - t.repair, 2
  {
    match a
    case Reply(c) =>
      var spent := t.spent + c.tokensIn + c.tokensOut;
      if spent <= j.agent.budgetTokens { CleanJudged(w, j, t.(spent := spent), c.text); }
    case Raised(e) => CleanTryAgain(w, j, t, e);
    case _ =>
  }

  lemma {:induction false} CleanJudged(w: World, j: Job, t: Turn, text: string)
    requires InLoops(w, j, t)
    ensures Clean(Judged(w, j, t, text), {Some(j.node)})
    decreases j.retries - t.retry, w.maxRepairs - t.repair, 1
  {
    var S := {Some(j.node)};
    match w.judge(text, j.schema)
    case Accept(v) =>
      CleanDone(Accepted(v, t.repair), S);
      CleanEmit(Log(HandoffValidated(t.repair, v), j.node), Done(Accepted(v, t.repair)), S);
    case Reject(errors) =>
      CleanRejected(w, j, t, errors);
    case Crash(m) => CleanTryAgain(w, j, t, OtherError(m));
  }

  lemma {:induction false} CleanRejected(w: World, j: Job, t: Turn, errors: seq<string>)
    requires InLoops(w, j, t)
    ensures Clean(Rejection(w, j, t, errors), {Some(j.node)})
    decreases j.retries - t.retry, w.maxRepairs - t.repair, 0
  {
    var S := {Some(j.node)};
    if t.repair == w.maxRepairs {
      var last := Done(GaveUp(errors, w.maxRepairs + 1));
      CleanDone(last.out, S);
      CleanEmit(Log(Unrepairable(w.maxRepairs + 1, errors), j.node), last, S);
      CleanEmit(Log(HandoffRejected(t.repair, errors), j.node),
                Emit([Log(Unrepairable(w.maxRepairs + 1, errors), j.node)], last), S);
    } else {
      var next := Produce(w, j, Corrected(j, t, errors));
      CleanProduce(w, j, Corrected(j, t, errors));
      CleanEmit(Log(RepairAttempt(t.repair + 1, w.maxRepairs, errors), j.node), next, S);
      CleanEmit(Log(HandoffRejected(t.repair, errors), j.node),
                Emit([Log(RepairAttempt(t.repair + 1, w.maxRepairs, errors), j.node)], next), S);
    }
  }

  lemma {:induction false} CleanTryAgain(w: World, j: Job, t: Turn, e: Error)
    requires InLoops(w, j, t)
    ensures Clean(TryAgain(w, j, t, e), {Some(j.node)})
    decreases j.retries - t.retry, 0, 0
  {
    if t.retry < j.retries { CleanProduce(w, j, Turn(t.retry + 1, 0, t.spent, None)); }
  }

  lemma CleanAfterHandoff(w: World, g: GraphSpec, n: Node, agent: AgentSpec, o: Outcome)
    ensures Clean(AfterHandoff(w, g, n, agent, o), {Some(n.id)})
    ensures Clean(Late(n), {Some(n.id)})
  {
    var S := {Some(n.id)};
    CleanDone(Settled(Failed("timeout", false)), S);
    match o
    case Accepted(v, repairs) =>
      var last := Done(Settled(Passed(Some(v))));
      CleanDone(last.out, S);
      CleanEmit(Log(MemoryWrite(agent.memoryScope == SharedRw), n.id), last, S);
      CleanDone(Threw(OtherError("key in payload")), S);
    case GaveUp(errors, calls) =>
      CleanDone(Settled(Failed(Joined(errors), false)), S);
    case _ =>
  }

  lemma CleanHandoff(w: World, g: GraphSpec, n: Node, agent: AgentSpec, c: Ctx)
    ensures Clean(Handoff(w, g, n, agent, c), {Some(n.id)})
  {
    if n.maxRetries >= 0 {
      CleanProduce(w, Job(n.id, agent, c, SchemaFor(g, n, agent), n.maxRetries), Turn(0, 0, 0, None));
    }
  }

  lemma {:induction false} CleanScreen(w: World, g: GraphSpec, n: Node, agent: AgentSpec, c: Ctx, left: Ctx, blocked: bool)
    ensures Clean(Screen(w, g, n, agent, c, left, blocked), {Some(n.id)})
    decreases |left|
  {
    if left == [] {
      if blocked {
        CleanDone(Settled(Failed("handoff quarantined", true)), {Some(n.id)});
      } else {
        CleanHandoff(w, g, n, agent, c);
        var p := Screen(w, g, n, agent, c, left, blocked);
        CleanAfterHandoff(w, g, n, agent, OverBudget);
        forall outs | |outs| == |p.kids| ensures Clean(p.join(outs), {Some(n.id)}) {
          CleanAfterHandoff(w, g, n, agent, outs[0]);
        }
        CleanFork(p, {Some(n.id)});
      }
    } else {
      CleanScreen(w, g, n, agent, c, left[1..], blocked || w.flagged(left[0].1));
    }
  }

  lemma CleanRecalled(w: World, g: GraphSpec, n: Node, agent: AgentSpec, up: Ctx, a: Answer)
    requires a.Memory?
    ensures Clean(Recalled(w, g, n, agent, up, a), {Some(n.id)})
  {
    hide Screen, Clean;
    var S := {Some(n.id)};
    if a.live == [] {
      CleanScreen(w, g, n, agent, up, up, false);
      CleanEmit(Log(MemoryEvicted(a.gone), n.id), Screen(w, g, n, agent, up, up, false), S);
    } else {
      var c, read := PutAll(a.live, up), Log(MemoryRead(KeysOf(a.live)), n.id);
      CleanScreen(w, g, n, agent, c, c, false);
      CleanEmit(read, Screen(w, g, n, agent, c, c, false), S);
      CleanEmit(Log(MemoryEvicted(a.gone), n.id), Emit([read], Screen(w, g, n, agent, c, c, false)), S);
    }
  }

  lemma CleanRecall(w: World, g: GraphSpec, n: Node, agent: AgentSpec, up: Ctx)
    ensures Clean(Ask(Recall(n.id, agent.id, agent.memoryScope != Isolated), a => Recalled(w, g, n, agent, up, a)), {Some(n.id)})
  {
    hide Recalled;
    var q := Recall(n.id, agent.id, agent.memoryScope != Isolated);
    forall a | Fits(q, a) ensures Clean(Recalled(w, g, n, agent, up, a), {Some(n.id)}) {
      CleanRecalled(w, g, n, agent, up, a);
    }
  }

  lemma CleanAgent(w: World, g: GraphSpec, outputs: map<Id, Value>, n: Node)
    ensures Clean(AgentRun(w, g, outputs, n), {Some(n.id)})
  {
    hide Screen, Recalled, UpstreamContext, Clean;
    var p, S := AgentRun(w, g, outputs, n), {Some(n.id)};
    if n.agent.None? {
      CleanDone(p.out, S);
    } else {
      var agent, up := n.agent.value, UpstreamContext(g, outputs, n.id);
      if g.version >= 2 {
        CleanRecall(w, g, n, agent, up);
        assert p.next == Ask(Recall(n.id, agent.id, agent.memoryScope != Isolated), a => Recalled(w, g, n, agent, up, a));
      } else {
        CleanScreen(w, g, n, agent, up, up, false);
      }
      CleanEmit(Log(NodeStart, n.id), p.next, S);
    }
  }

  lemma CleanSimple(w: World, g: GraphSpec, outputs: map<Id, Value>, n: Node)
    ensures Clean(Approval(n), {Some(n.id)}) && Clean(Passthrough(w, g, outputs, n), {Some(n.id)})
  {
    var S := {Some(n.id)};
    var ask := Approval(n).next;
    forall a | Fits(Gate(n.id), a) ensures Clean(ask.k(a), S) {
      CleanDone(ask.k(a).out, S);
    }
    assert Clean(ask, S);
    CleanDone(Passthrough(w, g, outputs, n).next.out, S);
  }

  /** A node that is not a nested graph logs only under its own id. */
  lemma CleanLeaf(w: World, g: GraphSpec, depth: nat, outputs: map<Id, Value>, n: Node)
    requires n in g.nodes && n.ntype != SubgraphNode
    ensures Clean(RunNode(w, g, depth, outputs, n), {Some(n.id)})
  {
    match n.ntype
    case AgentNode => CleanAgent(w, g, outputs, n);
    case VerifyNode => CleanAgent(w, g, outputs, n);
    case CouncilNode => CleanAgent(w, g, outputs, n);
    case ConditionalNode => CleanAgent(w, g, outputs, n);
    case _ => CleanSimple(w, g, outputs, n);
  }

  lemma {:induction false} CleanSubgraph(w: World, g: GraphSpec, depth: nat, outputs: map<Id, Value>, n: Node)
    requires n in g.nodes && UniqueIds(g)
    ensures Clean(SubgraphRun(w, g, depth, outputs, n), ScopeOf(n))
    decreases g, 0, 0
  {
    if n.subgraph.Some? {
      NodeScope(g, n);
      CleanGraph(w, n.subgraph.value, depth + 1, ChildSeed(g, outputs, n.id));
    }
    CleanNested(w, g, depth, outputs, n);
  }

  lemma CleanNested(w: World, g: GraphSpec, depth: nat, outputs: map<Id, Value>, n: Node)
    requires n in g.nodes
    requires n.subgraph.Some? ==>
      Clean(RunGraph(w, n.subgraph.value, depth + 1, ChildSeed(g, outputs, n.id)), GraphScope(n.subgraph.value))
    ensures Clean(SubgraphRun(w, g, depth, outputs, n), ScopeOf(n))
  {
    var p := SubgraphRun(w, g, depth, outputs, n);
    if p.Fork? { CleanWrap(p, ScopeOf(n)); }
  }

  lemma CleanWrap(p: Proc, S: set<Option<Id>>)
    requires p.Fork? && |p.kids| == 1 && p.kids[0].late.None? && p.kids[0].scope <= S
    requires Clean(p.kids[0].body, p.kids[0].scope)
    requires forall outs | |outs| == 1 :: p.join(outs).Done?
    ensures Clean(p, S)
  {
    assert CleanKid(p.kids[0], S);
    CleanFork(p, S);
  }

  lemma {:induction false} CleanNode(w: World, g: GraphSpec, depth: nat, outputs: map<Id, Value>, n: Node)
    requires n in g.nodes && UniqueIds(g)
    ensures Clean(RunNode(w, g, depth, outputs, n), ScopeOf(n))
    decreases g, 0, 1
  {
    if n.ntype == SubgraphNode {
      CleanSubgraph(w, g, depth, outputs, n);
    } else {
      CleanLeaf(w, g, depth, outputs, n);
      TidyWider(RunNode(w, g, depth, outputs, n), {Some(n.id)}, ScopeOf(n));
    }
  }

  /** The scopes of the nodes on the levels `ls`, and the compensators. */
  ghost function TailScope(g: GraphSpec, ls: seq<seq<Id>>): set<Option<Id>> {
    set w | w in GraphScope(g) && (InTail(g, ls, w) || (w.Some? && w.value in Comps(g)))
  }

  ghost predicate InTail(g: GraphSpec, ls: seq<seq<Id>>, w: Option<Id>) {
    exists l, id :: l in ls && id in l && Owns(g, id, w)
  }

  ghost predicate Owns(g: GraphSpec, id: Id, w: Option<Id>) {
    FindNode(g, id).Some? && w in ScopeOf(FindNode(g, id).value)
  }

  lemma {:induction false} CleanCompensate(g: GraphSpec, nodes: seq<Node>, b: Board, done: seq<Id>, S: set<Option<Id>>)
    requires forall n | n in nodes && n.ntype == CompensateNode :: Some(n.id) in S
    ensures Clean(Compensate(nodes, b, done), S)
    decreases |nodes|
  {
    if nodes != [] {
      if Undoes(nodes[0], b.failed) {
        var r := if nodes[0].agent.Some? then Skipped else Passed(None);
        CleanCompensate(g, nodes[1..], b.(results := b.results[nodes[0].id := r]), done + [nodes[0].id], S);
      } else {
        CleanCompensate(g, nodes[1..], b, done, S);
      }
    }
  }

  lemma {:induction false} CleanLevels(w: World, g: GraphSpec, depth: nat, ls: seq<seq<Id>>, b: Board)
    requires UniqueIds(g)
    requires forall l | l in ls :: Known(g, l) && NoDup(l)
    ensures Clean(RunLevels(w, g, depth, ls, b), TailScope(g, ls))
    decreases g, 1, |ls|
  {
    var S := TailScope(g, ls);
    if ls == [] {
      OwnIds(g.nodes);
      CleanCompensate(g, g.nodes, b, [], S);
    } else {
      assert ls[0] in ls;
      var runnable := Runnable(w, g, b, ls[0]);
      var b1 := SkipOthers(b, ls[0], runnable);
      assert forall l | l in ls[1..] :: l in ls;
      assert TailScope(g, ls[1..]) <= S;
      if runnable == [] {
        CleanLevels(w, g, depth, ls[1..], b1);
        TidyWider(RunLevels(w, g, depth, ls[1..], b1), TailScope(g, ls[1..]), S);
      } else {
        RunnableNoDup(w, g, b, ls[0]);
        CleanKids(w, g, depth, b.outputs, runnable, S, ls);
        var p := RunLevels(w, g, depth, ls, b);
        assert p.kids == NodeKids(w, g, depth, b.outputs, runnable);
        forall outs | |outs| == |p.kids| ensures Clean(p.join(outs), S) {
          var b2 := SettleAll(b1, runnable, outs);
          CleanLevels(w, g, depth, ls[1..], b2);
          TidyWider(RunLevels(w, g, depth, ls[1..], b2), TailScope(g, ls[1..]), S);
          assert p.join(outs) == RunLevels(w, g, depth, ls[1..], b2);
        }
        CleanFork(p, S);
      }
    }
  }

  lemma {:induction false} CleanKids(w: World, g: GraphSpec, depth: nat, outputs: map<Id, Value>, ids: seq<Id>,
                                     S: set<Option<Id>>, ls: seq<seq<Id>>)
    requires UniqueIds(g) && Known(g, ids) && NoDup(ids)
    requires ls != [] && S == TailScope(g, ls) && forall id | id in ids :: id in ls[0]
    ensures var kids := NodeKids(w, g, depth, outputs, ids);
      && (forall i | 0 <= i < |kids| :: CleanKid(kids[i], S))
      && (forall i, j | 0 <= i < j < |kids| :: kids[i].scope !! kids[j].scope)
    decreases g, 0, 2
  {
    var kids := NodeKids(w, g, depth, outputs, ids);
    forall i | 0 <= i < |kids|
      ensures CleanKid(kids[i], S)
    {
      var n := FindNode(g, ids[i]).value;
      assert ls[0] in ls && ids[i] in ls[0];
      NodeScope(g, n);
      CleanNode(w, g, depth, outputs, n);
      forall x | x in ScopeOf(n) ensures x in S { assert Owns(g, ids[i], x); }
    }
    forall i, j | 0 <= i < j < |kids| ensures kids[i].scope !! kids[j].scope {
      ScopesApart(g, FindNode(g, ids[i]).value, FindNode(g, ids[j]).value);
    }
  }

  lemma LevelsClean(g: GraphSpec, ls: seq<seq<Id>>)
    requires LevelsOf(g) == Some(ls)
    ensures forall l | l in ls :: Known(g, l) && NoDup(l)
  {
    LevelsKnown(g, ls);
    LevelsShape(g);
  }

  lemma {:induction false} CleanGraph(w: World, g: GraphSpec, depth: nat, seed: map<Id, Value>)
    requires UniqueIds(g)
    ensures Clean(RunGraph(w, g, depth, seed), GraphScope(g))
    decreases g, 2
  {
    match LevelsOf(g)
    case None =>
    case Some(ls) =>
      LevelsClean(g, ls);
      CleanLevels(w, g, depth, ls, Board(map[], seed, []));
      TidyWider(RunLevels(w, g, depth, ls, Board(map[], seed, [])), TailScope(g, ls), GraphScope(g));
  }

  /** The whole run keeps to its nodes' ids, plus the run's own rows. */
  lemma CleanWhole(w: World, g: GraphSpec)
    ensures Clean(RunWhole(w, g), GraphScope(g) + {None})
  {
    var S := GraphScope(g) + {None};
    if UniqueIds(g) {
      CleanGraph(w, g, 0, map[]);
      var p := RunWhole(w, g);
      if p.Emit? && p.next.Fork? {
        forall outs | |outs| == |p.next.kids| ensures Clean(p.next.join(outs), S) {
          CleanDone(outs[0], S);
        }
        CleanFork(p.next, S);
      }
    }
  }
}
