// Exactly when the approval check is enough: a run that calls an unsheltered
// node, constructed for every graph that has one.
module Shelters {
  import opened Base
  import opened Graph
  import opened Reach
  import opened Layering
  import opened Events
  import opened Tasks
  import opened Safety
  import opened Receipts
  import opened Machine
  import opened Kernel
  import opened Scopes
  import opened Failures
  import opened CausalLog
  import opened Approvals
  import opened Queries

  // ---------- a world in which everything passes except gates ----------

  const EMPTY: Value := Dict(map[])

  const EASY := World(v => false, (t, s) => Accept(EMPTY), (c, o) => true, v => false, None, 0)

  const SHORT := Completion("{}", 0, 0, "", false)

  /** Nothing granted so far. */
  ghost predicate Shut(t: seq<Mark>) { NoGrant(t) }

  lemma {:induction false} NothingFlagged(g: GraphSpec, n: Node, agent: AgentSpec, c: Ctx, left: Ctx)
    ensures Screen(EASY, g, n, agent, c, left, false) == Screen(EASY, g, n, agent, c, [], false)
    decreases |left|
  {
    if left != [] { NothingFlagged(g, n, agent, c, left[1..]); }
  }

  /** An agent node gets as far as its first call. */
  lemma AgentStarts(g: GraphSpec, outputs: map<Id, Value>, n: Node, t: seq<Mark>) returns (c: Ctx, t1: seq<Mark>)
    requires n.agent.Some? && Shut(t)
    ensures Ran(AgentRun(EASY, g, outputs, n), Screen(EASY, g, n, n.agent.value, c, [], false), t, t1) && Shut(t1)
  {
    hide Ran;
    var agent := n.agent.value;
    var p := AgentRun(EASY, g, outputs, n);
    c := UpstreamContext(g, outputs, n.id);
    var e := Log(NodeStart, n.id);
    RanOne(e, p.next, t);
    t1 := t + [Wrote(e, FREE)];
    NothingFlagged(g, n, agent, c, c);
    if g.version >= 2 {
      var a := Memory([], []);
      RanAsk(p.next, a, t1);
      assert AfterAnswer(p.next.q, a, p.next.k(a)) == Screen(EASY, g, n, agent, c, c, false);
      RanOn(p, p.next, Screen(EASY, g, n, agent, c, c, false), t, t1, t1 + [Heard(p.next.q, a)]);
      t1 := t1 + [Heard(p.next.q, a)];
    }
  }

  function JobFor(g: GraphSpec, n: Node, c: Ctx): Job
    requires CanCall(n)
  {
    Job(n.id, n.agent.value, c, SchemaFor(g, n, n.agent.value), n.maxRetries)
  }

  /** The handoff of such a node passes with the first reply. */
  lemma HandoffPasses(g: GraphSpec, n: Node, c: Ctx, t: seq<Mark>) returns (t1: seq<Mark>)
    requires CanCall(n) && Shut(t)
    ensures Ran(Handoff(EASY, g, n, n.agent.value, c), Done(Accepted(EMPTY, 0)), t, t1) && Shut(t1)
  {
    hide Ran;
    var j, turn := JobFor(g, n, c), Turn(0, 0, 0, None);
    var p := Produce(EASY, j, turn);
    var a := Reply(SHORT);
    var row := Log(ToolResult(j.agent.id, SHORT), n.id);
    var after := Produced(EASY, j, turn, a);
    var emitted, valid := Log(HandoffEmitted(0, SHORT.text), n.id), Log(HandoffValidated(0, EMPTY), n.id);
    assert after == Emit([emitted], Judged(EASY, j, turn, SHORT.text));
    assert Judged(EASY, j, turn, SHORT.text) == Emit([valid], Done(Accepted(EMPTY, 0)));
    var t2 := t + [Heard(Request(j, turn), a)];
    RanAsk(p, a, t);
    RanNote(Note(row, after), FREE, t2);
    var t3 := t2 + [Wrote(row, FREE)];
    RanOn(p, Note(row, after), after, t, t2, t3);
    RanOne(emitted, after.next, t3);
    var t4 := t3 + [Wrote(emitted, FREE)];
    RanOn(p, after, after.next, t, t3, t4);
    RanOne(valid, Done(Accepted(EMPTY, 0)), t4);
    t1 := t4 + [Wrote(valid, FREE)];
    RanOn(p, after.next, Done(Accepted(EMPTY, 0)), t, t4, t1);
  }

  lemma AgentFinishes(g: GraphSpec, n: Node, c: Ctx, t: seq<Mark>) returns (t1: seq<Mark>)
    requires CanCall(n) && Shut(t)
    ensures Ran(AfterHandoff(EASY, g, n, n.agent.value, Accepted(EMPTY, 0)), Done(Settled(Passed(Some(EMPTY)))), t, t1) && Shut(t1)
  {
    hide Ran;
    var agent := n.agent.value;
    var p := AfterHandoff(EASY, g, n, agent, Accepted(EMPTY, 0));
    var e, m := Log(NodeEnd(true, 0), n.id), Log(MemoryWrite(agent.memoryScope == SharedRw), n.id);
    RanOne(e, p.next, t);
    t1 := t + [Wrote(e, FREE)];
    if g.version >= 2 {
      RanOne(m, p.next.next, t1);
      RanOn(p, p.next, p.next.next, t, t1, t1 + [Wrote(m, FREE)]);
      t1 := t1 + [Wrote(m, FREE)];
    }
  }

  lemma AgentPasses(g: GraphSpec, outputs: map<Id, Value>, n: Node, t: seq<Mark>) returns (t1: seq<Mark>)
    requires CanCall(n) && Shut(t)
    ensures Ran(AgentRun(EASY, g, outputs, n), Done(Settled(Passed(Some(EMPTY)))), t, t1) && Shut(t1)
  {
    hide Ran;
    var p := AgentRun(EASY, g, outputs, n);
    var c, t2 := AgentStarts(g, outputs, n, t);
    var fork := Screen(EASY, g, n, n.agent.value, c, [], false);
    var t3 := HandoffPasses(g, n, c, t2);
    RanAwait(fork, Accepted(EMPTY, 0), t2, t3);
    var after := AfterHandoff(EASY, g, n, n.agent.value, Accepted(EMPTY, 0));
    assert fork.join([Accepted(EMPTY, 0)]) == after;
    RanOn(p, fork, after, t, t2, t3);
    t1 := AgentFinishes(g, n, c, t3);
    RanOn(p, after, Done(Settled(Passed(Some(EMPTY)))), t, t3, t1);
  }

  // ---------- every graph runs to its end without a grant ----------

  /** fanout, join, clarify, or an agent node that can be called. */
  predicate Passable(n: Node) { PassesOn(n) || CanCall(n) }

  ghost predicate Easy(g: GraphSpec, id: Id) {
    FindNode(g, id).Some? && Passable(FindNode(g, id).value)
  }

  lemma ApprovalEnds(n: Node, t: seq<Mark>) returns (o: Outcome, t1: seq<Mark>)
    requires Shut(t)
    ensures Ran(Approval(n), Done(o), t, t1) && Shut(t1)
  {
    hide Ran;
    var p, e, a := Approval(n), Log(ApprovalRequested, n.id), Granted(false);
    RanOne(e, p.next, t);
    var t2 := t + [Wrote(e, FREE)];
    RanAsk(p.next, a, t2);
    o, t1 := Settled(Failed("approval not granted", true)), t2 + [Heard(Gate(n.id), a)];
    RanOn(p, p.next, Done(o), t, t2, t1);
  }

  /** An agent node that cannot be called skips or fails. */
  lemma DeadEnds(g: GraphSpec, outputs: map<Id, Value>, n: Node, t: seq<Mark>) returns (o: Outcome, t1: seq<Mark>)
    requires RunsAgent(n) && !CanCall(n) && Shut(t)
    ensures Ran(AgentRun(EASY, g, outputs, n), Done(o), t, t1) && Shut(t1)
  {
    hide Ran;
    var p := AgentRun(EASY, g, outputs, n);
    if n.agent.None? {
      o, t1 := p.out, t;
      RanStart(p, t);
    } else {
      var c, t2 := AgentStarts(g, outputs, n, t);
      t1 := t2;
      var fork := Screen(EASY, g, n, n.agent.value, c, [], false);
      var end := fork.kids[0].body.out;
      RanStart(fork.kids[0].body, t1);
      RanAwait(fork, end, t1, t1);
      var after := AfterHandoff(EASY, g, n, n.agent.value, end);
      o := after.out;
      RanOn(p, fork, after, t, t1, t1);
    }
  }

  /** Each node runs to its end without a grant; what can pass does. */
  lemma {:induction false} StepEnds(g: GraphSpec, depth: nat, outputs: map<Id, Value>, n: Node, t: seq<Mark>)
    returns (o: Outcome, t1: seq<Mark>)
    requires n in g.nodes && UniqueIds(g) && Shut(t)
    ensures Ran(RunNode(EASY, g, depth, outputs, n), Done(o), t, t1) && Shut(t1)
    ensures Passable(n) ==> ResultOf(o).Passed?
    decreases g, 0, 1
  {
    hide Ran;
    if n.ntype == ApprovalNode {
      o, t1 := ApprovalEnds(n, t);
    } else if PassesOn(n) {
      var p := Passthrough(EASY, g, outputs, n);
      RanEmit(p, t);
      o, t1 := p.next.out, t + Bills(p.batch);
    } else if n.ntype == SubgraphNode {
      o, t1 := SubgraphEnds(g, depth, outputs, n, t);
    } else if n.ntype == CompensateNode {
      o, t1 := Settled(Skipped), t;
      RanStart(RunNode(EASY, g, depth, outputs, n), t);
    } else if CanCall(n) {
      o := Settled(Passed(Some(EMPTY)));
      t1 := AgentPasses(g, outputs, n, t);
    } else {
      o, t1 := DeadEnds(g, outputs, n, t);
    }
  }

  lemma {:induction false} SubgraphEnds(g: GraphSpec, depth: nat, outputs: map<Id, Value>, n: Node, t: seq<Mark>)
    returns (o: Outcome, t1: seq<Mark>)
    requires n in g.nodes && n.ntype == SubgraphNode && UniqueIds(g) && Shut(t)
    ensures Ran(SubgraphRun(EASY, g, depth, outputs, n), Done(o), t, t1) && Shut(t1)
    decreases g, 0, 0
  {
    hide Ran, RunGraph, Validate;
    var p := SubgraphRun(EASY, g, depth, outputs, n);
    if p.Done? {
      o, t1 := p.out, t;
      RanStart(p, t);
    } else {
      NodeScope(g, n);
      var sub := n.subgraph.value;
      var end;
      end, t1 := GraphEnds(sub, depth + 1, ChildSeed(g, outputs, n.id), t);
      RanAwait(p, end, t, t1);
      o := AfterSubgraph(sub, end).out;
      assert p.join([end]) == Done(o);
    }
  }

  /** The outcomes a level can have: what can pass does. */
  ghost predicate Fine(g: GraphSpec, run: seq<Id>, outs: seq<Outcome>) {
    |outs| <= |run| && forall i | 0 <= i < |outs| :: Easy(g, run[i]) ==> ResultOf(outs[i]).Passed?
  }

  /** The tasks of a level, one after the other. */
  lemma {:induction false} KidsEnd(g: GraphSpec, depth: nat, outputs: map<Id, Value>, run: seq<Id>, join: seq<Outcome> -> Proc, t: seq<Mark>)
    returns (outs: seq<Outcome>, t1: seq<Mark>)
    requires UniqueIds(g) && Known(g, run) && Shut(t)
    ensures |outs| == |run| && Fine(g, run, outs) && Shut(t1)
    ensures Ran(Fork(NodeKids(EASY, g, depth, outputs, run), join), join(outs), t, t1)
    decreases g, 0, 2
  {
    hide Ran, RunNode, Partly, Passable, ResultOf;
    var kids := NodeKids(EASY, g, depth, outputs, run);
    var p := Fork(kids, join);
    outs, t1 := [], t;
    NoneDone(kids);
    RanStart(p, t);
    while |outs| < |run|
      invariant |outs| <= |run| && Fine(g, run, outs) && Shut(t1)
      invariant Ran(p, Fork(Partly(kids, outs), join), t, t1)
    {
      var id := run[|outs|];
      var o, t2 := StepEnds(g, depth, outputs, FindNode(g, id).value, t1);
      RanPartly(p, kids, join, outs, o, t, t1, t2);
      outs, t1 := outs + [o], t2;
    }
    RanGathered(p, kids, join, outs, t, t1);
  }

  lemma {:induction false} LevelEnds(g: GraphSpec, depth: nat, ls: seq<seq<Id>>, b: Board, t: seq<Mark>)
    returns (outs: seq<Outcome>, t1: seq<Mark>)
    requires UniqueIds(g) && ls != [] && (forall l | l in ls :: Known(g, l)) && Shut(t)
    ensures |outs| == |Runnable(EASY, g, b, ls[0])| && Fine(g, Runnable(EASY, g, b, ls[0]), outs) && Shut(t1)
    ensures forall l | l in ls[1..] :: Known(g, l)
    ensures Ran(RunLevels(EASY, g, depth, ls, b), RunLevels(EASY, g, depth, ls[1..], NextBoard(EASY, g, b, ls[0], outs)), t, t1)
    decreases g, 0, 3
  {
    hide Ran, RunNode;
    var run := Runnable(EASY, g, b, ls[0]);
    assert ls[0] in ls && forall l | l in ls[1..] :: l in ls;
    var p := RunLevels(EASY, g, depth, ls, b);
    outs, t1 := [], t;
    if run == [] {
      RanStart(p, t);
    } else {
      assert p.Fork? && p.kids == NodeKids(EASY, g, depth, b.outputs, run);
      outs, t1 := KidsEnd(g, depth, b.outputs, run, p.join, t);
    }
  }

  lemma {:induction false} LevelsEnd(g: GraphSpec, depth: nat, ls: seq<seq<Id>>, b: Board, t: seq<Mark>)
    returns (o: Outcome, t1: seq<Mark>)
    requires UniqueIds(g) && (forall l | l in ls :: Known(g, l)) && Shut(t)
    ensures Ran(RunLevels(EASY, g, depth, ls, b), Done(o), t, t1) && Shut(t1)
    decreases g, 1, |ls|
  {
    hide Ran;
    if ls == [] {
      o, t1 := CompensateEnds(g.nodes, b, [], t);
    } else {
      var outs, t2 := LevelEnds(g, depth, ls, b, t);
      var next := NextBoard(EASY, g, b, ls[0], outs);
      o, t1 := LevelsEnd(g, depth, ls[1..], next, t2);
      RanOn(RunLevels(EASY, g, depth, ls, b), RunLevels(EASY, g, depth, ls[1..], next), Done(o), t, t2, t1);
    }
  }

  lemma {:induction false} CompensateEnds(nodes: seq<Node>, b: Board, done: seq<Id>, t: seq<Mark>)
    returns (o: Outcome, t1: seq<Mark>)
    requires Shut(t)
    ensures Ran(Compensate(nodes, b, done), Done(o), t, t1) && Shut(t1)
    decreases |nodes|
  {
    hide Ran;
    var p := Compensate(nodes, b, done);
    if nodes == [] {
      o, t1 := p.out, t;
      RanStart(p, t);
    } else if !Undoes(nodes[0], b.failed) {
      o, t1 := CompensateEnds(nodes[1..], b, done, t);
    } else {
      var e := Log(Compensated(nodes[0].compensates.value), nodes[0].id);
      var r := if nodes[0].agent.Some? then Skipped else Passed(None);
      var t2 := t + [Wrote(e, FREE)];
      RanOne(e, p.next, t);
      o, t1 := CompensateEnds(nodes[1..], b.(results := b.results[nodes[0].id := r]), done + [nodes[0].id], t2);
      RanOn(p, p.next, Done(o), t, t2, t1);
    }
  }

  lemma {:induction false} GraphEnds(g: GraphSpec, depth: nat, seed: map<Id, Value>, t: seq<Mark>)
    returns (o: Outcome, t1: seq<Mark>)
    requires UniqueIds(g) && Shut(t)
    ensures Ran(RunGraph(EASY, g, depth, seed), Done(o), t, t1) && Shut(t1)
    decreases g, 2
  {
    hide Ran, LevelsOf;
    match LevelsOf(g)
    case None =>
      o, t1 := RunGraph(EASY, g, depth, seed).out, t;
      RanStart(RunGraph(EASY, g, depth, seed), t);
    case Some(ls) =>
      LevelsKnown(g, ls);
      o, t1 := LevelsEnd(g, depth, ls, Board(map[], seed, []), t);
  }

  // ---------- below nothing that stops it, a node passes ----------

  /** It can pass, and so can everything the scheduler waits for above it. */
  ghost predicate Smooth(g: GraphSpec, m: Id) {
    Easy(g, m) && forall a | ScheduledAbove(g, a, m) :: Easy(g, a)
  }

  lemma EdgeAbove(g: GraphSpec, p: Id, m: Id)
    requires p !in Comps(g) && HasEdge(g, p, m)
    ensures ScheduledAbove(g, p, m)
  {
    assert Ordered(g, [p, m]) && [p, m][0] == p && [p, m][1] == m;
  }

  lemma AboveEdge(g: GraphSpec, a: Id, p: Id, m: Id)
    requires ScheduledAbove(g, a, p) && p !in Comps(g) && HasEdge(g, p, m)
    ensures ScheduledAbove(g, a, m)
  {
    var ps: seq<Id> :| |ps| >= 2 && Ordered(g, ps) && ps[0] == a && ps[|ps| - 1] == p;
    var qs := ps + [m];
    forall i | 0 <= i < |qs| - 1 ensures HasEdge(g, qs[i], qs[i + 1]) && qs[i] !in Comps(g) {
      if i < |ps| - 1 { assert HasEdge(g, ps[i], ps[i + 1]); }
    }
    assert Ordered(g, qs) && qs[0] == a && qs[|qs| - 1] == m;
  }

  lemma ParentSmooth(g: GraphSpec, p: Id, m: Id)
    requires Smooth(g, m) && p !in Comps(g) && HasEdge(g, p, m)
    ensures Smooth(g, p)
  {
    hide ScheduledAbove, Easy;
    EdgeAbove(g, p, m);
    forall a | ScheduledAbove(g, a, p) ensures Easy(g, a) { AboveEdge(g, a, p, m); }
  }

  ghost predicate SmoothPass(g: GraphSpec, results: map<Id, NodeResult>) {
    forall m | m in results && Smooth(g, m) :: results[m].Passed?
  }

  lemma SmoothRuns(g: GraphSpec, ls: seq<seq<Id>>, k: nat, b: Board, m: Id)
    requires LevelsOf(g) == Some(ls) && k < |ls| && BoardOk(g, ls, k, b) && SmoothPass(g, b.results)
    requires m in ls[k] && Smooth(g, m)
    ensures ShouldRun(EASY, g, b, m)
  {
    hide Smooth;
    forall p | p in Parents(g, m) && p in b.results ensures b.results[p].Passed? {
      AllBeforeScheduled(g, ls, k, p);
      var e :| e in g.edges && e.dst == m && e.src == p;
      assert HasEdge(g, p, m);
      ParentSmooth(g, p, m);
    }
  }

  lemma NextSmoothPass(g: GraphSpec, ls: seq<seq<Id>>, k: nat, b: Board, outs: seq<Outcome>)
    requires LevelsOf(g) == Some(ls) && k < |ls| && BoardOk(g, ls, k, b) && SmoothPass(g, b.results)
    requires |outs| == |Runnable(EASY, g, b, ls[k])| && Fine(g, Runnable(EASY, g, b, ls[k]), outs)
    ensures SmoothPass(g, NextBoard(EASY, g, b, ls[k], outs).results)
  {
    hide BoardOk, LevelsOf, ShouldRun;
    var run := Runnable(EASY, g, b, ls[k]);
    BoardReached(g, ls, k, b);
    NextResults(EASY, g, ls, k, b, outs);
    var r := NextBoard(EASY, g, b, ls[k], outs).results;
    forall m | m in r && Smooth(g, m) ensures r[m].Passed? {
      if m !in b.results {
        SmoothRuns(g, ls, k, b, m);
        var i :| 0 <= i < |run| && run[i] == m;
      }
    }
  }

  /** The run reaches level k with every smooth node before it passed, and no gate open. */
  lemma {:induction false} ReachLevel(g: GraphSpec, ls: seq<seq<Id>>, k: nat, t0: seq<Mark>) returns (b: Board, t: seq<Mark>)
    requires UniqueIds(g) && LevelsOf(g) == Some(ls) && k <= |ls| && (forall l | l in ls :: Known(g, l)) && Shut(t0)
    ensures BoardOk(g, ls, k, b) && SmoothPass(g, b.results) && Shut(t) && forall l | l in ls[k..] :: Known(g, l)
    ensures Ran(RunGraph(EASY, g, 0, map[]), RunLevels(EASY, g, 0, ls[k..], b), t0, t)
  {
    hide Ran, Known, Smooth;
    assert forall l | l in ls[k..] :: l in ls;
    if k == 0 {
      b, t := Board(map[], map[], []), t0;
      assert ls[0..] == ls;
      RanStart(RunGraph(EASY, g, 0, map[]), t0);
    } else {
      hide BoardOk, RunLevels, RunGraph, LevelsOf;
      var before, t1 := ReachLevel(g, ls, k - 1, t0);
      assert ls[k - 1..][0] == ls[k - 1] && ls[k - 1..][1..] == ls[k..];
      var outs, t2 := LevelEnds(g, 0, ls[k - 1..], before, t1);
      b, t := NextBoard(EASY, g, before, ls[k - 1], outs), t2;
      RanOn(RunGraph(EASY, g, 0, map[]), RunLevels(EASY, g, 0, ls[k - 1..], before), RunLevels(EASY, g, 0, ls[k..], b), t0, t1, t2);
      NextBoardOk(EASY, g, ls, k - 1, before, outs);
      NextSmoothPass(g, ls, k - 1, before, outs);
    }
  }

  // ---------- the call ----------

  /** An agent node that starts is soon waiting for an answer, and gets one. */
  lemma AgentCalls(g: GraphSpec, outputs: map<Id, Value>, n: Node, t: seq<Mark>) returns (q: Proc, t1: seq<Mark>, c: Ctx)
    requires CanCall(n) && Shut(t)
    ensures Shut(t1) && Ran(AgentRun(EASY, g, outputs, n), q, t, t1 + [Called(g, n, c)])
  {
    hide Ran;
    var p := AgentRun(EASY, g, outputs, n);
    c, t1 := AgentStarts(g, outputs, n, t);
    var fork := Screen(EASY, g, n, n.agent.value, c, [], false);
    var j, turn := JobFor(g, n, c), Turn(0, 0, 0, None);
    var ask, a := Produce(EASY, j, turn), Reply(SHORT);
    assert fork.kids[0].body == ask;
    var next := AfterAnswer(ask.q, a, ask.k(a));
    RanAsk(ask, a, t1);
    RanKid(fork.kids, fork.join, 0, next, t1, t1 + [Heard(ask.q, a)]);
    q := Fork(fork.kids[0 := fork.kids[0].(body := next)], fork.join);
    RanOn(p, fork, q, t, t1, t1 + [Heard(ask.q, a)]);
  }

  /** The first call of a node's handoff. */
  function Called(g: GraphSpec, n: Node, c: Ctx): Mark
    requires CanCall(n)
  {
    Heard(Request(JobFor(g, n, c), Turn(0, 0, 0, None)), Reply(SHORT))
  }

  /** Of the tasks of a level, this one moves first. */
  lemma KidCalls(g: GraphSpec, outputs: map<Id, Value>, run: seq<Id>, i: nat, join: seq<Outcome> -> Proc, n: Node,
                 p: Proc, t0: seq<Mark>, t: seq<Mark>) returns (q: Proc, t1: seq<Mark>, c: Ctx)
    requires UniqueIds(g) && Known(g, run) && i < |run| && run[i] == n.id && n in g.nodes && CanCall(n) && Shut(t)
    requires Ran(p, Fork(NodeKids(EASY, g, 0, outputs, run), join), t0, t)
    ensures Shut(t1) && Ran(p, q, t0, t1 + [Called(g, n, c)])
  {
    hide Ran;
    var kids := NodeKids(EASY, g, 0, outputs, run);
    SameNode(g, n, FindNode(g, run[i]).value);
    assert kids[i].body == AgentRun(EASY, g, outputs, n);
    var next;
    next, t1, c := AgentCalls(g, outputs, n, t);
    var now := t1 + [Called(g, n, c)];
    RanKid(kids, join, i, next, t, now);
    q := Fork(kids[i := kids[i].(body := next)], join);
    RanOn(p, Fork(kids, join), q, t0, t, now);
  }

  /** A smooth agent node is called in some run, with no gate open. */
  lemma SmoothIsCalled(g: GraphSpec, ls: seq<seq<Id>>, k: nat, n: Node, t0: seq<Mark>) returns (q: Proc, t1: seq<Mark>, c: Ctx)
    requires UniqueIds(g) && LevelsOf(g) == Some(ls) && k < |ls| && (forall l | l in ls :: Known(g, l)) && Shut(t0)
    requires n in g.nodes && CanCall(n) && n.id in ls[k] && Smooth(g, n.id)
    ensures Shut(t1) && Ran(RunGraph(EASY, g, 0, map[]), q, t0, t1 + [Called(g, n, c)])
  {
    hide Ran, RunGraph, BoardOk, Smooth;
    var p := RunGraph(EASY, g, 0, map[]);
    var b, t := ReachLevel(g, ls, k, t0);
    SmoothRuns(g, ls, k, b, n.id);
    assert ls[k..][0] == ls[k] && ls[k] in ls;
    var run := Runnable(EASY, g, b, ls[k]);
    var i :| 0 <= i < |run| && run[i] == n.id;
    assert Known(g, run);
    var fork := RunLevels(EASY, g, 0, ls[k..], b);
    assert fork.Fork? && fork.kids == NodeKids(EASY, g, 0, b.outputs, run);
    q, t1, c := KidCalls(g, b.outputs, run, i, fork.join, n, p, t0, t);
  }

  /** What safety says of one node: no call without an approval above it granted first. */
  ghost predicate CalledSafely(w: World, g: GraphSpec, sched: seq<Step>, n: Node, t: nat)
  {
    Exec(RunWhole(w, g), sched).Some? && CallFor(n, Exec(RunWhole(w, g), sched).value.tape, t) ==>
      ApprovedFirst(g, n, Exec(RunWhole(w, g), sched).value.tape, t)
  }

  /** The side-effect rule, over every world and every run. */
  ghost predicate AlwaysSafe(g: GraphSpec) {
    forall w: World, sched: seq<Step>, n, t: nat | n in g.nodes && Declares(n) :: CalledSafely(w, g, sched, n, t)
  }

  /** The graph is accepted, and layers. */
  ghost predicate Starts(g: GraphSpec) {
    Validate(g) == Problems([]) && UniqueIds(g) && LevelsOf(g).Some?
  }

  /** A node that nothing above it stops can be called with nothing granted, so not safely. */
  lemma UnshelteredIsCalled(g: GraphSpec, n: Node) returns (sched: seq<Step>, t: nat)
    requires Starts(g) && n in g.nodes && CanCall(n) && Smooth(g, n.id)
    ensures Exec(RunWhole(EASY, g), sched).Some? && CallFor(n, Exec(RunWhole(EASY, g), sched).value.tape, t)
    ensures NoGrant(Exec(RunWhole(EASY, g), sched).value.tape)
  {
    hide Ran, RunGraph, Smooth;
    NotComp(g, n);
    var ls := LevelsOf(g).value;
    LevelsKnown(g, ls);
    LevelsShape(g);
    assert Placed(ls, n.id);
    var k :| At(ls, k, n.id);
    var whole := RunWhole(EASY, g);
    var fork := whole.next;
    var start := Event(RunStart, None);
    RanOne(start, fork, []);
    var t0 := [] + [Wrote(start, FREE)];
    var q, t1, c := SmoothIsCalled(g, ls, k, n, t0);
    var tape := t1 + [Called(g, n, c)];
    assert fork.kids[0].body == RunGraph(EASY, g, 0, map[]);
    RanKid(fork.kids, fork.join, 0, q, t0, tape);
    var last := Fork(fork.kids[0 := fork.kids[0].(body := q)], fork.join);
    RanOn(whole, fork, last, [], t0, tape);
    sched := Scheduled(whole, last, tape);
    t := |t1|;
    assert tape[t] == Called(g, n, c);
  }

  lemma Scheduled(p: Proc, q: Proc, tape: seq<Mark>) returns (sched: seq<Step>)
    requires Ran(p, q, [], tape)
    ensures Exec(p, sched) == Some(Run(q, tape))
  {
    assert tape[0..] == tape;
    sched :| Takes(p, q, sched, tape);
  }

  /** No subgraph node that could run stands above a declaring node. */
  ghost predicate NoneNestedAbove(g: GraphSpec) {
    forall n, m | n in g.nodes && m in g.nodes && Declares(n) && CanCall(n) && m.ntype == SubgraphNode && m.subgraph.Some? ::
      !ScheduledAbove(g, m.id, n.id)
  }

  lemma GuardedIsSafe(w: World, g: GraphSpec, sched: seq<Step>, n: Node, t: nat)
    requires (Starts(g) ==> Guards(g)) && n in g.nodes && Declares(n)
    ensures CalledSafely(w, g, sched, n, t)
  {
    if Exec(RunWhole(w, g), sched).Some? && CallFor(n, Exec(RunWhole(w, g), sched).value.tape, t) {
      var tape := Exec(RunWhole(w, g), sched).value.tape;
      hide RunWhole, LevelsOf;
      OnlyStartedCalls(w, g, sched, tape[t]);
      GatesFirst(w, g, sched, t);
      assert Within(g, g);
      AllowedWithin(g, g, n, Gains(tape[..t]));
      var a :| IsApproval(g, a) && ScheduledAbove(g, a, n.id);
      ScheduledIsAbove(g, a, n.id);
      var s := GrantInLog(tape[..t], a);
      assert tape[..t][s] == tape[s];
    }
  }

  /** A run that asks anything is of a graph that starts. */
  lemma OnlyStartedCalls(w: World, g: GraphSpec, sched: seq<Step>, m: Mark)
    requires Exec(RunWhole(w, g), sched).Some? && m in Exec(RunWhole(w, g), sched).value.tape && m.Heard?
    ensures Starts(g)
  {
    hide LevelsOf, Validate, UniqueIds, AllIds, NoDup, Exec;
    RefusedAsksNothing(w, g, sched, m);
    if LevelsOf(g).None? {
      var p, never := RunWhole(w, g), (q: Query) => false;
      assert p.next.kids[0].body == RunGraph(w, g, 0, map[]) && p.next.kids[0].body.Done?;
      forall outs: seq<Outcome> | |outs| == 1 ensures Asks(p.next.join(outs), never) {
        assert outs[0].Ended? ==> Asks(AfterRun(outs[0]).next, never);
      }
      assert Asks(p.next, never);
      AsksRun(p, sched, never);
    }
  }

  /** Below no gate and nothing dead, with no nested graph above, everything can pass. */
  lemma UnguardedIsSmooth(g: GraphSpec, n: Node)
    requires Starts(g) && NoneNestedAbove(g) && n in g.nodes && Declares(n) && CanCall(n) && Fed(g, n.id)
    requires forall a | IsApproval(g, a) :: !ScheduledAbove(g, a, n.id)
    ensures Smooth(g, n.id)
  {
    hide LevelsOf, Validate, ScheduledAbove;
    SameNode(g, FindNode(g, n.id).value, n);
    NotComp(g, n);
    forall a | ScheduledAbove(g, a, n.id) ensures Easy(g, a) {
      AboveIsNode(g, a, n.id);
      var m := FindNode(g, a).value;
      assert m in g.nodes && m.id == a && !IsDead(g, a) && !IsApproval(g, a);
      AboveIsNoComp(g, a, n.id);
    }
  }

  /** What the scheduler places above a node of a graph that layers is a node. */
  lemma AboveIsNode(g: GraphSpec, a: Id, n: Id)
    requires LevelsOf(g).Some? && n in Steps(g) && ScheduledAbove(g, a, n)
    ensures a in Ids(g)
  {
    var ps: seq<Id> :| |ps| >= 2 && Ordered(g, ps) && ps[0] == a && ps[|ps| - 1] == n;
    WalkOfSteps(g, ps);
  }

  lemma {:induction false} WalkOfSteps(g: GraphSpec, ps: seq<Id>)
    requires LevelsOf(g).Some? && Ordered(g, ps) && |ps| >= 1 && ps[|ps| - 1] in Steps(g)
    ensures ps[0] in Steps(g)
    decreases |ps|
  {
    if |ps| > 1 {
      var front, p, c := ps[..|ps| - 1], ps[|ps| - 2], ps[|ps| - 1];
      assert HasEdge(g, p, c);
      var e :| e in g.edges && e.src == p && e.dst == c;
      assert Orders(g, e);
      if p !in Ids(g) { DanglingRaises(g, e); }
      forall i | 0 <= i < |front| - 1 ensures HasEdge(g, front[i], front[i + 1]) { assert HasEdge(g, ps[i], ps[i + 1]); }
      WalkOfSteps(g, front);
    }
  }

  lemma AboveIsNoComp(g: GraphSpec, a: Id, n: Id)
    requires ScheduledAbove(g, a, n)
    ensures a !in Comps(g)
  {
    var ps: seq<Id> :| |ps| >= 2 && Ordered(g, ps) && ps[0] == a && ps[|ps| - 1] == n;
  }

  /**
   * The side-effect rule holds of a graph's nodes in every world and every run
   * exactly when the graph does not start, or the scheduler places an approval
   * above every declaring node that could ever be called: one with an agent, a
   * budget and an attempt, below nothing that can never pass. Only nested
   * graphs above such a node are excluded; elsewhere they may stand.
   */
  lemma SafeIffSheltered(g: GraphSpec)
    requires NoneNestedAbove(g)
    ensures AlwaysSafe(g) <==> (Starts(g) ==> Guards(g))
  {
    if Starts(g) ==> Guards(g) {
      forall w: World, sched: seq<Step>, n, t: nat | n in g.nodes && Declares(n) ensures CalledSafely(w, g, sched, n, t) {
        GuardedIsSafe(w, g, sched, n, t);
      }
    }
    if AlwaysSafe(g) && Starts(g) {
      forall n | n in g.nodes && Declares(n) && CanCall(n) && Fed(g, n.id)
        ensures exists a :: IsApproval(g, a) && ScheduledAbove(g, a, n.id)
      {
        if forall a | IsApproval(g, a) :: !ScheduledAbove(g, a, n.id) {
          UnguardedIsUnsafe(g, n);
        }
      }
    }
  }

  lemma UnguardedIsUnsafe(g: GraphSpec, n: Node)
    requires Starts(g) && NoneNestedAbove(g) && n in g.nodes && Declares(n) && CanCall(n) && Fed(g, n.id)
    requires forall a | IsApproval(g, a) :: !ScheduledAbove(g, a, n.id)
    ensures !AlwaysSafe(g)
  {
    UnguardedIsSmooth(g, n);
    var sched, t := UnshelteredIsCalled(g, n);
    hide RunWhole;
    assert !CalledSafely(EASY, g, sched, n, t);
  }

  // ---------- the gap, in the smallest graph that has it ----------

  /** gate -> undo -> act: the validator walks through the compensator, the scheduler does not. */
  function Bypass(effects: seq<string>): GraphSpec {
    GraphSpec(1,
      [Node("gate", ApprovalNode, None, "", None, 1, None),
       Node("undo", CompensateNode, None, "", Some("act"), 1, None),
       Node("act", AgentNode, Some(AgentSpec("a", "m", SharedRo, 8000, "", effects)), "", None, 1, None)],
      [Edge("gate", "undo", ""), Edge("undo", "act", "")])
  }

  /** The validator accepts it, although the scheduler runs `act` without waiting for `gate`. */
  lemma BypassIsAccepted(effects: seq<string>)
    requires effects != []
    ensures Validate(Bypass(effects)) == Problems([]) && UniqueIds(Bypass(effects)) && !Guards(Bypass(effects))
  {
    var g := Bypass(effects);
    var gate, undo, act := g.nodes[0], g.nodes[1], g.nodes[2];
    assert g.nodes == [gate, undo, act] && g.edges == [Edge("gate", "undo", ""), Edge("undo", "act", "")];
    BypassValidates(effects);
    BypassUnique(effects);
    assert act in g.nodes && Declares(act) && CanCall(act);
    forall a ensures !(IsApproval(g, a) && ScheduledAbove(g, a, "act")) { NothingAboveAct(effects, a); }
  }

  /** And some run of it calls `act` with nothing granted. */
  lemma BypassIsUnsafe(effects: seq<string>)
    requires effects != []
    ensures !AlwaysSafe(Bypass(effects))
  {
    hide LevelsOf, Validate, UniqueIds, ScheduledAbove, Bypass;
    var g := Bypass(effects);
    var act := BypassedNode(effects);
    BypassIsAccepted(effects);
    BypassLayers(effects);
    forall a ensures !ScheduledAbove(g, a, "act") { NothingAboveAct(effects, a); }
    UnguardedIsUnsafe(g, act);
  }

  lemma BypassedNode(effects: seq<string>) returns (act: Node)
    requires effects != []
    ensures act in Bypass(effects).nodes && Declares(act) && CanCall(act) && act.id == "act"
    ensures NoneNestedAbove(Bypass(effects))
  {
    act := Bypass(effects).nodes[2];
  }

  lemma BypassLayers(effects: seq<string>)
    ensures LevelsOf(Bypass(effects)).Some?
  {
    var g := Bypass(effects);
    var gate, undo, act := g.nodes[0], g.nodes[1], g.nodes[2];
    assert g.nodes == [gate, undo, act] && undo in g.nodes;
    assert g.edges == [Edge("gate", "undo", ""), Edge("undo", "act", "")] && undo.id in Comps(g);
    var f: map<Id, nat> := map x | x in Steps(g) :: 0;
    assert IsLayering(g, f);
    LevelsExist(g);
  }

  lemma NothingAboveAct(effects: seq<string>, a: Id)
    ensures !ScheduledAbove(Bypass(effects), a, "act")
  {
    var g := Bypass(effects);
    if ScheduledAbove(g, a, "act") {
      var ps: seq<Id> :| |ps| >= 2 && Ordered(g, ps) && ps[0] == a && ps[|ps| - 1] == "act";
      assert HasEdge(g, ps[|ps| - 2], "act");
      var undo := g.nodes[1];
      assert undo in g.nodes && undo.id in Comps(g);
      OnlyUndo(effects, ps[|ps| - 2]);
    }
  }

  lemma OnlyUndo(effects: seq<string>, p: Id)
    requires HasEdge(Bypass(effects), p, "act")
    ensures p == "undo"
  {
  }

  lemma BypassUnique(effects: seq<string>)
    ensures UniqueIds(Bypass(effects))
  {
    var nodes := Bypass(effects).nodes;
    NothingNested(nodes);
    assert IdsOf(nodes) == ["gate", "undo", "act"];
    assert "gate"[0] == 'g' && "undo"[0] == 'u' && "act"[0] == 'a';
    assert AllIds(Bypass(effects)) == ["gate", "undo", "act"];
  }

  lemma BypassValidates(effects: seq<string>)
    ensures Validate(Bypass(effects)) == Problems([])
  {
    var g := Bypass(effects);
    var gate, undo, act := g.nodes[0], g.nodes[1], g.nodes[2];
    assert g.nodes == [gate, undo, act];
    BypassReached(effects);
    hide UpstreamApproval;
    AllCovered(g, g.nodes);
  }

  lemma BypassReached(effects: seq<string>)
    ensures UpstreamApproval(Bypass(effects), "act") == Found
  {
    hide UpstreamApproval;
    var g := Bypass(effects);
    var gate, undo := g.nodes[0], g.nodes[1];
    assert gate in g.nodes && undo in g.nodes && FindNode(g, "gate") == Some(gate) && IsApproval(g, "gate");
    var e, f := g.edges[0], g.edges[1];
    assert e in g.edges && f in g.edges && g.edges == [e, f];
    assert HasEdge(g, "gate", "undo") && HasEdge(g, "undo", "act");
    assert WalkFromTo(g, ["gate", "undo", "act"], "gate", "act");
    assert Above(g, "gate", "act");
    UpstreamApprovalDecides(g, "act");
  }
}
