// Proving something of every task the executor builds: enough to prove it of
// one handoff, if it survives the ways tasks are put together.
module KernelInduction {
  import opened Base
  import opened Graph
  import opened Layering
  import opened Events
  import opened Tasks
  import opened Kernel

  /** Rows that are not part of a handoff. */
  predicate Plain(k: Kind) {
    k.RunStart? || k.RunEnd? || k.GraphRejected? || k.NodeStart? || k.NodeEnd? || k.BlockedEnd? || k.TimedOut?
    || k.Compensated? || k.ApprovalRequested? || k.InjectionBlocked? || k.MemoryRead? || k.MemoryEvicted? || k.MemoryWrite?
  }

  predicate PlainEmit(p: Proc) {
    p.Emit? && forall e | e in p.batch :: Plain(e.kind)
  }

  /** `good` holds of finished tasks, and plain rows, gates and gathers preserve it. */
  ghost predicate Inductive(good: Proc -> bool, recalls: bool) {
    && (forall o: Outcome {:trigger good(Done(o))} :: good(Done(o)))
    && (forall p: Proc {:trigger PlainEmit(p)} | PlainEmit(p) && good(p.next) :: good(p))
    && (forall p: Proc {:trigger GoodAsk(p, good, recalls)} | GoodAsk(p, good, recalls) :: good(p))
    && (forall p: Proc {:trigger GoodFork(p, good)} | GoodFork(p, good) :: good(p))
  }

  ghost predicate GoodAsk(p: Proc, good: Proc -> bool, recalls: bool) {
    && p.Ask? && (p.q.Gate? || (recalls && p.q.Recall?))
    && forall a | Fits(p.q, a) :: good(p.k(a))
  }

  ghost predicate GoodFork(p: Proc, good: Proc -> bool) {
    && p.Fork?
    && (forall i | 0 <= i < |p.kids| :: good(p.kids[i].body) && (p.kids[i].late.Some? ==> good(p.kids[i].late.value)))
    && (forall outs | |outs| == |p.kids| :: good(p.join(outs)))
  }

  /** Every handoff the executor can start in this world is good. */
  ghost predicate GoodHandoffs(w: World, good: Proc -> bool) {
    forall g: GraphSpec, n: Node, agent: AgentSpec, c: Ctx :: good(Handoff(w, g, n, agent, c))
  }

  lemma WrapGood(p: Proc, good: Proc -> bool, recalls: bool)
    requires Inductive(good, recalls) && p.Fork? && |p.kids| == 1 && p.kids[0].late.None? && good(p.kids[0].body)
    requires forall outs | |outs| == 1 :: good(p.join(outs))
    ensures good(p)
  {
    assert GoodFork(p, good);
  }

  lemma AfterHandoffGood(w: World, g: GraphSpec, n: Node, agent: AgentSpec, o: Outcome, good: Proc -> bool, recalls: bool)
    requires Inductive(good, recalls)
    ensures good(AfterHandoff(w, g, n, agent, o)) && good(Late(n))
  {
    var p := AfterHandoff(w, g, n, agent, o);
    assert PlainEmit(Late(n)) && good(Late(n).next);
    if o.Accepted? {
      assert PlainEmit(p.next) || p.next.Done?;
      assert p.next.Emit? ==> good(p.next.next);
      assert PlainEmit(p) && good(p.next);
    } else if o.GaveUp? {
      assert PlainEmit(p) && good(p.next);
    }
  }

  lemma {:induction false} ScreenGood(w: World, g: GraphSpec, n: Node, agent: AgentSpec, c: Ctx, left: Ctx, blocked: bool,
                                      good: Proc -> bool, recalls: bool)
    requires Inductive(good, recalls) && GoodHandoffs(w, good)
    ensures good(Screen(w, g, n, agent, c, left, blocked))
    decreases |left|
  {
    var p := Screen(w, g, n, agent, c, left, blocked);
    if left == [] {
      if blocked {
        assert PlainEmit(p) && good(p.next);
      } else {
        forall outs | |outs| == 1 ensures good(p.join(outs)) {
          AfterHandoffGood(w, g, n, agent, outs[0], good, recalls);
        }
        AfterHandoffGood(w, g, n, agent, OverBudget, good, recalls);
        assert GoodFork(p, good);
      }
    } else {
      ScreenGood(w, g, n, agent, c, left[1..], blocked || w.flagged(left[0].1), good, recalls);
      if w.flagged(left[0].1) { assert PlainEmit(p); }
    }
  }

  lemma RecalledGood(w: World, g: GraphSpec, n: Node, agent: AgentSpec, up: Ctx, a: Answer, good: Proc -> bool, recalls: bool)
    requires Inductive(good, recalls) && GoodHandoffs(w, good) && a.Memory?
    ensures good(Recalled(w, g, n, agent, up, a))
  {
    var c := PutAll(a.live, up);
    ScreenGood(w, g, n, agent, up, up, false, good, recalls);
    ScreenGood(w, g, n, agent, c, c, false, good, recalls);
    var p := Recalled(w, g, n, agent, up, a);
    var last := if a.gone != [] then p.next else p;
    if a.live != [] { assert PlainEmit(last) && good(last.next); }
    assert good(last);
    if a.gone != [] { assert PlainEmit(p); }
  }

  lemma AgentGood(w: World, g: GraphSpec, outputs: map<Id, Value>, n: Node, good: Proc -> bool, recalls: bool)
    requires Inductive(good, recalls) && GoodHandoffs(w, good) && (recalls || g.version < 2)
    ensures good(AgentRun(w, g, outputs, n))
  {
    if n.agent.Some? {
      var agent := n.agent.value;
      var up := UpstreamContext(g, outputs, n.id);
      var p := AgentRun(w, g, outputs, n);
      if g.version >= 2 {
        forall a | Fits(p.next.q, a) ensures good(p.next.k(a)) {
          RecalledGood(w, g, n, agent, up, a, good, recalls);
        }
        assert GoodAsk(p.next, good, recalls);
      } else {
        ScreenGood(w, g, n, agent, up, up, false, good, recalls);
      }
      assert PlainEmit(p) && good(p.next);
    }
  }

  lemma SimpleGood(w: World, g: GraphSpec, outputs: map<Id, Value>, n: Node, good: Proc -> bool, recalls: bool)
    requires Inductive(good, recalls)
    ensures good(Approval(n)) && good(Passthrough(w, g, outputs, n))
  {
    var ask := Approval(n).next;
    forall a | Fits(ask.q, a) ensures good(ask.k(a)) { assert ask.k(a).Done?; }
    assert GoodAsk(ask, good, recalls);
    assert PlainEmit(Approval(n)) && good(Approval(n).next);
    var p := Passthrough(w, g, outputs, n);
    assert PlainEmit(p) && good(p.next);
  }

  /** Version 1 at every nesting level. */
  predicate FirstVersion(g: GraphSpec) {
    g.version < 2 && forall n | n in g.nodes && n.subgraph.Some? :: FirstVersion(n.subgraph.value)
  }

  lemma {:induction false} SubgraphGood(w: World, g: GraphSpec, depth: nat, outputs: map<Id, Value>, n: Node,
                                        good: Proc -> bool, recalls: bool)
    requires Inductive(good, recalls) && GoodHandoffs(w, good) && n in g.nodes && (recalls || FirstVersion(g))
    ensures good(SubgraphRun(w, g, depth, outputs, n))
    decreases g, 0, 0
  {
    if n.subgraph.Some? {
      GraphGood(w, n.subgraph.value, depth + 1, ChildSeed(g, outputs, n.id), good, recalls);
    }
    NestedGood(w, g, depth, outputs, n, good, recalls);
  }

  lemma NestedGood(w: World, g: GraphSpec, depth: nat, outputs: map<Id, Value>, n: Node, good: Proc -> bool, recalls: bool)
    requires Inductive(good, recalls) && n in g.nodes
    requires n.subgraph.Some? ==> good(RunGraph(w, n.subgraph.value, depth + 1, ChildSeed(g, outputs, n.id)))
    ensures good(SubgraphRun(w, g, depth, outputs, n))
  {
    hide RunGraph, Validate, ChildSeed;
    var p := SubgraphRun(w, g, depth, outputs, n);
    if p.Fork? { WrapGood(p, good, recalls); }
  }

  lemma {:induction false} NodeGood(w: World, g: GraphSpec, depth: nat, outputs: map<Id, Value>, n: Node,
                                    good: Proc -> bool, recalls: bool)
    requires Inductive(good, recalls) && GoodHandoffs(w, good) && n in g.nodes && (recalls || FirstVersion(g))
    ensures good(RunNode(w, g, depth, outputs, n))
    decreases g, 0, 1
  {
    match n.ntype
    case SubgraphNode => SubgraphGood(w, g, depth, outputs, n, good, recalls);
    case ApprovalNode => SimpleGood(w, g, outputs, n, good, recalls);
    case FanoutNode => SimpleGood(w, g, outputs, n, good, recalls);
    case JoinNode => SimpleGood(w, g, outputs, n, good, recalls);
    case ClarifyNode => SimpleGood(w, g, outputs, n, good, recalls);
    case CompensateNode =>
    case _ => AgentGood(w, g, outputs, n, good, recalls);
  }

  lemma {:induction false} CompensateGood(nodes: seq<Node>, b: Board, done: seq<Id>, good: Proc -> bool, recalls: bool)
    requires Inductive(good, recalls)
    ensures good(Compensate(nodes, b, done))
    decreases |nodes|
  {
    if nodes != [] {
      if Undoes(nodes[0], b.failed) {
        var r := if nodes[0].agent.Some? then Skipped else Passed(None);
        CompensateGood(nodes[1..], b.(results := b.results[nodes[0].id := r]), done + [nodes[0].id], good, recalls);
        assert PlainEmit(Compensate(nodes, b, done));
      } else {
        CompensateGood(nodes[1..], b, done, good, recalls);
      }
    }
  }

  lemma {:induction false} LevelsGood(w: World, g: GraphSpec, depth: nat, ls: seq<seq<Id>>, b: Board,
                                      good: Proc -> bool, recalls: bool)
    requires Inductive(good, recalls) && GoodHandoffs(w, good) && (recalls || FirstVersion(g))
    requires forall l | l in ls :: Known(g, l)
    ensures good(RunLevels(w, g, depth, ls, b))
    decreases g, 1, |ls|
  {
    if ls == [] {
      CompensateGood(g.nodes, b, [], good, recalls);
    } else {
      assert ls[0] in ls;
      var run := Runnable(w, g, b, ls[0]);
      var b1 := SkipOthers(b, ls[0], run);
      if run == [] {
        LevelsGood(w, g, depth, ls[1..], b1, good, recalls);
      } else {
        var p := RunLevels(w, g, depth, ls, b);
        assert p.kids == NodeKids(w, g, depth, b.outputs, run);
        forall i | 0 <= i < |run| ensures good(p.kids[i].body) {
          NodeGood(w, g, depth, b.outputs, FindNode(g, run[i]).value, good, recalls);
        }
        forall outs | |outs| == |p.kids| ensures good(p.join(outs)) {
          LevelsGood(w, g, depth, ls[1..], SettleAll(b1, run, outs), good, recalls);
        }
        assert GoodFork(p, good);
      }
    }
  }

  lemma {:induction false} GraphGood(w: World, g: GraphSpec, depth: nat, seed: map<Id, Value>, good: Proc -> bool, recalls: bool)
    requires Inductive(good, recalls) && GoodHandoffs(w, good) && (recalls || FirstVersion(g))
    ensures good(RunGraph(w, g, depth, seed))
    decreases g, 2
  {
    match LevelsOf(g)
    case None =>
    case Some(ls) =>
      LevelsKnown(g, ls);
      LevelsGood(w, g, depth, ls, Board(map[], seed, []), good, recalls);
  }

  /** What is inductive and holds of every handoff holds of every run. */
  lemma WholeGood(w: World, g: GraphSpec, good: Proc -> bool, recalls: bool)
    requires Inductive(good, recalls) && GoodHandoffs(w, good) && (recalls || FirstVersion(g))
    ensures good(RunWhole(w, g))
  {
    var p := RunWhole(w, g);
    if p.Emit? && p.next.Fork? {
      GraphGood(w, g, 0, map[], good, recalls);
      forall outs | |outs| == 1 ensures good(p.next.join(outs)) {
        var last := AfterRun(outs[0]);
        assert last.Emit? ==> PlainEmit(last) && good(last.next);
      }
      WrapGood(p.next, good, recalls);
    }
    if p.Emit? { assert PlainEmit(p) && good(p.next); }
  }
}
