// A graph that asks for no clarifications runs the same whatever they are:
// the task trees of two executors that differ in them alone cannot be told
// apart.
module Unclarified {
  import opened Base
  import opened Graph
  import opened Layering
  import opened Events
  import opened Tasks
  import opened Confluence
  import opened Kernel

  /** No clarify node at any nesting level. */
  predicate Unasked(g: GraphSpec) {
    forall n | n in g.nodes :: n.ntype != ClarifyNode && (n.subgraph.Some? ==> Unasked(n.subgraph.value))
  }

  /** Executors that differ in their clarifications at most. */
  ghost predicate SameRules(w: World, w': World) { w' == w.(clarifications := w'.clarifications) }

  // ---------- task trees that cannot be told apart ----------

  /** Not within `k` steps of any one task. */
  ghost predicate Alike(k: nat, p: Proc, q: Proc)
    decreases k, p
  {
    k == 0 || p == q || match p
      case Done(_) => false
      case Emit(batch, next) => q.Emit? && q.batch == batch && Alike(k - 1, next, q.next)
      case Ask(query, _) => q.Ask? && q.q == query && forall a | Fits(query, a) :: Alike(k - 1, p.k(a), q.k(a))
      case Note(receipt, next) => q.Note? && q.receipt == receipt && Alike(k - 1, next, q.next)
      case Fork(kids, join) =>
        && q.Fork? && |q.kids| == |kids|
        && (forall i | 0 <= i < |kids| ::
              q.kids[i].scope == kids[i].scope && q.kids[i].late == kids[i].late && Alike(k, kids[i].body, q.kids[i].body))
        && forall outs | |outs| == |kids| :: Alike(k - 1, join(outs), q.join(outs))
  }

  lemma {:induction false} AlikeFewer(k: nat, p: Proc, q: Proc)
    requires Alike(k + 1, p, q)
    ensures Alike(k, p, q)
    decreases k, p
  {
    if k > 0 && p != q {
      match p
      case Emit(_, next) => AlikeFewer(k - 1, next, q.next);
      case Note(_, next) => AlikeFewer(k - 1, next, q.next);
      case Ask(query, _) =>
        forall a | Fits(query, a) ensures Alike(k - 1, p.k(a), q.k(a)) { AlikeFewer(k - 1, p.k(a), q.k(a)); }
      case Fork(kids, join) =>
        forall i | 0 <= i < |kids| ensures Alike(k, kids[i].body, q.kids[i].body) {
          AlikeFewer(k, kids[i].body, q.kids[i].body);
        }
        forall outs | |outs| == |kids| ensures Alike(k - 1, join(outs), q.join(outs)) {
          AlikeFewer(k - 1, join(outs), q.join(outs));
        }
    }
  }

  lemma AlikeAfter(k: nat, query: Query, a: Answer, p: Proc, q: Proc)
    requires Alike(k, p, q)
    ensures Alike(k, AfterAnswer(query, a, p), AfterAnswer(query, a, q))
  {
    if k > 0 && Receipt(query, a).Some? { AlikeFewer(k - 1, p, q); }
  }

  /** The same steps are enabled and leave the same marks. */
  lemma {:induction false} AlikeFire(k: nat, p: Proc, q: Proc, s: Step)
    requires Alike(k + 1, p, q) && Fire(p, s).Some? && CalmStep(s)
    ensures Fire(q, s).Some? && Fire(q, s).value.marks == Fire(p, s).value.marks
    ensures Alike(k, Fire(p, s).value.next, Fire(q, s).value.next)
    decreases s
  {
    if p == q {
    } else {
      match s
      case Hear(a) => AlikeAfter(k, p.q, a, p.k(a), q.k(a));
      case Join => AlikeJoin(k, p, q);
      case In(i, inner) =>
        AlikeFire(k, p.kids[i].body, q.kids[i].body, inner);
        AlikeKid(k, p, q, i, Fire(p.kids[i].body, inner).value.next, Fire(q.kids[i].body, inner).value.next);
      case _ =>
    }
  }

  lemma AlikeJoin(k: nat, p: Proc, q: Proc)
    requires p.Fork? && q.Fork? && p != q && Alike(k + 1, p, q) && AllDone(p.kids)
    ensures AllDone(q.kids) && Alike(k, p.join(Outs(p.kids)), q.join(Outs(q.kids)))
  {
    forall i | 0 <= i < |p.kids| ensures q.kids[i].body == p.kids[i].body {
      assert Alike(k + 1, p.kids[i].body, q.kids[i].body);
    }
    assert Outs(q.kids) == Outs(p.kids);
  }

  /** One task of a gather moves on. */
  lemma AlikeKid(k: nat, p: Proc, q: Proc, i: nat, a: Proc, b: Proc)
    requires p.Fork? && q.Fork? && p != q && Alike(k + 1, p, q) && i < |p.kids| && Alike(k, a, b)
    ensures Alike(k, Fork(p.kids[i := p.kids[i].(body := a)], p.join), Fork(q.kids[i := q.kids[i].(body := b)], q.join))
  {
    if k > 0 {
      forall j | 0 <= j < |p.kids| ensures Alike(k, p.kids[j].body, q.kids[j].body) {
        AlikeFewer(k, p.kids[j].body, q.kids[j].body);
      }
      forall outs | |outs| == |p.kids| ensures Alike(k - 1, p.join(outs), q.join(outs)) {
        AlikeFewer(k - 1, p.join(outs), q.join(outs));
      }
    }
  }

  lemma AlikeDone(p: Proc, q: Proc)
    requires Alike(1, p, q) && p.Done?
    ensures p == q
  {
  }

  lemma {:induction false} AlikeExec(p: Proc, q: Proc, sched: seq<Step>)
    requires Alike(|sched| + 1, p, q) && Calm(sched) && Exec(p, sched).Some? && Exec(p, sched).value.proc.Done?
    ensures Exec(q, sched) == Exec(p, sched)
    decreases |sched|
  {
    hide Alike, Fire;
    if sched == [] {
      AlikeDone(p, q);
    } else {
      assert CalmStep(sched[0]);
      AlikeFire(|sched|, p, q, sched[0]);
      AlikeExec(Fire(p, sched[0]).value.next, Fire(q, sched[0]).value.next, sched[1..]);
    }
  }

  // ---------- the executor's task trees ----------

  /** One awaited child, and the same to follow. */
  lemma AlikeWrap(k: nat, p: Proc, q: Proc)
    requires p.Fork? && q.Fork? && |p.kids| == |q.kids| == 1
    requires p.kids[0].scope == q.kids[0].scope && p.kids[0].late == q.kids[0].late
    requires Alike(k, p.kids[0].body, q.kids[0].body)
    requires forall outs | |outs| == 1 :: p.join(outs) == q.join(outs)
    ensures Alike(k, p, q)
  {
  }

  lemma {:induction false} AlikeProduce(k: nat, w: World, w': World, j: Job, t: Turn)
    requires SameRules(w, w') && InLoops(w, j, t)
    ensures Alike(k, Produce(w, j, t), Produce(w', j, t))
    decreases k, 0
  {
    if k > 0 && j.agent.budgetTokens - t.spent > 0 {
      forall a | Fits(Request(j, t), a) ensures Alike(k - 1, Produced(w, j, t, a), Produced(w', j, t, a)) {
        AlikeProduced(k - 1, w, w', j, t, a);
      }
    }
  }

  lemma {:induction false} AlikeProduced(k: nat, w: World, w': World, j: Job, t: Turn, a: Answer)
    requires SameRules(w, w') && InLoops(w, j, t)
    ensures Alike(k, Produced(w, j, t, a), Produced(w', j, t, a))
    decreases k, 2
  {
    if k > 0 {
      match a
      case Reply(c) =>
        var spent := t.spent + c.tokensIn + c.tokensOut;
        if spent <= j.agent.budgetTokens { AlikeJudged(k - 1, w, w', j, t.(spent := spent), c.text); }
      case Raised(e) => AlikeTryAgain(k, w, w', j, t, e);
      case _ =>
    }
  }

  lemma {:induction false} AlikeJudged(k: nat, w: World, w': World, j: Job, t: Turn, text: string)
    requires SameRules(w, w') && InLoops(w, j, t)
    ensures Alike(k, Judged(w, j, t, text), Judged(w', j, t, text))
    decreases k, 2
  {
    match w.judge(text, j.schema)
    case Accept(_) =>
    case Reject(errors) => AlikeRejection(k, w, w', j, t, errors);
    case Crash(m) => AlikeTryAgain(k, w, w', j, t, OtherError(m));
  }

  lemma {:induction false} AlikeRejection(k: nat, w: World, w': World, j: Job, t: Turn, errors: seq<string>)
    requires SameRules(w, w') && InLoops(w, j, t)
    ensures Alike(k, Rejection(w, j, t, errors), Rejection(w', j, t, errors))
    decreases k, 1
  {
    hide Produce;
    if k > 1 && t.repair != w.maxRepairs { AlikeProduce(k - 2, w, w', j, Corrected(j, t, errors)); }
  }

  lemma {:induction false} AlikeTryAgain(k: nat, w: World, w': World, j: Job, t: Turn, e: Error)
    requires SameRules(w, w') && InLoops(w, j, t)
    ensures Alike(k, TryAgain(w, j, t, e), TryAgain(w', j, t, e))
    decreases k, 1
  {
    hide Produce;
    if k > 0 && t.retry != j.retries { AlikeProduce(k - 1, w, w', j, Turn(t.retry + 1, 0, t.spent, None)); }
  }

  lemma {:induction false} AlikeScreen(k: nat, w: World, w': World, g: GraphSpec, n: Node, agent: AgentSpec, c: Ctx, left: Ctx,
                                       blocked: bool)
    requires SameRules(w, w')
    ensures Alike(k, Screen(w, g, n, agent, c, left, blocked), Screen(w', g, n, agent, c, left, blocked))
    decreases |left|
  {
    if left == [] {
      if n.maxRetries >= 0 { AlikeProduce(k, w, w', Job(n.id, agent, c, SchemaFor(g, n, agent), n.maxRetries), Turn(0, 0, 0, None)); }
      if !blocked { AlikeWrap(k, Screen(w, g, n, agent, c, left, blocked), Screen(w', g, n, agent, c, left, blocked)); }
    } else {
      var bad := w.flagged(left[0].1);
      AlikeScreen(k, w, w', g, n, agent, c, left[1..], blocked || bad);
      if bad && k > 0 { AlikeScreen(k - 1, w, w', g, n, agent, c, left[1..], blocked || bad); }
    }
  }

  lemma AlikeRecalled(k: nat, w: World, w': World, g: GraphSpec, n: Node, agent: AgentSpec, up: Ctx, a: Answer)
    requires SameRules(w, w')
    ensures Alike(k, Recalled(w, g, n, agent, up, a), Recalled(w', g, n, agent, up, a))
  {
    if a.Memory? {
      hide Screen;
      var c := if a.live == [] then up else PutAll(a.live, up);
      AlikeScreen(k, w, w', g, n, agent, c, c, false);
      if k > 0 { AlikeScreen(k - 1, w, w', g, n, agent, c, c, false); }
      if k > 1 { AlikeScreen(k - 2, w, w', g, n, agent, c, c, false); }
    }
  }

  /** After its start row, an agent asks for its memory, or is screened. */
  lemma AlikeStarted(k: nat, w: World, w': World, g: GraphSpec, outputs: map<Id, Value>, n: Node)
    requires SameRules(w, w') && n.agent.Some?
    ensures Alike(k, AgentRun(w, g, outputs, n).next, AgentRun(w', g, outputs, n).next)
  {
    hide Screen, Recalled, UpstreamContext;
    var agent, up := n.agent.value, UpstreamContext(g, outputs, n.id);
    AlikeScreen(k, w, w', g, n, agent, up, up, false);
    if k > 0 && g.version >= 2 {
      forall a ensures Alike(k - 1, Recalled(w, g, n, agent, up, a), Recalled(w', g, n, agent, up, a)) {
        AlikeRecalled(k - 1, w, w', g, n, agent, up, a);
      }
    }
  }

  lemma AlikeAgent(k: nat, w: World, w': World, g: GraphSpec, outputs: map<Id, Value>, n: Node)
    requires SameRules(w, w')
    ensures Alike(k, AgentRun(w, g, outputs, n), AgentRun(w', g, outputs, n))
  {
    hide Screen, Recalled, UpstreamContext;
    if k > 0 && n.agent.Some? { AlikeStarted(k - 1, w, w', g, outputs, n); }
  }

  lemma {:induction false} AlikeSubgraph(k: nat, w: World, w': World, g: GraphSpec, depth: nat, outputs: map<Id, Value>, n: Node)
    requires SameRules(w, w') && n in g.nodes && Unasked(g)
    ensures Alike(k, SubgraphRun(w, g, depth, outputs, n), SubgraphRun(w', g, depth, outputs, n))
    decreases g, 0, 0
  {
    hide RunGraph;
    if n.subgraph.Some? {
      AlikeGraph(k, w, w', n.subgraph.value, depth + 1, ChildSeed(g, outputs, n.id));
    }
  }

  lemma {:induction false} AlikeNode(k: nat, w: World, w': World, g: GraphSpec, depth: nat, outputs: map<Id, Value>, n: Node)
    requires SameRules(w, w') && n in g.nodes && Unasked(g)
    ensures Alike(k, RunNode(w, g, depth, outputs, n), RunNode(w', g, depth, outputs, n))
    decreases g, 0, 1
  {
    hide Alike, AgentRun, SubgraphRun;
    assert n.ntype != ClarifyNode;
    AlikeAgent(k, w, w', g, outputs, n);
    AlikeSubgraph(k, w, w', g, depth, outputs, n);
    AlikeEnd(k, RunNode(w, g, depth, outputs, n), RunNode(w, g, depth, outputs, n));
  }

  lemma {:induction false} AlikeLevels(k: nat, w: World, w': World, g: GraphSpec, depth: nat, ls: seq<seq<Id>>, b: Board)
    requires SameRules(w, w') && Unasked(g) && forall l | l in ls :: Known(g, l)
    ensures Alike(k, RunLevels(w, g, depth, ls, b), RunLevels(w', g, depth, ls, b))
    decreases g, 1, |ls|
  {
    hide Alike, AlikeTask, NodeKids, Runnable, SkipOthers, Compensate;
    if k == 0 || ls == [] {
      AlikeEnd(k, RunLevels(w, g, depth, ls, b), RunLevels(w', g, depth, ls, b));
    } else {
      assert ls[0] in ls;
      var run := Runnable(w, g, b, ls[0]);
      SameRunnable(w, w', g, b, ls[0]);
      var b1 := SkipOthers(b, ls[0], run);
      if run == [] {
        AlikeLevels(k, w, w', g, depth, ls[1..], b1);
      } else {
        var p, q := RunLevels(w, g, depth, ls, b), RunLevels(w', g, depth, ls, b);
        assert p.kids == NodeKids(w, g, depth, b.outputs, run) && q.kids == NodeKids(w', g, depth, b.outputs, run);
        AlikeKids(k, w, w', g, depth, b.outputs, run);
        forall outs | |outs| == |run| ensures Alike(k - 1, p.join(outs), q.join(outs)) {
          AlikeLevels(k - 1, w, w', g, depth, ls[1..], SettleAll(b1, run, outs));
        }
        AlikeGather(k, p, q);
      }
    }
  }

  lemma AlikeEnd(k: nat, p: Proc, q: Proc)
    requires k == 0 || p == q
    ensures Alike(k, p, q)
  {
  }

  ghost predicate AlikeTask(k: nat, a: Kid, b: Kid) {
    a.scope == b.scope && a.late == b.late && Alike(k, a.body, b.body)
  }

  lemma AlikeGather(k: nat, p: Proc, q: Proc)
    requires k > 0 && p.Fork? && q.Fork? && |p.kids| == |q.kids|
    requires forall i | 0 <= i < |p.kids| :: AlikeTask(k, p.kids[i], q.kids[i])
    requires forall outs | |outs| == |p.kids| :: Alike(k - 1, p.join(outs), q.join(outs))
    ensures Alike(k, p, q)
  {
  }

  lemma {:induction false} AlikeKids(k: nat, w: World, w': World, g: GraphSpec, depth: nat, outputs: map<Id, Value>, ids: seq<Id>)
    requires SameRules(w, w') && Unasked(g) && Known(g, ids)
    ensures var a, b := NodeKids(w, g, depth, outputs, ids), NodeKids(w', g, depth, outputs, ids);
      forall i | 0 <= i < |ids| :: AlikeTask(k, a[i], b[i])
    decreases g, 0, 2
  {
    hide Alike, RunNode;
    var a, b := NodeKids(w, g, depth, outputs, ids), NodeKids(w', g, depth, outputs, ids);
    forall i | 0 <= i < |ids| ensures AlikeTask(k, a[i], b[i]) {
      AlikeNode(k, w, w', g, depth, outputs, FindNode(g, ids[i]).value);
    }
  }

  lemma {:induction false} SameRunnable(w: World, w': World, g: GraphSpec, b: Board, level: seq<Id>)
    requires SameRules(w, w')
    ensures Runnable(w, g, b, level) == Runnable(w', g, b, level)
  {
    if level != [] { SameRunnable(w, w', g, b, level[1..]); }
  }

  lemma {:induction false} AlikeGraph(k: nat, w: World, w': World, g: GraphSpec, depth: nat, seed: map<Id, Value>)
    requires SameRules(w, w') && Unasked(g)
    ensures Alike(k, RunGraph(w, g, depth, seed), RunGraph(w', g, depth, seed))
    decreases g, 2
  {
    match LevelsOf(g)
    case None =>
    case Some(ls) =>
      LevelsKnown(g, ls);
      AlikeLevels(k, w, w', g, depth, ls, Board(map[], seed, []));
  }

  lemma AlikeWhole(k: nat, w: World, w': World, g: GraphSpec)
    requires SameRules(w, w') && Unasked(g)
    ensures Alike(k, RunWhole(w, g), RunWhole(w', g))
  {
    hide RunGraph;
    if k > 0 {
      AlikeGraph(k - 1, w, w', g, 0, map[]);
      var p, q := RunWhole(w, g), RunWhole(w', g);
      if p.Emit? && p.next.Fork? { AlikeWrap(k - 1, p.next, q.next); }
    }
  }

  /** A graph that asks for no clarifications has the same complete runs whatever they are. */
  lemma SameRuns(w: World, w': World, g: GraphSpec, sched: seq<Step>, out: Outcome, tape: seq<Mark>)
    requires SameRules(w, w') && Unasked(g)
    ensures Completes(RunWhole(w, g), sched, out, tape) <==> Completes(RunWhole(w', g), sched, out, tape)
  {
    hide RunWhole;
    AlikeWhole(|sched| + 1, w, w', g);
    AlikeWhole(|sched| + 1, w', w, g);
    var p, q := RunWhole(w, g), RunWhole(w', g);
    if Completes(p, sched, out, tape) { AlikeExec(p, q, sched); }
    if Completes(q, sched, out, tape) { AlikeExec(q, p, sched); }
  }
}
