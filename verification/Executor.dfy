// The Executor object: `results` and `outputs` updated in place over levels,
// nested graphs and compensators, proved to follow the task tree of Kernel.
module Executors {
  import opened Base
  import opened Graph
  import opened Layering
  import opened Events
  import opened Tasks
  import opened Machine
  import opened Kernel
  import opened Journals
  import opened Engine

  /** The nodes of a level that do not run are recorded as skipped. */
  lemma {:induction false} SkipStep(b: Board, level: seq<Id>, i: nat, run: seq<Id>)
    requires i < |level|
    ensures SkipOthers(b, level[..i + 1], run) ==
      if level[i] in run then SkipOthers(b, level[..i], run)
      else SkipOthers(b, level[..i], run).(results := SkipOthers(b, level[..i], run).results[level[i] := Skipped])
  {
    assert level[..i + 1] == level[..i] + [level[i]];
    var now, was := SkipOthers(b, level[..i + 1], run).results, SkipOthers(b, level[..i], run).results;
    assert now == if level[i] in run then was else was[level[i] := Skipped];
  }

  lemma WentKid(r: Terms, p: Proc, kids: seq<Kid>, join: seq<Outcome> -> Proc, outs: seq<Outcome>, out: Outcome,
                m0: Moment, m1: Moment, m2: Moment)
    requires |outs| < |kids| && Went(r, p, Fork(Partly(kids, outs), join), m0, m1)
    requires Went(r, kids[|outs|].body, Done(out), m1, m2)
    ensures Went(r, p, Fork(Partly(kids, outs + [out]), join), m0, m2)
  {
    RanPartly(p, kids, join, outs, out, m0.tape, m1.tape, m2.tape);
    AnsweredOn(r, m0, m1, m2);
  }

  lemma WentJoin(r: Terms, p: Proc, kids: seq<Kid>, join: seq<Outcome> -> Proc, outs: seq<Outcome>, m0: Moment, m1: Moment)
    requires |outs| == |kids| && Went(r, p, Fork(Partly(kids, outs), join), m0, m1)
    ensures Went(r, p, join(outs), m0, m1)
  {
    RanGathered(p, kids, join, outs, m0.tape, m1.tape);
  }

  lemma NoLevels(w: World, g: GraphSpec, depth: nat, b: Board)
    ensures RunLevels(w, g, depth, [], b) == Kernel.Compensate(g.nodes, b, [])
  {
  }

  method Distinct(ids: seq<Id>) returns (yes: bool)
    ensures yes == NoDup(ids)
  {
    var seen: set<Id> := {};
    for i := 0 to |ids|
      invariant seen == Elems(ids[..i]) && NoDup(ids[..i])
    {
      assert ids[..i + 1] == ids[..i] + [ids[i]];
      if ids[i] in seen {
        var j :| 0 <= j < i && ids[..i][j] == ids[i];
        assert ids[j] == ids[i];
        return false;
      }
      NoDupSnoc(ids[..i], ids[i]);
      seen := seen + {ids[i]};
    }
    assert ids[..|ids|] == ids;
    yes := true;
  }

  class Executor {
    const w: World
    const g: GraphSpec
    const depth: nat
    const journal: Journal
    var results: map<Id, NodeResult>
    var outputs: map<Id, Value>

    constructor (w: World, g: GraphSpec, depth: nat, journal: Journal, outputs: map<Id, Value>)
      ensures this.w == w && this.g == g && this.depth == depth && this.journal == journal
      ensures results == map[] && this.outputs == outputs
    {
      this.w, this.g, this.depth, this.journal := w, g, depth, journal;
      results, this.outputs := map[], outputs;
    }

    method Approve(n: Node) returns (o: Outcome)
      requires journal.Valid()
      modifies journal, journal.store, journal.completer
      ensures journal.Valid()
      ensures Went(journal.Rules(), Approval(n), Done(o), old(journal.Here()), journal.Here())
    {
      hide Went;
      ghost var p, m0 := Approval(n), journal.Here();
      WentStart(journal.Rules(), p, m0);
      ghost var ask := p.next;
      journal.Put(Log(ApprovalRequested, n.id), p, ask, m0);
      var a := journal.AskFor(Gate(n.id), p, ask, m0);
      if n.id !in journal.approvals {
        return Settled(Failed("approval not granted", true));
      }
      journal.PutReceipt(Log(ApprovalGranted, n.id), FREE, p, ask.k(a), m0);
      o := Settled(Passed(Some(Dict(map["approved" := Bool(true)]))));
    }

    method PassThrough(n: Node) returns (o: Outcome)
      requires journal.Valid()
      modifies journal, journal.store, journal.completer
      ensures journal.Valid()
      ensures Went(journal.Rules(), Passthrough(w, g, outputs, n), Done(o), old(journal.Here()), journal.Here())
    {
      hide Went;
      ghost var p, m0 := Passthrough(w, g, outputs, n), journal.Here();
      var merged := Merged(w, g, outputs, n);
      WentStart(journal.Rules(), p, m0);
      var batch := [Log(NodeStart, n.id), Log(NodeEnd(true, 0), n.id)];
      journal.PutMany(batch, p, p.next, m0);
      o := Settled(Passed(Some(merged)));
    }

    /** screen_payload: one INJECTION_BLOCKED row per poisoned source. */
    method ScreenPayload(n: Node, agent: AgentSpec, c: Ctx, ghost p: Proc, ghost m0: Moment) returns (blocked: bool)
      requires journal.Valid()
      requires Went(journal.Rules(), p, Screen(w, g, n, agent, c, c, false), m0, journal.Here())
      modifies journal, journal.store
      ensures journal.Valid()
      ensures Went(journal.Rules(), p, Screen(w, g, n, agent, c, [], blocked), m0, journal.Here())
    {
      hide Went;
      blocked := false;
      assert c[0..] == c;
      for i := 0 to |c|
        invariant journal.Valid()
        invariant Went(journal.Rules(), p, Screen(w, g, n, agent, c, c[i..], blocked), m0, journal.Here())
      {
        var bad := w.flagged(c[i].1);
        assert c[i..][1..] == c[i + 1..];
        if bad {
          journal.Put(Log(InjectionBlocked(c[i].0), n.id), p, Screen(w, g, n, agent, c, c[i + 1..], true), m0);
        }
        blocked := blocked || bad;
      }
    }

    /** `_agent_node`, from the screened context on. */
    method RunAgent(n: Node, agent: AgentSpec, c: Ctx, ghost p: Proc, ghost m0: Moment) returns (o: Outcome)
      requires journal.Valid()
      requires Went(journal.Rules(), p, Screen(w, g, n, agent, c, c, false), m0, journal.Here())
      modifies journal, journal.store, journal.completer
      ensures journal.Valid()
      ensures Went(journal.Rules(), p, Done(o), m0, journal.Here())
    {
      hide Went;
      var blocked := ScreenPayload(n, agent, c, p, m0);
      ghost var fork := Screen(w, g, n, agent, c, [], blocked);
      if blocked {
        o := Settled(Failed("handoff quarantined", true));
        journal.Put(Log(BlockedEnd, n.id), p, Done(o), m0);
        return;
      }
      ghost var m1 := journal.Here();
      var end := WithRetries(w, journal, g, n, agent, c);
      WentAwait(journal.Rules(), p, fork, end, m0, m1, journal.Here());
      assert fork.join([end]) == AfterHandoff(w, g, n, agent, end);
      o := Finish(n, agent, end, p, m0);
    }

    /** What `_agent_node` does with the handoff's outcome, or with the exception it raised. */
    method Finish(n: Node, agent: AgentSpec, end: Outcome, ghost p: Proc, ghost m0: Moment) returns (o: Outcome)
      requires journal.Valid()
      requires Went(journal.Rules(), p, AfterHandoff(w, g, n, agent, end), m0, journal.Here())
      modifies journal, journal.store
      ensures journal.Valid()
      ensures Went(journal.Rules(), p, Done(o), m0, journal.Here())
    {
      hide Went;
      match end
      case Threw(e) =>
        if e.Timeout? {
          o := Settled(Failed("timeout", false));
          journal.Put(Log(TimedOut, n.id), p, Done(o), m0);
        } else {
          o := end;
        }
      case OverBudget => o := Settled(Failed("budget", false));
      case GaveUp(errors, calls) =>
        o := Settled(Failed(Joined(errors), false));
        journal.Put(Log(NodeEnd(false, calls), n.id), p, Done(o), m0);
      case Accepted(v, repairs) =>
        journal.Put(Log(NodeEnd(true, repairs), n.id), p, AfterHandoff(w, g, n, agent, end).next, m0);
        if Unstorable(w, v) { return Threw(OtherError("artifact refused")); }
        o := Settled(Passed(Some(v)));
        if g.version >= 2 { journal.Put(Log(MemoryWrite(agent.memoryScope == SharedRw), n.id), p, Done(o), m0); }
      case _ => o := end;
    }

    method AgentTask(n: Node) returns (o: Outcome)
      requires journal.Valid()
      modifies journal, journal.store, journal.completer
      ensures journal.Valid()
      ensures Went(journal.Rules(), AgentRun(w, g, outputs, n), Done(o), old(journal.Here()), journal.Here())
    {
      hide Went;
      ghost var p, m0 := AgentRun(w, g, outputs, n), journal.Here();
      WentStart(journal.Rules(), p, m0);
      if n.agent.None? { return Settled(Skipped); }
      var agent := n.agent.value;
      journal.Put(Log(NodeStart, n.id), p, p.next, m0);
      var c := UpstreamContext(g, outputs, n.id);
      if g.version >= 2 { c := MergeMemory(n, agent, c, p, m0); }
      o := RunAgent(n, agent, c, p, m0);
    }

    /** `_merge_memory`: live memory under direct upstream output. */
    method MergeMemory(n: Node, agent: AgentSpec, up: Ctx, ghost p: Proc, ghost m0: Moment) returns (c: Ctx)
      requires journal.Valid()
      requires Went(journal.Rules(), p,
        Ask(Recall(n.id, agent.id, agent.memoryScope != Isolated), a => Recalled(w, g, n, agent, up, a)),
        m0, journal.Here())
      modifies journal, journal.store, journal.completer
      ensures journal.Valid()
      ensures Went(journal.Rules(), p, Screen(w, g, n, agent, c, c, false), m0, journal.Here())
    {
      hide Went;
      var q := Recall(n.id, agent.id, agent.memoryScope != Isolated);
      ghost var ask := Ask(q, a => Recalled(w, g, n, agent, up, a));
      var a := journal.AskFor(q, p, ask, m0);
      match a
      case Memory(live, gone) =>
        ghost var next := Recalled(w, g, n, agent, up, a);
        if gone != [] {
          journal.Put(Log(MemoryEvicted(gone), n.id), p, next.next, m0);
        }
        if live == [] { return up; }
        c := PutAll(live, up);
        journal.Put(Log(MemoryRead(KeysOf(live)), n.id), p, Screen(w, g, n, agent, c, c, false), m0);
    }

    /** `_run_node`. */
    method RunTask(n: Node) returns (o: Outcome)
      requires journal.Valid() && n in g.nodes
      modifies journal, journal.store, journal.completer
      ensures journal.Valid()
      ensures Went(journal.Rules(), RunNode(w, g, depth, outputs, n), Done(o), old(journal.Here()), journal.Here())
      decreases g, 0, 1
    {
      hide Went;
      match n.ntype
      case ApprovalNode => o := Approve(n);
      case FanoutNode => o := PassThrough(n);
      case JoinNode => o := PassThrough(n);
      case ClarifyNode => o := PassThrough(n);
      case AgentNode => o := AgentTask(n);
      case VerifyNode => o := AgentTask(n);
      case CouncilNode => o := AgentTask(n);
      case ConditionalNode => o := AgentTask(n);
      case SubgraphNode => o := SubgraphTask(n);
      case CompensateNode =>
        o := Settled(Skipped);
        WentStart(journal.Rules(), Done(o), journal.Here());
    }

    /** `_subgraph_node`: a child executor on the same log, with its own results and outputs. */
    method SubgraphTask(n: Node) returns (o: Outcome)
      requires journal.Valid() && n in g.nodes
      modifies journal, journal.store, journal.completer
      ensures journal.Valid()
      ensures Went(journal.Rules(), SubgraphRun(w, g, depth, outputs, n), Done(o), old(journal.Here()), journal.Here())
      decreases g, 0, 0
    {
      hide Went;
      ghost var p, m0 := SubgraphRun(w, g, depth, outputs, n), journal.Here();
      WentStart(journal.Rules(), p, m0);
      if n.subgraph.None? { return Settled(Skipped); }
      if depth >= MAX_SUBGRAPH_DEPTH { return Settled(Failed("max subgraph nesting depth exceeded", false)); }
      var sub := n.subgraph.value;
      var problems := Graph.Validate(sub);
      if problems.Raises? { return Threw(OtherError("KeyError")); }
      if problems.nodes != [] { return Settled(Failed("unapproved side effects in subgraph", false)); }
      var child := new Executor(w, sub, depth + 1, journal, ChildSeed(g, outputs, n.id));
      var end := child.RunGraph();
      WentAwait(journal.Rules(), p, p, end, m0, m0, journal.Here());
      assert p.join([end]) == AfterSubgraph(sub, end);
      match end
      case Ended(e) =>
        o := if e.failed == [] then Settled(Passed(Some(Dict(SinkOutputs(sub, e.outputs))))) else Settled(Failed("", false));
      case _ => o := end;
    }

    ghost function BoardNow(failed: seq<Id>): Board
      reads this
    {
      Board(results, outputs, failed)
    }

    /** One level of `_run_graph`: skip, gather, and record in the order of the level. */
    method RunLevel(level: seq<Id>, rest: seq<seq<Id>>, was: seq<Id>, ghost p: Proc, ghost m0: Moment) returns (failed: seq<Id>)
      requires journal.Valid() && Known(g, level) && forall l | l in rest :: Known(g, l)
      requires Went(journal.Rules(), p, RunLevels(w, g, depth, [level] + rest, BoardNow(was)), m0, journal.Here())
      modifies this, journal, journal.store, journal.completer
      ensures journal.Valid()
      ensures Went(journal.Rules(), p, RunLevels(w, g, depth, rest, BoardNow(failed)), m0, journal.Here())
      decreases g, 0, 3
    {
      hide Went;
      ghost var b := BoardNow(was);
      failed := was;
      var run := Runnable(w, g, Board(results, outputs, failed), level);
      MarkSkipped(level, run, b);
      assert [level] + rest == [level] + rest && ([level] + rest)[0] == level && ([level] + rest)[1..] == rest;
      ghost var b1 := SkipOthers(b, level, run);
      if run == [] { return; }
      var outs := Gather(run, b, p, m0, level, rest);
      failed := Record(run, outs, failed, b1);
    }

    /** `for n in level: if n not in runnable: self.results[n] = skipped`. */
    method MarkSkipped(level: seq<Id>, run: seq<Id>, ghost b: Board)
      requires b.results == results && b.outputs == outputs
      modifies this`results
      ensures BoardNow(b.failed) == SkipOthers(b, level, run)
    {
      for i := 0 to |level|
        invariant BoardNow(b.failed) == SkipOthers(b, level[..i], run)
      {
        SkipStep(b, level, i, run);
        if level[i] !in run { results := results[level[i] := Skipped]; }
      }
      assert level[..|level|] == level;
    }

    /** The settled outcomes, one result at a time. */
    method Record(run: seq<Id>, outs: seq<Outcome>, was: seq<Id>, ghost b1: Board) returns (failed: seq<Id>)
      requires |outs| == |run| && BoardNow(was) == b1
      modifies this
      ensures BoardNow(failed) == SettleAll(b1, run, outs)
    {
      failed := was;
      assert run[0..] == run && outs[0..] == outs;
      for i := 0 to |run|
        invariant SettleAll(BoardNow(failed), run[i..], outs[i..]) == SettleAll(b1, run, outs)
      {
        var r := ResultOf(outs[i]);
        results := results[run[i] := r];
        if r.Passed? && r.output.Some? { outputs := outputs[run[i] := r.output.value]; }
        assert run[i..][1..] == run[i + 1..] && outs[i..][1..] == outs[i + 1..];
        if r.Failed? { failed := failed + [run[i]]; }
      }
    }

    /** The tasks of a level, here one after the other. */
    method Gather(run: seq<Id>, ghost b: Board, ghost p: Proc, ghost m0: Moment, ghost level: seq<Id>, ghost rest: seq<seq<Id>>)
      returns (outs: seq<Outcome>)
      requires journal.Valid() && b.outputs == outputs && run == Runnable(w, g, b, level) && run != []
      requires Known(g, level) && forall l | l in rest :: Known(g, l)
      requires Went(journal.Rules(), p, RunLevels(w, g, depth, [level] + rest, b), m0, journal.Here())
      modifies journal, journal.store, journal.completer
      ensures journal.Valid() && |outs| == |run|
      ensures Went(journal.Rules(), p, RunLevels(w, g, depth, rest, SettleAll(SkipOthers(b, level, run), run, outs)),
        m0, journal.Here())
      decreases g, 0, 2
    {
      hide Went;
      ghost var fork := RunLevels(w, g, depth, [level] + rest, b);
      assert ([level] + rest)[0] == level && ([level] + rest)[1..] == rest;
      ghost var kids := NodeKids(w, g, depth, b.outputs, run);
      assert fork.Fork? && fork.kids == kids;
      outs := [];
      NoneDone(kids);
      for i := 0 to |run|
        invariant journal.Valid() && |outs| == i
        invariant Went(journal.Rules(), p, Fork(Partly(kids, outs), fork.join), m0, journal.Here())
      {
        var n := FindNode(g, run[i]).value;
        ghost var m1 := journal.Here();
        var o := RunTask(n);
        WentKid(journal.Rules(), p, kids, fork.join, outs, o, m0, m1, journal.Here());
        outs := outs + [o];
      }
      WentJoin(journal.Rules(), p, kids, fork.join, outs, m0, journal.Here());
      assert fork.join(outs) == RunLevels(w, g, depth, rest, SettleAll(SkipOthers(b, level, run), run, outs));
    }

    /** `_run_node(node) if node.agent else NodeResult(ok=True)`: a compensator's agent is never called. */
    method Undo(n: Node, ghost p: Proc, ghost next: Proc, ghost m0: Moment) returns (res: NodeResult)
      requires journal.Valid() && n in g.nodes && n.ntype == CompensateNode
      requires Went(journal.Rules(), p, next, m0, journal.Here())
      modifies journal, journal.store, journal.completer
      ensures journal.Valid() && Went(journal.Rules(), p, next, m0, journal.Here())
      ensures res == if n.agent.Some? then Skipped else Passed(None)
      decreases g, 0, 2
    {
      hide Went;
      if n.agent.None? { return Passed(None); }
      ghost var m1 := journal.Here();
      var o := RunTask(n);
      WentNowhere(journal.Rules(), Settled(Skipped), o, next, m1, journal.Here());
      WentOn(journal.Rules(), p, next, next, m0, m1, journal.Here());
      res := ResultOf(o);
    }

    /** `_compensate`: in node order, once for each compensator of a failed node. */
    method Compensate(failed: seq<Id>, ghost p: Proc, ghost m0: Moment) returns (done: seq<Id>)
      requires journal.Valid()
      requires Went(journal.Rules(), p, Kernel.Compensate(g.nodes, BoardNow(failed), []), m0, journal.Here())
      modifies this`results, journal, journal.store, journal.completer
      ensures journal.Valid()
      ensures Went(journal.Rules(), p, Done(Ended(GraphEnd(results, outputs, failed, done))), m0, journal.Here())
      decreases g, 0, 3
    {
      hide Went;
      done := [];
      assert g.nodes[0..] == g.nodes;
      for i := 0 to |g.nodes|
        invariant journal.Valid()
        invariant Went(journal.Rules(), p, Kernel.Compensate(g.nodes[i..], BoardNow(failed), done), m0, journal.Here())
      {
        var n := g.nodes[i];
        assert g.nodes[i..][0] == n && g.nodes[i..][1..] == g.nodes[i + 1..];
        if Undoes(n, failed) {
          ghost var r := if n.agent.Some? then Skipped else Passed(None);
          ghost var next := Kernel.Compensate(g.nodes[i + 1..], BoardNow(failed).(results := results[n.id := r]), done + [n.id]);
          journal.Put(Log(Compensated(n.compensates.value), n.id), p, next, m0);
          var res := Undo(n, p, next, m0);
          results := results[n.id := res];
          done := done + [n.id];
        }
      }
    }

    /** `_run_graph`: the levels, then compensation; an unlayerable graph raises. */
    method RunGraph() returns (o: Outcome)
      requires journal.Valid() && results == map[]
      modifies this, journal, journal.store, journal.completer
      ensures journal.Valid()
      ensures Went(journal.Rules(), Kernel.RunGraph(w, g, depth, old(outputs)), Done(o), old(journal.Here()), journal.Here())
      decreases g, 1
    {
      hide Went;
      hide RunLevels;
      ghost var p, m0 := Kernel.RunGraph(w, g, depth, outputs), journal.Here();
      WentStart(journal.Rules(), p, m0);
      var levels := Levels(g);
      if levels.None? { return Threw(OtherError("cycle detected")); }
      var ls := levels.value;
      LevelsKnown(g, ls);
      var failed: seq<Id> := [];
      assert ls[0..] == ls;
      for k := 0 to |ls|
        invariant journal.Valid() && forall l | l in ls[k..] :: Known(g, l)
        invariant Went(journal.Rules(), p, RunLevels(w, g, depth, ls[k..], BoardNow(failed)), m0, journal.Here())
      {
        assert ls[k..] == [ls[k]] + ls[k + 1..];
        assert ls[k] in ls[k..] && forall l | l in ls[k + 1..] :: l in ls[k..];
        failed := RunLevel(ls[k], ls[k + 1..], failed, p, m0);
      }
      NoLevels(w, g, depth, BoardNow(failed));
      var compensated := Compensate(failed, p, m0);
      o := Ended(GraphEnd(results, outputs, failed, compensated));
    }

    /** The run's row says that it ended like this. */
    ghost predicate Concluded(status: string)
      reads journal, journal.store
    {
      journal.run in journal.store.runs && journal.store.runs[journal.run].ended && journal.store.runs[journal.run].status == status
    }

    /** `run`: refuse, or run the top-level graph between RUN_START and RUN_END. */
    method Run() returns (o: Outcome)
      requires journal.Valid() && results == map[] && outputs == map[] && depth == 0
      modifies this, journal, journal.store, journal.completer
      ensures journal.Valid()
      ensures Went(journal.Rules(), RunWhole(w, g), Done(o), old(journal.Here()), journal.Here())
      ensures o.Ended? ==> Concluded(if o.end.failed == [] then "done" else "failed")
      ensures Graph.Validate(g).Problems? && (Graph.Validate(g).nodes != [] || !NoDup(AllIds(g))) ==>
        o == Rejected(Graph.Validate(g).nodes) && Concluded("failed")
    {
      hide Went;
      ghost var p, m0 := RunWhole(w, g), journal.Here();
      WentStart(journal.Rules(), p, m0);
      var problems := Graph.Validate(g);
      if problems.Raises? { return Threw(OtherError("KeyError")); }
      var distinct := Distinct(AllIds(g));
      if problems.nodes != [] || !distinct {
        o := Rejected(problems.nodes);
        journal.Put(Event(GraphRejected(problems.nodes), None), p, Done(o), m0);
        journal.SetStatus("failed", true);
        return;
      }
      ghost var fork := p.next;
      journal.PutStatus(Event(RunStart, None), "running", false, p, fork, m0);
      ghost var m1 := journal.Here();
      var end := RunGraph();
      WentAwait(journal.Rules(), p, fork, end, m0, m1, journal.Here());
      assert fork.join([end]) == AfterRun(end);
      o := end;
      match end
      case Ended(e) =>
        journal.PutStatus(Event(RunEnd(e.failed == [], e.failed, e.compensated), None),
          if e.failed == [] then "done" else "failed", true, p, Done(o), m0);
      case _ =>
    }
  }
}
