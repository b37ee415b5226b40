// What a run's log says of each node: what it was given, what it did, how it
// ended, and why the others did not run. Nothing here mentions a coroutine.
module Tales {
  import opened Base
  import opened Graph
  import opened Layering
  import opened Events
  import opened Tasks
  import opened Kernel
  import opened Scopes
  import opened CausalLog
  import opened Failures
  import opened Approvals
  import opened Contexts
  import opened NodeRuns
  import opened Handoffs
  import opened Machine
  import opened Journals

  // ---------- what each kind of node does ----------

  /** Asked, and passed exactly if the answer was yes. */
  ghost predicate GateLaw(n: Node, d: seq<Mark>, r: NodeResult) {
    exists yes: bool ::
      && d == [Wrote(Log(ApprovalRequested, n.id), FREE), Heard(Gate(n.id), Granted(yes))]
              + (if yes then [Wrote(Log(ApprovalGranted, n.id), FREE)] else [])
      && r == if yes then Passed(Some(Dict(map["approved" := Bool(true)]))) else Failed("approval not granted", true)
  }

  /** One entry for each parent, its output or None; and the answers at a clarify node. */
  ghost predicate PassLaw(w: World, g: GraphSpec, outputs: map<Id, Value>, n: Node, d: seq<Mark>, r: NodeResult) {
    && d == [Wrote(Log(NodeStart, n.id), FREE), Wrote(Log(NodeEnd(true, 0), n.id), FREE)]
    && r.Passed? && r.output.Some? && r.output.value.Dict?
    && var m, told := r.output.value.fields, n.ntype == ClarifyNode && w.clarifications.Some?;
    forall k ::
      && (k in m <==> HasEdge(g, k, n.id) || (told && k == "answers"))
      && (k in m ==> m[k] == if told && k == "answers" then w.clarifications.value else if k in outputs then outputs[k] else Null)
  }

  /** x is a node of the graph that no edge leaves, and no compensator. */
  ghost predicate Sink(g: GraphSpec, x: Id) {
    exists n :: n in g.nodes && n.id == x && n.ntype != CompensateNode && forall e | e in g.edges :: e.src != x
  }

  /** The nested graph's sinks that left an output. */
  ghost predicate SinkDict(g: GraphSpec, outputs: map<Id, Value>, m: map<Id, Value>) {
    forall x :: (x in m <==> Sink(g, x) && x in outputs) && (x in m ==> m[x] == outputs[x])
  }

  /** The nested graph ran to this end, from this seed. */
  ghost predicate NestedEnded(w: World, sub: GraphSpec, depth: nat, seed: map<Id, Value>, tape: seq<Mark>,
                              end: GraphEnd) {
    Finished(RunGraph(w, sub, depth, seed), Ended(end), tape, GraphScope(sub))
  }

  /** A nested graph: refused in silence, unlayerable, or run to an end that decides the node's. */
  ghost predicate SubgraphLaw(w: World, g: GraphSpec, depth: nat, outputs: map<Id, Value>, n: Node, tape: seq<Mark>,
                              r: NodeResult) {
    if n.subgraph.None? then r == Skipped && Silent(tape, ScopeOf(n))
    else if depth >= MAX_SUBGRAPH_DEPTH || Validate(n.subgraph.value) != Problems([]) || LevelsOf(n.subgraph.value).None? then
      r.Failed? && Silent(tape, ScopeOf(n))
    else exists seed, end ::
      && SeedFrom(g, outputs, n.id, seed) && NestedEnded(w, n.subgraph.value, depth + 1, seed, tape, end)
      && if end.failed != [] then r.Failed?
         else r.Passed? && r.output.Some? && r.output.value.Dict? && SinkDict(n.subgraph.value, end.outputs, r.output.value.fields)
  }

  /** What a node of any kind did, given these outputs. */
  ghost predicate NodeLaw(w: World, g: GraphSpec, depth: nat, outputs: map<Id, Value>, n: Node, tape: seq<Mark>,
                          r: NodeResult) {
    var d := View(tape, Some(n.id));
    if n.ntype == ApprovalNode then GateLaw(n, d, r)
    else if PassesOn(n) then PassLaw(w, g, outputs, n, d, r)
    else if n.ntype == SubgraphNode then SubgraphLaw(w, g, depth, outputs, n, tape, r)
    else if n.ntype == CompensateNode then r == Skipped
    else AgentEnds(w, g, outputs, n, d, r) && forall f | f <= d :: TaleRight(w, g, outputs, n, f)
  }

  /** A node that was ready did what its kind does; any other was skipped in silence. */
  ghost predicate Told1(w: World, g: GraphSpec, depth: nat, seed: map<Id, Value>, ls: seq<seq<Id>>, results: map<Id,
                        NodeResult>,
                        tape: seq<Mark>, k: int, id: Id) {
    && FindNode(g, id).Some? && id in results
    && var n := FindNode(g, id).value;
    exists outputs ::
      && LeftBefore(ls, k, results, seed, outputs)
      && if Cleared(w, g, results, outputs, n) then NodeLaw(w, g, depth, outputs, n, tape, results[id])
         else results[id] == Skipped && Silent(tape, ScopeOf(n))
  }

  // ---------- proofs, kind by kind ----------

  lemma GateDoes(w: World, g: GraphSpec, depth: nat, outputs: map<Id, Value>, n: Node, o: Outcome, tape: seq<Mark>)
    requires n in g.nodes && n.ntype == ApprovalNode && Finished(RunNode(w, g, depth, outputs, n), o, tape, ScopeOf(n))
    ensures GateLaw(n, View(tape, Some(n.id)), ResultOf(o))
  {
    var p := Approval(n);
    var s :| Shows(p, s, tape, ScopeOf(n)) && Exec(p, s).value.proc == Done(o);
    GateKeeps(n);
    CleanSimple(w, g, outputs, n);
    TidyExec(p, s, {Some(n.id)});
    BaresView(Exec(p, s).value.tape, n.id);
    KeepsRun(p, s, [], Anyhow(), GateFin(n));
    assert [] + Bares(Exec(p, s).value.tape) == Bares(Exec(p, s).value.tape);
  }

  ghost function Anyhow(): Tale { (d: seq<Mark>) => true }

  ghost function GateFin(n: Node): Close { (d: seq<Mark>, o: Outcome) => GateLaw(n, d, ResultOf(o)) }

  lemma GateKeeps(n: Node)
    ensures Keeps(Approval(n), [], Anyhow(), GateFin(n))
  {
    var p, q, e := Approval(n), Gate(n.id), Log(ApprovalRequested, n.id);
    var d := [Wrote(e, FREE)];
    assert [] + d == d;
    forall a | Fits(q, a) ensures Anyhow()(d + [Heard(q, a)]) && Keeps(AfterAnswer(q, a, p.next.k(a)), d + [Heard(q, a)], Anyhow(), GateFin(n)) {
      var d1, row := d + [Heard(q, a)], Log(ApprovalGranted, n.id);
      if a.yes {
        assert GateLaw(n, d1 + [Wrote(row, FREE)], ResultOf(p.next.k(a).out)) by {
          assert d1 + [Wrote(row, FREE)] == [Wrote(e, FREE), Heard(q, Granted(true))] + [Wrote(row, FREE)];
        }
        DoneKeeps(p.next.k(a).out, d1 + [Wrote(row, FREE)], Anyhow(), GateFin(n));
        NoteKeeps(row, p.next.k(a), d1, Anyhow(), GateFin(n));
      } else {
        assert GateLaw(n, d1, ResultOf(p.next.k(a).out)) by { assert d1 == [Wrote(e, FREE), Heard(q, Granted(false))] + []; }
        DoneKeeps(p.next.k(a).out, d1, Anyhow(), GateFin(n));
      }
    }
    AskKeeps(p.next, d, Anyhow(), GateFin(n));
    KeepsRow(e, p.next, [], Anyhow(), GateFin(n));
  }

  lemma PassDoes(w: World, g: GraphSpec, depth: nat, outputs: map<Id, Value>, n: Node, o: Outcome, tape: seq<Mark>)
    requires n in g.nodes && PassesOn(n) && Finished(RunNode(w, g, depth, outputs, n), o, tape, ScopeOf(n))
    ensures PassLaw(w, g, outputs, n, View(tape, Some(n.id)), ResultOf(o))
  {
    var p := Passthrough(w, g, outputs, n);
    var s :| Shows(p, s, tape, ScopeOf(n)) && Exec(p, s).value.proc == Done(o);
    CleanSimple(w, g, outputs, n);
    TidyExec(p, s, {Some(n.id)});
    BaresView(Exec(p, s).value.tape, n.id);
    EmitDone(p.batch, p.next.out, s);
    var d := Bares(Exec(p, s).value.tape);
    assert d == [Wrote(Log(NodeStart, n.id), FREE), Wrote(Log(NodeEnd(true, 0), n.id), FREE)];
    MergedIs(w, g, outputs, n);
  }

  lemma EmitDone(batch: seq<Event>, o: Outcome, s: seq<Step>)
    requires Exec(Emit(batch, Done(o)), s).Some? && Exec(Emit(batch, Done(o)), s).value.proc.Done?
    ensures Exec(Emit(batch, Done(o)), s).value == Run(Done(o), Bills(batch))
  {
    DoneSilent(o, s[1..], {});
    assert Bills(batch) + [] == Bills(batch);
  }

  lemma MergedIs(w: World, g: GraphSpec, outputs: map<Id, Value>, n: Node)
    ensures Merged(w, g, outputs, n).Dict?
    ensures var m, told := Merged(w, g, outputs, n).fields, n.ntype == ClarifyNode && w.clarifications.Some?;
      forall k ::
        && (k in m <==> HasEdge(g, k, n.id) || (told && k == "answers"))
        && (k in m ==> m[k] == if told && k == "answers" then w.clarifications.value else if k in outputs then outputs[k] else Null)
  {
  }

  lemma AgentDoes(w: World, g: GraphSpec, depth: nat, outputs: map<Id, Value>, n: Node, o: Outcome, tape: seq<Mark>)
    requires n in g.nodes && RunsAgent(n) && Finished(RunNode(w, g, depth, outputs, n), o, tape, ScopeOf(n))
    ensures AgentEnds(w, g, outputs, n, View(tape, Some(n.id)), ResultOf(o))
    ensures forall f | f <= View(tape, Some(n.id)) :: TaleRight(w, g, outputs, n, f)
  {
    hide AgentRun, View, TaleRight, AgentEnds;
    var s :| Shows(RunNode(w, g, depth, outputs, n), s, tape, ScopeOf(n)) && Exec(RunNode(w, g, depth, outputs, n), s).value.proc == Done(o);
    assert RunNode(w, g, depth, outputs, n) == AgentRun(w, g, outputs, n);
    OwnTale(w, g, outputs, n, s);
  }

  /** The sinks a nested graph hands back. */
  lemma SinksAre(sub: GraphSpec, outputs: map<Id, Value>)
    ensures SinkDict(sub, outputs, SinkOutputs(sub, outputs))
  {
    SinksFrom(sub, sub.nodes, outputs);
    forall x ensures Sink(sub, x) <==> exists n :: n in sub.nodes && n.id == x && n.ntype != CompensateNode && Children(sub, n.id) == [] {
      ChildrenNone(sub, x);
    }
  }

  lemma ChildrenNone(sub: GraphSpec, x: Id)
    ensures Children(sub, x) == [] <==> forall e | e in sub.edges :: e.src != x
  {
    HeadIn(Children(sub, x));
    forall e | e in sub.edges && e.src == x ensures e.dst in Children(sub, x) { }
  }

  lemma {:induction false} SinksFrom(sub: GraphSpec, nodes: seq<Node>, outputs: map<Id, Value>)
    ensures var m := Sinks(sub, nodes, outputs);
      forall x ::
        && (x in m <==> x in outputs && exists n :: n in nodes && n.id == x && n.ntype != CompensateNode && Children(sub, n.id) == [])
        && (x in m ==> m[x] == outputs[x])
  {
    if nodes != [] {
      SinksFrom(sub, nodes[1..], outputs);
      assert forall n :: n in nodes <==> n == nodes[0] || n in nodes[1..];
    }
  }

  // ---------- compensation ----------

  /** The COMPENSATE rows of the nodes at positions `at`, each naming its target. */
  ghost predicate UndoRows(nodes: seq<Node>, at: seq<nat>, rows: seq<Mark>) {
    && |rows| == |at|
    && forall i | 0 <= i < |at| ::
         && at[i] < |nodes| && nodes[at[i]].compensates.Some?
         && rows[i] == Wrote(Event(Compensated(nodes[at[i]].compensates.value), Some(nodes[at[i]].id)), FREE)
  }

  /** Results that differ at compensators only. */
  ghost predicate SameOff(nodes: seq<Node>, before: map<Id, NodeResult>, after: map<Id, NodeResult>) {
    forall x | x in before || x in after ::
      (x in before && x in after && before[x] == after[x]) || exists n :: n in nodes && n.ntype == CompensateNode && n.id == x
  }

  lemma SameOffCons(n: Node, nodes: seq<Node>, before: map<Id, NodeResult>, r: NodeResult, after: map<Id, NodeResult>)
    requires n.ntype == CompensateNode && SameOff(nodes, before[n.id := r], after)
    ensures SameOff([n] + nodes, before, after)
  {
    forall x | (x in before || x in after) && !(x in before && x in after && before[x] == after[x])
      ensures exists m :: m in [n] + nodes && m.ntype == CompensateNode && m.id == x
    {
      if x == n.id {
        assert n in [n] + nodes;
      } else {
        var m :| m in nodes && m.ntype == CompensateNode && m.id == x;
        assert m in [n] + nodes;
      }
    }
  }

  lemma {:induction false} CompensateEnds(nodes: seq<Node>, b: Board, done: seq<Id>, s: seq<Step>)
    returns (end: GraphEnd, ids: seq<Id>, at: seq<nat>)
    requires Exec(Compensate(nodes, b, done), s).Some? && Exec(Compensate(nodes, b, done), s).value.proc.Done?
    ensures var r := Exec(Compensate(nodes, b, done), s).value;
      r.proc.out == Ended(end) && UndoRows(nodes, at, r.tape)
    ensures end.outputs == b.outputs && end.failed == b.failed && end.compensated == done + ids
    ensures Undone(nodes, b.failed, ids, at)
    ensures SameOff(nodes, b.results, end.results)
    decreases |nodes|
  {
    hide Undone, UndoRows, SameOff;
    if nodes == [] {
      end, ids, at := GraphEnd(b.results, b.outputs, b.failed, done), [], [];
      DoneSilent(Ended(end), s, {});
      assert done + [] == done;
      NothingUndone(b.failed, b.results);
    } else {
      var n, rest := nodes[0], nodes[1..];
      assert nodes == [n] + rest;
      var ids1, at1;
      if Undoes(n, b.failed) {
        var r := if n.agent.Some? then Skipped else Passed(None);
        var b1, row := b.(results := b.results[n.id := r]), Log(Compensated(n.compensates.value), n.id);
        assert Bills([row]) == [Wrote(row, FREE)];
        end, ids1, at1 := CompensateEnds(rest, b1, done + [n.id], s[1..]);
        assert done + [n.id] + ids1 == done + ([n.id] + ids1);
        SameOffCons(n, rest, b.results, r, end.results);
      } else {
        end, ids1, at1 := CompensateEnds(rest, b, done, s);
        SameOffMore(n, rest, b.results, end.results);
        assert [] + ids1 == ids1;
      }
      ids := (if Undoes(n, b.failed) then [n.id] else []) + ids1;
      at := UndoneCons(n, rest, b.failed, ids1, at1);
      UndoRowsCons(n, rest, b.failed, at1, Exec(Compensate(nodes, b, done), s).value.tape);
    }
  }

  lemma NothingUndone(failed: seq<Id>, results: map<Id, NodeResult>)
    ensures Undone([], failed, [], []) && UndoRows([], [], []) && SameOff([], results, results)
  {
  }

  lemma SameOffMore(n: Node, nodes: seq<Node>, before: map<Id, NodeResult>, after: map<Id, NodeResult>)
    requires SameOff(nodes, before, after)
    ensures SameOff([n] + nodes, before, after)
  {
    assert forall m | m in nodes :: m in [n] + nodes;
  }

  lemma UndoRowsCons(n: Node, nodes: seq<Node>, failed: seq<Id>, at: seq<nat>, rows: seq<Mark>)
    requires if Undoes(n, failed) then
        rows != [] && rows[0] == Wrote(Log(Compensated(n.compensates.value), n.id), FREE) && UndoRows(nodes, at, rows[1..])
      else UndoRows(nodes, at, rows)
    ensures UndoRows([n] + nodes, (if Undoes(n, failed) then [0] else []) + Shifted(at), rows)
  {
    var later := if Undoes(n, failed) then rows[1..] else rows;
    var all, at' := [n] + nodes, (if Undoes(n, failed) then [0] else []) + Shifted(at);
    forall i | 0 <= i < |at'|
      ensures at'[i] < |all| && all[at'[i]].compensates.Some?
           && rows[i] == Wrote(Event(Compensated(all[at'[i]].compensates.value), Some(all[at'[i]].id)), FREE)
    {
      var j := if Undoes(n, failed) then i - 1 else i;
      if j >= 0 { assert at'[i] == at[j] + 1 && rows[i] == later[j] && all[at'[i]] == nodes[at[j]]; }
    }
  }

  /** Scheduled nodes' results are not touched by compensation. */
  lemma StepsKept(g: GraphSpec, ls: seq<seq<Id>>, before: map<Id, NodeResult>, after: map<Id, NodeResult>, x: Id)
    requires UniqueIds(g) && LevelsOf(g) == Some(ls) && Reached(ls, |ls|, before)
    requires SameOff(g.nodes, before, after) && Before(ls, |ls|, x)
    ensures x in before && x in after && before[x] == after[x]
  {
    AllBefore(g, ls, x);
    forall n | n in g.nodes && n.ntype == CompensateNode ensures n.id != x { assert n.id in Comps(g); }
  }

  lemma BeforeEnd(ls: seq<seq<Id>>, k: nat, x: Id)
    requires k <= |ls| && Before(ls, k, x)
    ensures Before(ls, |ls|, x)
  {
    var j :| j < k && At(ls, j, x);
    assert j < |ls| && At(ls, j, x);
  }

  /** A graph that ran to its end: every scheduled node is explained, and then the compensators logged their rows. */
  lemma GraphEnded(w: World, g: GraphSpec, depth: nat, seed: map<Id, Value>, sched: seq<Step>, o: Outcome)
    returns (end: GraphEnd, at: seq<nat>, front: seq<Mark>, rows: seq<Mark>)
    requires UniqueIds(g) && LevelsOf(g).Some? && Exec(RunGraph(w, g, depth, seed), sched).Some?
    requires Exec(RunGraph(w, g, depth, seed), sched).value.proc == Done(o)
    ensures o == Ended(end) && Undone(g.nodes, end.failed, end.compensated, at)
    ensures var ls, tape := LevelsOf(g).value, Exec(RunGraph(w, g, depth, seed), sched).value.tape;
      && tape == front + rows && UndoRows(g.nodes, at, rows) && Silent(front, CompScope(g))
      && LeftBefore(ls, |ls|, end.results, seed, end.outputs) && end.failed == FailedUpTo(ls, end.results)
      && forall k, id | At(ls, k, id) :: Explained(w, g, depth, seed, ls, end.results, tape, k, id)
  {
    hide Explained, LeftBefore, RunGraph, LevelsOf, Silent, Compensate;
    var ls, tape := LevelsOf(g).value, Exec(RunGraph(w, g, depth, seed), sched).value.tape;
    var m, now, last;
    m, now, front, last := GraphRun(w, g, depth, seed, sched);
    var ids;
    end, ids, at := CompensateEnds(g.nodes, now, [], last);
    rows := Exec(Compensate(g.nodes, now, []), last).value.tape;
    assert [] + ids == ids;
    BackedReached(w, g, depth, seed, ls, m, now, tape);
    EndLeft(g, ls, now.results, end.results, seed, end.outputs);
    BackedFailed(w, g, depth, seed, ls, m, now, tape);
    EndFailed(g, ls, now.results, end.results);
    forall k, id | At(ls, k, id) ensures Explained(w, g, depth, seed, ls, end.results, tape, k, id) {
      assert Explained(w, g, depth, seed, ls, now.results, tape, k, id);
      ExplainedSome(w, g, depth, seed, ls, now.results, tape, k, id);
      forall x | Before(ls, k + 1, x) ensures x in now.results && x in end.results && now.results[x] == end.results[x] {
        BeforeEnd(ls, k + 1, x);
        StepsKept(g, ls, now.results, end.results, x);
      }
      ExplainedMoves(w, g, depth, seed, ls, now.results, end.results, tape, tape, k, id);
    }
  }

  lemma BackedFailed(w: World, g: GraphSpec, depth: nat, seed: map<Id, Value>, ls: seq<seq<Id>>, k: int, b: Board,
                     tape: seq<Mark>)
    requires Backed(w, g, depth, seed, ls, k, b, tape)
    ensures 0 <= k <= |ls| && b.failed == FailedUpTo(ls[..k], b.results)
  {
  }

  lemma EndFailed(g: GraphSpec, ls: seq<seq<Id>>, before: map<Id, NodeResult>, after: map<Id, NodeResult>)
    requires UniqueIds(g) && LevelsOf(g) == Some(ls) && Reached(ls, |ls|, before) && SameOff(g.nodes, before, after)
    ensures FailedUpTo(ls[..|ls|], before) == FailedUpTo(ls, after)
  {
    assert ls[..|ls|] == ls;
    forall l, x | l in ls && x in l ensures x in before && x in after && before[x] == after[x] {
      var j :| 0 <= j < |ls| && ls[j] == l;
      assert At(ls, j, x);
      StepsKept(g, ls, before, after, x);
    }
    FailedSame(ls, before, after);
  }

  lemma EndLeft(g: GraphSpec, ls: seq<seq<Id>>, before: map<Id, NodeResult>, after: map<Id, NodeResult>, seed: map<Id,
                Value>,
                outputs: map<Id, Value>)
    requires UniqueIds(g) && LevelsOf(g) == Some(ls) && Reached(ls, |ls|, before) && SameOff(g.nodes, before, after)
    requires LeftBefore(ls, |ls|, before, seed, outputs)
    ensures LeftBefore(ls, |ls|, after, seed, outputs)
  {
    forall x ensures Gave(ls, |ls|, before, x) <==> Gave(ls, |ls|, after, x) {
      if Before(ls, |ls|, x) { StepsKept(g, ls, before, after, x); }
    }
    forall x | Gave(ls, |ls|, before, x) ensures before[x] == after[x] { StepsKept(g, ls, before, after, x); }
  }

  lemma SilentByViews(t1: seq<Mark>, t2: seq<Mark>, S: set<Option<Id>>)
    requires SameViews(t1, t2, S) && Silent(t2, S)
    ensures Silent(t1, S)
  {
  }

  /** The steps of a nested graph's node: refused without a step, or its child's run and no more. */
  lemma NestedSteps(w: World, g: GraphSpec, depth: nat, outputs: map<Id, Value>, n: Node, s: seq<Step>, o: Outcome)
    returns (kid: seq<Step>, o1: Outcome)
    requires n in g.nodes && n.subgraph.Some? && depth < MAX_SUBGRAPH_DEPTH
    requires Validate(n.subgraph.value) == Problems([])
    requires Exec(SubgraphRun(w, g, depth, outputs, n), s).Some?
    requires Exec(SubgraphRun(w, g, depth, outputs, n), s).value.proc == Done(o)
    ensures var child := RunGraph(w, n.subgraph.value, depth + 1, ChildSeed(g, outputs, n.id));
      Exec(child, kid) == Some(Run(Done(o1), Exec(SubgraphRun(w, g, depth, outputs, n), s).value.tape))
    ensures Done(o) == AfterSubgraph(n.subgraph.value, o1)
  {
    hide RunGraph, Validate, ChildSeed, SinkOutputs;
    var p := SubgraphRun(w, g, depth, outputs, n);
    var joined := WrapRun(p.kids, p.join, s);
    kid := KidSteps(s, 0);
    o1 := Exec(p.kids[0].body, kid).value.proc.out;
    var last, tape := p.join([o1]), Exec(p.kids[0].body, kid).value.tape;
    DoneSilent(last.out, AfterJoin(s), {});
    assert tape + [] == tape;
  }

  lemma NestedRefused(w: World, g: GraphSpec, depth: nat, outputs: map<Id, Value>, n: Node, o: Outcome, tape: seq<Mark>)
    requires n in g.nodes && n.ntype == SubgraphNode && Finished(RunNode(w, g, depth, outputs, n), o, tape, ScopeOf(n))
    requires n.subgraph.None? || depth >= MAX_SUBGRAPH_DEPTH || Validate(n.subgraph.value) != Problems([])
    ensures SubgraphLaw(w, g, depth, outputs, n, tape, ResultOf(o))
  {
    hide RunGraph, Validate, View, ScopeOf;
    var p := SubgraphRun(w, g, depth, outputs, n);
    var s :| Shows(p, s, tape, ScopeOf(n)) && Exec(p, s).value.proc == Done(o);
    assert p.Done?;
    DoneSilent(p.out, s, ScopeOf(n));
    SilentByViews(tape, [], ScopeOf(n));
  }

  lemma NestedUnlayered(w: World, g: GraphSpec, depth: nat, outputs: map<Id, Value>, n: Node, o: Outcome,
                        tape: seq<Mark>)
    requires n in g.nodes && n.ntype == SubgraphNode && Finished(RunNode(w, g, depth, outputs, n), o, tape, ScopeOf(n))
    requires n.subgraph.Some? && depth < MAX_SUBGRAPH_DEPTH && Validate(n.subgraph.value) == Problems([])
    requires LevelsOf(n.subgraph.value).None?
    ensures SubgraphLaw(w, g, depth, outputs, n, tape, ResultOf(o))
  {
    hide Validate, View, ScopeOf, ChildSeed, LevelsOf;
    var p := SubgraphRun(w, g, depth, outputs, n);
    var s :| Shows(p, s, tape, ScopeOf(n)) && Exec(p, s).value.proc == Done(o);
    var kid, o1 := NestedSteps(w, g, depth, outputs, n, s, o);
    var child := RunGraph(w, n.subgraph.value, depth + 1, ChildSeed(g, outputs, n.id));
    DoneSilent(child.out, kid, ScopeOf(n));
    SilentByViews(tape, [], ScopeOf(n));
  }

  lemma NestedRan(w: World, g: GraphSpec, depth: nat, outputs: map<Id, Value>, n: Node, o: Outcome, tape: seq<Mark>)
    requires UniqueIds(g) && n in g.nodes && n.ntype == SubgraphNode
    requires Finished(RunNode(w, g, depth, outputs, n), o, tape, ScopeOf(n))
    requires n.subgraph.Some? && depth < MAX_SUBGRAPH_DEPTH && Validate(n.subgraph.value) == Problems([])
    requires LevelsOf(n.subgraph.value).Some?
    ensures SubgraphLaw(w, g, depth, outputs, n, tape, ResultOf(o))
  {
    hide Validate, View, ChildSeed, LevelsOf, RunGraph, SinkOutputs;
    var p, sub, seed := SubgraphRun(w, g, depth, outputs, n), n.subgraph.value, ChildSeed(g, outputs, n.id);
    var s :| Shows(p, s, tape, ScopeOf(n)) && Exec(p, s).value.proc == Done(o);
    var kid, o1 := NestedSteps(w, g, depth, outputs, n, s, o);
    NodeScope(g, n);
    var end, at, front, rows := GraphEnded(w, sub, depth + 1, seed, kid, o1);
    ChildSeedIs(g, outputs, n.id);
    assert Shows(RunGraph(w, sub, depth + 1, seed), kid, tape, GraphScope(sub));
    assert NestedEnded(w, sub, depth + 1, seed, tape, end);
    SinksAre(sub, end.outputs);
  }

  lemma SubgraphDoes(w: World, g: GraphSpec, depth: nat, outputs: map<Id, Value>, n: Node, o: Outcome, tape: seq<Mark>)
    requires UniqueIds(g) && n in g.nodes && n.ntype == SubgraphNode
    requires Finished(RunNode(w, g, depth, outputs, n), o, tape, ScopeOf(n))
    ensures SubgraphLaw(w, g, depth, outputs, n, tape, ResultOf(o))
  {
    hide RunNode, SubgraphLaw, Finished;
    if n.subgraph.None? || depth >= MAX_SUBGRAPH_DEPTH || Validate(n.subgraph.value) != Problems([]) {
      NestedRefused(w, g, depth, outputs, n, o, tape);
    } else if LevelsOf(n.subgraph.value).None? {
      NestedUnlayered(w, g, depth, outputs, n, o, tape);
    } else {
      NestedRan(w, g, depth, outputs, n, o, tape);
    }
  }

  /** A node that ran did what its kind does. */
  lemma NodeDoes(w: World, g: GraphSpec, depth: nat, outputs: map<Id, Value>, n: Node, o: Outcome, tape: seq<Mark>)
    requires UniqueIds(g) && n in g.nodes && Finished(RunNode(w, g, depth, outputs, n), o, tape, ScopeOf(n))
    ensures NodeLaw(w, g, depth, outputs, n, tape, ResultOf(o))
  {
    hide Finished, View, SubgraphLaw, AgentEnds, TaleRight, GateLaw, PassLaw;
    match n.ntype
    case ApprovalNode => GateDoes(w, g, depth, outputs, n, o, tape);
    case SubgraphNode => SubgraphDoes(w, g, depth, outputs, n, o, tape);
    case CompensateNode => CompensateSkips(w, g, depth, outputs, n, o, tape);
    case FanoutNode => PassDoes(w, g, depth, outputs, n, o, tape);
    case JoinNode => PassDoes(w, g, depth, outputs, n, o, tape);
    case ClarifyNode => PassDoes(w, g, depth, outputs, n, o, tape);
    case _ => AgentDoes(w, g, depth, outputs, n, o, tape);
  }

  lemma CompensateSkips(w: World, g: GraphSpec, depth: nat, outputs: map<Id, Value>, n: Node, o: Outcome,
                        tape: seq<Mark>)
    requires n in g.nodes && n.ntype == CompensateNode
    requires Finished(RunNode(w, g, depth, outputs, n), o, tape, ScopeOf(n))
    ensures ResultOf(o) == Skipped
  {
    var s :| Shows(RunNode(w, g, depth, outputs, n), s, tape, ScopeOf(n)) && Exec(RunNode(w, g, depth, outputs, n), s).value.proc == Done(o);
    DoneSilent(Settled(Skipped), s, {});
  }

  /** What is explained by a coroutine is told by the log. */
  lemma ExplainedTold(w: World, g: GraphSpec, depth: nat, seed: map<Id, Value>, ls: seq<seq<Id>>, results: map<Id,
                      NodeResult>,
                      tape: seq<Mark>, k: int, id: Id)
    requires UniqueIds(g) && Explained(w, g, depth, seed, ls, results, tape, k, id)
    ensures Told1(w, g, depth, seed, ls, results, tape, k, id)
  {
    hide RunNode, NodeLaw, LeftBefore, Cleared;
    var n := FindNode(g, id).value;
    var outputs :| LeftBefore(ls, k, results, seed, outputs) && Fate(w, g, depth, outputs, results, tape, n);
    if Cleared(w, g, results, outputs, n) {
      var o :| Finished(RunNode(w, g, depth, outputs, n), o, tape, ScopeOf(n)) && results[n.id] == ResultOf(o);
      NodeDoes(w, g, depth, outputs, n, o, tape);
    }
  }

  // ---------- runs that ended ----------

  /** Everything a finished graph left is accounted for by the log. */
  ghost predicate Accounted(w: World, g: GraphSpec, depth: nat, seed: map<Id, Value>, end: GraphEnd, tape: seq<Mark>) {
    && LevelsOf(g).Some?
    && LeftBefore(LevelsOf(g).value, |LevelsOf(g).value|, end.results, seed, end.outputs)
    && end.failed == FailedUpTo(LevelsOf(g).value, end.results)
    && forall k, id | At(LevelsOf(g).value, k, id) :: Told1(w, g, depth, seed, LevelsOf(g).value, end.results, tape, k, id)
  }

  /** Last came the compensators of failed nodes, in node order, each with one row that names its target. */
  ghost predicate Compensated1(g: GraphSpec, end: GraphEnd, front: seq<Mark>, rows: seq<Mark>) {
    && Silent(front, CompScope(g))
    && exists at :: Undone(g.nodes, end.failed, end.compensated, at) && UndoRows(g.nodes, at, rows)
  }

  /**
   * Every graph that ran to its end, at any depth, from any seed, in any
   * interleaving and with any timeouts: each node that was ready did what its
   * kind does on what the levels before left, every other was skipped in
   * silence, and then exactly the compensators due logged their rows.
   */
  lemma GraphAccounted(w: World, g: GraphSpec, depth: nat, seed: map<Id, Value>, sched: seq<Step>, end: GraphEnd)
    returns (front: seq<Mark>, rows: seq<Mark>)
    requires UniqueIds(g) && Exec(RunGraph(w, g, depth, seed), sched).Some?
    requires Exec(RunGraph(w, g, depth, seed), sched).value.proc == Done(Ended(end))
    ensures Accounted(w, g, depth, seed, end, Exec(RunGraph(w, g, depth, seed), sched).value.tape)
    ensures Exec(RunGraph(w, g, depth, seed), sched).value.tape == front + rows && Compensated1(g, end, front, rows)
  {
    hide Told1, Explained, LeftBefore, Silent, View;
    var tape := Exec(RunGraph(w, g, depth, seed), sched).value.tape;
    if LevelsOf(g).None? { UnlayeredThrows(w, g, depth, seed, sched, end); }
    var end', at;
    end', at, front, rows := GraphEnded(w, g, depth, seed, sched, Ended(end));
    hide RunGraph, LevelsOf;
    forall k, id | At(LevelsOf(g).value, k, id) ensures Told1(w, g, depth, seed, LevelsOf(g).value, end.results, tape, k, id) {
      ExplainedTold(w, g, depth, seed, LevelsOf(g).value, end.results, tape, k, id);
    }
  }

  lemma UnlayeredThrows(w: World, g: GraphSpec, depth: nat, seed: map<Id, Value>, sched: seq<Step>, end: GraphEnd)
    requires LevelsOf(g).None? && Exec(RunGraph(w, g, depth, seed), sched).Some?
    ensures Exec(RunGraph(w, g, depth, seed), sched).value.proc != Done(Ended(end))
  {
    DoneSilent(RunGraph(w, g, depth, seed).out, sched, {});
  }

  /** A whole run that ended: the same between RUN_START and the RUN_END that reports it. */
  lemma RunAccounted(w: World, g: GraphSpec, sched: seq<Step>, end: GraphEnd) returns (body: seq<Mark>,
                     front: seq<Mark>, rows: seq<Mark>)
    requires Exec(RunWhole(w, g), sched).Some? && Exec(RunWhole(w, g), sched).value.proc == Done(Ended(end))
    ensures Exec(RunWhole(w, g), sched).value.tape == [Wrote(Event(RunStart, None), FREE)] + body
      + [Wrote(Event(RunEnd(end.failed == [], end.failed, end.compensated), None), FREE)]
    ensures Accounted(w, g, 0, map[], end, body) && body == front + rows && Compensated1(g, end, front, rows)
  {
    hide RunGraph, Accounted, Compensated1;
    OnlyAcceptedEnd(w, g, sched);
    var p := RunWhole(w, g);
    var fork, after := WholeFork(w, g, sched);
    var joined := WrapRun(fork.kids, fork.join, after);
    var s := KidSteps(after, 0);
    var kid := Exec(RunGraph(w, g, 0, map[]), s).value;
    body := kid.tape;
    AfterRunIs(kid.proc.out, AfterJoin(after), Ended(end));
    front, rows := GraphAccounted(w, g, 0, map[], s, end);
    var last := [Wrote(Event(RunEnd(end.failed == [], end.failed, end.compensated), None), FREE)];
    assert [Wrote(Event(RunStart, None), FREE)] + (body + last) == [Wrote(Event(RunStart, None), FREE)] + body + last;
  }

  lemma AfterRunIs(o: Outcome, s: seq<Step>, out: Outcome)
    requires Exec(AfterRun(o), s).Some? && Exec(AfterRun(o), s).value.proc == Done(out)
    ensures o == out
    ensures out.Ended? ==>
      Exec(AfterRun(o), s).value.tape == [Wrote(Event(RunEnd(out.end.failed == [], out.end.failed, out.end.compensated), None), FREE)]
  {
    if o.Ended? {
      var e := Event(RunEnd(o.end.failed == [], o.end.failed, o.end.compensated), None);
      EmitDone([e], o, s);
      assert Bills([e]) == [Wrote(e, FREE)];
    } else {
      DoneSilent(o, s, {});
    }
  }

  // ---------- runs, finished or not ----------

  lemma ViewStep(tape: seq<Mark>, t: nat, x: Id)
    requires t < |tape| && Who(tape[t]) == Some(x)
    ensures View(tape[..t + 1], Some(x)) == View(tape[..t], Some(x)) + [Bare(tape[t])]
    ensures View(tape[..t + 1], Some(x)) <= View(tape, Some(x))
  {
    hide View;
    OneView(tape[t], x);
    ViewParts(tape[..t], tape[t], tape[t + 1..], x);
    Slices(tape, t);
  }

  lemma Slices(tape: seq<Mark>, t: nat)
    requires t < |tape|
    ensures tape[..t + 1] == tape[..t] + [tape[t]] && tape == (tape[..t] + [tape[t]]) + tape[t + 1..]
  {
  }

  lemma OneView(m: Mark, x: Id)
    requires Who(m) == Some(x)
    ensures View([m], Some(x)) == [Bare(m)]
  {
    assert [m][1..] == [];
  }

  lemma ViewParts(a: seq<Mark>, b: Mark, c: seq<Mark>, x: Id)
    ensures View(a + [b], Some(x)) == View(a, Some(x)) + View([b], Some(x))
    ensures View(a + [b], Some(x)) <= View((a + [b]) + c, Some(x))
  {
    hide View;
    ViewConcat(a, [b], Some(x));
    ViewConcat(a + [b], c, Some(x));
  }

  /** Where a node's mark stands on the tape. */
  lemma {:induction false} InView(tape: seq<Mark>, x: Id, m: Mark) returns (s: nat)
    requires m in View(tape, Some(x))
    ensures s < |tape| && Who(tape[s]) == Some(x) && Bare(tape[s]) == m
  {
    if Who(tape[0]) == Some(x) && Bare(tape[0]) == m {
      s := 0;
    } else {
      var s1 := InView(tape[1..], x, m);
      s := s1 + 1;
    }
  }

  /** The node's own history, from its story. */
  lemma StoryTale(w: World, g: GraphSpec, depth: nat, seed: map<Id, Value>, tape: seq<Mark>, n: Node,
                  ls: seq<seq<Id>>, k: nat,
                  results: map<Id, NodeResult>, outputs: map<Id, Value>)
    requires n in g.nodes && RunsAgent(n) && Story(w, g, depth, seed, tape, n, ls, k, results, outputs)
    ensures forall d | d <= View(tape, Some(n.id)) :: TaleRight(w, g, outputs, n, d)
  {
    StoryBegan(w, g, depth, seed, tape, n, ls, k, results, outputs);
    hide Story, AgentRun, View, TaleRight;
    var s :| Shows(RunNode(w, g, depth, outputs, n), s, tape, ScopeOf(n));
    OwnTale(w, g, outputs, n, s);
  }

  /**
   * In every run: each row and call of an agent node, in whatever nested
   * graph, is right given what that node logged and heard before it.
   */
  lemma RowsRight(w: World, g: GraphSpec, sched: seq<Step>, h: GraphSpec, n: Node, t: nat)
    requires Exec(RunWhole(w, g), sched).Some? && Within(h, g) && n in h.nodes && RunsAgent(n)
    requires MarkedBy(Exec(RunWhole(w, g), sched).value.tape, t, n.id)
    ensures var tape := Exec(RunWhole(w, g), sched).value.tape;
      n.agent.Some? && RowRight(w, h, n, n.agent.value, View(tape[..t], Some(n.id)), Bare(tape[t]))
  {
    hide RunWhole, RowRight, View, Story, TaleOn;
    var tape := Exec(RunWhole(w, g), sched).value.tape;
    ViewStep(tape, t, n.id);
    var d := View(tape[..t + 1], Some(n.id));
    var depth, seed, ls, k, results, outputs := RunStory(w, g, sched, h, n);
    StoryTale(w, h, depth, seed, tape, n, ls, k, results, outputs);
    assert TaleRight(w, h, outputs, n, d);
    assert d[..|d| - 1] == View(tape[..t], Some(n.id)) && d[|d| - 1] == Bare(tape[t]);
  }

  /** A handoff is given up as unrepairable only after as many rejections, and as many calls, as it may have. */
  lemma RepairsExhausted(w: World, g: GraphSpec, sched: seq<Step>, h: GraphSpec, n: Node, t: nat)
    requires Exec(RunWhole(w, g), sched).Some? && Within(h, g) && n in h.nodes && RunsAgent(n)
    requires MarkedBy(Exec(RunWhole(w, g), sched).value.tape, t, n.id)
    requires var m := Exec(RunWhole(w, g), sched).value.tape[t]; m.Wrote? && m.e.kind.Unrepairable?
    ensures var tape := Exec(RunWhole(w, g), sched).value.tape;
      tape[t].e.kind.calls == w.maxRepairs + 1 == Rejections(View(tape[..t], Some(n.id))) == Called(View(tape[..t], Some(n.id)))
  {
    hide RunWhole, View, Rejections, Called;
    RowsRight(w, g, sched, h, n, t);
  }

  lemma CallsSeen(d: seq<Mark>, m: Mark)
    requires m in d && IsCall(m)
    ensures CallsIn(d) != []
  {
    FlatMapIn(CallOf, d, m);
    assert m in CallOf(m);
  }

  lemma {:induction false} SourceSeen(d: seq<Mark>, m: Mark)
    requires m in d && m.Wrote? && m.e.kind.InjectionBlocked?
    ensures Blocks(d) != []
  {
    if m != d[|d| - 1] { SourceSeen(d[..|d| - 1], m); }
  }

  /** The call at t is made on one context, built from what the node was given. */
  lemma CallContext(w: World, g: GraphSpec, outputs: map<Id, Value>, n: Node, d: seq<Mark>, m: Mark)
    requires d != [] && d[|d| - 1] == m && IsCall(m) && TaleRight(w, g, outputs, n, d)
    ensures n.agent.Some? && TaleOn(Scene(w, g, outputs, n, n.agent.value, m.q.context), d)
    ensures Flagged(w, m.q.context) == []
  {
    hide RowRight, Conversation, ContextRight, Flagged, Noted, CallsIn;
    var c :| TaleOn(Scene(w, g, outputs, n, n.agent.value, c), d);
    LastIsCall(d, m);
    ConversationContext(w, JobOf(g, n, n.agent.value, c), CallsIn(d), m);
  }

  lemma LastIsCall(d: seq<Mark>, m: Mark)
    requires d != [] && d[|d| - 1] == m && IsCall(m)
    ensures CallsIn(d) != [] && CallsIn(d)[|CallsIn(d)| - 1] == m
  {
    var f := d[..|d| - 1];
    assert d == f + [m];
    hide CallsIn;
    Snoc(f, m);
  }

  /** All calls of a conversation are made on its context. */
  lemma ConversationContext(w: World, j: Job, cs: seq<Mark>, m: Mark)
    requires Conversation(w, j, cs) && cs != [] && cs[|cs| - 1] == m && IsCall(m)
    ensures m.q.context == j.context
  {
    assert GoodCall(w, j, cs, |cs| - 1);
  }

  /** The node that is asking, and its story. */
  lemma CallerStory(w: World, g: GraphSpec, sched: seq<Step>, h: GraphSpec, n: Node, t: nat)
    returns (depth: nat, seed: map<Id, Value>, ls: seq<seq<Id>>, k: nat, results: map<Id, NodeResult>, outputs: map<Id, Value>)
    requires Exec(RunWhole(w, g), sched).Some? && Within(h, g) && n in h.nodes
    requires CallFor(n, Exec(RunWhole(w, g), sched).value.tape, t)
    ensures RunsAgent(n) && UniqueIds(g)
    ensures RunsIn(w, g, 0, map[], Exec(RunWhole(w, g), sched).value.tape, h, depth, seed)
    ensures var tape := Exec(RunWhole(w, g), sched).value.tape;
      && Story(w, h, depth, seed, tape, n, ls, k, results, outputs)
      && forall d | d <= View(tape, Some(n.id)) :: TaleRight(w, h, outputs, n, d)
  {
    hide RunWhole, View, Story, TaleRight, GatesOpen, Fed, Allowed, RunsIn;
    var tape := Exec(RunWhole(w, g), sched).value.tape;
    GatesFirst(w, g, sched, t);
    AllowedWithin(h, g, n, Safety.Gains(tape[..t]));
    ViewStep(tape, t, n.id);
    depth, seed, ls, k, results, outputs := RunStory(w, g, sched, h, n);
    StoryTale(w, h, depth, seed, tape, n, ls, k, results, outputs);
  }

  /** Nothing the screen flags is ever put before a model. */
  lemma FlaggedNeverAsked(w: World, g: GraphSpec, sched: seq<Step>, h: GraphSpec, n: Node, t: nat)
    requires Exec(RunWhole(w, g), sched).Some? && Within(h, g) && n in h.nodes
    requires CallFor(n, Exec(RunWhole(w, g), sched).value.tape, t)
    ensures forall x, y | (x, y) in Exec(RunWhole(w, g), sched).value.tape[t].q.context :: !w.flagged(y)
  {
    hide RunWhole, View, Story, TaleRight, TaleOn, RunsIn;
    var tape := Exec(RunWhole(w, g), sched).value.tape;
    var depth, seed, ls, k, results, outputs := CallerStory(w, g, sched, h, n, t);
    ViewStep(tape, t, n.id);
    var d := View(tape[..t + 1], Some(n.id));
    assert d[|d| - 1] == tape[t];
    CallContext(w, h, outputs, n, d, tape[t]);
    FlaggedNone(w, tape[t].q.context);
  }

  /** A node that reported something flagged never calls its model, before or after. */
  lemma QuarantineHolds(w: World, g: GraphSpec, sched: seq<Step>, h: GraphSpec, n: Node, s: nat, t: nat)
    requires Exec(RunWhole(w, g), sched).Some? && Within(h, g) && n in h.nodes
    requires MarkedBy(Exec(RunWhole(w, g), sched).value.tape, s, n.id)
    requires var m := Exec(RunWhole(w, g), sched).value.tape[s]; m.Wrote? && m.e.kind.InjectionBlocked?
    ensures !CallFor(n, Exec(RunWhole(w, g), sched).value.tape, t)
  {
    hide RunWhole, View, Story, RowRight, ContextRight, Conversation, RunsIn;
    var tape := Exec(RunWhole(w, g), sched).value.tape;
    if CallFor(n, tape, t) {
      var depth, seed, ls, k, results, outputs := CallerStory(w, g, sched, h, n, t);
      var d := View(tape, Some(n.id));
      ViewStep(tape, s, n.id);
      ViewStep(tape, t, n.id);
      assert TaleRight(w, h, outputs, n, d);
      InPrefix(View(tape[..s + 1], Some(n.id)), d, Bare(tape[s]));
      InPrefix(View(tape[..t + 1], Some(n.id)), d, tape[t]);
      SourceSeen(d, Bare(tape[s]));
      CallsSeen(d, tape[t]);
    }
  }

  lemma InPrefix(a: seq<Mark>, b: seq<Mark>, m: Mark)
    requires a <= b && a != [] && a[|a| - 1] == m
    ensures m in b
  {
    assert b[|a| - 1] == m;
  }

  // ---------- what a model is put ----------

  /** Rows before moment t show that parent p left v. */
  ghost predicate Shown(p: Node, v: Value, tape: seq<Mark>, t: nat) {
    && (RunsAgent(p) ==> exists s, k :: 0 <= s < t <= |tape| && tape[s].Wrote? && tape[s].e == Event(HandoffValidated(k, v), Some(p.id)))
    && (p.ntype == ApprovalNode ==>
          v == Dict(map["approved" := Bool(true)])
          && exists s :: 0 <= s < t <= |tape| && tape[s].Wrote? && tape[s].e == Event(ApprovalGranted, Some(p.id)))
  }

  /** The edge's source passed with this output, as the log tells, and it stands in the context. */
  ghost predicate Delivered1(w: World, h: GraphSpec, depth: nat, seed: map<Id, Value>, ls: seq<seq<Id>>,
                             results: map<Id, NodeResult>,
                             tape: seq<Mark>, t: nat, c: Ctx, e: Edge, v: Value) {
    && FindNode(h, e.src).Some? && e.src in results && results[e.src] == Passed(Some(v)) && (e.src, v) in c
    && Shown(FindNode(h, e.src).value, v, tape, t)
    && exists j :: At(ls, j, e.src) && Told1(w, h, depth, seed, ls, results, tape, j, e.src)
  }

  /** What else may stand in it: what the node around a nested graph was given, or live memory. */
  ghost predicate FromAround(h: GraphSpec, n: Node, seed: map<Id, Value>, live: Ctx, x: Id, y: Value) {
    || (x == PARENT && (PARENT in Steps(h) || (PARENT in seed && y == seed[PARENT])))
    || ((x, y) in live && h.version >= 2)
  }

  /** Every scheduled parent delivered, and nothing else is there but what comes from around. */
  ghost predicate ContextTold(w: World, h: GraphSpec, depth: nat, seed: map<Id, Value>, tape: seq<Mark>, t: nat,
                              n: Node, c: Ctx, live: Ctx,
                              ls: seq<seq<Id>>, results: map<Id, NodeResult>) {
    && NoDup(KeysOf(c))
    && (forall e | Orders(h, e) && e.dst == n.id :: exists v :: Delivered1(w, h, depth, seed, ls, results, tape, t, c, e, v))
    && (forall x, y | (x, y) in c :: (exists e :: Orders(h, e) && e.dst == n.id && e.src == x) || FromAround(h, n, seed, live, x, y))
    && (PARENT in seed && n.id != PARENT ==> PARENT in KeysOf(c))
    && (h.version < 2 ==> live == [])
  }

  /** An agent node that passed has its validated row. */
  lemma AgentPassed(w: World, g: GraphSpec, outputs: map<Id, Value>, n: Node, d: seq<Mark>,
                    r: NodeResult) returns (k: nat)
    requires AgentEnds(w, g, outputs, n, d, r) && r.Passed?
    ensures r.output.Some? && Wrote(Log(HandoffValidated(k, r.output.value), n.id), FREE) in d
  {
    hide TaleOn, Rejections, CallsIn, Blocks, Flagged;
    var c :| ScreenedEnds(Scene(w, g, outputs, n, n.agent.value, c), d, r);
    k := Rejections(d);
  }

  lemma AgentLaw(w: World, g: GraphSpec, depth: nat, outputs: map<Id, Value>, n: Node, tape: seq<Mark>, r: NodeResult)
    requires NodeLaw(w, g, depth, outputs, n, tape, r) && RunsAgent(n)
    ensures AgentEnds(w, g, outputs, n, View(tape, Some(n.id)), r)
  {
    hide AgentEnds, TaleRight, View;
  }

  /** A node that passed left an output. */
  lemma PassedGave(w: World, g: GraphSpec, depth: nat, outputs: map<Id, Value>, n: Node, tape: seq<Mark>, r: NodeResult)
    requires NodeLaw(w, g, depth, outputs, n, tape, r) && r.Passed?
    ensures r.output.Some?
  {
    hide AgentEnds, TaleRight, View, SinkDict, NestedEnded;
    if RunsAgent(n) {
      AgentLaw(w, g, depth, outputs, n, tape, r);
      var _ := AgentPassed(w, g, outputs, n, View(tape, Some(n.id)), r);
    }
  }

  /** An agent node that passed has its validated row; a gate has its grant. */
  lemma PassedShows(w: World, g: GraphSpec, depth: nat, outputs: map<Id, Value>, n: Node, tape: seq<Mark>, v: Value)
    returns (m: Mark)
    requires NodeLaw(w, g, depth, outputs, n, tape, Passed(Some(v)))
    ensures RunsAgent(n) ==> m in View(tape, Some(n.id)) && m.Wrote? && m.e.who == Some(n.id) && m.e.kind.HandoffValidated? && m.e.kind.payload == v
    ensures n.ntype == ApprovalNode ==> v == Dict(map["approved" := Bool(true)])
    ensures n.ntype == ApprovalNode ==> m in View(tape, Some(n.id)) && m == Wrote(Log(ApprovalGranted, n.id), FREE)
  {
    hide View, AgentEnds, TaleRight;
    m := Wrote(Log(ApprovalGranted, n.id), FREE);
    if RunsAgent(n) {
      AgentLaw(w, g, depth, outputs, n, tape, Passed(Some(v)));
      var k := AgentPassed(w, g, outputs, n, View(tape, Some(n.id)), Passed(Some(v)));
      m := Wrote(Log(HandoffValidated(k, v), n.id), FREE);
    }
  }

  lemma {:induction false} OrderWithin(h: GraphSpec, g: GraphSpec, e: Edge)
    requires Within(h, g) && e in h.edges && e.src in Steps(h) && e.dst in Ids(h)
    ensures (e.src, e.dst) in OrderOf(g)
    decreases g
  {
    if h == g {
      assert (e.src, e.dst) in OwnOrder(g);
    } else {
      var m :| m in g.nodes && m.subgraph.Some? && Within(h, m.subgraph.value);
      OrderWithin(h, m.subgraph.value, e);
      NestedOrderTo(g.nodes, m, e.src, e.dst);
    }
  }

  lemma {:induction false} NestedOrderTo(nodes: seq<Node>, m: Node, x: Id, y: Id)
    requires m in nodes && m.subgraph.Some? && (x, y) in OrderOf(m.subgraph.value)
    ensures (x, y) in NestedOrder(nodes)
  {
    if m != nodes[0] { NestedOrderTo(nodes[1..], m, x, y); }
  }

  /** A parent's row stands before its child's call. */
  lemma ShownBefore(w: World, g: GraphSpec, sched: seq<Step>, h: GraphSpec, e: Edge, m: Mark, t: nat) returns (s: nat)
    requires Exec(RunWhole(w, g), sched).Some? && UniqueIds(g) && Within(h, g)
    requires e in h.edges && e.src in Steps(h) && e.dst in Ids(h) && e.src != e.dst
    requires MarkedBy(Exec(RunWhole(w, g), sched).value.tape, t, e.dst)
    requires m in View(Exec(RunWhole(w, g), sched).value.tape, Some(e.src))
    ensures s < t && Who(Exec(RunWhole(w, g), sched).value.tape[s]) == Some(e.src)
    ensures Bare(Exec(RunWhole(w, g), sched).value.tape[s]) == m
  {
    hide RunWhole, View;
    var tape := Exec(RunWhole(w, g), sched).value.tape;
    s := InView(tape, e.src, m);
    OrderWithin(h, g, e);
    LogIsCausal(w, g, sched, s, t, e.src, e.dst);
  }

  /** What a scheduled parent left, as the story has it and as the log shows it. */
  lemma ParentLeft(w: World, h: GraphSpec, depth: nat, seed: map<Id, Value>, tape: seq<Mark>, n: Node,
                   ls: seq<seq<Id>>, k: nat,
                   results: map<Id, NodeResult>, outputs: map<Id, Value>, e: Edge)
    returns (v: Value, m: Mark)
    requires UniqueIds(h) && n in h.nodes && Story(w, h, depth, seed, tape, n, ls, k, results, outputs)
    requires Orders(h, e) && e.dst == n.id
    ensures FindNode(h, e.src).Some? && e.src in Steps(h) && e.src != e.dst
    ensures e.src in results && results[e.src] == Passed(Some(v)) && e.src in outputs && outputs[e.src] == v
    ensures exists j :: At(ls, j, e.src) && Told1(w, h, depth, seed, ls, results, tape, j, e.src)
    ensures var p := FindNode(h, e.src).value;
      && (RunsAgent(p) ==> m in View(tape, Some(p.id)) && m.Wrote? && m.e.who == Some(p.id) && m.e.kind.HandoffValidated? && m.e.kind.payload == v)
      && (p.ntype == ApprovalNode ==> v == Dict(map["approved" := Bool(true)]))
      && (p.ntype == ApprovalNode ==> m in View(tape, Some(p.id)) && m == Wrote(Log(ApprovalGranted, p.id), FREE))
  {
    hide Begun, RunNode, View, NodeLaw, LevelsOf;
    ParentsBeforeLevel(h, ls, k, e);
    LevelIsNew(h, ls, k, n.id);
    var j: nat :| j < k && At(ls, j, e.src);
    ExplainedTold(w, h, depth, seed, ls, results, tape, j, e.src);
    var p := FindNode(h, e.src).value;
    var outputs1 :| LeftBefore(ls, j, results, seed, outputs1)
      && if Cleared(w, h, results, outputs1, p) then NodeLaw(w, h, depth, outputs1, p, tape, results[e.src])
         else results[e.src] == Skipped && Silent(tape, ScopeOf(p));
    PassedGave(w, h, depth, outputs1, p, tape, results[e.src]);
    v := results[e.src].output.value;
    assert Gave(ls, k, results, e.src);
    m := PassedShows(w, h, depth, outputs1, p, tape, v);
  }

  /** The log shows it before the child's call. */
  lemma ParentShown(w: World, g: GraphSpec, sched: seq<Step>, h: GraphSpec, e: Edge, p: Node, v: Value, m: Mark, t: nat)
    requires Exec(RunWhole(w, g), sched).Some? && UniqueIds(g) && Within(h, g)
    requires e in h.edges && e.src in Steps(h) && e.dst in Ids(h) && e.src != e.dst && p.id == e.src
    requires MarkedBy(Exec(RunWhole(w, g), sched).value.tape, t, e.dst)
    requires var view := View(Exec(RunWhole(w, g), sched).value.tape, Some(p.id));
      && (RunsAgent(p) ==> m in view && m.Wrote? && m.e.who == Some(p.id) && m.e.kind.HandoffValidated? && m.e.kind.payload == v)
      && (p.ntype == ApprovalNode ==> v == Dict(map["approved" := Bool(true)]))
      && (p.ntype == ApprovalNode ==> m in view && m == Wrote(Log(ApprovalGranted, p.id), FREE))
    ensures Shown(p, v, Exec(RunWhole(w, g), sched).value.tape, t)
  {
    hide RunWhole, View;
    if RunsAgent(p) || p.ntype == ApprovalNode {
      var s := ShownBefore(w, g, sched, h, e, m, t);
      var x := Exec(RunWhole(w, g), sched).value.tape[s];
      assert Bare(x) == m && x.Wrote? && x.e == m.e;
      if RunsAgent(p) { assert x.e == Event(HandoffValidated(m.e.kind.attempt, v), Some(p.id)); }
    }
  }

  lemma NoMemoryYet(w: World, h: GraphSpec, outputs: map<Id, Value>, n: Node, d: seq<Mark>)
    requires h.version < 2 && forall e | e <= d :: TaleRight(w, h, outputs, n, e)
    ensures Live(d) == []
  {
    if |d| >= 2 {
      assert d[..2] <= d && d[..2][..1] == d[..1] && d[..2][1] == d[1];
      assert TaleRight(w, h, outputs, n, d[..2]);
      assert RowRight(w, h, n, n.agent.value, d[..1], d[1]);
    }
  }

  /** What is not a parent's comes from around. */
  lemma OthersAround(w: World, h: GraphSpec, depth: nat, seed: map<Id, Value>, tape: seq<Mark>, n: Node,
                     ls: seq<seq<Id>>, k: nat,
                     results: map<Id, NodeResult>, outputs: map<Id, Value>, live: Ctx, c: Ctx, x: Id, y: Value)
    requires UniqueIds(h) && n in h.nodes && Story(w, h, depth, seed, tape, n, ls, k, results, outputs)
    requires NoDup(KeysOf(live)) && ContextRight(h, outputs, n.id, live, c) && (x, y) in c && (h.version < 2 ==> live == [])
    requires seed.Keys <= {PARENT}
    ensures (exists e :: Orders(h, e) && e.dst == n.id && e.src == x) || FromAround(h, n, seed, live, x, y)
  {
    hide Begun, RunNode, View, Told1, LevelsOf, Explained;
    LevelIsNew(h, ls, k, n.id);
    if Given(h, outputs, n.id, x) {
      if Gave(ls, k, results, x) {
        var j: nat :| j < k && At(ls, j, x);
        LevelIsNew(h, ls, j, x);
        if x in Parents(h, n.id) {
          var e :| e in h.edges && e.dst == n.id && e.src == x;
          assert Orders(h, e);
        }
      } else {
        assert x in seed && outputs[x] == seed[x];
      }
    }
  }

  /** Nested graphs start from a context of one key, the top-level graph from none. */
  lemma {:induction false} SeedsAre(w: World, g: GraphSpec, depth: nat, seed: map<Id, Value>, tape: seq<Mark>,
                                    h: GraphSpec, depth': nat,
                                    seed': map<Id, Value>)
    requires RunsIn(w, g, depth, seed, tape, h, depth', seed') && seed.Keys <= {PARENT}
    ensures seed'.Keys <= {PARENT} && Within(h, g)
    ensures UniqueIds(g) && h == g ==> seed' == seed
    decreases g
  {
    hide Handed, UniqueIds, GraphScope, Story;
    if !(h == g && depth' == depth && seed' == seed) {
      var m, from :| m in g.nodes && m.ntype == SubgraphNode && m.subgraph.Some? && depth < MAX_SUBGRAPH_DEPTH
        && Handed(w, g, depth, seed, tape, m, from) && RunsIn(w, m.subgraph.value, depth + 1, from, tape, h, depth', seed');
      HandedKeys(w, g, depth, seed, tape, m, from);
      SeedsAre(w, m.subgraph.value, depth + 1, from, tape, h, depth', seed');
      if UniqueIds(g) && h == g { NotInItself(g, m); }
    }
  }

  lemma HandedKeys(w: World, g: GraphSpec, depth: nat, seed: map<Id, Value>, tape: seq<Mark>, m: Node, from: map<Id,
                   Value>)
    requires m in g.nodes && Handed(w, g, depth, seed, tape, m, from)
    ensures from.Keys <= {PARENT}
  {
  }

  lemma NotInItself(g: GraphSpec, m: Node)
    requires UniqueIds(g) && m in g.nodes && m.subgraph.Some?
    ensures !Within(g, m.subgraph.value)
  {
    assert m.id in Ids(g);
    if Within(g, m.subgraph.value) {
      IdsWithin(g, m.subgraph.value, m);
      NestedNotOwn(g, m, m.id);
    }
  }

  /**
   * In every run, whenever a model is called, for a node of the graph or of a
   * nested one: its context holds for every scheduled parent the output that
   * parent passed with, which for an agent is the payload of a
   * HANDOFF_VALIDATED row already logged; and otherwise only what the node
   * around a nested graph was given, and in version 2 live memory under it.
   */
  lemma ContextsTold(w: World, g: GraphSpec, sched: seq<Step>, h: GraphSpec, n: Node, t: nat)
    returns (depth: nat, seed: map<Id, Value>, ls: seq<seq<Id>>, results: map<Id, NodeResult>)
    requires Exec(RunWhole(w, g), sched).Some? && Within(h, g) && n in h.nodes
    requires CallFor(n, Exec(RunWhole(w, g), sched).value.tape, t)
    ensures RunsIn(w, g, 0, map[], Exec(RunWhole(w, g), sched).value.tape, h, depth, seed) && (h == g ==> seed == map[])
    ensures var tape := Exec(RunWhole(w, g), sched).value.tape;
      var live := Live(View(tape[..t + 1], Some(n.id)));
      && LevelsOf(h) == Some(ls)
      && (NoDup(KeysOf(live)) ==> ContextTold(w, h, depth, seed, tape, t, n, tape[t].q.context, live, ls, results))
  {
    var k, outputs;
    depth, seed, ls, k, results, outputs := CallerStory(w, g, sched, h, n, t);
    var tape := Exec(RunWhole(w, g), sched).value.tape;
    SeedsAre(w, g, 0, map[], tape, h, depth, seed);
    UniqueWithin(h, g);
    StoryLevels(w, h, depth, seed, tape, n, ls, k, results, outputs);
    var live, c := CallMemory(w, g, sched, h, n, t, outputs);
    hide RunWhole, View, TaleRight, Story, RunsIn, ContextTold, LevelsOf, KeysOf, Live;
    if NoDup(KeysOf(live)) { StoryContext(w, g, sched, h, n, t, depth, seed, ls, k, results, outputs, live, c); }
  }

  /** The live memory a call was made with, and the context it makes. */
  lemma CallMemory(w: World, g: GraphSpec, sched: seq<Step>, h: GraphSpec, n: Node, t: nat, outputs: map<Id, Value>)
    returns (live: Ctx, c: Ctx)
    requires Exec(RunWhole(w, g), sched).Some? && CallFor(n, Exec(RunWhole(w, g), sched).value.tape, t)
    requires forall d | d <= View(Exec(RunWhole(w, g), sched).value.tape, Some(n.id)) :: TaleRight(w, h, outputs, n, d)
    ensures var tape := Exec(RunWhole(w, g), sched).value.tape;
      live == Live(View(tape[..t + 1], Some(n.id))) && c == tape[t].q.context
    ensures ContextRight(h, outputs, n.id, live, c) && (h.version < 2 ==> live == [])
  {
    hide RunWhole, View, RowRight, ContextRight;
    var tape := Exec(RunWhole(w, g), sched).value.tape;
    ViewStep(tape, t, n.id);
    var d := View(tape[..t + 1], Some(n.id));
    assert d[|d| - 1] == tape[t];
    live, c := Live(d), tape[t].q.context;
    CallContext(w, h, outputs, n, d, tape[t]);
    TaleContext(Scene(w, h, outputs, n, n.agent.value, c), d);
    if h.version < 2 { NoMemoryYet(w, h, outputs, n, d); }
  }

  lemma StoryContext(w: World, g: GraphSpec, sched: seq<Step>, h: GraphSpec, n: Node, t: nat, depth: nat,
                     seed: map<Id, Value>,
                     ls: seq<seq<Id>>, k: nat, results: map<Id, NodeResult>, outputs: map<Id, Value>, live: Ctx, c: Ctx)
    requires Exec(RunWhole(w, g), sched).Some? && UniqueIds(g) && UniqueIds(h) && Within(h, g) && n in h.nodes
    requires CallFor(n, Exec(RunWhole(w, g), sched).value.tape, t) && seed.Keys <= {PARENT}
    requires Story(w, h, depth, seed, Exec(RunWhole(w, g), sched).value.tape, n, ls, k, results, outputs)
    requires NoDup(KeysOf(live)) && ContextRight(h, outputs, n.id, live, c) && (h.version < 2 ==> live == [])
    ensures ContextTold(w, h, depth, seed, Exec(RunWhole(w, g), sched).value.tape, t, n, c, live, ls, results)
  {
    hide RunWhole, Story, Delivered1, FromAround, ContextRight, KeysOf;
    var tape := Exec(RunWhole(w, g), sched).value.tape;
    forall e | Orders(h, e) && e.dst == n.id ensures exists v :: Delivered1(w, h, depth, seed, ls, results, tape, t, c, e, v) {
      var v := Delivers1(w, g, sched, h, depth, seed, n, ls, k, results, outputs, live, c, e, t);
    }
    forall x, y | (x, y) in c ensures (exists e :: Orders(h, e) && e.dst == n.id && e.src == x) || FromAround(h, n, seed, live, x, y) {
      OthersAround(w, h, depth, seed, tape, n, ls, k, results, outputs, live, c, x, y);
    }
    SeedSeen(w, h, depth, seed, tape, n, ls, k, results, outputs, live, c);
  }

  lemma StoryLevels(w: World, h: GraphSpec, depth: nat, seed: map<Id, Value>, tape: seq<Mark>, n: Node,
                    ls: seq<seq<Id>>, k: nat,
                    results: map<Id, NodeResult>, outputs: map<Id, Value>)
    requires n in h.nodes && Story(w, h, depth, seed, tape, n, ls, k, results, outputs)
    ensures LevelsOf(h) == Some(ls)
  {
  }

  lemma TaleContext(s: Scene, d: seq<Mark>)
    requires TaleOn(s, d)
    ensures ContextRight(s.g, s.outputs, s.n.id, Live(d), s.c)
  {
  }

  lemma {:induction false} UniqueWithin(h: GraphSpec, g: GraphSpec)
    requires Within(h, g) && UniqueIds(g)
    ensures UniqueIds(h)
    decreases g
  {
    if h != g {
      var m :| m in g.nodes && m.subgraph.Some? && Within(h, m.subgraph.value);
      NodeScope(g, m);
      UniqueWithin(h, m.subgraph.value);
    }
  }

  /** What a nested graph was given reaches every node of it. */
  lemma SeedSeen(w: World, h: GraphSpec, depth: nat, seed: map<Id, Value>, tape: seq<Mark>, n: Node, ls: seq<seq<Id>>,
                 k: nat,
                 results: map<Id, NodeResult>, outputs: map<Id, Value>, live: Ctx, c: Ctx)
    requires n in h.nodes && Story(w, h, depth, seed, tape, n, ls, k, results, outputs)
    requires NoDup(KeysOf(live)) && ContextRight(h, outputs, n.id, live, c)
    ensures NoDup(KeysOf(c)) && (PARENT in seed && n.id != PARENT ==> PARENT in KeysOf(c))
  {
    hide Begun, RunNode, View, LevelsOf, Explained;
    KeysIn(c);
    if PARENT in seed && n.id != PARENT {
      assert PARENT in outputs && Given(h, outputs, n.id, PARENT);
      assert (PARENT, outputs[PARENT]) in c;
    }
  }

  lemma Delivers1(w: World, g: GraphSpec, sched: seq<Step>, h: GraphSpec, depth: nat, seed: map<Id, Value>, n: Node,
                  ls: seq<seq<Id>>, k: nat,
                  results: map<Id, NodeResult>, outputs: map<Id, Value>, live: Ctx, c: Ctx, e: Edge, t: nat)
    returns (v: Value)
    requires Exec(RunWhole(w, g), sched).Some? && UniqueIds(g) && UniqueIds(h) && Within(h, g) && n in h.nodes
    requires CallFor(n, Exec(RunWhole(w, g), sched).value.tape, t)
    requires Story(w, h, depth, seed, Exec(RunWhole(w, g), sched).value.tape, n, ls, k, results, outputs)
    requires NoDup(KeysOf(live)) && ContextRight(h, outputs, n.id, live, c) && Orders(h, e) && e.dst == n.id
    ensures Delivered1(w, h, depth, seed, ls, results, Exec(RunWhole(w, g), sched).value.tape, t, c, e, v)
  {
    hide RunWhole, View, Story, Told1, Shown, KeysOf;
    var tape := Exec(RunWhole(w, g), sched).value.tape;
    var m;
    v, m := ParentLeft(w, h, depth, seed, tape, n, ls, k, results, outputs, e);
    ParentShown(w, g, sched, h, e, FindNode(h, e.src).value, v, m, t);
    assert Given(h, outputs, n.id, e.src);
    assert (e.src, v) in c;
  }

  /** A node that reported something flagged ends blocked. */
  lemma QuarantinedFails(w: World, g: GraphSpec, depth: nat, seed: map<Id, Value>, sched: seq<Step>, end: GraphEnd,
                         n: Node, s: nat)
    requires UniqueIds(g) && Exec(RunGraph(w, g, depth, seed), sched).Some?
    requires Exec(RunGraph(w, g, depth, seed), sched).value.proc == Done(Ended(end))
    requires n in g.nodes && RunsAgent(n) && MarkedBy(Exec(RunGraph(w, g, depth, seed), sched).value.tape, s, n.id)
    requires var m := Exec(RunGraph(w, g, depth, seed), sched).value.tape[s]; m.Wrote? && m.e.kind.InjectionBlocked?
    ensures n.id in end.results && end.results[n.id] == Failed("handoff quarantined", true)
  {
    var tape := Exec(RunGraph(w, g, depth, seed), sched).value.tape;
    var front, rows := GraphAccounted(w, g, depth, seed, sched, end);
    ViewStep(tape, s, n.id);
    var d := View(tape, Some(n.id));
    InPrefix(View(tape[..s + 1], Some(n.id)), d, Bare(tape[s]));
    SourceSeen(d, Bare(tape[s]));
    hide RunGraph, LevelsOf, View, LeftBefore, Cleared, TaleRight, Blocks;
    AgentResult(w, g, depth, seed, end, tape, n);
    BlockedResult(w, g, n, d, end.results[n.id]);
  }

  /** How an agent node of a finished graph ended, if it did anything. */
  lemma AgentResult(w: World, g: GraphSpec, depth: nat, seed: map<Id, Value>, end: GraphEnd, tape: seq<Mark>, n: Node)
    requires UniqueIds(g) && Accounted(w, g, depth, seed, end, tape) && n in g.nodes && RunsAgent(n)
    requires View(tape, Some(n.id)) != []
    ensures n.id in end.results && exists outputs :: AgentEnds(w, g, outputs, n, View(tape, Some(n.id)), end.results[n.id])
  {
    hide LevelsOf, View, LeftBefore, Cleared, TaleRight, AgentEnds;
    var ls := LevelsOf(g).value;
    StepNode(g, n);
    SameNode(g, n, FindNode(g, n.id).value);
    LevelsShape(g);
    assert Placed(ls, n.id);
    var k :| At(ls, k, n.id);
    var outputs :| LeftBefore(ls, k, end.results, seed, outputs)
      && if Cleared(w, g, end.results, outputs, n) then NodeLaw(w, g, depth, outputs, n, tape, end.results[n.id])
         else end.results[n.id] == Skipped && Silent(tape, ScopeOf(n));
    assert Some(n.id) in ScopeOf(n);
    AgentLaw(w, g, depth, outputs, n, tape, end.results[n.id]);
  }

  lemma BlockedResult(w: World, g: GraphSpec, n: Node, d: seq<Mark>, r: NodeResult)
    requires Blocks(d) != [] && exists outputs :: AgentEnds(w, g, outputs, n, d, r)
    ensures r == Failed("handoff quarantined", true)
  {
    hide TaleOn, HandoffEnds;
    var outputs :| AgentEnds(w, g, outputs, n, d, r);
    assert d != [] by { NoBlocks(); }
  }

  lemma NoBlocks()
    ensures Blocks([]) == []
  {
  }

  /** Hence of what `Executor.run` itself writes into an empty log. */
  lemma ExecutorAccounted(r: Terms, w: World, g: GraphSpec, end: GraphEnd, m0: Moment, m1: Moment)
    returns (body: seq<Mark>, front: seq<Mark>, rows: seq<Mark>)
    requires Went(r, RunWhole(w, g), Done(Ended(end)), m0, m1) && m0.tape == []
    ensures m1.tape == [Wrote(Event(RunStart, None), FREE)] + body
      + [Wrote(Event(RunEnd(end.failed == [], end.failed, end.compensated), None), FREE)]
    ensures Accounted(w, g, 0, map[], end, body) && body == front + rows && Compensated1(g, end, front, rows)
  {
    hide RunWhole, Accounted, Compensated1;
    assert m1.tape[|m0.tape|..] == m1.tape;
    var sched := RanCompletes(RunWhole(w, g), Ended(end), m0.tape, m1.tape);
    body, front, rows := RunAccounted(w, g, sched, end);
  }
}
