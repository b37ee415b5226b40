// The compiled graph: six levels with every branch on one of them, accepted by
// the validator, and inert until its approval gate opens.
module CompiledGraphs {
  import opened Base
  import opened Graph
  import opened Reach
  import opened Layering
  import opened Events
  import opened Tasks
  import opened Safety
  import opened Kernel
  import opened Scopes
  import opened Failures
  import opened Receipts
  import opened Approvals
  import CausalLog
  import opened Compiler

  lemma EdgesOf(c: Cast, ids: seq<Id>)
    ensures forall e :: e in Compiled(c, ids).edges <==>
      || e == Edge("clarify", "approve", "") || e == Edge("approve", "fanout", "") || e == Edge("join", "verify", c.report)
      || (e.src == "fanout" && e.dst in ids && e.schema == c.findings)
      || (e.dst == "join" && e.src in ids && e.schema == c.findings)
  {
    EdgesAre(c, ids);
    InFour([Edge("clarify", "approve", ""), Edge("approve", "fanout", "")], FanEdges(c, ids), JoinEdges(c, ids),
           [Edge("join", "verify", c.report)]);
  }

  lemma IdsAre(c: Cast, ids: seq<Id>)
    requires Unreserved(ids)
    ensures var g := Compiled(c, ids);
      && (forall x :: x in Ids(g) <==> x in FIXED || x in ids || x in CompIds(ids))
      && (forall x :: x in Comps(g) <==> x in CompIds(ids))
      && (forall x :: x in Steps(g) <==> x in FIXED || x in ids)
  {
    var g := Compiled(c, ids);
    hide Compiled, Opening, Closing;
    NodesAre(c, ids);
    NodesThere(c, ids);
    CompensatorsAre(ids);
    FixedPlain(c);
    FixedThere(c);
    forall x ensures x in Ids(g) <==> x in FIXED || x in ids || x in CompIds(ids) {
      if x in FIXED { var n :| (n in Opening() || n in Closing(c)) && n.id == x; assert n in g.nodes; }
      if x in ids { var n :| n in g.nodes && n.id == x && n.ntype == AgentNode; }
      if x in CompIds(ids) { var b :| b in ids && x == CompId(b); assert Compensator(b) in g.nodes; }
    }
    forall x ensures x in Comps(g) <==> x in CompIds(ids) {
      if x in CompIds(ids) { var b :| b in ids && x == CompId(b); assert Compensator(b) in g.nodes; }
    }
    forall x | x in FIXED || x in ids ensures x !in CompIds(ids) {
      if x in CompIds(ids) { var b :| b in ids && x == CompId(b); CompIdIs(b, b); }
    }
  }

  lemma FixedThere(c: Cast)
    ensures forall x | x in FIXED :: exists n :: (n in Opening() || n in Closing(c)) && n.id == x
  {
    assert Opening()[0] in Opening() && Opening()[1] in Opening() && Opening()[2] in Opening();
    assert Closing(c)[0] in Closing(c) && Closing(c)[1] in Closing(c);
  }

  // ---------- six levels ----------

  /** The pair of ids an edge of the compiled graph joins. */
  ghost predicate Rung(r: Rungs, ids: seq<Id>, p: Id, n: Id) {
    || (p == r.clarify && n == r.approve) || (p == r.approve && n == r.fanout)
    || (p == r.fanout && n in ids) || (p in ids && n == r.join) || (p == r.join && n == r.verify)
  }

  datatype Rungs = Rungs(clarify: Id, approve: Id, fanout: Id, join: Id, verify: Id)

  const RUNGS := Rungs("clarify", "approve", "fanout", "join", "verify")

  /** A graph whose scheduled part is clarify, approve, fanout, the branches, join, verify. */
  ghost predicate Ladder(g: GraphSpec, r: Rungs, ids: seq<Id>) {
    && ids != []
    && (forall x :: x in Steps(g) <==> Fixed(r, x) || x in ids)
    && (forall x | Fixed(r, x) :: x !in ids)
    && NoDup([r.clarify, r.approve, r.fanout, r.join, r.verify])
    && (forall p, n :: HasEdge(g, p, n) <==> Rung(r, ids, p, n))
  }

  predicate Fixed(r: Rungs, x: Id) {
    x == r.clarify || x == r.approve || x == r.fanout || x == r.join || x == r.verify
  }

  function Depth(r: Rungs, x: Id): nat {
    if x == r.clarify then 0
    else if x == r.approve then 1
    else if x == r.fanout then 2
    else if x == r.join then 4
    else if x == r.verify then 5
    else 3
  }

  lemma Apart(r: Rungs)
    requires NoDup([r.clarify, r.approve, r.fanout, r.join, r.verify])
    ensures r.clarify != r.approve && r.clarify != r.fanout && r.clarify != r.join && r.clarify != r.verify
    ensures r.approve != r.fanout && r.approve != r.join && r.approve != r.verify
    ensures r.fanout != r.join && r.fanout != r.verify && r.join != r.verify
  {
    var s := [r.clarify, r.approve, r.fanout, r.join, r.verify];
    assert s[0] != s[1] && s[0] != s[2] && s[0] != s[3] && s[0] != s[4];
    assert s[1] != s[2] && s[1] != s[3] && s[1] != s[4] && s[2] != s[3] && s[2] != s[4] && s[3] != s[4];
  }

  /** Every node has a parent just above it, or is on the first level. */
  ghost predicate Lowest(g: GraphSpec, f: map<Id, nat>) {
    forall m | m in f && f[m] > 0 :: exists e :: Orders(g, e) && e.dst == m && e.src in f && f[e.src] == f[m] - 1
  }

  /** The parent one level up. */
  function Up(r: Rungs, ids: seq<Id>, x: Id): Id
    requires ids != []
  {
    if x == r.approve then r.clarify
    else if x == r.fanout then r.approve
    else if x == r.join then ids[0]
    else if x == r.verify then r.join
    else r.fanout
  }

  lemma DepthIsLayering(g: GraphSpec, r: Rungs, ids: seq<Id>, f: map<Id, nat>)
    requires Ladder(g, r, ids) && f == map x | x in Steps(g) :: Depth(r, x)
    ensures IsLayering(g, f) && Lowest(g, f)
  {
    Apart(r);
    forall e | Orders(g, e) ensures e.src in f && f[e.src] < f[e.dst] {
      assert HasEdge(g, e.src, e.dst);
    }
    forall m | m in f && f[m] > 0 ensures exists e :: Orders(g, e) && e.dst == m && e.src in f && f[e.src] == f[m] - 1 {
      var e := EdgeUp(g, r, ids, m);
    }
  }

  /** Every node but the first has a parent one level up. */
  lemma EdgeUp(g: GraphSpec, r: Rungs, ids: seq<Id>, m: Id) returns (e: Edge)
    requires Ladder(g, r, ids) && m in Steps(g) && Depth(r, m) > 0
    ensures Orders(g, e) && e.dst == m && e.src in Steps(g) && Depth(r, e.src) == Depth(r, m) - 1
  {
    Apart(r);
    assert ids[0] in ids;
    var p := Up(r, ids, m);
    assert HasEdge(g, p, m);
    e :| e in g.edges && e.src == p && e.dst == m;
    assert p in Steps(g);
  }

  /** A layering that nothing could lower is the one the scheduler computes. */
  lemma TightIsLevels(g: GraphSpec, f: map<Id, nat>, ls: seq<seq<Id>>)
    requires LevelsOf(g) == Some(ls) && IsLayering(g, f)
    requires Lowest(g, f)
    ensures forall k, n :: At(ls, k, n) <==> n in f && f[n] == k
  {
    LevelsShape(g);
    forall k, n ensures At(ls, k, n) <==> n in f && f[n] == k {
      if At(ls, k, n) { TightLayeringIsComputed(g, ls, f, k, n); }
      if n in f && f[n] == k {
        assert Placed(ls, n);
        var j :| At(ls, j, n);
        TightLayeringIsComputed(g, ls, f, j, n);
      }
    }
  }

  /** As many levels as the deepest node needs. */
  lemma LevelCount(g: GraphSpec, f: map<Id, nat>, ls: seq<seq<Id>>, top: Id)
    requires LevelsOf(g) == Some(ls) && (forall k, n :: At(ls, k, n) <==> n in f && f[n] == k)
    requires top in f && forall n | n in f :: f[n] <= f[top]
    ensures |ls| == f[top] + 1
  {
    LevelsShape(g);
    assert At(ls, f[top], top);
    if |ls| > f[top] + 1 {
      var k := f[top] + 1;
      assert ls[k] in ls;
      HeadIn(ls[k]);
      assert At(ls, k, ls[k][0]);
    }
  }

  lemma DeepestIsVerify(g: GraphSpec, r: Rungs, ids: seq<Id>)
    requires Ladder(g, r, ids)
    ensures r.verify in Steps(g) && Depth(r, r.verify) == 5 && forall x | x in Steps(g) :: Depth(r, x) <= 5
  {
    Apart(r);
  }

  /** Six levels: clarify, approve, fanout, all branches, join, verify. */
  lemma LadderLevels(g: GraphSpec, r: Rungs, ids: seq<Id>)
    requires Ladder(g, r, ids)
    ensures LevelsOf(g).Some?
    ensures var ls := LevelsOf(g).value;
      |ls| == 6 && forall k, n :: At(ls, k, n) <==> n in Steps(g) && Depth(r, n) == k
  {
    hide LevelsOf, IsLayering, Lowest, Ladder, Depth, Steps;
    var f := map x | x in Steps(g) :: Depth(r, x);
    DepthIsLayering(g, r, ids, f);
    LevelsExist(g);
    TightIsLevels(g, f, LevelsOf(g).value);
    DeepestIsVerify(g, r, ids);
    LevelCount(g, f, LevelsOf(g).value, r.verify);
  }

  lemma IsLadder(c: Cast, ids: seq<Id>)
    requires Unreserved(ids) && ids != []
    ensures Ladder(Compiled(c, ids), RUNGS, ids)
  {
    var g := Compiled(c, ids);
    hide Compiled;
    EdgesOf(c, ids);
    IdsAre(c, ids);
    RungsApart();
    assert forall x :: x in FIXED <==> Fixed(RUNGS, x);
    forall p, n ensures HasEdge(g, p, n) <==> Rung(RUNGS, ids, p, n) {
      if Rung(RUNGS, ids, p, n) {
        var e := if n in ids then Edge(p, n, c.findings)
          else if p in ids then Edge(p, n, c.findings)
          else if p == RUNGS.join then Edge(p, n, c.report)
          else Edge(p, n, "");
        assert e in g.edges;
      }
    }
  }

  lemma RungsApart()
    ensures NoDup([RUNGS.clarify, RUNGS.approve, RUNGS.fanout, RUNGS.join, RUNGS.verify])
  {
    assert RUNGS.clarify[0] == 'c' && RUNGS.approve[0] == 'a' && RUNGS.fanout[0] == 'f' && RUNGS.join[0] == 'j'
      && RUNGS.verify[0] == 'v';
  }

  // ---------- inert until approved ----------

  /** The gate stands above every node that could call a model. */
  lemma GateAbove(g: GraphSpec, r: Rungs, ids: seq<Id>, x: Id)
    requires Ladder(g, r, ids) && x in Steps(g) && Depth(r, x) >= 2
    ensures ScheduledAbove(g, r.approve, x)
  {
    Apart(r);
    assert ids[0] in ids;
    var b := if x in ids then x else ids[0];
    var all := [r.approve, r.fanout, b, r.join, r.verify];
    var ps := all[..Depth(r, x)];
    forall i | 0 <= i < |ps| - 1 ensures HasEdge(g, ps[i], ps[i + 1]) && ps[i] !in Comps(g) {
      assert Rung(r, ids, all[i], all[i + 1]);
      assert all[i] in Steps(g);
    }
    assert Ordered(g, ps) && ps[0] == r.approve && ps[|ps| - 1] == x;
  }

  /** A compensator for each branch, and no other. */
  lemma OneCompensatorEach(c: Cast, ids: seq<Id>)
    ensures forall n | n in Compiled(c, ids).nodes && n.ntype == CompensateNode :: exists b :: b in ids && n == Compensator(b)
    ensures forall b | b in ids :: Compensator(b) in Compiled(c, ids).nodes
  {
    NodesThere(c, ids);
    AnalystsAre(c, ids, 0);
    CompensatorsAre(ids);
    FixedPlain(c);
    hide Opening, Closing, Analysts, Compensators;
    forall n | n in Compiled(c, ids).nodes && n.ntype == CompensateNode ensures n in Compensators(ids) { }
  }

  lemma BranchesShareARung(c: Cast, ids: seq<Id>)
    requires Unreserved(ids)
    ensures forall n :: n in ids <==> n in Steps(Compiled(c, ids)) && Depth(RUNGS, n) == 3
  {
    hide Compiled;
    IdsAre(c, ids);
    RungsApart();
    assert forall x :: x in FIXED <==> Fixed(RUNGS, x);
  }

  lemma CompiledIsAccepted(c: Cast, ids: seq<Id>)
    ensures Validate(Compiled(c, ids)) == Problems([])
  {
    hide Compiled;
    NodesAre(c, ids);
    AllCovered(Compiled(c, ids), Compiled(c, ids).nodes);
  }

  /** A compiled graph is accepted, has unique ids, six levels with the branches alone on one, and a compensator per branch. */
  lemma CompiledIsWellFormed(c: Cast, ids: seq<Id>)
    requires Unreserved(ids) && ids != [] && NoDup(ids)
    ensures var g := Compiled(c, ids);
      UniqueIds(g) && Validate(g) == Problems([]) && LevelsOf(g).Some? && |LevelsOf(g).value| == 6
      && (forall k, n :: At(LevelsOf(g).value, k, n) <==> n in Steps(g) && Depth(RUNGS, n) == k)
      && (forall n :: At(LevelsOf(g).value, 3, n) <==> n in ids)
    ensures forall n | n in Compiled(c, ids).nodes && n.ntype == CompensateNode :: exists b :: b in ids && n == Compensator(b)
    ensures forall b | b in ids :: Compensator(b) in Compiled(c, ids).nodes
  {
    hide Compiled, Depth, LevelsOf, Validate;
    OneCompensatorEach(c, ids);
    BranchesShareARung(c, ids);
    UniqueIffUnreserved(c, ids);
    CompiledIsAccepted(c, ids);
    IsLadder(c, ids);
    LadderLevels(Compiled(c, ids), RUNGS, ids);
  }

  lemma ApproveIsGate(c: Cast, ids: seq<Id>)
    requires Unreserved(ids) && NoDup(ids)
    ensures IsApproval(Compiled(c, ids), "approve") && IsClarify(Compiled(c, ids))
  {
    var g := Compiled(c, ids);
    UniqueIffUnreserved(c, ids);
    NodesThere(c, ids);
    var a, b := Opening()[1], Opening()[0];
    assert a in Opening() && b in Opening();
    SameNode2(g, a);
    SameNode2(g, b);
  }

  ghost predicate IsClarify(g: GraphSpec) {
    FindNode(g, "clarify").Some? && FindNode(g, "clarify").value.ntype == ClarifyNode
  }

  lemma SameNode2(g: GraphSpec, n: Node)
    requires UniqueIds(g) && n in g.nodes
    ensures FindNode(g, n.id) == Some(n)
  {
    CausalLog.SameNode(g, FindNode(g, n.id).value, n);
  }

  /** What makes a graph wait for one gate. */
  ghost predicate Gated(g: GraphSpec, gate: Id) {
    && IsApproval(g, gate)
    && forall n | n in g.nodes :: n.subgraph.None? && (RunsAgent(n) ==> ScheduledAbove(g, gate, n.id))
  }

  lemma CompiledIsGated(c: Cast, ids: seq<Id>)
    requires Unreserved(ids) && ids != [] && NoDup(ids)
    ensures Gated(Compiled(c, ids), "approve")
  {
    hide Compiled;
    var g := Compiled(c, ids);
    NodesAre(c, ids);
    IsLadder(c, ids);
    ApproveIsGate(c, ids);
    forall n | n in g.nodes && RunsAgent(n) ensures ScheduledAbove(g, "approve", n.id) {
      AgentIsBelow(c, ids, n);
      GateAbove(g, RUNGS, ids, n.id);
    }
  }

  /** While its gate says no, such a graph never calls a model. */
  lemma GatedIsInert(w: World, g: GraphSpec, gate: Id, sched: seq<Step>, t: nat)
    requires Gated(g, gate) && Exec(RunWhole(w, g), sched).Some? && NoYes(Exec(RunWhole(w, g), sched).value.tape)
    ensures var tape := Exec(RunWhole(w, g), sched).value.tape;
      t < |tape| && tape[t].Heard? ==> !tape[t].q.Complete?
  {
    var tape := Exec(RunWhole(w, g), sched).value.tape;
    if t < |tape| && tape[t].Heard? && tape[t].q.Complete? {
      var n := Caller(w, g, sched, t);
      ClosedGates(w, g, sched, gate, n, t);
    }
  }

  /** Zero completer calls, in every run of a compiled graph in which `approve` is not granted. */
  lemma InertUntilApproved(w: World, c: Cast, ids: seq<Id>, sched: seq<Step>, t: nat)
    requires Unreserved(ids) && ids != [] && NoDup(ids) && Exec(RunWhole(w, Compiled(c, ids)), sched).Some?
    requires NoYes(Exec(RunWhole(w, Compiled(c, ids)), sched).value.tape)
    ensures var tape := Exec(RunWhole(w, Compiled(c, ids)), sched).value.tape;
      t < |tape| && tape[t].Heard? ==> !tape[t].q.Complete?
  {
    hide Compiled, RunWhole, Gated;
    CompiledIsGated(c, ids);
    GatedIsInert(w, Compiled(c, ids), "approve", sched, t);
  }

  /** The node a call is made for, in a graph without nested ones. */
  lemma Caller(w: World, g: GraphSpec, sched: seq<Step>, t: nat) returns (n: Node)
    requires Exec(RunWhole(w, g), sched).Some? && forall m | m in g.nodes :: m.subgraph.None?
    requires var tape := Exec(RunWhole(w, g), sched).value.tape; t < |tape| && tape[t].Heard? && tape[t].q.Complete?
    ensures n in g.nodes && RunsAgent(n) && CallFor(n, Exec(RunWhole(w, g), sched).value.tape, t)
  {
    var tape := Exec(RunWhole(w, g), sched).value.tape;
    CleanWhole(w, g);
    TidyExec(RunWhole(w, g), sched, GraphScope(g) + {None});
    assert tape[t] in tape;
    GatesFirst(w, g, sched, t);
    NothingNested(g.nodes);
    var x := tape[t].q.node;
    assert x in IdsOf(g.nodes);
    OwnIds(g.nodes);
    n :| n in g.nodes && n.id == x;
  }

  lemma FixedAgents(c: Cast)
    ensures forall n | n in Opening() :: !RunsAgent(n)
    ensures forall n | n in Closing(c) :: Depth(RUNGS, n.id) >= 4 && n.id in FIXED
  {
  }

  lemma DepthOfBranch(ids: seq<Id>, b: Id)
    requires Unreserved(ids) && b in ids
    ensures Depth(RUNGS, b) == 3
  {
    assert "clarify" in FIXED && "approve" in FIXED && "fanout" in FIXED && "join" in FIXED && "verify" in FIXED;
  }

  lemma AgentIsBelow(c: Cast, ids: seq<Id>, n: Node)
    requires Unreserved(ids) && ids != [] && n in Compiled(c, ids).nodes && RunsAgent(n)
    ensures n.id in Steps(Compiled(c, ids)) && Depth(RUNGS, n.id) >= 2
  {
    hide Compiled, Opening, Closing, Depth;
    NodesAre(c, ids);
    IdsAre(c, ids);
    FixedAgents(c);
    assert Listed(n, c, ids);
    if n.id in ids { DepthOfBranch(ids, n.id); }
  }

  // ---------- what such a run leaves behind ----------

  lemma ClosedResults(g: GraphSpec, r: Rungs, ids: seq<Id>, end: GraphEnd)
    requires Ladder(g, r, ids) && UniqueIds(g) && WellEnded(g, end, {})
    requires FindNode(g, r.clarify).Some? && FindNode(g, r.clarify).value.ntype == ClarifyNode && IsApproval(g, r.approve)
    ensures end.results[r.clarify].Passed? && end.results[r.approve].Failed?
  {
    Apart(r);
    var a, b := FindNode(g, r.clarify).value, FindNode(g, r.approve).value;
    forall e | Orders(g, e) ensures e.dst != r.clarify && (e.dst == r.approve ==> e.src == r.clarify) {
      assert HasEdge(g, e.src, e.dst);
    }
    assert Due(g, end.results, r.clarify);
    assert Due(g, end.results, r.approve);
  }

  lemma BelowGateSkipped(g: GraphSpec, r: Rungs, ids: seq<Id>, end: GraphEnd, x: Id)
    requires Ladder(g, r, ids) && Structured(g, end) && Sources(g) <= Ids(g)
    requires r.approve in end.results && end.results[r.approve].Failed?
    requires x in Steps(g) && x != r.approve && x != r.clarify
    ensures x in end.results && end.results[x].Skipped?
  {
    Apart(r);
    GateAbove(g, r, ids, x);
    hide Ladder;
    var ps: seq<Id> :| |ps| >= 2 && Ordered(g, ps) && ps[0] == r.approve && ps[|ps| - 1] == x;
    OrderedSteps(g, ps);
    BelowIsSkipped(g, end, ps);
  }

  /** Everything below the gate was skipped, so the gate is the only failure. */
  lemma OnlyGateFails(g: GraphSpec, r: Rungs, ids: seq<Id>, end: GraphEnd)
    requires Ladder(g, r, ids) && UniqueIds(g) && WellEnded(g, end, {})
    requires FindNode(g, r.clarify).Some? && FindNode(g, r.clarify).value.ntype == ClarifyNode && IsApproval(g, r.approve)
    ensures end.failed == [r.approve]
  {
    ClosedResults(g, r, ids, end);
    LadderSources(g, r, ids);
    forall x | x in Steps(g) && x != r.approve ensures !end.results[x].Failed? {
      if x != r.clarify { BelowGateSkipped(g, r, ids, end, x); }
    }
    assert forall x :: x in end.failed <==> x == r.approve;
    OneElement(end.failed, r.approve);
  }

  lemma LadderSources(g: GraphSpec, r: Rungs, ids: seq<Id>)
    requires Ladder(g, r, ids)
    ensures Sources(g) <= Ids(g)
  {
    forall x | x in Sources(g) ensures x in Ids(g) {
      var e :| e in g.edges && e.src == x;
      assert HasEdge(g, x, e.dst);
      assert x in Steps(g);
    }
  }

  lemma FirstTwo(s: seq<Id>)
    requires NoDup(s) && |s| > 1
    ensures s[0] in s && s[1] in s && s[0] != s[1]
  {
  }

  lemma OneElement(s: seq<Id>, x: Id)
    requires NoDup(s) && forall y :: y in s <==> y == x
    ensures s == [x]
  {
    assert x in s;
    if |s| > 1 { FirstTwo(s); }
  }

  /** The nodes of an ordered walk into a step are steps, where parents are. */
  lemma {:induction false} OrderedSteps(g: GraphSpec, ps: seq<Id>)
    requires Ordered(g, ps) && |ps| > 0 && ps[|ps| - 1] in Steps(g) && Sources(g) <= Ids(g)
    ensures StepWalk(g, ps)
  {
    forall i | 0 <= i < |ps| ensures ps[i] in Steps(g) {
      if i < |ps| - 1 {
        assert HasEdge(g, ps[i], ps[i + 1]);
        assert ps[i] in Sources(g);
      }
    }
  }

  /** With no compensator due, none ran. */
  lemma NoneUndone(g: GraphSpec, end: GraphEnd)
    requires Structured(g, end) && forall n | n in g.nodes :: !Undoes(n, end.failed)
    ensures end.compensated == []
  {
    var at :| Undone(g.nodes, end.failed, end.compensated, at);
    HeadIn(end.compensated);
    forall x ensures x !in end.compensated { UndoneIds(g, end.failed, end.compensated, at, x); }
  }

  lemma WellEndedStructured(g: GraphSpec, end: GraphEnd, granted: set<Id>)
    requires WellEnded(g, end, granted)
    ensures Structured(g, end)
  {
  }

  lemma {:induction false} NoGains(tape: seq<Mark>)
    requires NoGrant(tape)
    ensures Gains(tape) == {}
  {
    if tape != [] { NoGains(tape[1..]); }
  }

  lemma NothingToUndo(c: Cast, ids: seq<Id>)
    requires Unreserved(ids)
    ensures forall n | n in Compiled(c, ids).nodes :: !Undoes(n, ["approve"])
  {
    hide Compiled, Opening, Closing;
    NodesAre(c, ids);
    FixedPlain(c);
    forall n | n in Compiled(c, ids).nodes ensures !Undoes(n, ["approve"]) {
      assert Listed(n, c, ids);
      assert "approve" in FIXED;
    }
  }

  /** A compiled graph whose gate says no fails at `approve` alone, and compensates nothing. */
  lemma DeniedFailsOnlyApprove(w: World, c: Cast, ids: seq<Id>, sched: seq<Step>, end: GraphEnd)
    requires Unreserved(ids) && ids != [] && NoDup(ids) && Exec(RunWhole(w, Compiled(c, ids)), sched).Some?
    requires Exec(RunWhole(w, Compiled(c, ids)), sched).value.proc == Done(Ended(end))
    requires NoYes(Exec(RunWhole(w, Compiled(c, ids)), sched).value.tape)
    ensures end.failed == ["approve"] && end.compensated == []
  {
    hide Compiled, RunWhole, WellEnded, Undoes;
    var g := Compiled(c, ids);
    var tape := Exec(RunWhole(w, g), sched).value.tape;
    WholeWithholds(w, g);
    WithholdsRun(RunWhole(w, g), sched);
    NoGains(tape);
    RunsEndStructured(w, g, sched, end);
    UniqueIffUnreserved(c, ids);
    IsLadder(c, ids);
    ApproveIsGate(c, ids);
    OnlyGateFails(g, RUNGS, ids, end);
    NothingToUndo(c, ids);
    WellEndedStructured(g, end, Gains(tape));
    NoneUndone(g, end);
  }
}
