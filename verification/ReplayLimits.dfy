// Where replay stops being exact: replay_run drops the clarifications of the
// original run, and takes no approval from a gate whose id is empty.
module ReplayLimits {
  import opened Base
  import opened Graph
  import opened Layering
  import opened Events
  import opened Tasks
  import opened Confluence
  import opened Machine
  import opened Kernel
  import opened Scopes
  import opened KernelInduction
  import opened Replay
  import opened ReplayExact
  import opened Unclarified

  /**
   * Every replay of every version-1 run with these clarifications and
   * approvals ends as the run did. The graphs are those without clarify nodes,
   * unless `asking`, and without an empty id, unless `nameless`.
   */
  ghost predicate AlwaysExact(asking: bool, nameless: bool, clarifications: Option<Value>, approvals: set<Id>) {
    forall w, w', g, s1, out1, t1, recorded, granted, s2, out2, t2 |
      && Original(w, g, approvals, s1, out1, t1) && Deaf(w, w') && w.clarifications == clarifications
      && FirstVersion(g) && (asking || Unasked(g)) && (nameless || "" !in AllIds(g))
      && Reads(recorded, granted, LogOf(t1)) && Replayed(w', g, recorded, granted, s2, out2, t2) ::
      out1 == out2
  }

  /**
   * Replay is exact exactly when there were no clarifications, where a clarify
   * node may ask for them, and no gate with an empty id was approved, where
   * there may be one.
   */
  lemma ExactIff(asking: bool, nameless: bool, clarifications: Option<Value>, approvals: set<Id>)
    ensures AlwaysExact(asking, nameless, clarifications, approvals)
      <==> (asking ==> clarifications.None?) && (nameless ==> "" !in approvals)
  {
    if (asking ==> clarifications.None?) && (nameless ==> "" !in approvals) {
      forall w, w', g, s1, out1, t1, recorded, granted, s2, out2, t2 |
        && Original(w, g, approvals, s1, out1, t1) && Deaf(w, w') && w.clarifications == clarifications
        && FirstVersion(g) && (asking || Unasked(g)) && (nameless || "" !in AllIds(g))
        && Reads(recorded, granted, LogOf(t1)) && Replayed(w', g, recorded, granted, s2, out2, t2)
        ensures out1 == out2
      {
        ReplayRestores(w, w', g, approvals, s1, out1, t1, recorded, granted, s2, out2, t2);
      }
    }
    if asking && clarifications.Some? { AnswersAreLost(nameless, clarifications, approvals); }
    if nameless && "" in approvals { EmptyGateIsLost(asking, clarifications, approvals); }
  }

  // ---------- runs of small graphs ----------

  /** A level of one node that should run. */
  lemma RanLevel(w: World, g: GraphSpec, n: Node, rest: seq<seq<Id>>, b: Board, o: Outcome, t0: seq<Mark>, t1: seq<Mark>)
    requires n in g.nodes && FindNode(g, n.id) == Some(n) && ShouldRun(w, g, b, n.id) && forall l | l in rest :: Known(g, l)
    requires Ran(RunNode(w, g, 0, b.outputs, n), Done(o), t0, t1)
    ensures Ran(RunLevels(w, g, 0, [[n.id]] + rest, b), RunLevels(w, g, 0, rest, Place1(b, n.id, ResultOf(o))), t0, t1)
  {
    hide Ran, RunNode, ShouldRun;
    var level, ls := [n.id], [[n.id]] + rest;
    assert ls[0] == level && ls[1..] == rest && level[0] == n.id && level[1..] == [];
    assert Runnable(w, g, b, level) == level by { assert Runnable(w, g, b, []) == []; }
    var p := RunLevels(w, g, 0, ls, b);
    var b1 := SkipOthers(b, level, level);
    assert b1 == b by { assert b.results + map[] == b.results; }
    assert p.kids == NodeKids(w, g, 0, b.outputs, level);
    RanAwait(p, o, t0, t1);
    assert p.join([o]) == RunLevels(w, g, 0, rest, SettleAll(b1, level, [o]));
    assert [o][1..] == [] && SettleAll(b1, level, [o]) == SettleAll(Place1(b, n.id, ResultOf(o)), [], []);
  }

  lemma SkippedLevel(w: World, g: GraphSpec, n: Node, rest: seq<seq<Id>>, b: Board)
    requires n in g.nodes && !ShouldRun(w, g, b, n.id) && forall l | l in rest :: Known(g, l)
    ensures RunLevels(w, g, 0, [[n.id]] + rest, b) == RunLevels(w, g, 0, rest, SkipOthers(b, [n.id], []))
  {
    hide ShouldRun;
    var level, ls := [n.id], [[n.id]] + rest;
    assert ls[0] == level && ls[1..] == rest && level[1..] == [];
    assert Runnable(w, g, b, level) == [] by { assert Runnable(w, g, b, []) == []; }
  }

  /** A graph with no compensators, between RUN_START and RUN_END. */
  lemma RanWhole(w: World, g: GraphSpec, ls: seq<seq<Id>>, b: Board, t: seq<Mark>)
    returns (sched: seq<Step>, tape: seq<Mark>)
    requires Validate(g) == Problems([]) && UniqueIds(g) && LevelsOf(g) == Some(ls) && forall l | l in ls :: Known(g, l)
    requires forall n | n in g.nodes :: n.ntype != CompensateNode
    requires Ran(RunLevels(w, g, 0, ls, Board(map[], map[], [])), RunLevels(w, g, 0, [], b), [Wrote(Event(RunStart, None), FREE)], t)
    ensures Completes(RunWhole(w, g), sched, Ended(GraphEnd(b.results, b.outputs, b.failed, [])), tape)
    ensures tape == t + [Wrote(Event(RunEnd(b.failed == [], b.failed, []), None), FREE)]
  {
    hide Ran, Validate, LevelsOf;
    var out := Ended(GraphEnd(b.results, b.outputs, b.failed, []));
    NoneUndoes(g.nodes, b);
    assert RunLevels(w, g, 0, [], b) == Done(out);
    var whole := RunWhole(w, g);
    var fork, first := whole.next, [Wrote(Event(RunStart, None), FREE)];
    RanOne(Event(RunStart, None), fork, []);
    assert [] + first == first;
    assert fork.kids[0].body == RunGraph(w, g, 0, map[]) == RunLevels(w, g, 0, ls, Board(map[], map[], []));
    RanAwait(fork, out, first, t);
    var last := AfterRun(out);
    assert fork.join([out]) == last;
    RanOn(whole, fork, last, [], first, t);
    var e := Event(RunEnd(b.failed == [], b.failed, []), None);
    RanOne(e, Done(out), t);
    tape := t + [Wrote(e, FREE)];
    RanOn(whole, last, Done(out), [], t, tape);
    sched := RanCompletes(whole, out, [], tape);
    assert tape[0..] == tape;
  }

  lemma {:induction false} NoneUndoes(nodes: seq<Node>, b: Board)
    requires forall n | n in nodes :: n.ntype != CompensateNode
    ensures Compensate(nodes, b, []) == Done(Ended(GraphEnd(b.results, b.outputs, b.failed, [])))
  {
    if nodes != [] {
      assert nodes[0] in nodes;
      NoneUndoes(nodes[1..], b);
    }
  }

  /** The only level left. */
  lemma LastLevel(g: GraphSpec, n: Id)
    requires n in Steps(g) && forall e | e in g.edges && e.dst == n :: e.src in Steps(g) && e.src != n
    ensures Peel(g, {n}) == Some([[n]])
  {
    assert Ready(g, {n}) == {n};
    ListsUnique(Sorted({n}), [n], {n});
    assert {n} - {n} == {};
    assert Peel(g, {}) == Some([]);
    assert [[n]] + [] == [[n]];
  }

  /** A log without answers has nothing to replay. */
  lemma NothingRecorded(tape: seq<Mark>)
    requires forall m | m in tape && m.Wrote? :: !m.e.kind.ToolResult? && m.bill == FREE
    ensures forall key :: Recordings(LogOf(tape), key) == []
    ensures Unreplayed(tape)
  {
    ServedLogFree(tape);
  }

  /** A log whose only grants are for the empty id yields no approvals. */
  lemma NothingGranted(tape: seq<Mark>)
    requires forall m | m in tape && m.Wrote? && m.e.kind.ApprovalGranted? :: m.e.who == Some("")
    ensures ReadsApprovals({}, LogOf(tape))
  {
    forall r, n | r in LogOf(tape) && GrantRow(r, n) ensures n == "" {
      RowInLog(tape, r.event);
    }
  }

  // ---------- answers that decide a condition ----------

  function Ask(a: Id): Node { Node(a, ClarifyNode, None, "", None, 1, None) }

  function Act(b: Id): Node {
    Node(b, ConditionalNode, Some(AgentSpec("a", "m", SharedRo, 0, "", [])), "ask.answers == None", None, 1, None)
  }

  /** ask -> act, where act runs only if nothing was answered, and then has no tokens to spend. */
  function Heed(a: Id, b: Id): GraphSpec { GraphSpec(1, [Ask(a), Act(b)], [Edge(a, b, "")]) }

  const UNHEARD: Value := Dict(map[])

  /** A world in which the condition holds of an `ask` that passed on no answers. */
  const QUIET := World(v => false, (t, s) => Accept(UNHEARD),
    (c: string, o: map<Id, Value>) => exists n :: n in o && o[n] == UNHEARD, v => false, None, 0)

  function Heeds(clarifications: Option<Value>): World { QUIET.(clarifications := clarifications) }

  function Said(clarifications: Option<Value>): (v: Value)
    ensures v == UNHEARD <==> clarifications.None?
  {
    if clarifications.None? then UNHEARD
    else
      var heard := map["answers" := clarifications.value];
      assert "answers" in heard;
      Dict(heard)
  }

  lemma HeedNodes(a: Id, b: Id)
    requires a != b
    ensures Ask(a) in Heed(a, b).nodes && Act(b) in Heed(a, b).nodes && forall n | n in Heed(a, b).nodes :: n == Ask(a) || n == Act(b)
    ensures FindNode(Heed(a, b), a) == Some(Ask(a)) && FindNode(Heed(a, b), b) == Some(Act(b))
    ensures Parents(Heed(a, b), a) == [] && Parents(Heed(a, b), b) == [a]
  {
    var g, e := Heed(a, b), Edge(a, b, "");
    assert g.nodes[0] == Ask(a) && g.nodes[1] == Act(b) && g.nodes[1..] == [Act(b)];
    assert g.edges[0] == e && g.edges[1..] == [] && SourcesInto([], a) == [] && SourcesInto([], b) == [];
    assert [] + SourcesInto([], a) == [] && [a] + SourcesInto([], b) == [a];
  }

  lemma HeedStarts(a: Id, b: Id)
    requires a != b
    ensures Validate(Heed(a, b)) == Problems([]) && UniqueIds(Heed(a, b)) && FirstVersion(Heed(a, b))
    ensures AllIds(Heed(a, b)) == [a, b]
  {
    var g := Heed(a, b);
    HeedNodes(a, b);
    AllCovered(g, g.nodes);
    NothingNested(g.nodes);
    assert g.nodes[1..] == [Act(b)] && [Act(b)][1..] == [];
    assert IdsOf(g.nodes) == [a, b] && AllIds(g) == [a, b];
  }

  lemma HeedLevels(a: Id, b: Id)
    requires a != b
    ensures LevelsOf(Heed(a, b)) == Some([[a], [b]])
  {
    var g, e := Heed(a, b), Edge(a, b, "");
    HeedNodes(a, b);
    assert g.edges == [e] && e in g.edges;
    assert Steps(g) == {a, b} && Comps(g) == {};
    assert Ready(g, {a, b}) == {a};
    ListsUnique(Sorted({a}), [a], {a});
    assert {a, b} - {a} == {b};
    LastLevel(g, b);
    assert [[a]] + [[b]] == [[a], [b]];
  }

  /** Marks that neither ask nor answer. */
  predicate JustRow(m: Mark) { m.Wrote? && !IsReceipt(m.e) && m.bill == FREE }

  /** a passes on what it was told. */
  lemma AskPasses(a: Id, b: Id, clarifications: Option<Value>, t: seq<Mark>) returns (t1: seq<Mark>)
    requires a != b && forall m | m in t :: JustRow(m)
    ensures Ran(RunNode(Heeds(clarifications), Heed(a, b), 0, map[], Ask(a)), Done(Settled(Passed(Some(Said(clarifications))))), t, t1)
    ensures forall m | m in t1 :: JustRow(m)
  {
    hide Ran;
    HeedNodes(a, b);
    var w, g := Heeds(clarifications), Heed(a, b);
    var p := Passthrough(w, g, map[], Ask(a));
    assert Merged(w, g, map[], Ask(a)) == Said(clarifications);
    RanEmit(p, t);
    t1 := t + Bills(p.batch);
  }

  function Asked(a: Id, clarifications: Option<Value>): Board {
    Board(map[a := Passed(Some(Said(clarifications)))], map[a := Said(clarifications)], [])
  }

  /** Without answers b runs, and fails. */
  lemma ActFails(g: GraphSpec, outputs: map<Id, Value>, b: Id, t: seq<Mark>) returns (t1: seq<Mark>, o: Outcome)
    requires g.version == 1 && Act(b) in g.nodes && forall m | m in t :: JustRow(m)
    ensures Ran(RunNode(Heeds(None), g, 0, outputs, Act(b)), Done(o), t, t1) && ResultOf(o).Failed?
    ensures forall m | m in t1 :: JustRow(m)
  {
    hide Ran, UpstreamContext, SchemaFor;
    var w, n, agent := Heeds(None), Act(b), Act(b).agent.value;
    var p := AgentRun(w, g, outputs, n);
    var up := UpstreamContext(g, outputs, b);
    var e := Log(NodeStart, b);
    RanOne(e, p.next, t);
    t1 := t + [Wrote(e, FREE)];
    NeverFlagged(w, g, n, agent, up, up);
    var fork := Screen(w, g, n, agent, up, [], false);
    RanStart(Done(OverBudget), t1);
    RanAwait(fork, OverBudget, t1, t1);
    o := Settled(Failed("budget", false));
    RanOn(p, fork, Done(o), t, t1, t1);
  }

  lemma {:induction false} NeverFlagged(w: World, g: GraphSpec, n: Node, agent: AgentSpec, c: Ctx, left: Ctx)
    requires forall v :: !w.flagged(v)
    ensures Screen(w, g, n, agent, c, left, false) == Screen(w, g, n, agent, c, [], false)
    decreases |left|
  {
    if left != [] { NeverFlagged(w, g, n, agent, c, left[1..]); }
  }

  /** Whether b runs is whether nothing was answered. */
  lemma ActHeeds(a: Id, b: Id, clarifications: Option<Value>)
    requires a != b
    ensures ShouldRun(Heeds(clarifications), Heed(a, b), Asked(a, clarifications), b) <==> clarifications.None?
    ensures ShouldRun(Heeds(clarifications), Heed(a, b), Board(map[], map[], []), a)
  {
    HeedNodes(a, b);
    var o := Asked(a, clarifications).outputs;
    assert a in o && o[a] == Said(clarifications);
  }

  /** The second level: skipped after an answer, failed without one. */
  lemma SecondLevel(a: Id, b: Id, clarifications: Option<Value>, t: seq<Mark>) returns (after: Board, t1: seq<Mark>)
    requires a != b && forall m | m in t :: JustRow(m)
    ensures Known(Heed(a, b), [b]) && forall m | m in t1 :: JustRow(m)
    ensures Ran(RunLevels(Heeds(clarifications), Heed(a, b), 0, [[b]], Asked(a, clarifications)),
      RunLevels(Heeds(clarifications), Heed(a, b), 0, [], after), t, t1)
    ensures after.failed == if clarifications.Some? then [] else [b]
  {
    hide Ran, Heed, Act, Ask, RunLevels, RunNode, ShouldRun, Known;
    HeedNodes(a, b);
    HeedShape(a, b);
    ActHeeds(a, b, clarifications);
    var w, g, b1 := Heeds(clarifications), Heed(a, b), Asked(a, clarifications);
    assert [[b]] + [] == [[b]];
    if clarifications.Some? {
      SkippedLevel(w, g, Act(b), [], b1);
      after, t1 := SkipOthers(b1, [b], []), t;
      RanStart(RunLevels(w, g, 0, [], after), t);
    } else {
      var o;
      t1, o := ActFails(g, b1.outputs, b, t);
      RanLevel(w, g, Act(b), [], b1, o, t, t1);
      after := Place1(b1, b, ResultOf(o));
    }
  }

  /** Both levels. */
  lemma BothLevels(a: Id, b: Id, clarifications: Option<Value>, t: seq<Mark>) returns (after: Board, t1: seq<Mark>)
    requires a != b && forall m | m in t :: JustRow(m)
    ensures forall m | m in t1 :: JustRow(m)
    ensures Known(Heed(a, b), [a]) && Known(Heed(a, b), [b])
    ensures Ran(RunLevels(Heeds(clarifications), Heed(a, b), 0, [[a], [b]], Board(map[], map[], [])),
      RunLevels(Heeds(clarifications), Heed(a, b), 0, [], after), t, t1)
    ensures after.failed == if clarifications.Some? then [] else [b]
  {
    hide Ran, Heed, Heeds, Act, Ask, RunLevels, RunNode, ShouldRun, Known, JustRow;
    HeedNodes(a, b);
    HeedShape(a, b);
    ActHeeds(a, b, clarifications);
    var w, g := Heeds(clarifications), Heed(a, b);
    var t2 := AskPasses(a, b, clarifications, t);
    var o := Settled(Passed(Some(Said(clarifications))));
    var b0, b1 := Board(map[], map[], []), Asked(a, clarifications);
    RanLevel(w, g, Ask(a), [[b]], b0, o, t, t2);
    assert Place1(b0, a, ResultOf(o)) == b1 && [[a]] + [[b]] == [[a], [b]];
    after, t1 := SecondLevel(a, b, clarifications, t2);
    RanOn(RunLevels(w, g, 0, [[a], [b]], b0), RunLevels(w, g, 0, [[b]], b1), RunLevels(w, g, 0, [], after), t, t2, t1);
  }

  /** With answers the run succeeds; without, it fails. */
  lemma HeedRuns(a: Id, b: Id, clarifications: Option<Value>) returns (sched: seq<Step>, end: GraphEnd, tape: seq<Mark>)
    requires a != b
    ensures Completes(RunWhole(Heeds(clarifications), Heed(a, b)), sched, Ended(end), tape)
    ensures end.failed == if clarifications.Some? then [] else [b]
    ensures forall m | m in tape :: JustRow(m)
  {
    hide Ran, Completes, Heed, Heeds, RunWhole, RunLevels, LevelsOf, Validate, UniqueIds, Known;
    HeedStarts(a, b);
    HeedLevels(a, b);
    HeedShape(a, b);
    var w, g := Heeds(clarifications), Heed(a, b);
    var first := [Wrote(Event(RunStart, None), FREE)];
    var b2, t2 := BothLevels(a, b, clarifications, first);
    sched, tape := RanWhole(w, g, [[a], [b]], b2, t2);
    end := GraphEnd(b2.results, b2.outputs, b2.failed, []);
  }

  lemma HeedShape(a: Id, b: Id)
    requires a != b
    ensures Heed(a, b).version == 1 && Ask(a).id == a && Act(b).id == b
    ensures Known(Heed(a, b), [a]) && Known(Heed(a, b), [b])
    ensures forall n | n in Heed(a, b).nodes :: n.ntype != CompensateNode
  {
    HeedNodes(a, b);
  }

  lemma AnswersAreLost(nameless: bool, clarifications: Option<Value>, approvals: set<Id>)
    requires clarifications.Some?
    ensures !AlwaysExact(true, nameless, clarifications, approvals)
  {
    hide Completes, Heed, RunWhole;
    var a: Id, b: Id := "ask", "act";
    assert a[1] == 's' && b[1] == 'c';
    HeedStarts(a, b);
    var s1, e1, t1 := HeedRuns(a, b, clarifications);
    var s2, e2, t2 := HeedRuns(a, b, None);
    var w, w', g := Heeds(clarifications), Heeds(None), Heed(a, b);
    NothingRecorded(t1);
    NothingGranted(t1);
    assert Original(w, g, approvals, s1, Ended(e1), t1);
    assert Reads(map[], {}, LogOf(t1));
    OnlyRows(Server(map[], 0, 0), {}, t2);
    assert Replayed(w', g, map[], {}, s2, Ended(e2), t2);
    assert Deaf(w, w');
  }

  /** A tape without questions is served by anyone. */
  lemma {:induction false} OnlyRows(s: Server, approvals: set<Id>, tape: seq<Mark>)
    requires forall m | m in tape :: m.Wrote? && !m.e.kind.ToolResult?
    ensures ServedTape(s, approvals, tape).Some?
  {
    if tape != [] {
      assert tape[0] in tape;
      OnlyRows(s, approvals, tape[1..]);
    }
  }

  // ---------- a gate without a name ----------

  const GATE := Node("", ApprovalNode, None, "", None, 1, None)
  const NAMELESS := GraphSpec(1, [GATE], [])

  lemma NamelessStarts()
    ensures Validate(NAMELESS) == Problems([]) && UniqueIds(NAMELESS) && FirstVersion(NAMELESS) && Unasked(NAMELESS)
    ensures LevelsOf(NAMELESS) == Some([[""]]) && FindNode(NAMELESS, "") == Some(GATE) && Known(NAMELESS, [""])
  {
    assert NAMELESS.nodes == [GATE] && GATE in NAMELESS.nodes && NAMELESS.nodes[1..] == [];
    AllCovered(NAMELESS, NAMELESS.nodes);
    NothingNested(NAMELESS.nodes);
    assert IdsOf(NAMELESS.nodes) == [""] && AllIds(NAMELESS) == [""];
    assert Steps(NAMELESS) == {""} && Comps(NAMELESS) == {};
    LastLevel(NAMELESS, "");
  }

  /** The gate asks, and passes exactly if the answer is yes. */
  lemma GateAnswers(yes: bool, t: seq<Mark>) returns (o: Outcome, t1: seq<Mark>)
    ensures Ran(Approval(GATE), Done(o), t, t1) && (ResultOf(o).Failed? <==> !yes)
    ensures t1 == t + [Wrote(Log(ApprovalRequested, ""), FREE), Heard(Gate(""), Granted(yes))]
                + if yes then [Wrote(Log(ApprovalGranted, ""), FREE)] else []
  {
    hide Ran;
    var p, e, a := Approval(GATE), Log(ApprovalRequested, ""), Granted(yes);
    RanOne(e, p.next, t);
    var t2 := t + [Wrote(e, FREE)];
    RanAsk(p.next, a, t2);
    t1 := t2 + [Heard(Gate(""), a)];
    var after := AfterAnswer(Gate(""), a, p.next.k(a));
    RanOn(p, p.next, after, t, t2, t1);
    if yes {
      o := p.next.k(a).out;
      RanNote(after, FREE, t1);
      var t3 := t1 + [Wrote(after.receipt, FREE)];
      RanOn(p, after, Done(o), t, t1, t3);
      t1 := t3;
    } else {
      o := after.out;
    }
  }

  lemma NamelessRuns(w: World, yes: bool) returns (sched: seq<Step>, end: GraphEnd, tape: seq<Mark>)
    ensures Completes(RunWhole(w, NAMELESS), sched, Ended(end), tape) && (end.failed == [] <==> yes)
    ensures forall m | m in tape :: if m.Wrote? then !m.e.kind.ToolResult? && m.bill == FREE else m == Heard(Gate(""), Granted(yes))
    ensures forall m | m in tape && m.Wrote? && m.e.kind.ApprovalGranted? :: m.e.who == Some("")
  {
    hide Ran, Completes, Approval, RunLevels, LevelsOf, Validate, UniqueIds, Known;
    NamelessStarts();
    var first, b := [Wrote(Event(RunStart, None), FREE)], Board(map[], map[], []);
    var o, t := GateAnswers(yes, first);
    assert GATE in NAMELESS.nodes && [[""]] + [] == [[""]] && Parents(NAMELESS, "") == [];
    RanLevel(w, NAMELESS, GATE, [], b, o, first, t);
    b := Place1(b, "", ResultOf(o));
    sched, tape := RanWhole(w, NAMELESS, [[""]], b, t);
    end := GraphEnd(b.results, b.outputs, b.failed, []);
  }

  lemma EmptyGateIsLost(asking: bool, clarifications: Option<Value>, approvals: set<Id>)
    requires "" in approvals
    ensures !AlwaysExact(asking, true, clarifications, approvals)
  {
    hide Completes;
    NamelessStarts();
    var w, w' := Heeds(clarifications), Heeds(None);
    var s1, e1, t1 := NamelessRuns(w, true);
    var s2, e2, t2 := NamelessRuns(w', false);
    NothingRecorded(t1);
    NothingGranted(t1);
    assert Original(w, NAMELESS, approvals, s1, Ended(e1), t1);
    assert Reads(map[], {}, LogOf(t1));
    Refused(Server(map[], 0, 0), t2);
    assert Replayed(w', NAMELESS, map[], {}, s2, Ended(e2), t2);
    assert Deaf(w, w');
  }

  lemma {:induction false} Refused(s: Server, tape: seq<Mark>)
    requires forall m | m in tape :: if m.Wrote? then !m.e.kind.ToolResult? else m == Heard(Gate(""), Granted(false))
    ensures ServedTape(s, {}, tape).Some?
  {
    if tape != [] {
      assert tape[0] in tape;
      Refused(s, tape[1..]);
    }
  }
}
