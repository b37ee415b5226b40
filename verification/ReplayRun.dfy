// replay_run and build_diff end to end: the recorded log of one run, a new
// executor over a LoggedCompleter, and a diff that is provably empty.
module ReplayRuns {
  import opened Base
  import opened Graph
  import opened Events
  import opened Tasks
  import opened Confluence
  import opened Machine
  import opened Kernel
  import opened KernelInduction
  import opened Queries
  import opened Store
  import opened Replay
  import opened ReplayExact
  import opened Journals
  import opened Executors

  /** What replay_run returns, or why it raises: no such run, a mutated graph, a taken run id, an error that escapes run(). */
  datatype ReplayResult =
    | Finished(out: Outcome, diff: Diff, original: CostTotals, replay: CostTotals)
    | UnknownRun | Mutated | RunExists | Escaped(error: Error)

  /** The log of `run` shows one complete original run of this graph, whose answers and grants replay restores; others may have added rows replay does not read. */
  ghost predicate RecordOf(store: EventStore, run: Id, w: World, g: GraphSpec, approvals: set<Id>,
                           sched: seq<Step>, out: Outcome, tape: seq<Mark>)
    reads store
  {
    && Shows(store.Log(run), tape)
    && FirstVersion(g) && Restorable(g, w.clarifications, approvals)
    && Original(w, g, approvals, sched, out, tape)
  }

  /** What an exact replay of a run that ended with `out` returns. */
  ghost predicate Exact(r: ReplayResult, out: Outcome) {
    && (out.Threw? ==> r == Escaped(out.error))
    && (!out.Threw? ==>
          && r.Finished? && r.out == out && r.diff == Diff(true, []) && r.replay.cost == 0.0
          && r.original.tokensIn == r.replay.tokensIn && r.original.tokensOut == r.replay.tokensOut)
  }

  /** A replay with a log of its own is a served run. */
  lemma ServedRun(w: World, g: GraphSpec, r: Terms, m0: Moment, m1: Moment, out: Outcome) returns (sched: seq<Step>)
    requires r.logged && m0.tape == []
    requires Went(r, RunWhole(w, g), Done(out), m0, m1)
    ensures Completes(RunWhole(w, g), sched, out, m1.tape)
    ensures FirstVersion(g) ==> ServedTape(m0.server, r.approvals, m1.tape).Some?
  {
    assert m1.tape[|m0.tape|..] == m1.tape;
    sched := RanCompletes(RunWhole(w, g), out, m0.tape, m1.tape);
    if FirstVersion(g) {
      forall m | m in m1.tape && m.Heard? ensures !m.q.Recall? { QueriesProper(w, g, sched, m); }
    }
  }

  function Totals(rows: seq<Row>, round: real -> real): CostTotals {
    CostTotals(SumInts(TokensIn, rows), SumInts(TokensOut, rows), round(SumCosts(rows)), |rows|)
  }

  /** The nodes whose serialised outputs differ, sorted, and whether the two sets of outputs are identical. */
  ghost predicate DiffOf(d: Diff, before: map<Id, Value>, after: map<Id, Value>, dumps: Option<Value> -> string) {
    && (forall n :: n in d.nodes <==> (n in before || n in after) && dumps(Get(before, n)) != dumps(Get(after, n)))
    && (forall i, j | 0 <= i < j < |d.nodes| :: d.nodes[i] != d.nodes[j] && AtMost(d.nodes[i], d.nodes[j]))
    && (d.identical <==> d.nodes == [] && before.Keys == after.Keys)
  }

  /** `build_diff`: the final outputs and the totals of two runs, read from the store. */
  method Compare(store: EventStore, originalId: Id, replayId: Id, dumps: Option<Value> -> string, round: real -> real)
    returns (diff: Diff, cost: CostTotals, cost': CostTotals, ghost before: map<Id, Value>, ghost after: map<Id, Value>)
    requires store.Valid()
    ensures Finals(before, store.Log(originalId)) && Finals(after, store.Log(replayId)) && DiffOf(diff, before, after, dumps)
    ensures cost == Totals(store.Log(originalId), round) && cost' == Totals(store.Log(replayId), round)
  {
    var again := store.Read(originalId, 0);
    var replayed := store.Read(replayId, 0);
    assert store.Log(originalId)[0..] == store.Log(originalId) && store.Log(replayId)[0..] == store.Log(replayId);
    var was := FinalOutputs(again);
    var now := FinalOutputs(replayed);
    before, after := was, now;
    diff := BuildDiff(was, now, dumps);
    cost := AggregateCost(again, round);
    cost' := AggregateCost(replayed, round);
  }

  /** The verdict is on the final outputs and the totals of these two logs. */
  ghost predicate Reported(r: ReplayResult, rows: seq<Row>, rows': seq<Row>, dumps: Option<Value> -> string, round: real -> real) {
    && r.Finished? && r.original == Totals(rows, round) && r.replay == Totals(rows', round)
    && exists before, after :: Finals(before, rows) && Finals(after, rows') && DiffOf(r.diff, before, after, dumps)
  }

  /** The new log is that of a complete run without clarifications, served from what the old log recorded. */
  ghost predicate Rerun(w: World, g: GraphSpec, out: Outcome, rows: seq<Row>, rows': seq<Row>) {
    exists recorded, granted, sched, tape ::
      && Reads(recorded, granted, rows) && rows' == LogOf(tape)
      && Completes(RunWhole(w.(clarifications := None), g), sched, out, tape)
      && (FirstVersion(g) ==> ServedTape(Server(recorded, 0, 0), granted, tape).Some?)
  }

  lemma IsRerun(w: World, g: GraphSpec, r: Terms, m0: Moment, m1: Moment, out: Outcome, rows: seq<Row>, recorded: map<Key, seq<Completion>>)
    requires r.logged && m0.tape == [] && m0.server == Server(recorded, 0, 0)
    requires Went(r, RunWhole(w.(clarifications := None), g), Done(out), m0, m1) && Reads(recorded, r.approvals, rows)
    ensures Rerun(w, g, out, rows, LogOf(m1.tape))
  {
    hide Went, RunWhole, Reads;
    var sched := ServedRun(w.(clarifications := None), g, r, m0, m1, out);
  }

  /** What the new run is to the one whose rows it was served from. */
  lemma ReplayedExactly(w: World, w': World, g: GraphSpec, r: Terms, m0: Moment, m1: Moment, out: Outcome,
                        rows: seq<Row>, recorded: map<Key, seq<Completion>>, approvals: set<Id>,
                        s1: seq<Step>, out1: Outcome, t1: seq<Mark>, before: map<Id, Value>, after: map<Id, Value>)
    requires FirstVersion(g) && Deaf(w, w') && Restorable(g, w.clarifications, approvals) && Original(w, g, approvals, s1, out1, t1) && Shows(rows, t1)
    requires r.logged && m0.tape == [] && m0.server == Server(recorded, 0, 0) && Went(r, RunWhole(w', g), Done(out), m0, m1)
    requires Reads(recorded, r.approvals, rows) && Finals(before, rows) && Finals(after, LogOf(m1.tape))
    ensures out1 == out && before == after && SumCosts(LogOf(m1.tape)) == 0.0
    ensures SumInts(TokensIn, rows) == SumInts(TokensIn, LogOf(m1.tape))
    ensures SumInts(TokensOut, rows) == SumInts(TokensOut, LogOf(m1.tape))
  {
    var s2 := ServedRun(w', g, r, m0, m1, out);
    hide Restorable, Deaf, Went, Original, RunWhole, Reads, Finals, Shows, LogOf;
    ReadsFromRun(rows, t1, recorded, r.approvals, before);
    ReplayIsExact(w, w', g, approvals, s1, out1, t1, recorded, r.approvals, s2, out, m1.tape, before, after);
  }

  /**
   * `intact` is the comparison of the stored graph's hash; `replayId` the fresh
   * uuid. Whatever the original, the verdict is on the two logs, and the new
   * log is a served run of the same graph. For a complete, restorable version-1 original the diff is identical, the replay
   * ends as the original did, and costs nothing; the original's log is untouched.
   * The new executor gets no clarifications.
   */
  method ReplayRun(store: EventStore, originalId: Id, replayId: Id, intact: bool, w: World, g: GraphSpec,
                   live: Oracle, price: Completion -> Bill, dumps: Option<Value> -> string, round: real -> real,
                   ghost approvals0: set<Id>, ghost s1: seq<Step>, ghost out1: Outcome, ghost t1: seq<Mark>)
    returns (r: ReplayResult)
    requires store.Valid() && Sensible(live) && round(0.0) == 0.0 && forall c :: !price(c).replayed
    modifies store
    ensures store.Valid() && store.Log(originalId) == old(store.Log(originalId))
    ensures r.UnknownRun? <==> originalId !in old(store.runs)
    ensures r.Mutated? <==> originalId in old(store.runs) && !intact
    ensures r.RunExists? <==> originalId in old(store.runs) && intact && replayId in old(store.runs)
    ensures r.Finished? ==> Reported(r, store.Log(originalId), store.Log(replayId), dumps, round)
    ensures r.Finished? || r.Escaped? ==>
      Rerun(w, g, if r.Finished? then r.out else Threw(r.error), store.Log(originalId), store.Log(replayId))
    ensures r.Finished? || r.Escaped? ==> old(RecordOf(store, originalId, w, g, approvals0, s1, out1, t1)) ==> Exact(r, out1)
  {
    hide Original, RunWhole, Finals, Restorable, Shows, Rerun, DiffOf, SumInts, SumCosts, Went;
    if originalId !in store.runs { return UnknownRun; }
    if !intact { return Mutated; }
    var rows := store.Read(originalId, 0);
    assert store.Log(originalId)[0..] == store.Log(originalId);
    var recorded := RecordedCompletions(rows);
    var completer := new LoggedCompleter(recorded);
    var ok := store.CreateRun(replayId, "pending");
    if !ok { return RunExists; }
    var approvals := ReplayApprovals(rows);
    var journal := new Journal(store, replayId, approvals, live, price, completer);
    var executor := new Executor(w.(clarifications := None), g, 0, journal, map[]);
    ghost var m0 := journal.Here();
    var out := executor.Run();
    ghost var m1 := journal.Here();
    WentGrown(journal.Rules(), RunWhole(w.(clarifications := None), g), Done(out), m0, m1, originalId);
    var diff, cost, cost', before, after := Compare(store, originalId, replayId, dumps, round);
    r := if out.Threw? then Escaped(out.error) else Finished(out, diff, cost, cost');
    assert !out.Threw? ==> Reported(r, rows, LogOf(m1.tape), dumps, round);
    IsRerun(w, g, journal.Rules(), m0, m1, out, rows, recorded);
    if old(RecordOf(store, originalId, w, g, approvals0, s1, out1, t1)) {
      ReplayedExactly(w, w.(clarifications := None), g, journal.Rules(), m0, m1, out, rows, recorded, approvals0, s1, out1, t1, before, after);
      NothingDiffers(diff, before, dumps);
    }
  }

  lemma WentGrown(r: Terms, p: Proc, q: Proc, m0: Moment, m1: Moment, other: Id)
    requires Went(r, p, q, m0, m1) && other != r.run
    ensures SameRows(m0.table, m1.table, other)
  {
  }

  lemma NothingDiffers(d: Diff, before: map<Id, Value>, dumps: Option<Value> -> string)
    requires DiffOf(d, before, before, dumps)
    ensures d == Diff(true, [])
  {
    HeadIn(d.nodes);
  }
}
