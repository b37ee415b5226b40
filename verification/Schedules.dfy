// Whole runs and their schedules: the interleaving decides nothing, and no run
// gets stuck.
module Schedules {
  import opened Base
  import opened Graph
  import opened Events
  import opened Tasks
  import opened Confluence
  import opened Kernel
  import opened Receipts
  import opened Scopes

  ghost predicate SameEnd(a: GraphEnd, b: GraphEnd) {
    a.results == b.results && a.outputs == b.outputs && a.failed == b.failed && a.compensated == b.compensated
  }

  /**
   * A completer that answers each node from that node's own history forces one
   * outcome: any two complete runs without timeouts have the same results,
   * outputs, failed list and compensated list, and show every node the same
   * rows and answers in the same order.
   */
  lemma ScheduleIndependent(w: World, g: GraphSpec, o: Oracle,
                            s1: seq<Step>, out1: Outcome, t1: seq<Mark>, s2: seq<Step>, out2: Outcome, t2: seq<Mark>)
    requires Completes(RunWhole(w, g), s1, out1, t1) && Obeys(o, [], t1)
    requires Completes(RunWhole(w, g), s2, out2, t2) && Obeys(o, [], t2)
    ensures out1 == out2 && forall who :: View(t1, who) == View(t2, who)
    ensures out1.Ended? ==> out2.Ended? && SameEnd(out1.end, out2.end)
  {
    CleanWhole(w, g);
    Confluent(RunWhole(w, g), GraphScope(g) + {None}, o, [], s1, out1, t1, [], s2, out2, t2);
  }

  /** Nested graphs too, at any depth and from any context. */
  lemma NestedScheduleIndependent(w: World, g: GraphSpec, depth: nat, seed: map<Id, Value>, o: Oracle,
                                  s1: seq<Step>, out1: Outcome, t1: seq<Mark>, s2: seq<Step>, out2: Outcome, t2: seq<Mark>)
    requires UniqueIds(g)
    requires Completes(RunGraph(w, g, depth, seed), s1, out1, t1) && Obeys(o, [], t1)
    requires Completes(RunGraph(w, g, depth, seed), s2, out2, t2) && Obeys(o, [], t2)
    ensures out1 == out2 && forall who :: View(t1, who) == View(t2, who)
  {
    CleanGraph(w, g, depth, seed);
    Confluent(RunGraph(w, g, depth, seed), GraphScope(g), o, [], s1, out1, t1, [], s2, out2, t2);
  }

  /** However far a run has come, unless it is over some task can move, with an answer the world agrees to. */
  lemma NeverStuck(w: World, g: GraphSpec, o: Oracle, sched: seq<Step>) returns (s: Step)
    requires Exec(RunWhole(w, g), sched).Some? && !Exec(RunWhole(w, g), sched).value.proc.Done?
    requires forall q, view :: Fits(q, o(q, view))
    ensures CalmStep(s) && Exec(RunWhole(w, g), sched + [s]).Some?
    ensures Obeys(o, [], Exec(RunWhole(w, g), sched).value.tape) ==> Obeys(o, [], Exec(RunWhole(w, g), sched + [s]).value.tape)
  {
    var p, S := RunWhole(w, g), GraphScope(g) + {None};
    var r := Exec(p, sched).value;
    CleanWhole(w, g);
    TidyExec(p, sched, S);
    s := Progress(r.proc, S, o, r.tape);
    var f := Fire(r.proc, s).value;
    ExecConcat(p, sched, [s]);
    assert [s][1..] == [] && f.marks + [] == f.marks;
    assert Exec(f.next, []) == Some(Run(f.next, []));
    ObeysConcat(o, [], r.tape, f.marks);
    assert [] + r.tape == r.tape;
  }

  /** In a complete run, what each node logged of answers and grants is, in order, exactly what it was told. */
  lemma WhatWasHeardIsLogged(w: World, g: GraphSpec, sched: seq<Step>, out: Outcome, tape: seq<Mark>, who: Option<Id>)
    requires Completes(RunWhole(w, g), sched, out, tape)
    ensures Kept(View(tape, who)) == Owed(View(tape, who))
  {
    CleanWhole(w, g);
    ReceiptsMatch(RunWhole(w, g), GraphScope(g) + {None}, sched, out, tape, who);
  }
}
