// Schedules do not matter: a world that answers each node from that node's own
// history forces one result, whatever the interleaving.
module Confluence {
  import opened Base
  import opened Events
  import opened Tasks

  /** Answers a query from what its own node has logged and heard so far. */
  type Oracle = (Query, seq<Mark>) -> Answer

  /** Every answer in one node's view is the oracle's, given the view before it. */
  ghost predicate Follows(o: Oracle, past: seq<Mark>, view: seq<Mark>) {
    forall t | 0 <= t < |view| && view[t].Heard? :: view[t].a == o(view[t].q, past + view[..t])
  }

  ghost predicate Obeys(o: Oracle, past: seq<Mark>, tape: seq<Mark>) {
    forall w :: Follows(o, View(past, w), View(tape, w))
  }

  lemma FollowsConcat(o: Oracle, past: seq<Mark>, v1: seq<Mark>, v2: seq<Mark>)
    ensures Follows(o, past, v1 + v2) <==> Follows(o, past, v1) && Follows(o, past + v1, v2)
  {
    if Follows(o, past, v1 + v2) {
      forall t | 0 <= t < |v1| && v1[t].Heard? ensures v1[t].a == o(v1[t].q, past + v1[..t]) {
        assert (v1 + v2)[t] == v1[t] && (v1 + v2)[..t] == v1[..t];
      }
      forall t | 0 <= t < |v2| && v2[t].Heard? ensures v2[t].a == o(v2[t].q, past + v1 + v2[..t]) {
        assert (v1 + v2)[|v1| + t] == v2[t];
        assert past + (v1 + v2)[..|v1| + t] == past + v1 + v2[..t];
      }
    }
    if Follows(o, past, v1) && Follows(o, past + v1, v2) {
      forall t | 0 <= t < |v1 + v2| && (v1 + v2)[t].Heard?
        ensures (v1 + v2)[t].a == o((v1 + v2)[t].q, past + (v1 + v2)[..t])
      {
        if t < |v1| {
          assert (v1 + v2)[..t] == v1[..t];
        } else {
          assert (v1 + v2)[t] == v2[t - |v1|];
          assert past + (v1 + v2)[..t] == past + v1 + v2[..t - |v1|];
        }
      }
    }
  }

  lemma ObeysConcat(o: Oracle, past: seq<Mark>, t1: seq<Mark>, t2: seq<Mark>)
    ensures Obeys(o, past, t1 + t2) <==> Obeys(o, past, t1) && Obeys(o, past + t1, t2)
  {
    forall w
      ensures Follows(o, View(past, w), View(t1 + t2, w)) <==>
              Follows(o, View(past, w), View(t1, w)) && Follows(o, View(past + t1, w), View(t2, w))
    {
      ViewConcat(t1, t2, w);
      ViewConcat(past, t1, w);
      FollowsConcat(o, View(past, w), View(t1, w), View(t2, w));
    }
  }

  /** Each child of an obedient fork obeyed on its own. */
  lemma KidObeys(o: Oracle, past: seq<Mark>, kids: seq<Kid>, sched: seq<Step>, outs: seq<Outcome>,
                 front: seq<Mark>, i: nat)
    requires ForkTaken(kids, sched, outs, front) && i < |kids|
    requires Tidy(kids[i].body, kids[i].scope)
    requires Obeys(o, past, front)
    ensures Obeys(o, past, Exec(kids[i].body, KidSteps(sched, i)).value.tape)
  {
    var tape := Exec(kids[i].body, KidSteps(sched, i)).value.tape;
    TidyExec(kids[i].body, KidSteps(sched, i), kids[i].scope);
    forall w ensures Follows(o, View(past, w), View(tape, w)) {
      if w in kids[i].scope {
        assert View(front, w) == View(tape, w);
      } else {
        ViewOutside(tape, kids[i].scope, w);
      }
    }
  }

  /** A run that reached the end, with no timeout. */
  ghost predicate Completes(p: Proc, sched: seq<Step>, out: Outcome, tape: seq<Mark>) {
    Calm(sched) && Exec(p, sched) == Some(Run(Done(out), tape))
  }

  lemma CompletesTail(p: Proc, sched: seq<Step>, out: Outcome, tape: seq<Mark>) returns (f: Fired, rest: seq<Mark>)
    requires Completes(p, sched, out, tape) && !p.Done?
    ensures sched != [] && Fire(p, sched[0]) == Some(f) && CalmStep(sched[0])
    ensures Completes(f.next, sched[1..], out, rest) && tape == f.marks + rest
  {
    f := Fire(p, sched[0]).value;
    rest := Exec(f.next, sched[1..]).value.tape;
    assert CalmStep(sched[0]);
  }

  /**
   * Any two complete runs of one task tree under one oracle, from pasts no
   * node can tell apart, end alike and show every node the same history.
   */
  lemma {:induction false} Confluent(p: Proc, S: set<Option<Id>>, o: Oracle,
    past1: seq<Mark>, s1: seq<Step>, out1: Outcome, t1: seq<Mark>,
    past2: seq<Mark>, s2: seq<Step>, out2: Outcome, t2: seq<Mark>)
    requires Tidy(p, S) && Agree(past1, past2)
    requires Completes(p, s1, out1, t1) && Obeys(o, past1, t1)
    requires Completes(p, s2, out2, t2) && Obeys(o, past2, t2)
    ensures out1 == out2 && Agree(t1, t2)
    decreases |s1|, 2
  {
    match p
    case Done(_) =>
      assert s1 == [] && s2 == [];
    case Fork(kids, join) =>
      ConfluentFork(p, S, o, past1, s1, out1, t1, past2, s2, out2, t2);
    case Ask(q, k) =>
      var f1, r1 := CompletesTail(p, s1, out1, t1);
      var f2, r2 := CompletesTail(p, s2, out2, t2);
      ObeysConcat(o, past1, f1.marks, r1);
      ObeysConcat(o, past2, f2.marks, r2);
      SameAnswer(o, q, past1, f1.marks[0].a, past2, f2.marks[0].a);
      ConfluentStep(p, S, o, past1, s1, out1, t1, past2, s2, out2, t2);
    case Emit(_, _) =>
      ConfluentStep(p, S, o, past1, s1, out1, t1, past2, s2, out2, t2);
    case Note(_, _) =>
      ConfluentStep(p, S, o, past1, s1, out1, t1, past2, s2, out2, t2);
  }

  lemma {:induction false} ConfluentStep(p: Proc, S: set<Option<Id>>, o: Oracle,
    past1: seq<Mark>, s1: seq<Step>, out1: Outcome, t1: seq<Mark>,
    past2: seq<Mark>, s2: seq<Step>, out2: Outcome, t2: seq<Mark>)
    requires Tidy(p, S) && Agree(past1, past2) && !p.Done? && !p.Fork?
    requires Completes(p, s1, out1, t1) && Obeys(o, past1, t1)
    requires Completes(p, s2, out2, t2) && Obeys(o, past2, t2)
    requires s1 != [] && s2 != [] && Fire(p, s1[0]).Some? && Fire(p, s2[0]).Some?
    requires p.Ask? ==> Fire(p, s1[0]) == Fire(p, s2[0])
    ensures out1 == out2 && Agree(t1, t2)
    decreases |s1|, 1
  {
    var f1, r1 := CompletesTail(p, s1, out1, t1);
    var f2, r2 := CompletesTail(p, s2, out2, t2);
    ObeysConcat(o, past1, f1.marks, r1);
    ObeysConcat(o, past2, f2.marks, r2);
    TidyFire(p, s1[0], S);
    AgreeConcat(past1, f1.marks, past2, f2.marks);
    Confluent(f1.next, S, o, past1 + f1.marks, s1[1..], out1, r1, past2 + f2.marks, s2[1..], out2, r2);
    AgreeConcat(f1.marks, r1, f2.marks, r2);
  }

  lemma SameAnswer(o: Oracle, q: Query, past1: seq<Mark>, a1: Answer, past2: seq<Mark>, a2: Answer)
    requires Agree(past1, past2)
    requires Obeys(o, past1, [Heard(q, a1)]) && Obeys(o, past2, [Heard(q, a2)])
    ensures a1 == a2
  {
    var w := Some(q.node);
    assert View([Heard(q, a1)], w) == [Heard(q, a1)];
    assert View([Heard(q, a2)], w) == [Heard(q, a2)];
    assert Follows(o, View(past1, w), [Heard(q, a1)]) && Follows(o, View(past2, w), [Heard(q, a2)]);
    assert [Heard(q, a1)][..0] == [] && [Heard(q, a2)][..0] == [];
  }

  lemma {:induction false} ConfluentFork(p: Proc, S: set<Option<Id>>, o: Oracle,
    past1: seq<Mark>, s1: seq<Step>, out1: Outcome, t1: seq<Mark>,
    past2: seq<Mark>, s2: seq<Step>, out2: Outcome, t2: seq<Mark>)
    requires p.Fork? && Tidy(p, S) && Agree(past1, past2)
    requires Completes(p, s1, out1, t1) && Obeys(o, past1, t1)
    requires Completes(p, s2, out2, t2) && Obeys(o, past2, t2)
    ensures out1 == out2 && Agree(t1, t2)
    decreases |s1|, 0
  {
    var kids, join := p.kids, p.join;
    var outs1, front1 := ForkSplit(kids, join, S, s1);
    var outs2, front2 := ForkSplit(kids, join, S, s2);
    var rest1 := Exec(join(outs1), AfterJoin(s1)).value.tape;
    var rest2 := Exec(join(outs2), AfterJoin(s2)).value.tape;
    ObeysConcat(o, past1, front1, rest1);
    ObeysConcat(o, past2, front2, rest2);
    forall i | 0 <= i < |kids|
      ensures outs1[i] == outs2[i]
      ensures forall w | w in kids[i].scope :: View(front1, w) == View(front2, w)
    {
      KidObeys(o, past1, kids, s1, outs1, front1, i);
      KidObeys(o, past2, kids, s2, outs2, front2, i);
      Confluent(kids[i].body, kids[i].scope, o,
                past1, KidSteps(s1, i), outs1[i], Exec(kids[i].body, KidSteps(s1, i)).value.tape,
                past2, KidSteps(s2, i), outs2[i], Exec(kids[i].body, KidSteps(s2, i)).value.tape);
    }
    assert outs1 == outs2;
    forall w ensures View(front1, w) == View(front2, w) {
      if i :| 0 <= i < |kids| && w in kids[i].scope {
        assert View(front1, w) == View(front2, w);
      }
    }
    AgreeConcat(past1, front1, past2, front2);
    Confluent(join(outs1), S, o, past1 + front1, AfterJoin(s1), out1, rest1, past2 + front2, AfterJoin(s2), out2, rest2);
    AgreeConcat(front1, rest1, front2, rest2);
  }

  /** No reachable state is stuck: a task that is not done has a step the oracle allows. */
  lemma {:induction false} Progress(p: Proc, S: set<Option<Id>>, o: Oracle, past: seq<Mark>) returns (s: Step)
    requires Tidy(p, S) && !p.Done?
    requires forall q, view :: Fits(q, o(q, view))
    ensures Fire(p, s).Some? && CalmStep(s)
    ensures Obeys(o, past, Fire(p, s).value.marks)
    decreases p
  {
    match p
    case Emit(batch, _) =>
      s := Commit;
      NoneHeardObeys(o, past, Bills(batch));
    case Ask(q, _) =>
      var a := o(q, View(past, Some(q.node)));
      s := Hear(a);
      forall w ensures Follows(o, View(past, w), View([Heard(q, a)], w)) {
        if w == Some(q.node) {
          assert View([Heard(q, a)], w) == [Heard(q, a)];
          assert View(past, w) + [Heard(q, a)][..0] == View(past, w);
        } else {
          assert View([Heard(q, a)], w) == [];
        }
      }
    case Note(e, _) =>
      s := Record(FREE);
      NoneHeardObeys(o, past, [Wrote(e, FREE)]);
    case Fork(kids, _) =>
      if AllDone(kids) {
        s := Join;
        NoneHeardObeys(o, past, []);
      } else {
        var i :| 0 <= i < |kids| && !kids[i].body.Done?;
        var inner := Progress(kids[i].body, kids[i].scope, o, past);
        s := In(i, inner);
      }
  }

  lemma NoneHeardObeys(o: Oracle, past: seq<Mark>, tape: seq<Mark>)
    requires forall m | m in tape :: m.Wrote?
    ensures Obeys(o, past, tape)
  {
    forall w ensures Follows(o, View(past, w), View(tape, w)) {
      ViewWrote(tape, w);
    }
  }

  lemma {:induction false} ViewWrote(tape: seq<Mark>, w: Option<Id>)
    requires forall m | m in tape :: m.Wrote?
    ensures forall t | 0 <= t < |View(tape, w)| :: View(tape, w)[t].Wrote?
  {
    if tape != [] { ViewWrote(tape[1..], w); }
  }
}
