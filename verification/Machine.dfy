// Ways for straight-line code to follow a task tree: what it has logged is a
// run of the tree from one point to another.
module Machine {
  import opened Base
  import opened Events
  import opened Tasks
  import opened Confluence

  /** Some schedule without timeouts takes `p` to `q`, logging `tape`. */
  ghost predicate Arrives(p: Proc, q: Proc, tape: seq<Mark>) {
    exists sched :: Takes(p, q, sched, tape)
  }

  ghost predicate Takes(p: Proc, q: Proc, sched: seq<Step>, tape: seq<Mark>) {
    Calm(sched) && Exec(p, sched) == Some(Run(q, tape))
  }

  /** The log grew from `before` to `after` while the tree went from `p` to `q`. */
  ghost predicate Ran(p: Proc, q: Proc, before: seq<Mark>, after: seq<Mark>) {
    before <= after && Arrives(p, q, after[|before|..])
  }

  lemma RanStart(p: Proc, t: seq<Mark>)
    ensures Ran(p, p, t, t)
  {
    assert t[|t|..] == [];
    assert Takes(p, p, [], []);
  }

  lemma RanOn(p: Proc, q: Proc, r: Proc, t0: seq<Mark>, t1: seq<Mark>, t2: seq<Mark>)
    requires Ran(p, q, t0, t1) && Ran(q, r, t1, t2)
    ensures Ran(p, r, t0, t2)
  {
    var a, b := t1[|t0|..], t2[|t1|..];
    var s :| Takes(p, q, s, a);
    var u :| Takes(q, r, u, b);
    ExecConcat(p, s, u);
    assert t2[|t0|..] == a + b;
    assert Takes(p, r, s + u, a + b);
  }

  lemma RanStep(p: Proc, s: Step, t: seq<Mark>)
    requires Fire(p, s).Some? && CalmStep(s)
    ensures Ran(p, Fire(p, s).value.next, t, t + Fire(p, s).value.marks)
  {
    var f := Fire(p, s).value;
    assert [s][1..] == [] && f.marks + [] == f.marks;
    assert Exec(f.next, []) == Some(Run(f.next, []));
    assert (t + f.marks)[|t|..] == f.marks;
    assert Takes(p, f.next, [s], f.marks);
  }

  lemma RanEmit(p: Proc, t: seq<Mark>)
    requires p.Emit?
    ensures Ran(p, p.next, t, t + Bills(p.batch))
  {
    RanStep(p, Commit, t);
  }

  lemma RanOne(e: Event, next: Proc, t: seq<Mark>)
    ensures Ran(Emit([e], next), next, t, t + [Wrote(e, FREE)])
  {
    RanEmit(Emit([e], next), t);
    assert Bills([e]) == [Wrote(e, FREE)];
  }

  lemma RanAsk(p: Proc, a: Answer, t: seq<Mark>)
    requires p.Ask? && Fits(p.q, a)
    ensures Ran(p, AfterAnswer(p.q, a, p.k(a)), t, t + [Heard(p.q, a)])
  {
    RanStep(p, Hear(a), t);
  }

  lemma RanNote(p: Proc, bill: Bill, t: seq<Mark>)
    requires p.Note? && (p.receipt.kind.ToolResult? || bill == FREE)
    ensures Ran(p, p.next, t, t + [Wrote(p.receipt, bill)])
  {
    RanStep(p, Record(bill), t);
  }

  /** A child's schedule, seen from its fork. */
  function Inward(i: nat, sched: seq<Step>): (r: seq<Step>)
    ensures |r| == |sched| && forall k | 0 <= k < |r| :: r[k] == In(i, sched[k])
  {
    seq(|sched|, k requires 0 <= k < |sched| => In(i, sched[k]))
  }

  lemma {:induction false} TakesKid(kids: seq<Kid>, join: seq<Outcome> -> Proc, i: nat, q: Proc, sched: seq<Step>,
                                    tape: seq<Mark>)
    requires i < |kids| && Takes(kids[i].body, q, sched, tape)
    ensures Takes(Fork(kids, join), Fork(kids[i := kids[i].(body := q)], join), Inward(i, sched), tape)
    decreases |sched|
  {
    var p := Fork(kids, join);
    if sched == [] {
      assert kids[i := kids[i].(body := q)] == kids;
    } else {
      var f := Fire(kids[i].body, sched[0]).value;
      var kids' := kids[i := kids[i].(body := f.next)];
      var rest := Exec(f.next, sched[1..]).value.tape;
      TakesKid(kids', join, i, q, sched[1..], rest);
      assert Inward(i, sched)[1..] == Inward(i, sched[1..]);
      assert kids'[i := kids'[i].(body := q)] == kids[i := kids[i].(body := q)];
      assert CalmStep(sched[0]);
    }
  }

  lemma RanKid(kids: seq<Kid>, join: seq<Outcome> -> Proc, i: nat, q: Proc, t0: seq<Mark>, t1: seq<Mark>)
    requires i < |kids| && Ran(kids[i].body, q, t0, t1)
    ensures Ran(Fork(kids, join), Fork(kids[i := kids[i].(body := q)], join), t0, t1)
  {
    var tape := t1[|t0|..];
    var sched :| Takes(kids[i].body, q, sched, tape);
    TakesKid(kids, join, i, q, sched, tape);
  }

  lemma RanJoin(p: Proc, t: seq<Mark>)
    requires p.Fork? && AllDone(p.kids)
    ensures Ran(p, p.join(Outs(p.kids)), t, t)
  {
    RanStep(p, Join, t);
    assert t + [] == t;
  }

  /** An awaited only child, from fork to continuation. */
  lemma RanAwait(p: Proc, out: Outcome, t0: seq<Mark>, t1: seq<Mark>)
    requires p.Fork? && |p.kids| == 1 && Ran(p.kids[0].body, Done(out), t0, t1)
    ensures Ran(p, p.join([out]), t0, t1)
  {
    var done := Fork(p.kids[0 := p.kids[0].(body := Done(out))], p.join);
    RanKid(p.kids, p.join, 0, Done(out), t0, t1);
    RanJoin(done, t1);
    assert Outs(done.kids) == [out];
    RanOn(p, done, p.join([out]), t0, t1, t1);
  }

  /** A fork some of whose children are done. */
  ghost function Partly(kids: seq<Kid>, outs: seq<Outcome>): (r: seq<Kid>)
    requires |outs| <= |kids|
    ensures |r| == |kids|
  {
    seq(|kids|, i requires 0 <= i < |kids| =>
      if i < |outs| then kids[i].(body := Done(outs[i])) else kids[i])
  }

  lemma RanPartly(p: Proc, kids: seq<Kid>, join: seq<Outcome> -> Proc, outs: seq<Outcome>, out: Outcome,
                  t0: seq<Mark>, t1: seq<Mark>, t2: seq<Mark>)
    requires |outs| < |kids| && Ran(p, Fork(Partly(kids, outs), join), t0, t1)
    requires Ran(kids[|outs|].body, Done(out), t1, t2)
    ensures Ran(p, Fork(Partly(kids, outs + [out]), join), t0, t2)
  {
    var i, now := |outs|, Partly(kids, outs);
    RanKid(now, join, i, Done(out), t1, t2);
    assert now[i := now[i].(body := Done(out))] == Partly(kids, outs + [out]);
    RanOn(p, Fork(now, join), Fork(Partly(kids, outs + [out]), join), t0, t1, t2);
  }

  lemma RanGathered(p: Proc, kids: seq<Kid>, join: seq<Outcome> -> Proc, outs: seq<Outcome>, t0: seq<Mark>, t1: seq<Mark>)
    requires |outs| == |kids| && Ran(p, Fork(Partly(kids, outs), join), t0, t1)
    ensures Ran(p, join(outs), t0, t1)
  {
    var all := Partly(kids, outs);
    RanJoin(Fork(all, join), t1);
    assert Outs(all) == outs;
    RanOn(p, Fork(all, join), join(outs), t0, t1, t1);
  }

  lemma NoneDone(kids: seq<Kid>)
    ensures Partly(kids, []) == kids
  {
  }

  lemma RanCompletes(p: Proc, out: Outcome, t0: seq<Mark>, t1: seq<Mark>) returns (sched: seq<Step>)
    requires Ran(p, Done(out), t0, t1)
    ensures Completes(p, sched, out, t1[|t0|..])
  {
    sched :| Takes(p, Done(out), sched, t1[|t0|..]);
  }
}
