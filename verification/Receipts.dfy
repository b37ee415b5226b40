// Every answer that leaves a row leaves exactly its row, in order.
module Receipts {
  import opened Base
  import opened Events
  import opened Tasks
  import opened Confluence

  /** A task not caught between hearing an answer and logging it. */
  greatest predicate Fresh(p: Proc) {
    match p
    case Done(_) => true
    case Emit(_, next) => Fresh(next)
    case Ask(q, k) => forall a | Fits(q, a) :: Fresh(k(a))
    case Note(_, _) => false
    case Fork(kids, join) =>
      && (forall i | 0 <= i < |kids| :: Fresh(kids[i].body))
      && (forall outs | |outs| == |kids| :: Fresh(join(outs)))
  }

  function OwedFor(m: Mark): seq<Event> {
    match m
    case Heard(q, a) => (match Receipt(q, a) case Some(e) => [e] case None => [])
    case Wrote(_, _) => []
  }

  function KeptBy(m: Mark): seq<Event> {
    if m.Wrote? && IsReceipt(m.e) then [m.e] else []
  }

  /** The rows the answers heard in a view call for. */
  function Owed(view: seq<Mark>): seq<Event> { FlatMap(OwedFor, view) }

  /** The receipt rows actually logged. */
  function Kept(view: seq<Mark>): seq<Event> { FlatMap(KeptBy, view) }

  lemma BothConcat(v1: seq<Mark>, v2: seq<Mark>)
    ensures Owed(v1 + v2) == Owed(v1) + Owed(v2)
    ensures Kept(v1 + v2) == Kept(v1) + Kept(v2)
  {
    FlatMapConcat(OwedFor, v1, v2);
    FlatMapConcat(KeptBy, v1, v2);
  }

  lemma {:induction false} NoReceipts(tape: seq<Mark>, w: Option<Id>)
    requires forall m | m in tape :: m.Wrote? && !IsReceipt(m.e)
    ensures Owed(View(tape, w)) == [] && Kept(View(tape, w)) == []
  {
    if tape != [] {
      assert tape[0] in tape;
      NoReceipts(tape[1..], w);
      BothConcat(if Who(tape[0]) == w then [Bare(tape[0])] else [], View(tape[1..], w));
    }
  }

  /** In a complete run without timeouts, what each node logged is what it heard. */
  lemma {:induction false} ReceiptsMatch(p: Proc, S: set<Option<Id>>, sched: seq<Step>, out: Outcome,
                                         tape: seq<Mark>, w: Option<Id>)
    requires Tidy(p, S) && Fresh(p) && Completes(p, sched, out, tape)
    ensures Kept(View(tape, w)) == Owed(View(tape, w))
    decreases |sched|, 1
  {
    match p
    case Done(_) =>
      assert sched == [];
    case Emit(batch, next) =>
      var f, rest := CompletesTail(p, sched, out, tape);
      ReceiptsMatch(next, S, sched[1..], out, rest, w);
      NoReceipts(f.marks, w);
      MatchConcat(f.marks, rest, w);
    case Ask(q, k) => ReceiptsAsk(p, S, sched, out, tape, w);
    case Fork(kids, join) =>
      var outs, front := ForkSplit(kids, join, S, sched);
      var rest := Exec(join(outs), AfterJoin(sched)).value.tape;
      ReceiptsMatch(join(outs), S, AfterJoin(sched), out, rest, w);
      if i :| 0 <= i < |kids| && w in kids[i].scope {
        var own := Exec(kids[i].body, KidSteps(sched, i)).value.tape;
        ReceiptsMatch(kids[i].body, kids[i].scope, KidSteps(sched, i), outs[i], own, w);
      }
      MatchConcat(front, rest, w);
  }

  lemma {:induction false} ReceiptsAsk(p: Proc, S: set<Option<Id>>, sched: seq<Step>, out: Outcome,
                                       tape: seq<Mark>, w: Option<Id>)
    requires p.Ask? && Tidy(p, S) && Fresh(p) && Completes(p, sched, out, tape)
    ensures Kept(View(tape, w)) == Owed(View(tape, w))
    decreases |sched|, 0
  {
    var q, k := p.q, p.k;
    var f, rest := CompletesTail(p, sched, out, tape);
    TidyFire(p, sched[0], S);
    var a := f.marks[0].a;
    if Receipt(q, a).Some? {
      var g, rest2 := CompletesTail(f.next, sched[1..], out, rest);
      assert sched[1..][1..] == sched[2..];
      ReceiptsMatch(k(a), S, sched[2..], out, rest2, w);
      AnswerKept(q, a, g.marks[0], rest2, w);
      assert tape == [Heard(q, a), g.marks[0]] + rest2;
    } else {
      ReceiptsMatch(k(a), S, sched[1..], out, rest, w);
      NoneOwed(q, a, w);
      MatchConcat(f.marks, rest, w);
    }
  }

  lemma MatchConcat(front: seq<Mark>, rest: seq<Mark>, w: Option<Id>)
    requires Kept(View(front, w)) == Owed(View(front, w)) && Kept(View(rest, w)) == Owed(View(rest, w))
    ensures Kept(View(front + rest, w)) == Owed(View(front + rest, w))
  {
    ViewConcat(front, rest, w);
    BothConcat(View(front, w), View(rest, w));
  }

  lemma NoneOwed(q: Query, a: Answer, w: Option<Id>)
    requires Receipt(q, a).None?
    ensures Kept(View([Heard(q, a)], w)) == [] && Owed(View([Heard(q, a)], w)) == []
  {
    FlatMapOne(KeptBy, Heard(q, a));
    FlatMapOne(OwedFor, Heard(q, a));
    assert [Heard(q, a)][1..] == [];
  }

  lemma AnswerKept(q: Query, a: Answer, m: Mark, rest: seq<Mark>, w: Option<Id>)
    requires Receipt(q, a).Some? && m.Wrote? && m.e == Receipt(q, a).value
    requires Kept(View(rest, w)) == Owed(View(rest, w))
    ensures Kept(View([Heard(q, a), m] + rest, w)) == Owed(View([Heard(q, a), m] + rest, w))
  {
    var pair := [Heard(q, a), m];
    ViewConcat(pair, rest, w);
    BothConcat(View(pair, w), View(rest, w));
    assert pair[1..] == [m] && [m][1..] == [];
    if w == Some(q.node) {
      assert View(pair, w) == [Heard(q, a), Bare(m)];
      BothConcat([Heard(q, a)], [Bare(m)]);
      assert [Heard(q, a)] + [Bare(m)] == [Heard(q, a), Bare(m)];
    } else {
      assert View(pair, w) == [];
    }
  }

  // ---------- no grant without a yes ----------

  /** As long as every gate says no, no grant is logged. */
  greatest predicate Withholds(p: Proc) {
    match p
    case Done(_) => true
    case Emit(batch, next) => (forall e | e in batch :: !e.kind.ApprovalGranted?) && Withholds(next)
    case Ask(q, k) => forall a | Fits(q, a) && a != Granted(true) :: Withholds(AfterAnswer(q, a, k(a)))
    case Note(e, next) => !e.kind.ApprovalGranted? && Withholds(next)
    case Fork(kids, join) =>
      && (forall i | 0 <= i < |kids| :: Withholds(kids[i].body))
      && (forall i | 0 <= i < |kids| && kids[i].late.Some? :: Withholds(kids[i].late.value))
      && (forall outs | |outs| == |kids| :: Withholds(join(outs)))
  }

  ghost predicate NoYes(tape: seq<Mark>) {
    forall m | m in tape && m.Heard? :: m.a != Granted(true)
  }

  ghost predicate NoGrant(tape: seq<Mark>) {
    forall m | m in tape && m.Wrote? :: !m.e.kind.ApprovalGranted?
  }

  lemma {:induction false} WithholdsFire(p: Proc, s: Step)
    requires Withholds(p) && Fire(p, s).Some? && NoYes(Fire(p, s).value.marks)
    ensures Withholds(Fire(p, s).value.next) && NoGrant(Fire(p, s).value.marks)
    decreases s
  {
    match s
    case In(i, inner) => WithholdsFire(p.kids[i].body, inner);
    case Hear(a) => assert Heard(p.q, a) in Fire(p, s).value.marks;
    case _ =>
  }

  lemma {:induction false} WithholdsRun(p: Proc, sched: seq<Step>)
    requires Withholds(p) && Exec(p, sched).Some? && NoYes(Exec(p, sched).value.tape)
    ensures NoGrant(Exec(p, sched).value.tape)
    decreases |sched|
  {
    if sched != [] {
      var f := Fire(p, sched[0]).value;
      var rest := Exec(f.next, sched[1..]).value.tape;
      assert forall m | m in f.marks :: m in f.marks + rest;
      assert forall m | m in rest :: m in f.marks + rest;
      WithholdsFire(p, sched[0]);
      WithholdsRun(f.next, sched[1..]);
    }
  }
}
