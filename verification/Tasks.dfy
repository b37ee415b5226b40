// Concurrent tasks over a shared log: the semantics of the executor's
// coroutines, and what holds of every interleaving of them.
module Tasks {
  import opened Base
  import opened Events

  /**
   * A suspended coroutine. Between two constructors nothing else can run:
   * each one is a point where the source awaits.
   */
  datatype Proc =
    | Done(out: Outcome)
    | Emit(batch: seq<Event>, next: Proc)                     // one store transaction
    | Ask(q: Query, k: Answer -> Proc)                        // a call that leaves the executor
    | Note(receipt: Event, next: Proc)                        // the row an answer leaves
    | Fork(kids: seq<Kid>, join: seq<Outcome> -> Proc)        // gather, or one awaited child

  /** A child task; `scope` owns every event it can log, `late` runs if its timeout fires. */
  datatype Kid = Kid(scope: set<Option<Id>>, body: Proc, late: Option<Proc>)

  /** Which task moves, and what the world supplies to it. */
  datatype Step =
    | Commit                                                  // Emit's transaction
    | Hear(a: Answer)                                         // the answer to an Ask
    | Record(bill: Bill)                                      // Note's transaction
    | Join                                                    // all children are done
    | Cut(kid: nat)                                           // a child's timeout fires
    | In(kid: nat, step: Step)

  datatype Mark = Wrote(e: Event, bill: Bill) | Heard(q: Query, a: Answer)

  datatype Fired = Fired(next: Proc, marks: seq<Mark>)

  function Bills(batch: seq<Event>): (r: seq<Mark>)
    ensures |r| == |batch|
    ensures forall i | 0 <= i < |r| :: r[i] == Wrote(batch[i], FREE)
  {
    seq(|batch|, i requires 0 <= i < |batch| => Wrote(batch[i], FREE))
  }

  function AfterAnswer(q: Query, a: Answer, next: Proc): Proc {
    match Receipt(q, a)
    case Some(e) => Note(e, next)
    case None => next
  }

  predicate AllDone(kids: seq<Kid>) {
    forall i | 0 <= i < |kids| :: kids[i].body.Done?
  }

  function Outs(kids: seq<Kid>): (r: seq<Outcome>)
    requires AllDone(kids)
    ensures |r| == |kids|
  {
    seq(|kids|, i requires 0 <= i < |kids| => kids[i].body.out)
  }

  /** One atomic step of a task tree; None if it is not enabled. */
  function Fire(p: Proc, s: Step): Option<Fired>
    decreases s
  {
    match s
    case Commit => if p.Emit? then Some(Fired(p.next, Bills(p.batch))) else None
    case Hear(a) =>
      if p.Ask? && Fits(p.q, a) then Some(Fired(AfterAnswer(p.q, a, p.k(a)), [Heard(p.q, a)])) else None
    case Record(bill) =>
      if p.Note? && (p.receipt.kind.ToolResult? || bill == FREE) then Some(Fired(p.next, [Wrote(p.receipt, bill)])) else None
    case Join => if p.Fork? && AllDone(p.kids) then Some(Fired(p.join(Outs(p.kids)), [])) else None
    case Cut(i) =>
      if p.Fork? && i < |p.kids| && p.kids[i].late.Some? && !p.kids[i].body.Done? then
        Some(Fired(Fork(p.kids[i := Kid(p.kids[i].scope, p.kids[i].late.value, None)], p.join), []))
      else None
    case In(i, inner) =>
      if p.Fork? && i < |p.kids| then
        match Fire(p.kids[i].body, inner)
        case None => None
        case Some(f) => Some(Fired(Fork(p.kids[i := p.kids[i].(body := f.next)], p.join), f.marks))
      else None
  }

  datatype Run = Run(proc: Proc, tape: seq<Mark>)

  /** A whole schedule; None if some step of it is not enabled. */
  function Exec(p: Proc, sched: seq<Step>): Option<Run>
    decreases |sched|
  {
    if sched == [] then Some(Run(p, []))
    else match Fire(p, sched[0])
      case None => None
      case Some(f) =>
        match Exec(f.next, sched[1..])
        case None => None
        case Some(r) => Some(Run(r.proc, f.marks + r.tape))
  }

  /** No timeout fires. */
  predicate CalmStep(s: Step) {
    match s
    case Cut(_) => false
    case In(_, inner) => CalmStep(inner)
    case _ => true
  }

  predicate Calm(sched: seq<Step>) {
    forall s | s in sched :: CalmStep(s)
  }

  lemma {:induction false} ExecConcat(p: Proc, s1: seq<Step>, s2: seq<Step>)
    requires Exec(p, s1).Some?
    ensures Exec(p, s1 + s2) == match Exec(Exec(p, s1).value.proc, s2)
                                case None => None
                                case Some(r) => Some(Run(r.proc, Exec(p, s1).value.tape + r.tape))
    decreases |s1|
  {
    if s1 == [] {
      assert s1 + s2 == s2;
      assert Exec(p, s2).Some? ==> [] + Exec(p, s2).value.tape == Exec(p, s2).value.tape;
    } else {
      var f := Fire(p, s1[0]).value;
      ExecConcat(f.next, s1[1..], s2);
      assert (s1 + s2)[1..] == s1[1..] + s2;
      if Exec(p, s1 + s2).Some? {
        var r := Exec(Exec(p, s1).value.proc, s2).value;
        assert f.marks + (Exec(f.next, s1[1..]).value.tape + r.tape) == Exec(p, s1).value.tape + r.tape;
      }
    }
  }

  // ---------- one node's view of a tape ----------

  function Who(m: Mark): Option<Id> {
    match m
    case Wrote(e, _) => e.who
    case Heard(q, _) => Some(q.node)
  }

  /** A mark without its price. */
  function Bare(m: Mark): Mark {
    match m
    case Wrote(e, _) => Wrote(e, FREE)
    case Heard(_, _) => m
  }

  /** The marks of one node, in order. */
  function View(tape: seq<Mark>, w: Option<Id>): seq<Mark> {
    if tape == [] then []
    else (if Who(tape[0]) == w then [Bare(tape[0])] else []) + View(tape[1..], w)
  }

  lemma {:induction false} ViewConcat(t1: seq<Mark>, t2: seq<Mark>, w: Option<Id>)
    ensures View(t1 + t2, w) == View(t1, w) + View(t2, w)
  {
    if t1 == [] {
      assert t1 + t2 == t2;
    } else {
      ViewConcat(t1[1..], t2, w);
      var head := if Who(t1[0]) == w then [Bare(t1[0])] else [];
      assert (t1 + t2)[0] == t1[0] && (t1 + t2)[1..] == t1[1..] + t2;
      assert head + (View(t1[1..], w) + View(t2, w)) == (head + View(t1[1..], w)) + View(t2, w);
    }
  }

  ghost predicate Inside(tape: seq<Mark>, scope: set<Option<Id>>) {
    forall m | m in tape :: Who(m) in scope
  }

  lemma {:induction false} ViewOutside(tape: seq<Mark>, scope: set<Option<Id>>, w: Option<Id>)
    requires Inside(tape, scope) && w !in scope
    ensures View(tape, w) == []
  {
    if tape != [] {
      assert Who(tape[0]) in scope;
      ViewOutside(tape[1..], scope, w);
    }
  }

  /** Two tapes no node can tell apart. */
  ghost predicate Agree(t1: seq<Mark>, t2: seq<Mark>) {
    forall w :: View(t1, w) == View(t2, w)
  }

  lemma AgreeConcat(a1: seq<Mark>, b1: seq<Mark>, a2: seq<Mark>, b2: seq<Mark>)
    requires Agree(a1, a2) && Agree(b1, b2)
    ensures Agree(a1 + b1, a2 + b2)
  {
    forall w ensures View(a1 + b1, w) == View(a2 + b2, w) {
      ViewConcat(a1, b1, w);
      ViewConcat(a2, b2, w);
    }
  }

  // ---------- scoping ----------

  /**
   * The task logs only inside `S`, its children own disjoint scopes, and the
   * receipt rows come from answers alone.
   */
  greatest predicate Tidy(p: Proc, S: set<Option<Id>>) {
    match p
    case Done(_) => true
    case Emit(batch, next) =>
      (forall e | e in batch :: e.who in S && !IsReceipt(e)) && Tidy(next, S)
    case Ask(q, k) => Some(q.node) in S && forall a | Fits(q, a) :: Tidy(k(a), S)
    case Note(e, next) => e.who in S && Tidy(next, S)
    case Fork(kids, join) =>
      && (forall i | 0 <= i < |kids| :: kids[i].scope <= S && Tidy(kids[i].body, kids[i].scope))
      && (forall i | 0 <= i < |kids| && kids[i].late.Some? :: Tidy(kids[i].late.value, kids[i].scope))
      && (forall i, j | 0 <= i < j < |kids| :: kids[i].scope !! kids[j].scope)
      && (forall outs | |outs| == |kids| :: Tidy(join(outs), S))
  }

  lemma {:induction false} TidyFire(p: Proc, s: Step, S: set<Option<Id>>)
    requires Tidy(p, S) && Fire(p, s).Some?
    ensures Tidy(Fire(p, s).value.next, S) && Inside(Fire(p, s).value.marks, S)
    decreases s
  {
    match s
    case In(i, inner) =>
      TidyFire(p.kids[i].body, inner, p.kids[i].scope);
    case _ =>
  }

  lemma {:induction false} TidyExec(p: Proc, sched: seq<Step>, S: set<Option<Id>>)
    requires Tidy(p, S) && Exec(p, sched).Some?
    ensures Tidy(Exec(p, sched).value.proc, S) && Inside(Exec(p, sched).value.tape, S)
    decreases |sched|
  {
    if sched != [] {
      TidyFire(p, sched[0], S);
      TidyExec(Fire(p, sched[0]).value.next, sched[1..], S);
    }
  }

  // ---------- taking a fork apart ----------

  /** The steps child `i` makes before the join. */
  function KidSteps(sched: seq<Step>, i: nat): (r: seq<Step>)
    ensures |r| <= |sched|
  {
    if sched == [] || sched[0].Join? then []
    else (if sched[0].In? && sched[0].kid == i then [sched[0].step] else []) + KidSteps(sched[1..], i)
  }

  /** The steps after the join. */
  function AfterJoin(sched: seq<Step>): (r: seq<Step>)
    ensures sched != [] ==> |r| < |sched|
  {
    if sched == [] then []
    else if sched[0].Join? then sched[1..]
    else AfterJoin(sched[1..])
  }

  /** Each child ran on its own tape, and nothing else was logged. */
  ghost predicate ForkRan(kids: seq<Kid>, sched: seq<Step>, front: seq<Mark>) {
    && (forall i | 0 <= i < |kids| ::
          && Exec(kids[i].body, KidSteps(sched, i)).Some?
          && forall w | w in kids[i].scope ::
               View(front, w) == View(Exec(kids[i].body, KidSteps(sched, i)).value.tape, w))
    && (forall w | (forall i | 0 <= i < |kids| :: w !in kids[i].scope) :: View(front, w) == [])
  }

  /** Each child ran to its end. */
  ghost predicate KidsDone(kids: seq<Kid>, sched: seq<Step>, outs: seq<Outcome>) {
    && |outs| == |kids|
    && (forall i | 0 <= i < |kids| ::
          && Exec(kids[i].body, KidSteps(sched, i)).Some?
          && Exec(kids[i].body, KidSteps(sched, i)).value.proc == Done(outs[i])
          && |KidSteps(sched, i)| < |sched|)
  }

  /** A complete calm run of a fork: each child ran to the end on its own tape. */
  ghost predicate ForkTaken(kids: seq<Kid>, sched: seq<Step>, outs: seq<Outcome>, front: seq<Mark>) {
    && ForkRan(kids, sched, front) && KidsDone(kids, sched, outs)
    && forall i | 0 <= i < |kids| :: Calm(KidSteps(sched, i))
  }

  lemma TidyKids(kids: seq<Kid>, join: seq<Outcome> -> Proc, S: set<Option<Id>>)
    requires Tidy(Fork(kids, join), S)
    ensures forall i | 0 <= i < |kids| :: Tidy(kids[i].body, kids[i].scope)
    ensures forall a, b | 0 <= a < b < |kids| :: kids[a].scope !! kids[b].scope
  {
  }

  lemma ForkIdle(kids: seq<Kid>, sched: seq<Step>)
    requires sched == [] || sched[0].Join?
    ensures ForkRan(kids, sched, [])
    ensures sched != [] && AllDone(kids) ==> KidsDone(kids, sched, Outs(kids))
  {
  }

  lemma {:induction false} CalmParts(sched: seq<Step>, i: nat)
    requires Calm(sched)
    ensures Calm(KidSteps(sched, i)) && Calm(AfterJoin(sched))
  {
    if sched != [] {
      assert CalmStep(sched[0]);
      CalmParts(sched[1..], i);
    }
  }

  /** Any run of a fork in which no timeout fires at its children: what they did, and what followed if they were joined. */
  lemma {:induction false} ForkRun(kids: seq<Kid>, join: seq<Outcome> -> Proc, S: set<Option<Id>>, sched: seq<Step>)
    returns (joined: bool, outs: seq<Outcome>, front: seq<Mark>)
    requires Tidy(Fork(kids, join), S) && Exec(Fork(kids, join), sched).Some?
    requires Calm(sched) || forall i | 0 <= i < |kids| :: kids[i].late.None?
    ensures ForkRan(kids, sched, front)
    ensures var whole := Exec(Fork(kids, join), sched).value;
      if joined then
        && KidsDone(kids, sched, outs) && |AfterJoin(sched)| < |sched| && Exec(join(outs), AfterJoin(sched)).Some?
        && var rest := Exec(join(outs), AfterJoin(sched)).value; whole.proc == rest.proc && whole.tape == front + rest.tape
      else whole.proc.Fork? && whole.tape == front
    decreases |sched|
  {
    hide ForkRan, KidsDone, View, KidSteps, Tidy;
    var p := Fork(kids, join);
    if sched == [] || sched[0].Join? {
      joined, outs, front := sched != [], if AllDone(kids) then Outs(kids) else [], [];
      ForkIdle(kids, sched);
      if sched != [] {
        var rest := Exec(join(outs), sched[1..]).value.tape;
        assert AfterJoin(sched) == sched[1..] && [] + rest == rest;
      }
    } else {
      var s := sched[0];
      assert s.In? by { assert Calm(sched) ==> CalmStep(s); }
      var i, inner := s.kid, s.step;
      TidyKids(kids, join, S);
      var g := Fire(kids[i].body, inner).value;
      var kids' := kids[i := kids[i].(body := g.next)];
      TidyFire(p, s, S);
      TidyFire(kids[i].body, inner, kids[i].scope);
      var front';
      joined, outs, front' := ForkRun(kids', join, S, sched[1..]);
      front := g.marks + front';
      ForkRanStep(kids, i, inner, sched, front');
      if joined {
        KidsDoneStep(kids, i, inner, sched, outs);
        var rest := Exec(join(outs), AfterJoin(sched)).value;
        assert g.marks + (front' + rest.tape) == front + rest.tape;
      }
    }
  }

  lemma KidsDoneStep(kids: seq<Kid>, i: nat, inner: Step, sched: seq<Step>, outs: seq<Outcome>)
    requires sched != [] && sched[0] == In(i, inner) && i < |kids| && Fire(kids[i].body, inner).Some?
    requires KidsDone(kids[i := kids[i].(body := Fire(kids[i].body, inner).value.next)], sched[1..], outs)
    ensures KidsDone(kids, sched, outs)
  {
    var g := Fire(kids[i].body, inner).value;
    var kids' := kids[i := kids[i].(body := g.next)];
    forall j | 0 <= j < |kids|
      ensures Exec(kids[j].body, KidSteps(sched, j)).Some? && Exec(kids[j].body, KidSteps(sched, j)).value.proc == Done(outs[j])
      ensures |KidSteps(sched, j)| < |sched|
    {
      var before := KidSteps(sched[1..], j);
      assert Exec(kids'[j].body, before).value.proc == Done(outs[j]);
      if j == i {
        assert KidSteps(sched, j) == [inner] + before && ([inner] + before)[1..] == before;
      } else {
        assert KidSteps(sched, j) == before;
      }
    }
  }

  lemma ForkRanStep(kids: seq<Kid>, i: nat, inner: Step, sched: seq<Step>, front: seq<Mark>)
    requires sched != [] && sched[0] == In(i, inner)
    requires i < |kids| && Fire(kids[i].body, inner).Some?
    requires forall a, b | 0 <= a < b < |kids| :: kids[a].scope !! kids[b].scope
    requires Inside(Fire(kids[i].body, inner).value.marks, kids[i].scope)
    requires ForkRan(kids[i := kids[i].(body := Fire(kids[i].body, inner).value.next)], sched[1..], front)
    ensures ForkRan(kids, sched, Fire(kids[i].body, inner).value.marks + front)
  {
    var g := Fire(kids[i].body, inner).value;
    var kids' := kids[i := kids[i].(body := g.next)];
    forall j | 0 <= j < |kids|
      ensures Exec(kids[j].body, KidSteps(sched, j)).Some?
      ensures forall w | w in kids[j].scope ::
        View(g.marks + front, w) == View(Exec(kids[j].body, KidSteps(sched, j)).value.tape, w)
    {
      var before := KidSteps(sched[1..], j);
      assert kids'[j].scope == kids[j].scope;
      if j == i {
        assert KidSteps(sched, j) == [inner] + before;
        assert ([inner] + before)[1..] == before;
        forall w | w in kids[j].scope
          ensures View(g.marks + front, w) == View(Exec(kids[j].body, KidSteps(sched, j)).value.tape, w)
        {
          ViewConcat(g.marks, front, w);
          ViewConcat(g.marks, Exec(g.next, before).value.tape, w);
        }
      } else {
        assert KidSteps(sched, j) == before;
        forall w | w in kids[j].scope
          ensures View(g.marks + front, w) == View(Exec(kids[j].body, KidSteps(sched, j)).value.tape, w)
        {
          ViewConcat(g.marks, front, w);
          ViewOutside(g.marks, kids[i].scope, w);
        }
      }
    }
    forall w | (forall j | 0 <= j < |kids| :: w !in kids[j].scope) ensures View(g.marks + front, w) == [] {
      ViewConcat(g.marks, front, w);
      ViewOutside(g.marks, kids[i].scope, w);
      assert forall j | 0 <= j < |kids'| :: w !in kids'[j].scope;
    }
  }

  /** A complete calm run of a fork. */
  lemma ForkSplit(kids: seq<Kid>, join: seq<Outcome> -> Proc, S: set<Option<Id>>, sched: seq<Step>)
    returns (outs: seq<Outcome>, front: seq<Mark>)
    requires Tidy(Fork(kids, join), S) && Calm(sched)
    requires Exec(Fork(kids, join), sched).Some? && Exec(Fork(kids, join), sched).value.proc.Done?
    ensures ForkTaken(kids, sched, outs, front)
    ensures Exec(join(outs), AfterJoin(sched)).Some? && Calm(AfterJoin(sched))
    ensures |AfterJoin(sched)| < |sched|
    ensures var whole, rest := Exec(Fork(kids, join), sched).value, Exec(join(outs), AfterJoin(sched)).value;
      whole.proc == rest.proc && whole.tape == front + rest.tape
  {
    hide ForkRan, KidsDone, Tidy, Calm;
    var joined;
    joined, outs, front := ForkRun(kids, join, S, sched);
    CalmParts(sched, 0);
    forall i | 0 <= i < |kids| ensures Calm(KidSteps(sched, i)) { CalmParts(sched, i); }
  }
}
