// What the executor ever asks of the world: bounded completions, and shared
// memory only from version 2 on.
module Queries {
  import opened Base
  import opened Graph
  import opened Events
  import opened Tasks
  import opened Kernel
  import opened KernelInduction

  /** Every query of every run of the task satisfies `ok`. */
  greatest predicate Asks(p: Proc, ok: Query -> bool) {
    match p
    case Done(_) => true
    case Emit(_, next) => Asks(next, ok)
    case Ask(q, k) => ok(q) && forall a | Fits(q, a) :: Asks(k(a), ok)
    case Note(_, next) => Asks(next, ok)
    case Fork(kids, join) =>
      && (forall i | 0 <= i < |kids| :: Asks(kids[i].body, ok))
      && (forall i | 0 <= i < |kids| && kids[i].late.Some? :: Asks(kids[i].late.value, ok))
      && (forall outs | |outs| == |kids| :: Asks(join(outs), ok))
  }

  ghost predicate AllHeard(tape: seq<Mark>, ok: Query -> bool) {
    forall m | m in tape && m.Heard? :: ok(m.q)
  }

  lemma {:induction false} AsksFire(p: Proc, s: Step, ok: Query -> bool)
    requires Asks(p, ok) && Fire(p, s).Some?
    ensures Asks(Fire(p, s).value.next, ok) && AllHeard(Fire(p, s).value.marks, ok)
    decreases s
  {
    match s
    case In(i, inner) => AsksFire(p.kids[i].body, inner, ok);
    case _ =>
  }

  lemma {:induction false} AsksRun(p: Proc, sched: seq<Step>, ok: Query -> bool)
    requires Asks(p, ok) && Exec(p, sched).Some?
    ensures AllHeard(Exec(p, sched).value.tape, ok)
    decreases |sched|
  {
    if sched != [] {
      AsksFire(p, sched[0], ok);
      AsksRun(Fire(p, sched[0]).value.next, sched[1..], ok);
    }
  }

  /** `first`: no shared memory. A completion is always asked for with room to answer, and never for more than the cap. */
  function Proper(first: bool): Query -> bool {
    (q: Query) =>
      && (q.Complete? ==> 0 < q.maxTokens <= MAX_COMPLETION_TOKENS)
      && (q.Recall? ==> !first)
  }

  lemma {:induction false} ProduceAsks(w: World, j: Job, t: Turn, first: bool)
    requires InLoops(w, j, t)
    ensures Asks(Produce(w, j, t), Proper(first))
    decreases j.retries - t.retry, w.maxRepairs - t.repair, 2
  {
    if j.agent.budgetTokens - t.spent > 0 {
      forall a | Fits(Request(j, t), a) ensures Asks(Produced(w, j, t, a), Proper(first)) {
        match a
        case Reply(c) =>
          var spent := t.spent + c.tokensIn + c.tokensOut;
          if spent <= j.agent.budgetTokens { JudgedAsks(w, j, t.(spent := spent), c.text, first); }
        case Raised(e) => TryAgainAsks(w, j, t, e, first);
        case _ =>
      }
    }
  }

  lemma {:induction false} JudgedAsks(w: World, j: Job, t: Turn, text: string, first: bool)
    requires InLoops(w, j, t)
    ensures Asks(Judged(w, j, t, text), Proper(first))
    decreases j.retries - t.retry, w.maxRepairs - t.repair, 1
  {
    match w.judge(text, j.schema)
    case Accept(v) =>
    case Reject(errors) =>
      if t.repair < w.maxRepairs { ProduceAsks(w, j, Corrected(j, t, errors), first); }
      assert Asks(Rejection(w, j, t, errors).next, Proper(first));
    case Crash(m) => TryAgainAsks(w, j, t, OtherError(m), first);
  }

  lemma {:induction false} TryAgainAsks(w: World, j: Job, t: Turn, e: Error, first: bool)
    requires InLoops(w, j, t)
    ensures Asks(TryAgain(w, j, t, e), Proper(first))
    decreases j.retries - t.retry, 0, 0
  {
    if t.retry < j.retries { ProduceAsks(w, j, Turn(t.retry + 1, 0, t.spent, None), first); }
  }

  lemma AsksInductive(first: bool)
    ensures Inductive((p: Proc) => Asks(p, Proper(first)), !first)
  {
  }

  lemma HandoffsAsk(w: World, first: bool)
    ensures GoodHandoffs(w, (p: Proc) => Asks(p, Proper(first)))
  {
    forall g: GraphSpec, n: Node, agent: AgentSpec, c: Ctx ensures Asks(Handoff(w, g, n, agent, c), Proper(first)) {
      if n.maxRetries >= 0 {
        ProduceAsks(w, Job(n.id, agent, c, SchemaFor(g, n, agent), n.maxRetries), Turn(0, 0, 0, None), first);
      }
    }
  }

  /** Every completion call of every run asks for between 1 and 1024 tokens; version 1 never recalls memory. */
  lemma QueriesProper(w: World, g: GraphSpec, sched: seq<Step>, m: Mark)
    requires Exec(RunWhole(w, g), sched).Some? && m in Exec(RunWhole(w, g), sched).value.tape && m.Heard?
    ensures m.q.Complete? ==> 0 < m.q.maxTokens <= 1024
    ensures FirstVersion(g) ==> !m.q.Recall?
  {
    var first := FirstVersion(g);
    AsksInductive(first);
    HandoffsAsk(w, first);
    WholeGood(w, g, (p: Proc) => Asks(p, Proper(first)), !first);
    AsksRun(RunWhole(w, g), sched, Proper(FirstVersion(g)));
  }
}
