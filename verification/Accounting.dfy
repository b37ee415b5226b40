// Double-entry accounts of the whole log: every completed call, every emitted
// handoff and every rejection is settled by exactly one later row.
module Accounting {
  import opened Base
  import opened Graph
  import opened Events
  import opened Tasks
  import opened Confluence
  import opened Kernel
  import opened KernelInduction

  function One(b: bool): int { if b then 1 else 0 }

  /**
   * Calls: TOOL_RESULT against HANDOFF_EMITTED and BUDGET_EXCEEDED.
   * Emissions: HANDOFF_EMITTED against HANDOFF_VALIDATED and HANDOFF_REJECTED.
   * Rejections: HANDOFF_REJECTED against REPAIR_ATTEMPT and the BRANCH_FAILED of an unrepairable handoff.
   */
  datatype Account = Calls | Emissions | Rejections

  /** What a row adds to an account. */
  function Entered(f: Account, e: Event): int {
    match f
    case Calls => One(e.kind.ToolResult?) - One(e.kind.HandoffEmitted?) - One(e.kind.BudgetExceeded?)
    case Emissions => One(e.kind.HandoffEmitted?) - One(e.kind.HandoffValidated?) - One(e.kind.HandoffRejected?)
    case Rejections => One(e.kind.HandoffRejected?) - One(e.kind.RepairAttempt?) - One(e.kind.Unrepairable?)
  }

  function Total(f: Account, tape: seq<Mark>): int {
    if tape == [] then 0 else (if tape[0].Wrote? then Entered(f, tape[0].e) else 0) + Total(f, tape[1..])
  }

  lemma {:induction false} TotalConcat(f: Account, a: seq<Mark>, b: seq<Mark>)
    ensures Total(f, a + b) == Total(f, a) + Total(f, b)
  {
    if a == [] {
      assert a + b == b;
    } else {
      TotalConcat(f, a[1..], b);
      assert (a + b)[0] == a[0] && (a + b)[1..] == a[1..] + b;
    }
  }

  function Sum(debts: seq<int>): int {
    if debts == [] then 0 else debts[0] + Sum(debts[1..])
  }

  lemma {:induction false} SumUpdate(debts: seq<int>, i: nat, d: int)
    requires i < |debts|
    ensures Sum(debts[i := d]) == Sum(debts) - debts[i] + d
  {
    if i > 0 {
      SumUpdate(debts[1..], i - 1, d);
      assert debts[i := d][1..] == debts[1..][i - 1 := d];
    } else {
      assert debts[0 := d][1..] == debts[1..];
    }
  }

  /** Rows still to come will add up to exactly `due`, if no timeout fires. */
  greatest predicate Owes(p: Proc, f: Account, due: int) {
    match p
    case Done(_) => due == 0
    case Emit(batch, next) => Owes(next, f, due - Total(f, Bills(batch)))
    case Ask(q, k) => forall a | Fits(q, a) :: Owes(AfterAnswer(q, a, k(a)), f, due)
    case Note(e, next) => Owes(next, f, due - Entered(f, e))
    case Fork(kids, join) => exists debts: seq<int> :: OwesKids(kids, join, f, due, debts)
  }

  greatest predicate OwesKids(kids: seq<Kid>, join: seq<Outcome> -> Proc, f: Account, due: int, debts: seq<int>) {
    && |debts| == |kids|
    && (forall i | 0 <= i < |kids| :: Owes(kids[i].body, f, debts[i]))
    && (forall outs | |outs| == |kids| :: Owes(join(outs), f, due - Sum(debts)))
  }

  lemma {:induction false} OwesFire(p: Proc, s: Step, f: Account, due: int)
    requires Owes(p, f, due) && Fire(p, s).Some? && CalmStep(s)
    ensures Owes(Fire(p, s).value.next, f, due - Total(f, Fire(p, s).value.marks))
    decreases s
  {
    var r := Fire(p, s).value;
    match s
    case Commit =>
    case Hear(a) =>
      assert r.marks[1..] == [] && Total(f, r.marks) == 0;
      assert due - Total(f, r.marks) == due;
    case Record(bill) =>
      assert r.marks[1..] == [] && Total(f, r.marks) == Entered(f, p.receipt);
      assert due - Total(f, r.marks) == due - Entered(f, p.receipt);
    case Join =>
      var debts: seq<int> :| OwesKids(p.kids, p.join, f, due, debts);
      NothingOwed(p.kids, f, debts);
    case In(i, inner) =>
      var debts: seq<int> :| OwesKids(p.kids, p.join, f, due, debts);
      OwesFire(p.kids[i].body, inner, f, debts[i]);
      OwesOne(p, i, Fire(p.kids[i].body, inner).value, f, due, debts);
  }

  /** One child paid some of its own debt. */
  lemma OwesOne(p: Proc, i: nat, kid: Fired, f: Account, due: int, debts: seq<int>)
    requires p.Fork? && i < |p.kids| && OwesKids(p.kids, p.join, f, due, debts)
    requires Owes(kid.next, f, debts[i] - Total(f, kid.marks))
    ensures Owes(Fork(p.kids[i := p.kids[i].(body := kid.next)], p.join), f, due - Total(f, kid.marks))
  {
    var now := debts[i := debts[i] - Total(f, kid.marks)];
    SumUpdate(debts, i, debts[i] - Total(f, kid.marks));
    assert due - Total(f, kid.marks) - Sum(now) == due - Sum(debts);
    assert OwesKids(p.kids[i := p.kids[i].(body := kid.next)], p.join, f, due - Total(f, kid.marks), now);
  }

  lemma {:induction false} NothingOwed(kids: seq<Kid>, f: Account, debts: seq<int>)
    requires |debts| == |kids| && AllDone(kids) && forall i | 0 <= i < |kids| :: Owes(kids[i].body, f, debts[i])
    ensures Sum(debts) == 0
  {
    if kids != [] {
      assert Owes(kids[0].body, f, debts[0]);
      NothingOwed(kids[1..], f, debts[1..]);
    }
  }

  lemma {:induction false} OwesRun(p: Proc, sched: seq<Step>, f: Account, due: int, out: Outcome, tape: seq<Mark>)
    requires Owes(p, f, due) && Completes(p, sched, out, tape)
    ensures Total(f, tape) == due
    decreases |sched|
  {
    if sched != [] {
      assert CalmStep(sched[0]);
      var r := Fire(p, sched[0]).value;
      var rest := Exec(r.next, sched[1..]).value.tape;
      OwesFire(p, sched[0], f, due);
      OwesRun(r.next, sched[1..], f, due - Total(f, r.marks), out, rest);
      TotalConcat(f, r.marks, rest);
    }
  }

  // ---------- a handoff balances its accounts ----------

  /** A crash of the validator leaves an emission unsettled. */
  ghost predicate Balances(w: World, f: Account) {
    f == Emissions ==> forall text, schema :: !w.judge(text, schema).Crash?
  }

  lemma OwesEmit(e: Event, next: Proc, f: Account, due: int)
    requires Owes(next, f, due - Entered(f, e))
    ensures Owes(Emit([e], next), f, due)
  {
    assert Bills([e])[1..] == [];
    assert Total(f, Bills([e])) == Entered(f, e);
  }

  lemma OwesRetry(k: Kind, id: Id, next: Proc, f: Account)
    requires k.Retry? && Owes(next, f, 0)
    ensures Owes(Emit([Log(k, id)], next), f, 0)
  {
    OwesEmit(Log(k, id), next, f, 0);
  }

  lemma {:induction false} ProduceOwes(w: World, j: Job, t: Turn, f: Account)
    requires InLoops(w, j, t) && Balances(w, f)
    ensures Owes(Produce(w, j, t), f, 0)
    decreases j.retries - t.retry, w.maxRepairs - t.repair, 2
  {
    if j.agent.budgetTokens - t.spent > 0 {
      var q := Request(j, t);
      forall a | Fits(q, a) ensures Owes(AfterAnswer(q, a, Produced(w, j, t, a)), f, 0) {
        match a
        case Reply(c) =>
          var spent := t.spent + c.tokensIn + c.tokensOut;
          var e := Receipt(q, a).value;
          if spent <= j.agent.budgetTokens {
            JudgedOwes(w, j, t.(spent := spent), c.text, f);
            OwesEmit(Log(HandoffEmitted(t.repair, Clip(c.text)), j.node), Judged(w, j, t.(spent := spent), c.text), f, -Entered(f, e));
          } else {
            OwesEmit(Log(BudgetExceeded(spent, j.agent.budgetTokens), j.node), Done(OverBudget), f, -Entered(f, e));
          }
        case Raised(e) => TryAgainOwes(w, j, t, e, f);
        case _ =>
      }
    }
  }

  /** After HANDOFF_EMITTED, the verdict settles it. */
  lemma {:induction false} JudgedOwes(w: World, j: Job, t: Turn, text: string, f: Account)
    requires InLoops(w, j, t) && Balances(w, f)
    ensures Owes(Judged(w, j, t, text), f, if f == Emissions then -1 else 0)
    decreases j.retries - t.retry, w.maxRepairs - t.repair, 1
  {
    var due := if f == Emissions then -1 else 0;
    match w.judge(text, j.schema)
    case Accept(v) => OwesEmit(Log(HandoffValidated(t.repair, v), j.node), Done(Accepted(v, t.repair)), f, due);
    case Reject(errors) => RejectionOwes(w, j, t, errors, f, due);
    case Crash(m) => TryAgainOwes(w, j, t, OtherError(m), f);
  }

  lemma {:induction false} RejectionOwes(w: World, j: Job, t: Turn, errors: seq<string>, f: Account, due: int)
    requires InLoops(w, j, t) && Balances(w, f) && due == if f == Emissions then -1 else 0
    ensures Owes(Rejection(w, j, t, errors), f, due)
    decreases j.retries - t.retry, w.maxRepairs - t.repair, 0
  {
    var e := Log(HandoffRejected(t.repair, errors), j.node);
    var next := Rejection(w, j, t, errors).next;
    if t.repair == w.maxRepairs {
      OwesEmit(next.batch[0], next.next, f, due - Entered(f, e));
    } else {
      ProduceOwes(w, j, Corrected(j, t, errors), f);
      OwesEmit(next.batch[0], next.next, f, due - Entered(f, e));
    }
    OwesEmit(e, next, f, due);
  }

  lemma {:induction false} TryAgainOwes(w: World, j: Job, t: Turn, e: Error, f: Account)
    requires InLoops(w, j, t) && Balances(w, f)
    ensures Owes(TryAgain(w, j, t, e), f, 0)
    decreases j.retries - t.retry, 0, 0
  {
    if t.retry < j.retries {
      var next := Turn(t.retry + 1, 0, t.spent, None);
      ProduceOwes(w, j, next, f);
      OwesRetry(Retry(t.retry + 1, j.retries), j.node, Produce(w, j, next), f);
    }
  }

  // ---------- and so does every run ----------

  lemma {:induction false} Zeros(n: nat)
    ensures Sum(seq(n, _ => 0)) == 0
  {
    if n > 0 {
      Zeros(n - 1);
      assert seq(n, _ => 0)[1..] == seq(n - 1, _ => 0);
    }
  }

  ghost function Settled0(f: Account): Proc -> bool { (p: Proc) => Owes(p, f, 0) }

  lemma {:induction false} PlainTotal(batch: seq<Event>, f: Account)
    requires forall e | e in batch :: Plain(e.kind)
    ensures Total(f, Bills(batch)) == 0
  {
    if batch != [] {
      assert batch[0] in batch;
      PlainTotal(batch[1..], f);
      assert Bills(batch)[1..] == Bills(batch[1..]);
    }
  }

  lemma OwesInductive(f: Account)
    ensures Inductive(Settled0(f), true)
  {
    var good := Settled0(f);
    forall p: Proc | PlainEmit(p) && good(p.next) ensures good(p) { PlainTotal(p.batch, f); }
    forall p: Proc | GoodAsk(p, good, true) ensures good(p) {
      forall a | Fits(p.q, a) ensures Owes(AfterAnswer(p.q, a, p.k(a)), f, 0) {
        assert good(p.k(a));
      }
    }
    forall p: Proc | GoodFork(p, good) ensures good(p) {
      var debts := seq(|p.kids|, _ => 0);
      Zeros(|p.kids|);
      assert OwesKids(p.kids, p.join, f, 0, debts);
    }
  }

  lemma HandoffsOwe(w: World, f: Account)
    requires Balances(w, f)
    ensures GoodHandoffs(w, Settled0(f))
  {
    forall g: GraphSpec, n: Node, agent: AgentSpec, c: Ctx ensures Owes(Handoff(w, g, n, agent, c), f, 0) {
      if n.maxRetries >= 0 {
        ProduceOwes(w, Job(n.id, agent, c, SchemaFor(g, n, agent), n.maxRetries), Turn(0, 0, 0, None), f);
      }
    }
  }

  lemma Settles(w: World, g: GraphSpec, sched: seq<Step>, out: Outcome, tape: seq<Mark>, f: Account)
    requires Completes(RunWhole(w, g), sched, out, tape) && Balances(w, f)
    ensures Total(f, tape) == 0
  {
    OwesInductive(f);
    HandoffsOwe(w, f);
    WholeGood(w, g, Settled0(f), true);
    OwesRun(RunWhole(w, g), sched, f, 0, out, tape);
  }

  predicate IsCall(k: Kind) { k.ToolResult? }
  predicate IsOverrun(k: Kind) { k.BudgetExceeded? }
  predicate IsEmitted(k: Kind) { k.HandoffEmitted? }
  predicate IsValidated(k: Kind) { k.HandoffValidated? }
  predicate IsRejected(k: Kind) { k.HandoffRejected? }
  predicate IsRepair(k: Kind) { k.RepairAttempt? }
  predicate IsUnrepairable(k: Kind) { k.Unrepairable? }

  /** How many rows of the log are of one kind. */
  function CountRows(tape: seq<Mark>, kind: Kind -> bool): nat {
    if tape == [] then 0 else (if tape[0].Wrote? && kind(tape[0].e.kind) then 1 else 0) + CountRows(tape[1..], kind)
  }

  lemma {:induction false} AccountCounts(tape: seq<Mark>)
    ensures Total(Calls, tape) == CountRows(tape, IsCall) - CountRows(tape, IsEmitted) - CountRows(tape, IsOverrun)
    ensures Total(Emissions, tape) == CountRows(tape, IsEmitted) - CountRows(tape, IsValidated) - CountRows(tape, IsRejected)
    ensures Total(Rejections, tape) == CountRows(tape, IsRejected) - CountRows(tape, IsRepair) - CountRows(tape, IsUnrepairable)
  {
    if tape != [] { AccountCounts(tape[1..]); }
  }

  /** The log of every complete run with no timeout settles its accounts. */
  lemma LogBalances(w: World, g: GraphSpec, sched: seq<Step>, out: Outcome, tape: seq<Mark>)
    requires Completes(RunWhole(w, g), sched, out, tape)
    ensures CountRows(tape, IsCall) == CountRows(tape, IsEmitted) + CountRows(tape, IsOverrun)
    ensures CountRows(tape, IsRejected) == CountRows(tape, IsRepair) + CountRows(tape, IsUnrepairable)
    ensures (forall text, schema :: !w.judge(text, schema).Crash?) ==>
              CountRows(tape, IsEmitted) == CountRows(tape, IsValidated) + CountRows(tape, IsRejected)
  {
    AccountCounts(tape);
    Settles(w, g, sched, out, tape, Calls);
    Settles(w, g, sched, out, tape, Rejections);
    if Balances(w, Emissions) { Settles(w, g, sched, out, tape, Emissions); }
  }
}
