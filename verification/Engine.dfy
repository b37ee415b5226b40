// backend/engine/executor.py and backend/handoff/repair.py as they are
// written: loops that log, ask and update fields. Each method is proved to
// follow the task tree of module Kernel, and to be answered by nothing but the
// completer in force. Tasks of one level run one after the other here; the
// other interleavings are the business of modules Tasks and Confluence.
module Engine {
  import opened Base
  import opened Graph
  import opened Events
  import opened Tasks
  import opened Kernel
  import opened Journals

  /** `spent = {"tokens": 0}` of one agent node. */
  class Spending {
    var tokens: nat
    constructor ()
      ensures tokens == 0
    {
      tokens := 0;
    }
  }

  /** How `produce` ends: text, BudgetExceeded, or another exception. */
  datatype Attempt = Text(text: string) | Over | Raise(e: Error)

  /** How `repair_loop` ends: its HandoffOutcome, or an exception passing through. */
  datatype LoopEnd = Returned(outcome: Outcome) | BudgetRaised | OtherRaised(e: Error)

  /** One call of `produce(feedback)`. */
  method Produce(w: World, journal: Journal, j: Job, spent: Spending, feedback: Option<Feedback>, ghost t: Turn)
    returns (r: Attempt)
    requires journal.Valid() && InLoops(w, j, t) && t.spent == spent.tokens && t.feedback == feedback
    modifies journal, journal.store, journal.completer, spent
    ensures journal.Valid()
    ensures r.Text? ==> Went(journal.Rules(), Kernel.Produce(w, j, t),
      Emit([Log(HandoffEmitted(t.repair, Clip(r.text)), j.node)], Judged(w, j, t.(spent := spent.tokens), r.text)),
      old(journal.Here()), journal.Here())
    ensures r.Over? ==> Went(journal.Rules(), Kernel.Produce(w, j, t), Done(OverBudget), old(journal.Here()), journal.Here())
    ensures r.Raise? ==> spent.tokens == t.spent
    ensures r.Raise? ==> Went(journal.Rules(), Kernel.Produce(w, j, t), TryAgain(w, j, t, r.e),
      old(journal.Here()), journal.Here())
  {
    hide Went;
    ghost var rules, p, m0 := journal.Rules(), Kernel.Produce(w, j, t), journal.Here();
    WentStart(rules, p, m0);
    var remaining := j.agent.budgetTokens - spent.tokens;
    if remaining <= 0 { return Over; }
    var q := Complete(j.node, j.agent.id, j.agent.model, j.context, feedback, Min(remaining, MAX_COMPLETION_TOKENS));
    var a := journal.AskFor(q, p, p, m0);
    assert p.k(a) == Produced(w, j, t, a);
    match a
    case Reply(c) =>
      var bill := if journal.completer != null then Replay.SERVED else journal.price(c);
      journal.PutReceipt(Log(ToolResult(j.agent.id, c), j.node), bill, p, Produced(w, j, t, a), m0);
      spent.tokens := spent.tokens + c.tokensIn + c.tokensOut;
      if spent.tokens > j.agent.budgetTokens {
        var over := Log(BudgetExceeded(spent.tokens, j.agent.budgetTokens), j.node);
        journal.Put(over, p, Done(OverBudget), m0);
        return Over;
      }
      r := Text(c.text);
    case Raised(e) =>
      r := Raise(e);
  }

  /** A retry starts a new repair loop: only the tokens spent carry over. */
  lemma RetryForgets(w: World, j: Job, t: Turn, e: Error)
    requires InLoops(w, j, t)
    ensures TryAgain(w, j, t, e) == TryAgain(w, j, Turn(t.retry, 0, t.spent, None), e)
  {
  }

  /** One round of repair_loop after `produce`: log the emission, validate, log the verdict. */
  method Validate(w: World, journal: Journal, j: Job, text: string, attempt: nat, ghost t: Turn) returns (v: Judgement)
    requires journal.Valid() && InLoops(w, j, t) && t.repair == attempt
    modifies journal, journal.store
    ensures journal.Valid() && v == w.judge(text, j.schema)
    ensures Went(journal.Rules(), Emit([Log(HandoffEmitted(attempt, Clip(text)), j.node)], Judged(w, j, t, text)),
      match v
      case Accept(payload) => Done(Accepted(payload, attempt))
      case Reject(errors) => Rejection(w, j, t, errors).next
      case Crash(m) => TryAgain(w, j, t, OtherError(m)),
      old(journal.Here()), journal.Here())
  {
    hide Went;
    ghost var rules, m0 := journal.Rules(), journal.Here();
    var emitted := Log(HandoffEmitted(attempt, Clip(text)), j.node);
    ghost var p := Emit([emitted], Judged(w, j, t, text));
    WentStart(rules, p, m0);
    journal.Put(emitted, p, Judged(w, j, t, text), m0);
    v := w.judge(text, j.schema);
    match v
    case Accept(payload) =>
      var row := Log(HandoffValidated(attempt, payload), j.node);
      journal.Put(row, p, Done(Accepted(payload, attempt)), m0);
    case Reject(errors) =>
      var row := Log(HandoffRejected(attempt, errors), j.node);
      journal.Put(row, p, Rejection(w, j, t, errors).next, m0);
    case Crash(m) =>
  }

  /** Where a repair loop's end leaves the task tree. */
  function After(w: World, j: Job, retry: nat, spent: nat, end: LoopEnd): Proc
    requires retry <= j.retries
  {
    match end
    case Returned(outcome) => Done(outcome)
    case BudgetRaised => Done(OverBudget)
    case OtherRaised(e) => TryAgain(w, j, Turn(retry, 0, spent, None), e)
  }

  /** One pass through the body of repair_loop up to the verdict. */
  datatype Pass = Ends(end: LoopEnd) | Refused(errors: seq<string>)

  method Round(w: World, journal: Journal, j: Job, spent: Spending, feedback: Option<Feedback>, attempt: nat, ghost t: Turn)
    returns (r: Pass)
    requires journal.Valid() && InLoops(w, j, t) && t == Turn(t.retry, attempt, spent.tokens, feedback)
    modifies journal, journal.store, journal.completer, spent
    ensures journal.Valid()
    ensures Went(journal.Rules(), Kernel.Produce(w, j, t),
      match r
      case Ends(end) => After(w, j, t.retry, spent.tokens, end)
      case Refused(errors) => Rejection(w, j, t.(spent := spent.tokens), errors).next,
      old(journal.Here()), journal.Here())
  {
    hide Went;
    ghost var rules, p, m0 := journal.Rules(), Kernel.Produce(w, j, t), journal.Here();
    var made := Produce(w, journal, j, spent, feedback, t);
    if made.Over? { return Ends(BudgetRaised); }
    if made.Raise? {
      RetryForgets(w, j, t, made.e);
      return Ends(OtherRaised(made.e));
    }
    ghost var m1, t' := journal.Here(), t.(spent := spent.tokens);
    ghost var mid := Emit([Log(HandoffEmitted(attempt, Clip(made.text)), j.node)], Judged(w, j, t', made.text));
    var v := Validate(w, journal, j, made.text, attempt, t');
    match v
    case Accept(payload) =>
      r := Ends(Returned(Accepted(payload, attempt)));
      WentOn(rules, p, mid, Done(Accepted(payload, attempt)), m0, m1, journal.Here());
    case Crash(m) =>
      r := Ends(OtherRaised(OtherError(m)));
      RetryForgets(w, j, t', OtherError(m));
      WentOn(rules, p, mid, TryAgain(w, j, t', OtherError(m)), m0, m1, journal.Here());
    case Reject(errors) =>
      r := Refused(errors);
      WentOn(rules, p, mid, Rejection(w, j, t', errors).next, m0, m1, journal.Here());
  }

  /** repair_loop: emit, validate, and give the errors back, up to max_repair_attempts times. */
  method RepairLoop(w: World, journal: Journal, j: Job, spent: Spending, ghost retry: nat) returns (r: LoopEnd)
    requires journal.Valid() && retry <= j.retries
    modifies journal, journal.store, journal.completer, spent
    ensures journal.Valid()
    ensures Went(journal.Rules(), Kernel.Produce(w, j, Turn(retry, 0, old(spent.tokens), None)),
      After(w, j, retry, spent.tokens, r), old(journal.Here()), journal.Here())
  {
    hide Went;
    ghost var rules, m0 := journal.Rules(), journal.Here();
    ghost var p := Kernel.Produce(w, j, Turn(retry, 0, spent.tokens, None));
    WentStart(rules, p, m0);
    var feedback: Option<Feedback> := None;
    var errors: seq<string> := [];
    var attempt := 0;
    while attempt < w.maxRepairs + 1
      invariant attempt <= w.maxRepairs && journal.Valid()
      invariant Went(rules, p, Kernel.Produce(w, j, Turn(retry, attempt, spent.tokens, feedback)), m0, journal.Here())
    {
      ghost var t, m1 := Turn(retry, attempt, spent.tokens, feedback), journal.Here();
      var pass := Round(w, journal, j, spent, feedback, attempt, t);
      if pass.Ends? {
        WentOn(rules, p, Kernel.Produce(w, j, t), After(w, j, retry, spent.tokens, pass.end), m0, m1, journal.Here());
        return pass.end;
      }
      errors := pass.errors;
      ghost var t' := t.(spent := spent.tokens);
      WentOn(rules, p, Kernel.Produce(w, j, t), Rejection(w, j, t', errors).next, m0, m1, journal.Here());
      if attempt == w.maxRepairs { break; }
      feedback := Some(Feedback(errors, j.schema));
      var row := Log(RepairAttempt(attempt + 1, w.maxRepairs, errors), j.node);
      journal.Put(row, p, Kernel.Produce(w, j, Corrected(j, t', errors)), m0);
      attempt := attempt + 1;
    }
    var last := Log(Unrepairable(w.maxRepairs + 1, errors), j.node);
    journal.Put(last, p, Done(GaveUp(errors, w.maxRepairs + 1)), m0);
    r := Returned(GaveUp(errors, w.maxRepairs + 1));
  }

  /** `_with_retries`: repair fixes shape, retry covers a raised call. A negative max_retries makes no attempt. */
  method WithRetries(w: World, journal: Journal, g: GraphSpec, n: Node, agent: AgentSpec, c: Ctx) returns (o: Outcome)
    requires journal.Valid()
    modifies journal, journal.store, journal.completer
    ensures journal.Valid()
    ensures Went(journal.Rules(), Handoff(w, g, n, agent, c), Done(o), old(journal.Here()), journal.Here())
  {
    hide Went;
    ghost var rules, p, m0 := journal.Rules(), Handoff(w, g, n, agent, c), journal.Here();
    WentStart(rules, p, m0);
    if n.maxRetries < 0 { return Threw(OtherError("exceptions must derive from BaseException")); }
    var j := Job(n.id, agent, c, SchemaFor(g, n, agent), n.maxRetries);
    var spent := new Spending();
    var attempt := 0;
    while true
      invariant attempt <= j.retries && journal.Valid()
      invariant Went(rules, p, Kernel.Produce(w, j, Turn(attempt, 0, spent.tokens, None)), m0, journal.Here())
      decreases j.retries - attempt
    {
      ghost var q, m1 := Kernel.Produce(w, j, Turn(attempt, 0, spent.tokens, None)), journal.Here();
      var end := RepairLoop(w, journal, j, spent, attempt);
      WentOn(rules, p, q, After(w, j, attempt, spent.tokens, end), m0, m1, journal.Here());
      match end {
        case Returned(outcome) => return outcome;
        case BudgetRaised => return OverBudget;
        case OtherRaised(e) =>
          if attempt == n.maxRetries { return Threw(e); }
          var row := Log(Kind.Retry(attempt + 1, n.maxRetries), n.id);
          journal.Put(row, p, Kernel.Produce(w, j, Turn(attempt + 1, 0, spent.tokens, None)), m0);
          attempt := attempt + 1;
      }
    }
  }
}
