// What one agent node does: what it puts before its model and what it keeps
// from it, which calls it makes with which allowance and feedback, what every
// row it logs says, and how it ends, across repairs, retries and timeouts.
module Handoffs {
  import opened Base
  import opened Graph
  import opened Events
  import opened Tasks
  import opened Kernel
  import opened Scopes
  import opened Contexts
  import opened NodeRuns

  // ---------- what is promised ----------

  function CallOf(m: Mark): seq<Mark> {
    if m.Heard? && m.q.Complete? then [m] else []
  }

  /** The completed calls of a tape, in order. */
  function CallsIn(tape: seq<Mark>): seq<Mark> { FlatMap(CallOf, tape) }

  function Cost(m: Mark): nat {
    if m.Heard? && m.a.Reply? then m.a.c.tokensIn + m.a.c.tokensOut else 0
  }

  function Spent(cs: seq<Mark>): nat {
    if cs == [] then 0 else Spent(cs[..|cs| - 1]) + Cost(cs[|cs| - 1])
  }

  /** Validator errors of the previous reply; nothing after a raised call or a crashed validator. */
  function FeedbackAfter(w: World, j: Job, m: Mark): Option<Feedback> {
    if m.Heard? && m.a.Reply? && w.judge(m.a.c.text, j.schema).Reject?
    then Some(Feedback(w.judge(m.a.c.text, j.schema).errors, j.schema))
    else None
  }

  predicate AcceptedReply(w: World, j: Job, m: Mark) {
    m.Heard? && m.a.Reply? && w.judge(m.a.c.text, j.schema).Accept?
  }

  /** Call t: room left in the budget, the allowance it leaves, and the previous call's errors. */
  ghost predicate GoodCall(w: World, j: Job, cs: seq<Mark>, t: nat)
    requires t < |cs|
  {
    && cs[t].Heard?
    && Spent(cs[..t]) < j.agent.budgetTokens
    && cs[t].q == Complete(j.node, j.agent.id, j.agent.model, j.context,
                           if t == 0 then None else FeedbackAfter(w, j, cs[t - 1]),
                           Min(j.agent.budgetTokens - Spent(cs[..t]), MAX_COMPLETION_TOKENS))
    && (t > 0 ==> !AcceptedReply(w, j, cs[t - 1]))
  }

  ghost predicate Conversation(w: World, j: Job, cs: seq<Mark>) {
    && (forall t | 0 <= t < |cs| :: GoodCall(w, j, cs, t))
    && |cs| <= (j.retries + 1) * (w.maxRepairs + 1)
  }

  lemma QuotaGrows(r: nat, rs: nat, m: nat)
    requires r <= rs
    ensures r * (m + 1) + m + 1 == (r + 1) * (m + 1) <= (rs + 1) * (m + 1)
  {
    assert (rs - r) * (m + 1) >= 0;
    assert (rs + 1) * (m + 1) == (r + 1) * (m + 1) + (rs - r) * (m + 1);
  }

  // ---------- counting in one node's history ----------

  predicate IsRetry(m: Mark) { m.Wrote? && m.e.kind.Retry? }
  predicate IsRejection(m: Mark) { m.Wrote? && m.e.kind.HandoffRejected? }
  predicate IsCall(m: Mark) { m.Heard? && m.q.Complete? }

  /** HANDOFF_REJECTED rows since the last RETRY, or the start. */
  function Rejections(d: seq<Mark>): nat {
    if d == [] || IsRetry(d[|d| - 1]) then 0 else Rejections(d[..|d| - 1]) + if IsRejection(d[|d| - 1]) then 1 else 0
  }

  /** Completed calls since the last RETRY, or the start. */
  function Called(d: seq<Mark>): nat {
    if d == [] || IsRetry(d[|d| - 1]) then 0 else Called(d[..|d| - 1]) + if IsCall(d[|d| - 1]) then 1 else 0
  }

  function Retries(d: seq<Mark>): nat {
    if d == [] then 0 else Retries(d[..|d| - 1]) + if IsRetry(d[|d| - 1]) then 1 else 0
  }

  /** The sources of INJECTION_BLOCKED rows, in order. */
  function Blocks(d: seq<Mark>): seq<Id> {
    if d == [] then []
    else
      var m := d[|d| - 1];
      Blocks(d[..|d| - 1]) + if m.Wrote? && m.e.kind.InjectionBlocked? then [m.e.kind.source] else []
  }

  /** The keys of the values the screen flags, in order. */
  function Flagged(w: World, c: Ctx): seq<Id> {
    if c == [] then [] else (if w.flagged(c[0].1) then [c[0].0] else []) + Flagged(w, c[1..])
  }

  /** The live memory the node was told of, after its start row. */
  function Live(d: seq<Mark>): Ctx {
    if |d| >= 2 && d[1].Heard? && d[1].a.Memory? then d[1].a.live else []
  }

  /** What memory held, and what it had lost, has been logged. */
  predicate Noted(id: Id, d: seq<Mark>) {
    |d| >= 2 && d[1].Heard? && d[1].a.Memory? ==>
      && (d[1].a.live != [] ==> Wrote(Log(MemoryRead(KeysOf(d[1].a.live)), id), FREE) in d)
      && (d[1].a.gone != [] ==> Wrote(Log(MemoryEvicted(d[1].a.gone), id), FREE) in d)
  }

  lemma NotedOn(id: Id, d: seq<Mark>, m: Mark)
    requires Noted(id, d) && d != [] && !(m.Heard? && m.a.Memory?)
    ensures Noted(id, d + [m])
  {
  }

  /** The last completed call. */
  function LastCall(d: seq<Mark>): Option<Mark> {
    var cs := CallsIn(d);
    if cs == [] then None else Some(cs[|cs| - 1])
  }

  /** What the validator says of the last reply; None if there is none, or it raised. */
  function Judged1(w: World, schema: Schema, d: seq<Mark>): Option<Judgement> {
    match LastCall(d)
    case None => None
    case Some(m) => if m.Heard? && m.a.Reply? then Some(w.judge(m.a.c.text, schema)) else None
  }

  /** The exception of the last call, or of the validator on its reply. */
  function Trouble(w: World, schema: Schema, d: seq<Mark>): Option<Error> {
    match LastCall(d)
    case None => None
    case Some(m) =>
      if m.Heard? && m.a.Raised? then Some(m.a.e)
      else match Judged1(w, schema, d)
        case Some(Crash(text)) => Some(OtherError(text))
        case _ => None
  }

  lemma Snoc(d: seq<Mark>, m: Mark)
    ensures Rejections(d + [m]) == if IsRetry(m) then 0 else Rejections(d) + if IsRejection(m) then 1 else 0
    ensures Called(d + [m]) == if IsRetry(m) then 0 else Called(d) + if IsCall(m) then 1 else 0
    ensures Retries(d + [m]) == Retries(d) + if IsRetry(m) then 1 else 0
    ensures Blocks(d + [m]) == Blocks(d) + if m.Wrote? && m.e.kind.InjectionBlocked? then [m.e.kind.source] else []
    ensures CallsIn(d + [m]) == CallsIn(d) + CallOf(m)
    ensures d != [] && !(m.Heard? && m.a.Memory?) ==> Live(d + [m]) == Live(d)
  {
    assert (d + [m])[..|d|] == d;
    FlatMapConcat(CallOf, d, [m]);
    FlatMapOne(CallOf, m);
  }

  // ---------- what is promised of a history ----------

  /** The context: the node's parents' outputs over live memory, each key once. */
  ghost predicate ContextRight(g: GraphSpec, outputs: map<Id, Value>, id: Id, live: Ctx, c: Ctx) {
    NoDup(KeysOf(live)) ==>
      && NoDup(KeysOf(c))
      && forall x, y :: (x, y) in c <==> if Given(g, outputs, id, x) then y == outputs[x] else (x, y) in live
  }

  /** An agent node, the outputs it starts from, and the context it was put. */
  datatype Scene = Scene(w: World, g: GraphSpec, outputs: map<Id, Value>, n: Node, agent: AgentSpec, c: Ctx)

  function SchemaOf(s: Scene): Schema { SchemaFor(s.g, s.n, s.agent) }

  function JobOf(g: GraphSpec, n: Node, agent: AgentSpec, c: Ctx): Job
    requires n.maxRetries >= 0
  {
    Job(n.id, agent, c, SchemaFor(g, n, agent), n.maxRetries)
  }

  /** What the node logged and asked so far, on this context: nothing flagged reaches the model. */
  ghost predicate TaleOn(s: Scene, d: seq<Mark>) {
    && ContextRight(s.g, s.outputs, s.n.id, Live(d), s.c)
    && Blocks(d) <= Flagged(s.w, s.c)
    && (CallsIn(d) != [] ==>
          Flagged(s.w, s.c) == [] && Noted(s.n.id, d) && s.n.maxRetries >= 0 && Conversation(s.w, JobOf(s.g, s.n, s.agent, s.c), CallsIn(d)))
  }

  /** The text of the last reply was judged so. */
  predicate LastIs(w: World, schema: Schema, d: seq<Mark>, j: Judgement) { Judged1(w, schema, d) == Some(j) }

  /** A mark an agent node adds to its history `f` says what happened before. */
  predicate RowRight(w: World, g: GraphSpec, n: Node, agent: AgentSpec, f: seq<Mark>, m: Mark) {
    var schema := SchemaFor(g, n, agent);
    (f == [] <==> m.Wrote? && m.e.kind.NodeStart?) &&
    match m
    case Heard(q, a) =>
      Fits(q, a) &&
      if q.Complete? then Called(f) == Rejections(f) <= w.maxRepairs && Retries(f) <= n.maxRetries
      else q == Recall(n.id, agent.id, agent.memoryScope != Isolated) && g.version >= 2 && |f| == 1
    case Wrote(e, _) =>
      e.who == Some(n.id) &&
      match e.kind
      case NodeStart => true
      case MemoryEvicted(gone) => gone != [] && |f| == 2 && f[1].Heard? && f[1].a.Memory? && f[1].a.gone == gone
      case MemoryRead(keys) => keys == KeysOf(Live(f)) && keys != []
      case InjectionBlocked(_) => CallsIn(f) == []
      case BlockedEnd => Blocks(f) != []
      case ToolResult(id, c) => id == agent.id && LastCall(f).Some? && LastCall(f).value.Heard? && LastCall(f).value.a == Reply(c)
      case BudgetExceeded(spent, budget) => spent == Spent(CallsIn(f)) > budget == agent.budgetTokens
      case HandoffEmitted(k, raw) =>
        && k == Rejections(f) && Spent(CallsIn(f)) <= agent.budgetTokens
        && LastCall(f).Some? && LastCall(f).value.Heard? && LastCall(f).value.a.Reply?
        && var text := LastCall(f).value.a.c.text; raw == if |text| <= 4000 then text else text[..4000]
      case HandoffValidated(k, v) => k == Rejections(f) && LastIs(w, schema, f, Accept(v))
      case HandoffRejected(k, errors) => k == Rejections(f) && LastIs(w, schema, f, Reject(errors))
      case RepairAttempt(k, of, errors) => k == Rejections(f) <= of == w.maxRepairs && LastIs(w, schema, f, Reject(errors))
      case Unrepairable(calls, errors) =>
        calls == w.maxRepairs + 1 == Rejections(f) == Called(f) && LastIs(w, schema, f, Reject(errors))
      case Retry(r, of) => r == Retries(f) + 1 <= of == n.maxRetries && Called(f) == Rejections(f) + 1 && Trouble(w, schema, f).Some?
      case NodeEnd(ok, k) =>
        k == Rejections(f) && Judged1(w, schema, f).Some? && if ok then Judged1(w, schema, f).value.Accept? else k == w.maxRepairs + 1
      case MemoryWrite(shared) => g.version >= 2 && shared == (agent.memoryScope == SharedRw) && Judged1(w, schema, f).Some?
        && Judged1(w, schema, f).value.Accept?
      case TimedOut => Blocks(f) == []
      case _ => false
  }

  /** At every moment, an agent node's history is right. */
  ghost predicate TaleRight(w: World, g: GraphSpec, outputs: map<Id, Value>, n: Node, d: seq<Mark>) {
    d != [] ==> n.agent.Some? && RowRight(w, g, n, n.agent.value, d[..|d| - 1], d[|d| - 1]) && exists c :: TaleOn(Scene(w, g, outputs, n, n.agent.value, c), d)
  }

  /** Another call is due unless the budget is gone. */
  predicate Pending(s: Scene, d: seq<Mark>) {
    match Judged1(s.w, SchemaOf(s), d)
    case Some(Accept(_)) => false
    case Some(Reject(_)) => Rejections(d) <= s.w.maxRepairs
    case _ => Called(d) == 0
  }

  /** How a handoff ends: nothing else stops it. */
  ghost predicate HandoffEnds(s: Scene, d: seq<Mark>, r: NodeResult) {
    var cs, budget, judged := CallsIn(d), s.agent.budgetTokens, Judged1(s.w, SchemaOf(s), d);
    if s.n.maxRetries < 0 then cs == [] && r.Failed?
    else if cs != [] && Spent(cs) > budget then Wrote(Log(BudgetExceeded(Spent(cs), budget), s.n.id), FREE) in d && r == Failed("budget", false)
    else match judged
      case Some(Accept(v)) =>
        && Wrote(Log(HandoffValidated(Rejections(d), v), s.n.id), FREE) in d && Wrote(Log(NodeEnd(true, Rejections(d)), s.n.id), FREE) in d
        && if v == Null || s.w.leaks(v) then r == Failed("artifact refused", false)
           else r == Passed(Some(v)) && (s.g.version >= 2 ==> Wrote(Log(MemoryWrite(s.agent.memoryScope == SharedRw), s.n.id), FREE) in d)
      case Some(Reject(errors)) =>
        if Rejections(d) > s.w.maxRepairs then
          && Rejections(d) == s.w.maxRepairs + 1 && Wrote(Log(Unrepairable(Rejections(d), errors), s.n.id), FREE) in d
          && Wrote(Log(NodeEnd(false, Rejections(d)), s.n.id), FREE) in d && r == Failed(Joined(errors), false)
        else Spent(cs) == budget && r == Failed("budget", false)
      case _ =>
        if Called(d) > 0 then
          && Trouble(s.w, SchemaOf(s), d).Some? && Retries(d) == s.n.maxRetries
          && r == Failed(ErrorText(Trouble(s.w, SchemaOf(s), d).value), false)
        else Spent(cs) >= budget && r == Failed("budget", false)
  }

  /** How an agent node ends. */
  ghost predicate AgentEnds(w: World, g: GraphSpec, outputs: map<Id, Value>, n: Node, d: seq<Mark>, r: NodeResult) {
    if n.agent.None? then d == [] && r == Skipped
    else
      || (d != [] && d[|d| - 1] == Wrote(Log(TimedOut, n.id), FREE) && Blocks(d) == [] && r == Failed("timeout", false))
      || exists c :: ScreenedEnds(Scene(w, g, outputs, n, n.agent.value, c), d, r)
  }

  /** Something flagged quarantines the node; otherwise its handoff ran. */
  ghost predicate ScreenedEnds(s: Scene, d: seq<Mark>, r: NodeResult) {
    && TaleOn(s, d) && Noted(s.n.id, d) && Blocks(d) == Flagged(s.w, s.c)
    && if Blocks(d) != [] then CallsIn(d) == [] && r == Failed("handoff quarantined", true) else HandoffEnds(s, d, r)
  }

  // ---------- a logic for one node's history ----------

  type Tale = seq<Mark> -> bool
  type Close = (seq<Mark>, Outcome) -> bool

  /** From history `past`, whatever the task logs and hears keeps `ok`, and `fin` holds when it is done. */
  greatest predicate Keeps(p: Proc, past: seq<Mark>, ok: Tale, fin: Close) {
    match p
    case Done(o) => fin(past, o)
    case Emit(batch, next) =>
      |batch| == 1 && ok(past + [Wrote(batch[0], FREE)]) && Keeps(next, past + [Wrote(batch[0], FREE)], ok, fin)
    case Ask(q, k) =>
      forall a | Fits(q, a) :: ok(past + [Heard(q, a)]) && Keeps(AfterAnswer(q, a, k(a)), past + [Heard(q, a)], ok, fin)
    case Note(e, next) => ok(past + [Wrote(e, FREE)]) && Keeps(next, past + [Wrote(e, FREE)], ok, fin)
    case Fork(kids, join) => |kids| == 1 && exists on: Tale, mid: Close :: KeepsKid(kids[0], join, past, ok, fin, on, mid)
  }

  /** The child keeps `on`, which is as good as `ok`, and leaves `mid`. */
  greatest predicate KeepsKid(kid: Kid, join: seq<Outcome> -> Proc, past: seq<Mark>, ok: Tale, fin: Close, on: Tale,
                              mid: Close) {
    && on(past) && (forall later | past <= later && on(later) :: ok(later))
    && Keeps(kid.body, past, on, mid)
    && (kid.late.Some? ==> forall later | past <= later && on(later) :: Keeps(kid.late.value, later, on, mid))
    && forall o, later | past <= later && mid(later, o) :: Keeps(join([o]), later, ok, fin)
  }

  /** Marks without their prices. */
  function Bares(tape: seq<Mark>): (r: seq<Mark>)
    ensures |r| == |tape|
    ensures forall i | 0 <= i < |tape| :: r[i] == Bare(tape[i])
  {
    seq(|tape|, i requires 0 <= i < |tape| => Bare(tape[i]))
  }

  lemma KeepsLeaf(p: Proc, s: Step, past: seq<Mark>, ok: Tale, fin: Close)
    requires Keeps(p, past, ok, fin) && ok(past) && Fire(p, s).Some? && (s.Commit? || s.Hear? || s.Record?)
    ensures |Fire(p, s).value.marks| <= 1 && ok(past + Bares(Fire(p, s).value.marks))
    ensures Keeps(Fire(p, s).value.next, past + Bares(Fire(p, s).value.marks), ok, fin)
  {
    var f := Fire(p, s).value;
    if s.Record? { assert Bares(f.marks) == [Wrote(p.receipt, FREE)]; }
    if s.Commit? { assert Bares(f.marks) == [Wrote(p.batch[0], FREE)]; }
    if s.Hear? { assert Bares(f.marks) == f.marks; }
  }

  lemma KeepsAfter(kid: Kid, join: seq<Outcome> -> Proc, past: seq<Mark>, ok: Tale, fin: Close, on: Tale, mid: Close,
                   o: Outcome)
    requires KeepsKid(kid, join, past, ok, fin, on, mid) && kid.body == Done(o)
    ensures Keeps(join([o]), past, ok, fin)
  {
    assert past <= past && mid(past, o);
  }

  lemma KeepsLate(kid: Kid, join: seq<Outcome> -> Proc, past: seq<Mark>, ok: Tale, fin: Close, on: Tale, mid: Close)
    requires KeepsKid(kid, join, past, ok, fin, on, mid) && kid.late.Some?
    ensures KeepsKid(Kid(kid.scope, kid.late.value, None), join, past, ok, fin, on, mid)
  {
    assert past <= past;
  }

  lemma KeepsOn(kid: Kid, join: seq<Outcome> -> Proc, past: seq<Mark>, now: seq<Mark>, ok: Tale, fin: Close, on: Tale,
                mid: Close, next: Proc)
    requires KeepsKid(kid, join, past, ok, fin, on, mid) && past <= now && on(now) && Keeps(next, now, on, mid)
    ensures KeepsKid(kid.(body := next), join, now, ok, fin, on, mid)
  {
    hide Keeps;
    forall later | now <= later && on(later) ensures ok(later) { assert past <= later; }
    forall later | now <= later && on(later) && kid.late.Some? ensures Keeps(kid.late.value, later, on, mid) { assert past <= later; }
    forall o, later | now <= later && mid(later, o) ensures Keeps(join([o]), later, ok, fin) { assert past <= later; }
  }

  lemma KeepsFork(p: Proc, s: Step, past: seq<Mark>, ok: Tale, fin: Close)
    requires Keeps(p, past, ok, fin) && ok(past) && Fire(p, s).Some? && (s.Join? || s.Cut?)
    ensures Keeps(Fire(p, s).value.next, past, ok, fin)
  {
    var on: Tale, mid: Close :| KeepsKid(p.kids[0], p.join, past, ok, fin, on, mid);
    if s.Join? {
      assert Outs(p.kids) == [p.kids[0].body.out];
      KeepsAfter(p.kids[0], p.join, past, ok, fin, on, mid, p.kids[0].body.out);
    } else {
      var f := Fire(p, s).value;
      KeepsLate(p.kids[0], p.join, past, ok, fin, on, mid);
      assert f.next.kids[0] == Kid(p.kids[0].scope, p.kids[0].late.value, None);
      WrapKeeps(f.next, past, ok, fin, on, mid);
    }
  }

  lemma WrapKeeps(p: Proc, past: seq<Mark>, ok: Tale, fin: Close, on: Tale, mid: Close)
    requires p.Fork? && |p.kids| == 1 && KeepsKid(p.kids[0], p.join, past, ok, fin, on, mid)
    ensures Keeps(p, past, ok, fin)
  {
  }

  /** The only child moves on. */
  lemma KeepsMove(p: Proc, next: Proc, past: seq<Mark>, now: seq<Mark>, ok: Tale, fin: Close, on: Tale, mid: Close)
    requires p.Fork? && |p.kids| == 1 && past <= now && KeepsKid(p.kids[0], p.join, past, ok, fin, on, mid)
    requires on(now) && Keeps(next, now, on, mid)
    ensures Keeps(Fork(p.kids[0 := p.kids[0].(body := next)], p.join), now, ok, fin)
  {
    KeepsOn(p.kids[0], p.join, past, now, ok, fin, on, mid, next);
    WrapKeeps(Fork(p.kids[0 := p.kids[0].(body := next)], p.join), now, ok, fin, on, mid);
  }

  lemma {:induction false} KeepsFire(p: Proc, s: Step, past: seq<Mark>, ok: Tale, fin: Close)
    requires Keeps(p, past, ok, fin) && ok(past) && Fire(p, s).Some?
    ensures |Fire(p, s).value.marks| <= 1 && ok(past + Bares(Fire(p, s).value.marks))
    ensures Keeps(Fire(p, s).value.next, past + Bares(Fire(p, s).value.marks), ok, fin)
    decreases s
  {
    assert past + [] == past;
    match s
    case Join => KeepsFork(p, s, past, ok, fin);
    case Cut(_) => KeepsFork(p, s, past, ok, fin);
    case In(i, inner) =>
      var on: Tale, mid: Close :| KeepsKid(p.kids[0], p.join, past, ok, fin, on, mid);
      KeepsFire(p.kids[0].body, inner, past, on, mid);
      var f := Fire(p.kids[0].body, inner).value;
      assert past <= past + Bares(f.marks);
      KeepsMove(p, f.next, past, past + Bares(f.marks), ok, fin, on, mid);
    case _ => KeepsLeaf(p, s, past, ok, fin);
  }

  /** Every moment of every run is right, and so is its end. */
  lemma {:induction false} KeepsRun(p: Proc, sched: seq<Step>, past: seq<Mark>, ok: Tale, fin: Close)
    requires Keeps(p, past, ok, fin) && ok(past) && Exec(p, sched).Some?
    ensures var r := Exec(p, sched).value;
      && (forall d | past <= d <= past + Bares(r.tape) :: ok(d))
      && (r.proc.Done? ==> fin(past + Bares(r.tape), r.proc.out))
    decreases |sched|
  {
    hide Keeps, Fire;
    var r := Exec(p, sched).value;
    if sched == [] {
      assert past + Bares(r.tape) == past;
      forall d | past <= d <= past ensures ok(d) { assert d == past; }
      if p.Done? { DoneMeans(p.out, past, ok, fin); }
    } else {
      var f := Fire(p, sched[0]).value;
      var now, rest := past + Bares(f.marks), Exec(f.next, sched[1..]).value.tape;
      KeepsFire(p, sched[0], past, ok, fin);
      KeepsRun(f.next, sched[1..], now, ok, fin);
      BaresConcat(past, f.marks, rest);
      hide Exec, Bares;
      forall d | past <= d <= past + Bares(r.tape) ensures ok(d) { PrefixCases(past, Bares(f.marks), Bares(rest), d); }
    }
  }

  lemma DoneMeans(o: Outcome, past: seq<Mark>, ok: Tale, fin: Close)
    requires Keeps(Done(o), past, ok, fin)
    ensures fin(past, o)
  {
  }

  lemma BaresConcat(past: seq<Mark>, a: seq<Mark>, b: seq<Mark>)
    ensures past + Bares(a + b) == (past + Bares(a)) + Bares(b)
  {
  }

  lemma PrefixCases(past: seq<Mark>, m: seq<Mark>, rest: seq<Mark>, d: seq<Mark>)
    requires |m| <= 1 && past <= d <= (past + m) + rest
    ensures d == past || past + m <= d
  {
  }

  // ---------- rows ----------

  /** What a row changes in the accounts. */
  lemma RowAdded(s: Scene, d: seq<Mark>, e: Event)
    requires TaleOn(s, d) && d != [] && !e.kind.InjectionBlocked?
    ensures TaleOn(s, d + [Wrote(e, FREE)]) && (Noted(s.n.id, d) ==> Noted(s.n.id, d + [Wrote(e, FREE)]))
    ensures CallsIn(d + [Wrote(e, FREE)]) == CallsIn(d)
    ensures LastCall(d + [Wrote(e, FREE)]) == LastCall(d) && Blocks(d + [Wrote(e, FREE)]) == Blocks(d)
    ensures !e.kind.Retry? ==> Called(d + [Wrote(e, FREE)]) == Called(d)
    ensures !e.kind.Retry? ==> Rejections(d + [Wrote(e, FREE)]) == Rejections(d) + if e.kind.HandoffRejected? then 1 else 0
    ensures e.kind.Retry? ==> Called(d + [Wrote(e, FREE)]) == 0 == Rejections(d + [Wrote(e, FREE)])
    ensures Retries(d + [Wrote(e, FREE)]) == Retries(d) + if e.kind.Retry? then 1 else 0
    ensures (d + [Wrote(e, FREE)])[..|d|] == d
  {
    hide ContextRight, Flagged, Conversation, JobOf, Noted, Live, Rejections, Called, Retries, Blocks, CallsIn;
    Snoc(d, Wrote(e, FREE));
    if Noted(s.n.id, d) { NotedOn(s.n.id, d, Wrote(e, FREE)); }
    assert CallsIn(d) + [] == CallsIn(d) && Blocks(d) + [] == Blocks(d);
  }

  ghost function AgentOk(w: World, g: GraphSpec, outputs: map<Id, Value>, n: Node): Tale {
    (d: seq<Mark>) => TaleRight(w, g, outputs, n, d)
  }

  ghost function OkOf(s: Scene): Tale { AgentOk(s.w, s.g, s.outputs, s.n) }

  /** During the handoff: and nothing was reported. */
  ghost function OnOf(s: Scene): Tale { (d: seq<Mark>) => TaleRight(s.w, s.g, s.outputs, s.n,
                      d) && Blocks(d) == [] && d != [] }

  /** The node settled, or raised, as it should. */
  ghost predicate Closes(w: World, g: GraphSpec, outputs: map<Id, Value>, n: Node, d: seq<Mark>, o: Outcome) {
    (o.Settled? || o.Threw?) && AgentEnds(w, g, outputs, n, d, ResultOf(o))
  }

  ghost function AgentFin(w: World, g: GraphSpec, outputs: map<Id, Value>, n: Node): Close {
    (d: seq<Mark>, o: Outcome) => Closes(w, g, outputs, n, d, o)
  }

  ghost function FinOf(s: Scene): Close { AgentFin(s.w, s.g, s.outputs, s.n) }

  /** A clean context is before the model. */
  ghost predicate Along(s: Scene, d: seq<Mark>) {
    TaleOn(s, d) && d != [] && Flagged(s.w, s.c) == [] && Noted(s.n.id, d) && s.n.agent == Some(s.agent)
  }

  /** How `_with_retries` ended. */
  ghost predicate HandoffCloses(s: Scene, d: seq<Mark>, o: Outcome) {
    var cs, budget, schema := CallsIn(d), s.agent.budgetTokens, SchemaOf(s);
    match o
    case Accepted(v, k) =>
      && s.n.maxRetries >= 0 && Spent(cs) <= budget && LastIs(s.w, schema, d, Accept(v)) && k == Rejections(d)
      && Wrote(Log(HandoffValidated(k, v), s.n.id), FREE) in d
    case GaveUp(errors, calls) =>
      && s.n.maxRetries >= 0 && Spent(cs) <= budget && LastIs(s.w, schema, d, Reject(errors)) && calls == Rejections(d) == s.w.maxRepairs + 1
      && Wrote(Log(Unrepairable(calls, errors), s.n.id), FREE) in d
    case OverBudget =>
      && s.n.maxRetries >= 0
      && if cs != [] && Spent(cs) > budget then Wrote(Log(BudgetExceeded(Spent(cs), budget), s.n.id), FREE) in d else Spent(cs) >= budget && Pending(s, d)
    case Threw(e) =>
      if s.n.maxRetries < 0 then cs == []
      else Spent(cs) <= budget && Called(d) > 0 && Trouble(s.w, schema, d) == Some(e) && Retries(d) == s.n.maxRetries
    case _ => false
  }

  predicate TimedOutLast(s: Scene, d: seq<Mark>) { d != [] && d[|d| - 1] == Wrote(Log(TimedOut, s.n.id),
                         FREE) && Blocks(d) == [] }

  /** What the awaited handoff leaves, its timeout included. */
  ghost predicate Delivers(s: Scene, d: seq<Mark>, o: Outcome) {
    || (TimedOutLast(s, d) && o == Settled(Failed("timeout", false)))
    || (Along(s, d) && HandoffCloses(s, d, o))
  }

  ghost function MidOf(s: Scene): Close { (d: seq<Mark>, o: Outcome) => Delivers(s, d, o) }

  /** One more row of the handoff. */
  lemma OneRow(s: Scene, d: seq<Mark>, e: Event)
    requires Along(s, d) && !e.kind.InjectionBlocked? && RowRight(s.w, s.g, s.n, s.agent, d, Wrote(e, FREE))
    ensures Along(s, d + [Wrote(e, FREE)]) && TaleRight(s.w, s.g, s.outputs, s.n, d + [Wrote(e, FREE)])
    ensures OkOf(s)(d + [Wrote(e, FREE)]) && OnOf(s)(d + [Wrote(e, FREE)])
  {
    hide RowRight;
    RowAdded(s, d, e);
    var d1 := d + [Wrote(e, FREE)];
    assert d1[..|d1| - 1] == d && d1[|d1| - 1] == Wrote(e, FREE);
    assert s == Scene(s.w, s.g, s.outputs, s.n, s.n.agent.value, s.c);
  }

  /** Nothing was reported of a clean context. */
  lemma AlongClean(s: Scene, d: seq<Mark>)
    requires Along(s, d)
    ensures Blocks(d) == []
  {
    assert Blocks(d) <= [];
  }

  lemma KeepsRow(e: Event, next: Proc, d: seq<Mark>, ok: Tale, fin: Close)
    requires ok(d + [Wrote(e, FREE)]) && Keeps(next, d + [Wrote(e, FREE)], ok, fin)
    ensures Keeps(Emit([e], next), d, ok, fin)
  {
  }

  // ---------- the handoff loops ----------

  /** The loop variables are what the history makes them. */
  ghost predicate Turned(s: Scene, t: Turn, d: seq<Mark>) {
    && Along(s, d) && s.n.maxRetries >= 0
    && var j, cs := JobOf(s.g, s.n, s.agent, s.c), CallsIn(d);
    && Conversation(s.w, j, cs) && t.spent == Spent(cs)
    && t.feedback == (if cs == [] then None else FeedbackAfter(s.w, j, cs[|cs| - 1]))
    && (cs != [] ==> !AcceptedReply(s.w, j, cs[|cs| - 1]))
    && |cs| <= t.retry * (s.w.maxRepairs + 1) + t.repair
    && Rejections(d) == Called(d) == t.repair && Retries(d) == t.retry && (cs != [] ==> t.spent <= s.agent.budgetTokens)
    && (t.repair > 0 ==> Judged1(s.w, SchemaOf(s), d).Some? && Judged1(s.w, SchemaOf(s), d).value.Reject?)
    && InLoops(s.w, j, t)
  }

  /** A call has just ended. */
  ghost predicate Answered1(s: Scene, t: Turn, d: seq<Mark>) {
    && Along(s, d) && s.n.maxRetries >= 0
    && var j, cs := JobOf(s.g, s.n, s.agent, s.c), CallsIn(d);
    && Conversation(s.w, j, cs) && cs != [] && t.spent == Spent(cs) <= s.agent.budgetTokens
    && |cs| <= t.retry * (s.w.maxRepairs + 1) + t.repair + 1
    && Rejections(d) == t.repair && Called(d) == t.repair + 1 && Retries(d) == t.retry && InLoops(s.w, j, t)
  }

  function J(s: Scene): Job requires s.n.maxRetries >= 0 { JobOf(s.g, s.n, s.agent, s.c) }

  /** One more call, made as the loop makes it. */
  lemma OneMore(s: Scene, t: Turn, cs: seq<Mark>, a: Answer)
    requires s.n.maxRetries >= 0 && InLoops(s.w, J(s), t) && Conversation(s.w, J(s), cs)
    requires t.spent == Spent(cs) < s.agent.budgetTokens
    requires t.feedback == (if cs == [] then None else FeedbackAfter(s.w, J(s), cs[|cs| - 1]))
    requires (cs != [] ==> !AcceptedReply(s.w, J(s), cs[|cs| - 1])) && |cs| <= t.retry * (s.w.maxRepairs + 1) + t.repair
    ensures var more := cs + [Heard(Request(J(s), t), a)];
      Conversation(s.w, J(s), more) && |more| <= t.retry * (s.w.maxRepairs + 1) + t.repair + 1
      && Spent(more) == t.spent + Cost(Heard(Request(J(s), t), a))
  {
    var j, m := J(s), Heard(Request(J(s), t), a);
    var more := cs + [m];
    assert more[..|more| - 1] == cs;
    QuotaGrows(t.retry, j.retries, s.w.maxRepairs);
    forall i | 0 <= i < |more| ensures GoodCall(s.w, j, more, i) {
      if i < |cs| {
        assert GoodCall(s.w, j, cs, i);
        assert more[..i] == cs[..i];
      }
    }
  }

  /** The call itself. */
  lemma CallAdded(s: Scene, t: Turn, d: seq<Mark>, a: Answer)
    requires Turned(s, t, d) && t.spent < s.agent.budgetTokens && Fits(Request(J(s), t), a)
    ensures var more := d + [Heard(Request(J(s), t), a)];
      && TaleRight(s.w, s.g, s.outputs, s.n, more) && OnOf(s)(more) && Along(s, more)
      && CallsIn(more) == CallsIn(d) + [Heard(Request(J(s), t), a)] && Conversation(s.w, J(s), CallsIn(more))
      && |CallsIn(more)| <= t.retry * (s.w.maxRepairs + 1) + t.repair + 1
      && Spent(CallsIn(more)) == t.spent + Cost(Heard(Request(J(s), t), a))
      && Rejections(more) == t.repair && Called(more) == t.repair + 1 && Retries(more) == t.retry
  {
    hide ContextRight, Flagged, Conversation, Noted, Live, Rejections, Called, Retries, Blocks, CallsIn, Spent;
    var m := Heard(Request(J(s), t), a);
    var more := d + [m];
    Snoc(d, m);
    NotedOn(s.n.id, d, m);
    OneMore(s, t, CallsIn(d), a);
    assert more[..|d|] == d && Blocks(d) + [] == Blocks(d);
    assert TaleOn(s, more);
    assert s == Scene(s.w, s.g, s.outputs, s.n, s.n.agent.value, s.c);
  }

  lemma {:induction false} ProduceKeeps(s: Scene, t: Turn, d: seq<Mark>)
    requires Turned(s, t, d)
    ensures Keeps(Produce(s.w, J(s), t), d, OnOf(s), MidOf(s))
    decreases s.n.maxRetries - t.retry, s.w.maxRepairs - t.repair, 6
  {
    hide Keeps, TaleRight;
    if s.agent.budgetTokens - t.spent <= 0 {
      NoBudgetLeft(s, t, d);
    } else {
      var q, p := Request(J(s), t), Produce(s.w, J(s), t);
      hide OnOf, MidOf, Turned, Produced, AfterAnswer;
      forall a | Fits(q, a)
        ensures OnOf(s)(d + [Heard(q, a)])
        ensures Keeps(AfterAnswer(q, a, Produced(s.w, J(s), t, a)), d + [Heard(q, a)], OnOf(s), MidOf(s))
      {
        AnswerKeeps(s, t, d, a);
      }
      AskKeeps(p, d, OnOf(s), MidOf(s));
    }
  }

  lemma {:induction false} AnswerKeeps(s: Scene, t: Turn, d: seq<Mark>, a: Answer)
    requires Turned(s, t, d) && t.spent < s.agent.budgetTokens && Fits(Request(J(s), t), a)
    ensures var q := Request(J(s), t);
      && OnOf(s)(d + [Heard(q, a)])
      && Keeps(AfterAnswer(q, a, Produced(s.w, J(s), t, a)), d + [Heard(q, a)], OnOf(s), MidOf(s))
    decreases s.n.maxRetries - t.retry, s.w.maxRepairs - t.repair, 5
  {
    hide Keeps, TaleRight, TaleOn, OnOf, MidOf, Conversation, RowRight;
    CallAdded(s, t, d, a);
    match a
    case Reply(c) => ReplyKeeps(s, t, d, c);
    case Raised(e) =>
      LastRaised(s, d + [Heard(Request(J(s), t), a)], CallsIn(d), Heard(Request(J(s), t), a), e);
      TryAgainKeeps(s, t, d + [Heard(Request(J(s), t), a)], e);
    case _ =>
  }

  lemma LastRaised(s: Scene, d: seq<Mark>, cs: seq<Mark>, m: Mark, e: Error)
    requires CallsIn(d) == cs + [m] && m.Heard? && m.a == Raised(e)
    ensures Trouble(s.w, SchemaOf(s), d) == Some(e) && CallsIn(d) != []
  {
  }

  lemma AskKeeps(p: Proc, d: seq<Mark>, ok: Tale, fin: Close)
    requires p.Ask?
    requires forall a | Fits(p.q, a) :: ok(d + [Heard(p.q, a)]) && Keeps(AfterAnswer(p.q, a, p.k(a)), d + [Heard(p.q, a)], ok, fin)
    ensures Keeps(p, d, ok, fin)
  {
  }

  lemma DoneKeeps(o: Outcome, d: seq<Mark>, ok: Tale, fin: Close)
    requires fin(d, o)
    ensures Keeps(Done(o), d, ok, fin)
  {
  }

  lemma NoBudgetLeft(s: Scene, t: Turn, d: seq<Mark>)
    requires Turned(s, t, d) && t.spent >= s.agent.budgetTokens
    ensures Keeps(Done(OverBudget), d, OnOf(s), MidOf(s))
  {
    assert Pending(s, d);
    DoneKeeps(OverBudget, d, OnOf(s), MidOf(s));
  }

  /** After a reply: its row, and then the overrun or the verdict. */
  lemma {:induction false} ReplyKeeps(s: Scene, t: Turn, d: seq<Mark>, c: Completion)
    requires Turned(s, t, d) && t.spent < s.agent.budgetTokens
    ensures var q := Request(J(s), t);
      Keeps(AfterAnswer(q, Reply(c), Produced(s.w, J(s), t, Reply(c))), d + [Heard(q, Reply(c))], OnOf(s), MidOf(s))
    decreases s.n.maxRetries - t.retry, s.w.maxRepairs - t.repair, 4
  {
    TurnedLoops(s, t, d);
    ReplyRow(s, t, d, c);
    ProducedReply(s, t, c);
    hide *;
    var q, p := Request(J(s), t), Produced(s.w, J(s), t, Reply(c));
    var d1, spent := d + [Heard(q, Reply(c))], t.spent + c.tokensIn + c.tokensOut;
    var e := Log(ToolResult(s.agent.id, c), s.n.id);
    var d2 := d1 + [Wrote(e, FREE)];
    RepliedKeeps(s, t, d2, c, spent);
    NoteKeeps(e, p, d1, OnOf(s), MidOf(s));
  }

  lemma {:induction false} RepliedKeeps(s: Scene, t: Turn, d: seq<Mark>, c: Completion, spent: nat)
    requires Replied(s, t, d, c) && spent == t.spent + c.tokensIn + c.tokensOut
    ensures Keeps(Produced(s.w, J(s), t, Reply(c)), d, OnOf(s), MidOf(s))
    decreases s.n.maxRetries - t.retry, s.w.maxRepairs - t.repair, 3
  {
    hide Keeps, TaleRight, Along, Conversation, RowRight, Turned, OnOf, MidOf;
    if spent > s.agent.budgetTokens {
      OverrunKeeps(s, t, d, c, spent);
    } else {
      var sent := Log(HandoffEmitted(t.repair, Clip(c.text)), s.n.id);
      EmittedRow(s, t, d, c, spent);
      JudgedKeeps(s, t.(spent := spent), d + [Wrote(sent, FREE)], c);
      KeepsRow(sent, Judged(s.w, J(s), t.(spent := spent), c.text), d, OnOf(s), MidOf(s));
    }
  }

  lemma ProducedReply(s: Scene, t: Turn, c: Completion)
    requires s.n.maxRetries >= 0 && InLoops(s.w, J(s), t)
    ensures AfterAnswer(Request(J(s), t), Reply(c), Produced(s.w, J(s), t, Reply(c)))
      == Note(Log(ToolResult(s.agent.id, c), s.n.id), Produced(s.w, J(s), t, Reply(c)))
  {
  }

  lemma TurnedLoops(s: Scene, t: Turn, d: seq<Mark>)
    requires Turned(s, t, d)
    ensures s.n.maxRetries >= 0 && InLoops(s.w, J(s), t)
  {
  }

  /** A reply has been logged; `t` are the loop variables before it. */
  ghost predicate Replied(s: Scene, t: Turn, d: seq<Mark>, c: Completion) {
    && Along(s, d) && s.n.maxRetries >= 0 && Conversation(s.w, J(s), CallsIn(d)) && InLoops(s.w, J(s), t)
    && |CallsIn(d)| <= t.retry * (s.w.maxRepairs + 1) + t.repair + 1 && Spent(CallsIn(d)) == t.spent + c.tokensIn + c.tokensOut
    && Rejections(d) == t.repair && Called(d) == t.repair + 1 && Retries(d) == t.retry
    && LastCall(d).Some? && LastCall(d).value.Heard? && LastCall(d).value.a == Reply(c)
  }

  lemma ReplyRow(s: Scene, t: Turn, d: seq<Mark>, c: Completion)
    requires Turned(s, t, d) && t.spent < s.agent.budgetTokens
    ensures var q := Request(J(s), t);
      var d2 := d + [Heard(q, Reply(c))] + [Wrote(Log(ToolResult(s.agent.id, c), s.n.id), FREE)];
      Replied(s, t, d2, c) && OnOf(s)(d2)
  {
    var q := Request(J(s), t);
    CallAdded(s, t, d, Reply(c));
    TurnedLoops(s, t, d);
    hide TaleRight, Conversation, Turned, TaleOn, Along;
    var d1 := d + [Heard(q, Reply(c))];
    RepliedNow(s, t, d1, CallsIn(d), Heard(q, Reply(c)), c);
    ReceiptRow(s, t, d1, c);
  }

  lemma RepliedNow(s: Scene, t: Turn, d: seq<Mark>, cs: seq<Mark>, m: Mark, c: Completion)
    requires Along(s, d) && s.n.maxRetries >= 0 && InLoops(s.w, J(s), t) && Conversation(s.w, J(s), CallsIn(d))
    requires CallsIn(d) == cs + [m] && m.Heard? && m.a == Reply(c) && Spent(CallsIn(d)) == t.spent + Cost(m)
    requires |CallsIn(d)| <= t.retry * (s.w.maxRepairs + 1) + t.repair + 1
    requires Rejections(d) == t.repair && Called(d) == t.repair + 1 && Retries(d) == t.retry
    ensures Replied(s, t, d, c)
  {
  }

  lemma ReceiptRow(s: Scene, t: Turn, d: seq<Mark>, c: Completion)
    requires Replied(s, t, d, c)
    ensures var d1 := d + [Wrote(Log(ToolResult(s.agent.id, c), s.n.id), FREE)];
      Replied(s, t, d1, c) && OnOf(s)(d1)
  {
    hide Keeps, TaleRight, Conversation, TaleOn, Flagged, Rejections, Called, Retries, Blocks, CallsIn, OnOf;
    var e := Log(ToolResult(s.agent.id, c), s.n.id);
    RowAdded(s, d, e);
    OneRow(s, d, e);
  }

  lemma OverrunKeeps(s: Scene, t: Turn, d: seq<Mark>, c: Completion, spent: nat)
    requires Replied(s, t, d, c) && spent == t.spent + c.tokensIn + c.tokensOut > s.agent.budgetTokens
    ensures Keeps(Emit([Log(BudgetExceeded(spent, s.agent.budgetTokens), s.n.id)], Done(OverBudget)), d, OnOf(s), MidOf(s))
  {
    hide Keeps, TaleRight, Conversation, TaleOn, Flagged, Rejections, Called, Retries, Blocks, CallsIn, OnOf;
    var over := Log(BudgetExceeded(spent, s.agent.budgetTokens), s.n.id);
    RowAdded(s, d, over);
    OneRow(s, d, over);
    DoneKeeps(OverBudget, d + [Wrote(over, FREE)], OnOf(s), MidOf(s));
    KeepsRow(over, Done(OverBudget), d, OnOf(s), MidOf(s));
  }

  lemma EmittedRow(s: Scene, t: Turn, d: seq<Mark>, c: Completion, spent: nat)
    requires Replied(s, t, d, c) && spent == t.spent + c.tokensIn + c.tokensOut <= s.agent.budgetTokens
    ensures var d1 := d + [Wrote(Log(HandoffEmitted(t.repair, Clip(c.text)), s.n.id), FREE)];
      OnOf(s)(d1) && Answered1(s, t.(spent := spent), d1)
      && LastCall(d1).Some? && LastCall(d1).value.Heard? && LastCall(d1).value.a == Reply(c)
  {
    hide Keeps, TaleRight, Conversation, TaleOn, Flagged, Rejections, Called, Retries, Blocks, CallsIn, OnOf;
    var sent := Log(HandoffEmitted(t.repair, Clip(c.text)), s.n.id);
    RowAdded(s, d, sent);
    OneRow(s, d, sent);
  }

  lemma NoteKeeps(e: Event, next: Proc, d: seq<Mark>, ok: Tale, fin: Close)
    requires ok(d + [Wrote(e, FREE)]) && Keeps(next, d + [Wrote(e, FREE)], ok, fin)
    ensures Keeps(Note(e, next), d, ok, fin)
  {
  }

  lemma AcceptKeeps(s: Scene, t: Turn, d: seq<Mark>, v: Value)
    requires Answered1(s, t, d) && LastIs(s.w, SchemaOf(s), d, Accept(v))
    ensures Keeps(Emit([Log(HandoffValidated(t.repair, v), s.n.id)], Done(Accepted(v, t.repair))), d, OnOf(s), MidOf(s))
  {
    hide Keeps, TaleRight, Conversation, TaleOn, Flagged, Rejections, Called, Retries, Blocks, CallsIn, OnOf;
    var e := Log(HandoffValidated(t.repair, v), s.n.id);
    RowAdded(s, d, e);
    OneRow(s, d, e);
    DoneKeeps(Accepted(v, t.repair), d + [Wrote(e, FREE)], OnOf(s), MidOf(s));
    KeepsRow(e, Done(Accepted(v, t.repair)), d, OnOf(s), MidOf(s));
  }

  lemma {:induction false} JudgedKeeps(s: Scene, t: Turn, d: seq<Mark>, c: Completion)
    requires Answered1(s, t, d) && LastCall(d).Some? && LastCall(d).value.Heard? && LastCall(d).value.a == Reply(c)
    ensures Keeps(Judged(s.w, J(s), t, c.text), d, OnOf(s), MidOf(s))
    decreases s.n.maxRetries - t.retry, s.w.maxRepairs - t.repair, 2
  {
    hide Keeps, TaleRight, Along, Conversation, OnOf, MidOf;
    match s.w.judge(c.text, SchemaOf(s))
    case Accept(v) => AcceptKeeps(s, t, d, v);
    case Reject(errors) => RejectionKeeps(s, t, d, errors);
    case Crash(m) => TryAgainKeeps(s, t, d, OtherError(m));
  }

  /** The reply has been logged as rejected. */
  ghost predicate Refused(s: Scene, t: Turn, d: seq<Mark>, errors: seq<string>) {
    && Along(s, d) && s.n.maxRetries >= 0 && Conversation(s.w, J(s), CallsIn(d)) && InLoops(s.w, J(s), t)
    && |CallsIn(d)| <= t.retry * (s.w.maxRepairs + 1) + t.repair + 1 && Spent(CallsIn(d)) == t.spent <= s.agent.budgetTokens
    && Rejections(d) == t.repair + 1 == Called(d) && Retries(d) == t.retry && LastIs(s.w, SchemaOf(s), d, Reject(errors))
  }

  lemma RejectedRow(s: Scene, t: Turn, d: seq<Mark>, errors: seq<string>)
    requires Answered1(s, t, d) && LastIs(s.w, SchemaOf(s), d, Reject(errors))
    ensures var d1 := d + [Wrote(Log(HandoffRejected(t.repair, errors), s.n.id), FREE)];
      Refused(s, t, d1, errors) && OnOf(s)(d1)
  {
    hide Keeps, TaleRight, Conversation, TaleOn, Flagged, Rejections, Called, Retries, Blocks, CallsIn, OnOf;
    var e := Log(HandoffRejected(t.repair, errors), s.n.id);
    RowAdded(s, d, e);
    OneRow(s, d, e);
  }

  lemma GivesUpKeeps(s: Scene, t: Turn, d: seq<Mark>, errors: seq<string>)
    requires Refused(s, t, d, errors) && t.repair == s.w.maxRepairs
    ensures var last := Log(Unrepairable(s.w.maxRepairs + 1, errors), s.n.id);
      Keeps(Emit([last], Done(GaveUp(errors, s.w.maxRepairs + 1))), d, OnOf(s), MidOf(s))
  {
    hide Keeps, TaleRight, Conversation, TaleOn, Flagged, Rejections, Called, Retries, Blocks, CallsIn, OnOf;
    var last := Log(Unrepairable(s.w.maxRepairs + 1, errors), s.n.id);
    RowAdded(s, d, last);
    OneRow(s, d, last);
    DoneKeeps(GaveUp(errors, s.w.maxRepairs + 1), d + [Wrote(last, FREE)], OnOf(s), MidOf(s));
    KeepsRow(last, Done(GaveUp(errors, s.w.maxRepairs + 1)), d, OnOf(s), MidOf(s));
  }

  lemma RepairRow(s: Scene, t: Turn, d: seq<Mark>, errors: seq<string>)
    requires Refused(s, t, d, errors) && t.repair < s.w.maxRepairs
    ensures var d1 := d + [Wrote(Log(RepairAttempt(t.repair + 1, s.w.maxRepairs, errors), s.n.id), FREE)];
      Turned(s, Corrected(J(s), t, errors), d1) && OnOf(s)(d1)
  {
    hide Keeps, TaleRight, Conversation, TaleOn, Flagged, Rejections, Called, Retries, Blocks, CallsIn, OnOf;
    var again := Log(RepairAttempt(t.repair + 1, s.w.maxRepairs, errors), s.n.id);
    RowAdded(s, d, again);
    OneRow(s, d, again);
  }

  lemma {:induction false} RejectionKeeps(s: Scene, t: Turn, d: seq<Mark>, errors: seq<string>)
    requires Answered1(s, t, d) && LastIs(s.w, SchemaOf(s), d, Reject(errors))
    ensures Keeps(Rejection(s.w, J(s), t, errors), d, OnOf(s), MidOf(s))
    decreases s.n.maxRetries - t.retry, s.w.maxRepairs - t.repair, 1
  {
    RejectedRow(s, t, d, errors);
    hide *;
    var e := Log(HandoffRejected(t.repair, errors), s.n.id);
    var d1, p := d + [Wrote(e, FREE)], Rejection(s.w, J(s), t, errors);
    RefusedKeeps(s, t, d1, errors);
    RejectionShape(s, t, errors);
    KeepsRow(e, p.next, d, OnOf(s), MidOf(s));
  }

  lemma RejectionShape(s: Scene, t: Turn, errors: seq<string>)
    requires s.n.maxRetries >= 0 && InLoops(s.w, J(s), t)
    ensures var p := Rejection(s.w, J(s), t, errors);
      p.Emit? && p == Emit([Log(HandoffRejected(t.repair, errors), s.n.id)], p.next)
  {
  }

  lemma {:induction false} RefusedKeeps(s: Scene, t: Turn, d: seq<Mark>, errors: seq<string>)
    requires Refused(s, t, d, errors)
    ensures Keeps(Rejection(s.w, J(s), t, errors).next, d, OnOf(s), MidOf(s))
    decreases s.n.maxRetries - t.retry, s.w.maxRepairs - t.repair, 0
  {
    hide Keeps, TaleRight, Conversation, Along, Turned, OnOf, MidOf;
    if t.repair == s.w.maxRepairs {
      GivesUpKeeps(s, t, d, errors);
    } else {
      var again, turn := Log(RepairAttempt(t.repair + 1, s.w.maxRepairs, errors), s.n.id), Corrected(J(s), t, errors);
      RepairRow(s, t, d, errors);
      ProduceKeeps(s, turn, d + [Wrote(again, FREE)]);
      KeepsRow(again, Produce(s.w, J(s), turn), d, OnOf(s), MidOf(s));
    }
  }

  lemma {:induction false} TryAgainKeeps(s: Scene, t: Turn, d: seq<Mark>, e: Error)
    requires Answered1(s, t, d) && Trouble(s.w, SchemaOf(s), d) == Some(e)
    ensures Keeps(TryAgain(s.w, J(s), t, e), d, OnOf(s), MidOf(s))
    decreases s.n.maxRetries - t.retry, 0, 0
  {
    hide Keeps, TaleRight, Conversation, TaleOn, Flagged, Rejections, Called, Retries, Blocks, CallsIn, OnOf;
    if t.retry == s.n.maxRetries {
      DoneKeeps(Threw(e), d, OnOf(s), MidOf(s));
    } else {
      QuotaGrows(t.retry, s.n.maxRetries, s.w.maxRepairs);
      var row, turn := Log(Retry(t.retry + 1, s.n.maxRetries), s.n.id), Turn(t.retry + 1, 0, t.spent, None);
        RowAdded(s, d, row);
      OneRow(s, d, row);
      ProduceKeeps(s, turn, d + [Wrote(row, FREE)]);
      KeepsRow(row, Produce(s.w, J(s), turn), d, OnOf(s), MidOf(s));
    }
  }

  // ---------- the agent node around it ----------

  /** No handoff has happened yet. */
  ghost predicate Untold(d: seq<Mark>) {
    CallsIn(d) == [] && Rejections(d) == 0 && Called(d) == 0 && Retries(d) == 0
  }

  lemma UntoldRow(d: seq<Mark>, m: Mark)
    requires Untold(d) && !IsRejection(m) && !IsCall(m) && !IsRetry(m)
    ensures Untold(d + [m])
  {
    Snoc(d, m);
  }

  lemma HandoffKeeps(s: Scene, d: seq<Mark>)
    requires Along(s, d) && Untold(d)
    ensures Keeps(Handoff(s.w, s.g, s.n, s.agent, s.c), d, OnOf(s), MidOf(s))
  {
    hide Keeps, TaleOn, Called, Rejections, Retries;
    if s.n.maxRetries < 0 {
      var o := Threw(OtherError("exceptions must derive from BaseException"));
      assert HandoffCloses(s, d, o) && Delivers(s, d, o);
      DoneKeeps(o, d, OnOf(s), MidOf(s));
    } else {
      QuotaGrows(0, s.n.maxRetries, s.w.maxRepairs);
      ProduceKeeps(s, Turn(0, 0, 0, None), d);
    }
  }

  /** The timeout's row, whatever the handoff did before it. */
  lemma LateKeeps(s: Scene, d: seq<Mark>, ok: Tale, fin: Close)
    requires s.n.agent == Some(s.agent) && (exists c :: TaleOn(s.(c := c), d)) && d != [] && Blocks(d) == []
    requires (ok == OkOf(s) || ok == OnOf(s)) && fin(d + [Wrote(Log(TimedOut, s.n.id), FREE)], Settled(Failed("timeout", false)))
    ensures Keeps(Late(s.n), d, ok, fin)
  {
    hide Keeps, TaleOn;
    var e := Log(TimedOut, s.n.id);
    var d1 := d + [Wrote(e, FREE)];
    var c :| TaleOn(s.(c := c), d);
    RowAdded(s.(c := c), d, e);
    assert s.(c := c) == Scene(s.w, s.g, s.outputs, s.n, s.n.agent.value, c);
    assert d1[..|d1| - 1] == d && d1[|d1| - 1] == Wrote(e, FREE);
    assert TaleRight(s.w, s.g, s.outputs, s.n, d1);
    DoneKeeps(Settled(Failed("timeout", false)), d1, ok, fin);
    KeepsRow(e, Done(Settled(Failed("timeout", false))), d, ok, fin);
  }

  lemma TimedOutCloses(s: Scene, d: seq<Mark>)
    requires s.n.agent == Some(s.agent) && TimedOutLast(s, d)
    ensures FinOf(s)(d, Settled(Failed("timeout", false))) && MidOf(s)(d, Settled(Failed("timeout", false)))
  {
  }

  /** The handoff's end decides the node's. */
  lemma EndCloses(s: Scene, d: seq<Mark>, o: Outcome)
    requires Along(s, d) && (o.Settled? || o.Threw?) && HandoffEnds(s, d, ResultOf(o))
    ensures FinOf(s)(d, o)
  {
    assert Blocks(d) <= [] && Blocks(d) == [];
    assert s == Scene(s.w, s.g, s.outputs, s.n, s.n.agent.value, s.c);
    assert ScreenedEnds(s, d, ResultOf(o));
  }

  /** An accepted payload: its rows, and the store's refusal. */
  lemma AcceptedKeeps(s: Scene, d: seq<Mark>, v: Value, k: nat)
    requires Along(s, d) && HandoffCloses(s, d, Accepted(v, k))
    ensures Keeps(AfterHandoff(s.w, s.g, s.n, s.agent, Accepted(v, k)), d, OkOf(s), FinOf(s))
  {
    hide Keeps, TaleRight, Conversation, TaleOn, Flagged, Rejections, Called, Retries, Blocks, CallsIn, OkOf, FinOf, Joined;
    var e, p := Log(NodeEnd(true, k), s.n.id), AfterHandoff(s.w, s.g, s.n, s.agent, Accepted(v, k));
    var d1 := d + [Wrote(e, FREE)];
    RowAdded(s, d, e);
    OneRow(s, d, e);
    if Unstorable(s.w, v) {
      EndCloses(s, d1, Threw(OtherError("artifact refused")));
      DoneKeeps(Threw(OtherError("artifact refused")), d1, OkOf(s), FinOf(s));
    } else if s.g.version >= 2 {
      var m := Log(MemoryWrite(s.agent.memoryScope == SharedRw), s.n.id);
      RowAdded(s, d1, m);
      OneRow(s, d1, m);
      EndCloses(s, d1 + [Wrote(m, FREE)], Settled(Passed(Some(v))));
      DoneKeeps(Settled(Passed(Some(v))), d1 + [Wrote(m, FREE)], OkOf(s), FinOf(s));
      KeepsRow(m, Done(Settled(Passed(Some(v)))), d1, OkOf(s), FinOf(s));
    } else {
      EndCloses(s, d1, Settled(Passed(Some(v))));
      DoneKeeps(Settled(Passed(Some(v))), d1, OkOf(s), FinOf(s));
    }
    KeepsRow(e, p.next, d, OkOf(s), FinOf(s));
  }

  lemma AfterKeeps(s: Scene, d: seq<Mark>, o: Outcome)
    requires MidOf(s)(d, o) && s.n.agent == Some(s.agent)
    ensures Keeps(AfterHandoff(s.w, s.g, s.n, s.agent, o), d, OkOf(s), FinOf(s))
  {
    hide Keeps, TaleRight, Conversation, TaleOn, Flagged, Rejections, Called, Retries, Blocks, CallsIn, OkOf, FinOf, Joined;
    if TimedOutLast(s, d) && o == Settled(Failed("timeout", false)) {
      TimedOutCloses(s, d);
      DoneKeeps(o, d, OkOf(s), FinOf(s));
    } else {
      match o
      case Accepted(v, k) => AcceptedKeeps(s, d, v, k);
      case GaveUp(errors, calls) =>
        var e := Log(NodeEnd(false, calls), s.n.id);
        RowAdded(s, d, e);
        OneRow(s, d, e);
        EndCloses(s, d + [Wrote(e, FREE)], Settled(Failed(Joined(errors), false)));
        DoneKeeps(Settled(Failed(Joined(errors), false)), d + [Wrote(e, FREE)], OkOf(s), FinOf(s));
        KeepsRow(e, Done(Settled(Failed(Joined(errors), false))), d, OkOf(s), FinOf(s));
      case OverBudget =>
        EndCloses(s, d, Settled(Failed("budget", false)));
        DoneKeeps(Settled(Failed("budget", false)), d, OkOf(s), FinOf(s));
      case Threw(e) =>
        if e.Timeout? {
          AlongClean(s, d);
          RowAdded(s, d, Log(TimedOut, s.n.id));
          TimedOutCloses(s, d + [Wrote(Log(TimedOut, s.n.id), FREE)]);
          assert TaleOn(s.(c := s.c), d);
          LateKeeps(s, d, OkOf(s), FinOf(s));
        } else {
          EndCloses(s, d, o);
          DoneKeeps(o, d, OkOf(s), FinOf(s));
        }
      case _ =>
    }
  }

  /** Screening: what has been looked at has been reported. */
  ghost predicate Screening(s: Scene, done: Ctx, left: Ctx, blocked: bool, d: seq<Mark>) {
    && s.c == done + left && d != [] && s.n.agent == Some(s.agent) && Untold(d)
    && ContextRight(s.g, s.outputs, s.n.id, Live(d), s.c)
    && Blocks(d) == Flagged(s.w, done) && (blocked <==> Blocks(d) != [])
  }

  lemma {:induction false} FlaggedConcat(w: World, a: Ctx, b: Ctx)
    ensures Flagged(w, a + b) == Flagged(w, a) + Flagged(w, b)
  {
    if a == [] {
      assert a + b == b;
    } else {
      FlaggedConcat(w, a[1..], b);
      assert (a + b)[1..] == a[1..] + b;
    }
  }

  /** Nothing is flagged exactly if no value is. */
  lemma {:induction false} FlaggedNone(w: World, c: Ctx)
    ensures Flagged(w, c) == [] <==> forall x, y | (x, y) in c :: !w.flagged(y)
  {
    if c != [] {
      FlaggedNone(w, c[1..]);
      assert forall e :: e in c <==> e == c[0] || e in c[1..];
      assert (c[0].0, c[0].1) == c[0];
    }
  }

  lemma ScreeningTale(s: Scene, done: Ctx, left: Ctx, blocked: bool, d: seq<Mark>)
    requires Screening(s, done, left, blocked, d)
    ensures TaleOn(s, d)
  {
    FlaggedConcat(s.w, done, left);
  }

  lemma BlockedKeeps(s: Scene, d: seq<Mark>)
    requires Screening(s, s.c, [], true, d) && Noted(s.n.id, d)
    ensures Keeps(Screen(s.w, s.g, s.n, s.agent, s.c, [], true), d, OkOf(s), FinOf(s))
  {
    hide Keeps, ContextRight, Flagged;
    var e, o := Log(BlockedEnd, s.n.id), Settled(Failed("handoff quarantined", true));
    var d1 := d + [Wrote(e, FREE)];
    ScreeningTale(s, s.c, [], true, d);
    RowAdded(s, d, e);
    assert d1[..|d1| - 1] == d && d1[|d1| - 1] == Wrote(e, FREE);
    assert s == Scene(s.w, s.g, s.outputs, s.n, s.n.agent.value, s.c);
    assert ScreenedEnds(s, d1, ResultOf(o));
    DoneKeeps(o, d1, OkOf(s), FinOf(s));
    KeepsRow(e, Done(o), d, OkOf(s), FinOf(s));
  }

  /** With nothing flagged, a clean context is before the model. */
  lemma CleanAlong(s: Scene, d: seq<Mark>)
    requires Screening(s, s.c, [], false, d) && OkOf(s)(d) && Noted(s.n.id, d)
    ensures Along(s, d) && Untold(d) && OnOf(s)(d)
  {
    hide TaleRight, ContextRight, Noted;
    ScreeningTale(s, s.c, [], false, d);
  }

  lemma CleanLate(s: Scene, d: seq<Mark>)
    requires OnOf(s)(d) && s.n.agent == Some(s.agent)
    ensures Keeps(Late(s.n), d, OnOf(s), MidOf(s))
  {
    hide Keeps, TaleOn, Late;
    assert OkOf(s)(d) by { hide TaleRight; }
    ToldOn(s, d);
    var d1, e := d + [Wrote(Log(TimedOut, s.n.id), FREE)], Log(TimedOut, s.n.id);
    Snoc(d, Wrote(e, FREE));
    TimedOutCloses(s, d1);
    LateKeeps(s, d, OnOf(s), MidOf(s));
  }

  lemma CleanKeeps(s: Scene, d: seq<Mark>)
    requires Screening(s, s.c, [], false, d) && OkOf(s)(d) && Noted(s.n.id, d)
    ensures Keeps(Screen(s.w, s.g, s.n, s.agent, s.c, [], false), d, OkOf(s), FinOf(s))
  {
    CleanAlong(s, d);
    HandoffKeeps(s, d);
    hide Keeps, Flagged, Handoff, AfterHandoff, Late, TaleRight, TaleOn, Untold, Screening, Noted, MidOf, FinOf;
    var p := Screen(s.w, s.g, s.n, s.agent, s.c, [], false);
    forall later | d <= later && OnOf(s)(later) ensures Keeps(Late(s.n), later, OnOf(s), MidOf(s)) { CleanLate(s, later); }
    forall o, later | d <= later && MidOf(s)(later, o) ensures Keeps(p.join([o]), later, OkOf(s), FinOf(s)) { AfterKeeps(s, later, o); }
    ForkKeeps(p, d, OkOf(s), FinOf(s), OnOf(s), MidOf(s));
  }

  lemma ToldOn(s: Scene, d: seq<Mark>)
    requires OkOf(s)(d) && d != [] && s.n.agent == Some(s.agent)
    ensures exists c :: TaleOn(s.(c := c), d)
  {
    hide TaleOn, RowRight;
    var c :| TaleOn(Scene(s.w, s.g, s.outputs, s.n, s.n.agent.value, c), d);
    assert s.(c := c) == Scene(s.w, s.g, s.outputs, s.n, s.n.agent.value, c);
  }

  lemma ForkKeeps(p: Proc, d: seq<Mark>, ok: Tale, fin: Close, on: Tale, mid: Close)
    requires p.Fork? && |p.kids| == 1 && Keeps(p.kids[0].body, d, on, mid) && on(d) && forall later | d <= later && on(later) :: ok(later)
    requires p.kids[0].late.Some? ==> forall later | d <= later && on(later) :: Keeps(p.kids[0].late.value, later, on, mid)
    requires forall o, later | d <= later && mid(later, o) :: Keeps(p.join([o]), later, ok, fin)
    ensures Keeps(p, d, ok, fin)
  {
    hide Keeps;
    assert KeepsKid(p.kids[0], p.join, d, ok, fin, on, mid);
    WrapKeeps(p, d, ok, fin, on, mid);
  }

  lemma {:induction false} ScreenKeeps(s: Scene, done: Ctx, left: Ctx, blocked: bool, d: seq<Mark>)
    requires Screening(s, done, left, blocked, d) && OkOf(s)(d) && Noted(s.n.id, d)
    ensures Keeps(Screen(s.w, s.g, s.n, s.agent, s.c, left, blocked), d, OkOf(s), FinOf(s))
    decreases |left|
  {
    hide Keeps, ContextRight;
    if left == [] {
      assert done == s.c;
      if blocked { BlockedKeeps(s, d); } else { CleanKeeps(s, d); }
    } else {
      var x, rest, bad := left[0], left[1..], s.w.flagged(left[0].1);
      assert s.c == (done + [x]) + rest;
      FlaggedConcat(s.w, done, [x]);
      assert Flagged(s.w, [x]) == if bad then [x.0] else [] by { assert [x][1..] == []; }
      if bad {
        var e := Log(InjectionBlocked(x.0), s.n.id);
        var d1 := d + [Wrote(e, FREE)];
        BlockedRow(s, done, left, blocked, d);
        NotedOn(s.n.id, d, Wrote(e, FREE));
        ScreenKeeps(s, done + [x], rest, true, d1);
        KeepsRow(e, Screen(s.w, s.g, s.n, s.agent, s.c, rest, true), d, OkOf(s), FinOf(s));
      } else {
        assert Blocks(d) + [] == Blocks(d);
        ScreenKeeps(s, done + [x], rest, blocked, d);
      }
    }
  }

  /** One more flagged source has been reported. */
  lemma BlockedRow(s: Scene, done: Ctx, left: Ctx, blocked: bool, d: seq<Mark>)
    requires Screening(s, done, left, blocked, d) && left != [] && s.w.flagged(left[0].1)
    ensures var d1 := d + [Wrote(Log(InjectionBlocked(left[0].0), s.n.id), FREE)];
      OkOf(s)(d1) && Screening(s, done + [left[0]], left[1..], true, d1)
  {
    var m := Wrote(Log(InjectionBlocked(left[0].0), s.n.id), FREE);
    var d1 := d + [m];
    BlockedOne(s, done, left, blocked, d);
    ScreeningTale(s, done + [left[0]], left[1..], true, d1);
    hide Screening, TaleOn;
    assert RowRight(s.w, s.g, s.n, s.agent, d, m) by { ScreeningUntold(s, done, left, blocked, d); }
    RowTells(s, d, m);
  }

  lemma ScreeningUntold(s: Scene, done: Ctx, left: Ctx, blocked: bool, d: seq<Mark>)
    requires Screening(s, done, left, blocked, d)
    ensures CallsIn(d) == []
  {
  }

  /** A right mark on a tale makes a right tale. */
  lemma RowTells(s: Scene, d: seq<Mark>, m: Mark)
    requires RowRight(s.w, s.g, s.n, s.agent, d, m) && TaleOn(s, d + [m]) && s.n.agent == Some(s.agent)
    ensures OkOf(s)(d + [m])
  {
    hide RowRight, TaleOn;
    var d1 := d + [m];
    assert d1[..|d1| - 1] == d && d1[|d1| - 1] == m;
    assert s == Scene(s.w, s.g, s.outputs, s.n, s.n.agent.value, s.c);
  }

  lemma BlockedOne(s: Scene, done: Ctx, left: Ctx, blocked: bool, d: seq<Mark>)
    requires Screening(s, done, left, blocked, d) && left != [] && s.w.flagged(left[0].1)
    ensures Screening(s, done + [left[0]], left[1..], true, d + [Wrote(Log(InjectionBlocked(left[0].0), s.n.id), FREE)])
  {
    hide ContextRight, CallsIn, Called, Rejections, Retries, Blocks;
    var x, m := left[0], Wrote(Log(InjectionBlocked(left[0].0), s.n.id), FREE);
    Snoc(d, m);
    UntoldRow(d, m);
    FlaggedConcat(s.w, done, [x]);
    assert [x][1..] == [] && s.c == (done + [x]) + left[1..];
  }

  /** A row before the screen. */
  lemma EarlyRow(s: Scene, d: seq<Mark>, m: Mark)
    requires s.n.agent == Some(s.agent) && Untold(d) && Blocks(d) == [] && !IsRejection(m) && !IsCall(m) && !IsRetry(m)
    requires (m.Wrote? ==> !m.e.kind.InjectionBlocked? && m.bill == FREE) && RowRight(s.w, s.g, s.n, s.agent, d, m)
    requires ContextRight(s.g, s.outputs, s.n.id, Live(d + [m]), s.c)
    ensures OkOf(s)(d + [m]) && Screening(s, [], s.c, false, d + [m])
  {
    Snoc(d, m);
    UntoldRow(d, m);
    assert [] + s.c == s.c;
    ScreeningTale(s, [], s.c, false, d + [m]);
    RowTells(s, d, m);
  }

  /** Live memory under the parents' outputs. */
  lemma ContextIs(g: GraphSpec, outputs: map<Id, Value>, id: Id, live: Ctx)
    ensures ContextRight(g, outputs, id, live, if live == [] then UpstreamContext(g, outputs, id) else PutAll(live, UpstreamContext(g, outputs, id)))
  {
    var up := UpstreamContext(g, outputs, id);
    UpstreamIs(g, outputs, id);
    if NoDup(KeysOf(live)) {
      KeysIn(up);
      forall x ensures x in KeysOf(up) <==> Given(g, outputs, id, x) {
        if Given(g, outputs, id, x) { assert (x, outputs[x]) in up; }
      }
      PutAllIs(live, up);
    }
  }

  lemma RecalledKeeps(s: Scene, up: Ctx, a: Answer, d: seq<Mark>)
    requires a.Memory? && |d| == 2
    requires d[1] == Heard(Recall(s.n.id, s.agent.id, s.agent.memoryScope != Isolated), a) && OkOf(s)(d)
    requires up == UpstreamContext(s.g, s.outputs, s.n.id) && s.c == if a.live == [] then up else PutAll(a.live, up)
    requires Screening(s, [], s.c, false, d)
    ensures Keeps(Recalled(s.w, s.g, s.n, s.agent, up, a), d, OkOf(s), FinOf(s))
  {
    hide Keeps, ContextRight, Screen;
    var rest := Screen(s.w, s.g, s.n, s.agent, s.c, s.c, false);
    var e, m := Log(MemoryEvicted(a.gone), s.n.id), Log(MemoryRead(KeysOf(a.live)), s.n.id);
    var d1 := if a.gone == [] then d else d + [Wrote(e, FREE)];
    if a.gone != [] { EarlyRow(s, d, Wrote(e, FREE)); }
    if a.live == [] {
      ScreenKeeps(s, [], s.c, false, d1);
    } else {
      EarlyRow(s, d1, Wrote(m, FREE));
      ScreenKeeps(s, [], s.c, false, d1 + [Wrote(m, FREE)]);
      KeepsRow(m, rest, d1, OkOf(s), FinOf(s));
    }
    if a.gone != [] { KeepsRow(e, Recalled(s.w, s.g, s.n, s.agent, up, a).next, d, OkOf(s), FinOf(s)); }
  }

  /** In every run of an agent node's coroutine, each moment is right, and so is its end. */
  lemma AgentKeeps(w: World, g: GraphSpec, outputs: map<Id, Value>, n: Node)
    ensures Keeps(AgentRun(w, g, outputs, n), [], AgentOk(w, g, outputs, n), AgentFin(w, g, outputs, n))
  {
    hide Keeps, ContextRight, Screen, Recalled, UpstreamContext;
    var ok, fin := AgentOk(w, g, outputs, n), AgentFin(w, g, outputs, n);
    if n.agent.None? {
      DoneKeeps(Settled(Skipped), [], ok, fin);
    } else {
      var agent, up, p := n.agent.value, UpstreamContext(g, outputs, n.id), AgentRun(w, g, outputs, n);
      var e, s := Log(NodeStart, n.id), Scene(w, g, outputs, n, agent, up);
      var d := [Wrote(e, FREE)];
      assert [] + d == d;
      ContextIs(g, outputs, n.id, []);
      EarlyRow(s, [], Wrote(e, FREE));
      if g.version >= 2 {
        var q := p.next.q;
        forall a | Fits(q, a) ensures ok(d + [Heard(q, a)]) && Keeps(AfterAnswer(q, a, p.next.k(a)), d + [Heard(q, a)], ok, fin) {
          ContextIs(g, outputs, n.id, a.live);
          var s1 := s.(c := if a.live == [] then up else PutAll(a.live, up));
          EarlyRow(s1, d, Heard(q, a));
          RecalledKeeps(s1, up, a, d + [Heard(q, a)]);
        }
        AskKeeps(p.next, d, ok, fin);
      } else {
        ScreenKeeps(s, [], up, false, d);
      }
      KeepsRow(e, p.next, [], ok, fin);
    }
  }

  // ---------- the theorems ----------

  lemma {:induction false} BaresView(tape: seq<Mark>, x: Id)
    requires Inside(tape, {Some(x)})
    ensures View(tape, Some(x)) == Bares(tape)
  {
    if tape != [] {
      assert tape[0] in tape;
      BaresView(tape[1..], x);
    }
  }

  /** Every moment of every run of an agent node's own coroutine is right, and so is its end. */
  lemma OwnTale(w: World, g: GraphSpec, outputs: map<Id, Value>, n: Node, own: seq<Step>)
    requires Exec(AgentRun(w, g, outputs, n), own).Some?
    ensures var r := Exec(AgentRun(w, g, outputs, n), own).value;
      && (forall d | d <= View(r.tape, Some(n.id)) :: TaleRight(w, g, outputs, n, d))
      && (r.proc.Done? ==> Closes(w, g, outputs, n, View(r.tape, Some(n.id)), r.proc.out))
  {
    var p := AgentRun(w, g, outputs, n);
    CleanAgent(w, g, outputs, n);
    TidyExec(p, own, {Some(n.id)});
    hide AgentRun, TaleRight, Closes;
    var tape := Exec(p, own).value.tape;
    BaresView(tape, n.id);
    AgentKeeps(w, g, outputs, n);
    assert TaleRight(w, g, outputs, n, []) by { NothingYet(w, g, outputs, n); }
    KeepsRun(p, own, [], AgentOk(w, g, outputs, n), AgentFin(w, g, outputs, n));
    assert [] + Bares(tape) == Bares(tape);
    forall d | d <= Bares(tape) ensures TaleRight(w, g, outputs, n, d) { assert [] <= d && AgentOk(w, g, outputs, n)(d); }
  }

  lemma NothingYet(w: World, g: GraphSpec, outputs: map<Id, Value>, n: Node)
    ensures TaleRight(w, g, outputs, n, [])
  {
  }

  /** No call yet, or one conversation on one context. */
  ghost predicate Conducted(w: World, g: GraphSpec, n: Node, cs: seq<Mark>) {
    cs == [] || (n.maxRetries >= 0 && n.agent.Some? && exists c :: Conversation(w, JobOf(g, n, n.agent.value, c), cs))
  }

  /**
   * In every run, with or without timeouts, an agent node's calls form one
   * conversation: each starts with budget left and asks for no more than that;
   * feedback is exactly the validator's errors on the previous reply, and
   * absent after an exception; no call follows an accepted reply; and there
   * are at most (max_retries + 1) * (max_repair_attempts + 1) of them.
   */
  lemma NodeConversation(w: World, g: GraphSpec, sched: seq<Step>, h: GraphSpec, n: Node)
    requires Exec(RunWhole(w, g), sched).Some? && UniqueIds(g) && Within(h, g) && n in h.nodes && RunsAgent(n)
    ensures Conducted(w, h, n, CallsIn(View(Exec(RunWhole(w, g), sched).value.tape, Some(n.id))))
  {
    hide RunWhole, AgentRun, View, RowRight, ContextRight;
    var outputs, own := OwnHistory(w, g, sched, h, n);
    OwnTale(w, h, outputs, n, own);
    var d := View(Exec(AgentRun(w, h, outputs, n), own).value.tape, Some(n.id));
    assert d <= d && TaleRight(w, h, outputs, n, d);
  }

  /** In a conversation, what comes before another call leaves budget. */
  lemma BudgetLeft(w: World, j: Job, cs: seq<Mark>, t: nat)
    requires Conversation(w, j, cs) && t + 1 < |cs|
    ensures Spent(cs[..t + 1]) < j.agent.budgetTokens
  {
    assert GoodCall(w, j, cs, t + 1);
  }

  lemma ConversationBound(w: World, j: Job, cs: seq<Mark>, i: nat)
    requires Conversation(w, j, cs) && cs != []
    requires forall m | m in cs && m.Heard? && m.a.Reply? && m.q.Complete? ::
               m.a.c.tokensIn <= i && m.a.c.tokensOut <= m.q.maxTokens
    ensures Spent(cs) <= j.agent.budgetTokens + i
  {
    var t := |cs| - 1;
    assert GoodCall(w, j, cs, t) && cs[t] in cs;
  }

  /** The calls of one node in a run. */
  ghost function CallsFor(w: World, g: GraphSpec, sched: seq<Step>, n: Node): seq<Mark>
    requires Exec(RunWhole(w, g), sched).Some?
  {
    CallsIn(View(Exec(RunWhole(w, g), sched).value.tape, Some(n.id)))
  }

  /** In no run does a node call again once its calls have used up its budget. */
  lemma NoCallAfterOvershoot(w: World, g: GraphSpec, sched: seq<Step>, h: GraphSpec, n: Node, t: nat)
    requires Exec(RunWhole(w, g), sched).Some? && UniqueIds(g) && Within(h, g) && n in h.nodes && RunsAgent(n)
    requires t + 1 < |CallsFor(w, g, sched, n)|
    ensures n.agent.Some? && Spent(CallsFor(w, g, sched, n)[..t + 1]) < n.agent.value.budgetTokens
  {
    hide RunWhole, UniqueIds, Within, Conversation;
    NodeConversation(w, g, sched, h, n);
    var cs := CallsFor(w, g, sched, n);
    var c :| Conversation(w, JobOf(h, n, n.agent.value, c), cs);
    BudgetLeft(w, JobOf(h, n, n.agent.value, c), cs, t);
  }

  /** Each prompt costs at most `i` tokens, and each reply keeps to its allowance. */
  ghost predicate Modest(cs: seq<Mark>, i: nat) {
    forall m | m in cs && m.Heard? && m.a.Reply? && m.q.Complete? :: m.a.c.tokensIn <= i && m.a.c.tokensOut <= m.q.maxTokens
  }

  /** In every run, a node whose calls are modest spends at most its budget plus one prompt. */
  lemma SpendingBound(w: World, g: GraphSpec, sched: seq<Step>, h: GraphSpec, n: Node, i: nat)
    requires Exec(RunWhole(w, g), sched).Some? && UniqueIds(g) && Within(h, g) && n in h.nodes && RunsAgent(n)
    requires CallsFor(w, g, sched, n) != [] && Modest(CallsFor(w, g, sched, n), i)
    ensures n.agent.Some? && Spent(CallsFor(w, g, sched, n)) <= n.agent.value.budgetTokens + i
  {
    hide RunWhole, UniqueIds, Within, Conversation;
    NodeConversation(w, g, sched, h, n);
    var cs := CallsFor(w, g, sched, n);
    var c :| Conversation(w, JobOf(h, n, n.agent.value, c), cs);
    ConversationBound(w, JobOf(h, n, n.agent.value, c), cs, i);
  }
}
