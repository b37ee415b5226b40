// Replay is exact: whatever the interleaving of either run, a replayed run
// ends as the original did, consumes the whole recording and costs nothing.
module ReplayExact {
  import opened Base
  import opened Graph
  import opened Events
  import opened Tasks
  import opened Confluence
  import opened Receipts
  import opened Kernel
  import opened Scopes
  import opened KernelInduction
  import opened Queries
  import opened Store
  import opened Replay
  import opened Schedules
  import opened Unclarified

  // ---------- what the log says about each node's answers ----------

  function ToolOf(agent: Id): Event -> seq<Completion> {
    (e: Event) => if e.kind.ToolResult? && e.kind.agent == agent then [e.kind.c] else []
  }

  lemma {:induction false} ViewWho(tape: seq<Mark>, who: Option<Id>)
    ensures forall m | m in View(tape, who) :: Who(m) == who && Bare(m) == m
    ensures forall m | m in tape && Who(m) == who :: Bare(m) in View(tape, who)
  {
    if tape != [] {
      ViewWho(tape[1..], who);
      assert tape == [tape[0]] + tape[1..];
    }
  }

  lemma {:induction false} ViewFrom(tape: seq<Mark>, who: Option<Id>, m: Mark) returns (x: Mark)
    requires m in View(tape, who)
    ensures x in tape && Bare(x) == m && Who(x) == who
  {
    x := tape[0];
    if !(Who(x) == who && Bare(x) == m) { x := ViewFrom(tape[1..], who, m); }
  }

  ghost predicate Unreplayed(tape: seq<Mark>) {
    forall m | m in tape && m.Wrote? :: !m.bill.replayed
  }

  /** The recordings of one key are a reading of the rows its node kept. */
  lemma RecordingsAreKept(tape: seq<Mark>, who: Option<Id>, agent: Id)
    requires Unreplayed(tape)
    ensures Recordings(LogOf(tape), (who, agent)) == FlatMap(ToolOf(agent), Kept(View(tape, who)))
  {
    var f := ByMark(Recorded((who, agent)));
    ReadingLog(Recorded((who, agent)), tape);
    forall m | m in tape ensures f(m) == if Who(m) == who then f(Bare(m)) else [] { }
    ReadingNode(f, f, tape, who);
    ViewWho(tape, who);
    KeptReading(View(tape, who), who, agent);
  }

  lemma KeptReading(view: seq<Mark>, who: Option<Id>, agent: Id)
    requires forall m | m in view :: Who(m) == who && Bare(m) == m
    ensures FlatMap(ToolOf(agent), Kept(view)) == FlatMap(ByMark(Recorded((who, agent))), view)
  {
    var f := ByMark(Recorded((who, agent)));
    forall m | m in view ensures FlatMap(ToolOf(agent), KeptBy(m)) == f(m) {
      if m.Wrote? { FlatMapOne(ToolOf(agent), m.e); }
    }
    FlatMapCompose(ToolOf(agent), KeptBy, f, view);
  }

  lemma RepliesAreOwed(view: seq<Mark>, agent: Id)
    ensures FlatMap(ToolOf(agent), Owed(view)) == Replies(view, agent)
  {
    forall m | m in view ensures FlatMap(ToolOf(agent), OwedFor(m)) == ReplyTo(agent)(m) {
      if m.Heard? && Receipt(m.q, m.a).Some? { FlatMapOne(ToolOf(agent), Receipt(m.q, m.a).value); }
    }
    FlatMapCompose(ToolOf(agent), OwedFor, ReplyTo(agent), view);
  }

  /** Recordings of one key are what that node's agent was answered. */
  lemma RecordingsAreReplies(tape: seq<Mark>, who: Option<Id>, agent: Id)
    requires Unreplayed(tape) && Kept(View(tape, who)) == Owed(View(tape, who))
    ensures Recordings(LogOf(tape), (who, agent)) == Replies(View(tape, who), agent)
  {
    RecordingsAreKept(tape, who, agent);
    RepliesAreOwed(View(tape, who), agent);
  }

  /** Replies up to a position, the reply there, and the rest. */
  lemma RepliesAt(view: seq<Mark>, t: nat, agent: Id)
    requires t < |view| && view[t].Heard? && view[t].q.Complete? && view[t].q.agent == agent && view[t].a.Reply?
    ensures |Replies(view[..t], agent)| < |Replies(view, agent)|
    ensures Replies(view, agent)[|Replies(view[..t], agent)|] == view[t].a.c
  {
    assert view == view[..t] + [view[t]] + view[t + 1..];
    FlatMapConcat(ReplyTo(agent), view[..t] + [view[t]], view[t + 1..]);
    FlatMapConcat(ReplyTo(agent), view[..t], [view[t]]);
    FlatMapOne(ReplyTo(agent), view[t]);
  }

  // ---------- approvals read from the log ----------

  ghost predicate GrantRow(r: Row, n: Id) {
    r.event == Event(ApprovalGranted, Some(n))
  }

  /** `e.event_type == APPROVAL_GRANTED and e.node_id`: an empty id is falsy. */
  method ReplayApprovals(rows: seq<Row>) returns (approvals: set<Id>)
    ensures ReadsApprovals(approvals, rows)
  {
    approvals := {};
    for i := 0 to |rows|
      invariant ReadsApprovals(approvals, rows[..i])
    {
      assert rows[..i + 1] == rows[..i] + [rows[i]];
      var e := rows[i].event;
      if e.kind.ApprovalGranted? && e.who.Some? && e.who.value != "" {
        approvals := approvals + {e.who.value};
        assert GrantRow(rows[i], e.who.value);
      }
    }
    assert rows[..|rows|] == rows;
  }

  ghost predicate GrantIn(rows: seq<Row>, n: Id) { exists r :: r in rows && GrantRow(r, n) }

  ghost predicate ReadsApprovals(granted: set<Id>, rows: seq<Row>) {
    forall n :: n in granted <==> n != "" && GrantIn(rows, n)
  }

  lemma RowInLog(tape: seq<Mark>, e: Event)
    ensures (exists r :: r in LogOf(tape) && r.event == e) <==> exists m :: m in tape && m.Wrote? && m.e == e
  {
    var entries := FlatMap(EntryOf, tape);
    var rows := LogOf(tape);
    if r :| r in rows && r.event == e {
      var i :| 0 <= i < |rows| && rows[i] == r;
      var x := entries[i];
      assert x in entries;
      FlatMapIn(EntryOf, tape, x);
      var m :| m in tape && x in EntryOf(m);
    }
    if m :| m in tape && m.Wrote? && m.e == e {
      var x := Entry(m.e, m.bill);
      assert x in EntryOf(m);
      FlatMapIn(EntryOf, tape, x);
      var i :| 0 <= i < |entries| && entries[i] == x;
      assert rows[i] in rows && rows[i].event == e;
    }
  }

  lemma KeptInTape(tape: seq<Mark>, n: Id, e: Event)
    requires e.who == Some(n) && IsReceipt(e)
    ensures e in Kept(View(tape, Some(n))) <==> exists m :: m in tape && m.Wrote? && m.e == e
  {
    var view := View(tape, Some(n));
    ViewWho(tape, Some(n));
    FlatMapIn(KeptBy, view, e);
    if m :| m in tape && m.Wrote? && m.e == e {
      assert Bare(m) in view && e in KeptBy(Bare(m));
    }
    if k :| k in view && e in KeptBy(k) {
      var x := ViewFrom(tape, Some(n), k);
    }
  }

  lemma OwedInTape(tape: seq<Mark>, n: Id)
    ensures Event(ApprovalGranted, Some(n)) in Owed(View(tape, Some(n))) <==> Heard(Gate(n), Granted(true)) in tape
  {
    var e, h := Event(ApprovalGranted, Some(n)), Heard(Gate(n), Granted(true));
    var view := View(tape, Some(n));
    ViewWho(tape, Some(n));
    FlatMapIn(OwedFor, view, e);
    if h in tape { assert Bare(h) in view && e in OwedFor(h); }
    if k :| k in view && e in OwedFor(k) {
      assert k == h;
      var x := ViewFrom(tape, Some(n), k);
    }
  }

  /** A grant is logged exactly when the gate was asked and answered yes. */
  lemma GrantLogged(tape: seq<Mark>, n: Id)
    requires Kept(View(tape, Some(n))) == Owed(View(tape, Some(n)))
    ensures GrantIn(LogOf(tape), n) <==> Heard(Gate(n), Granted(true)) in tape
  {
    RowInLog(tape, Event(ApprovalGranted, Some(n)));
    KeptInTape(tape, n, Event(ApprovalGranted, Some(n)));
    OwedInTape(tape, n);
  }

  // ---------- the original run obeys the replay oracle ----------

  /** A complete run whose gates follow one approval set, whose completer never raised, and which is no replay itself. */
  ghost predicate Original(w: World, g: GraphSpec, approvals: set<Id>, sched: seq<Step>, out: Outcome, tape: seq<Mark>) {
    && Completes(RunWhole(w, g), sched, out, tape)
    && Unreplayed(tape)
    && forall m | m in tape && m.Heard? :: !m.a.Raised? && (m.q.Gate? ==> m.a == Granted(m.q.node in approvals))
  }

  /** Well-typed answers: each heard answer fits its query. */
  lemma {:induction false} FitsFire(p: Proc, s: Step)
    requires Fire(p, s).Some?
    ensures forall m | m in Fire(p, s).value.marks && m.Heard? :: Fits(m.q, m.a)
    decreases s
  {
    match s
    case In(i, inner) => FitsFire(p.kids[i].body, inner);
    case _ =>
  }

  lemma {:induction false} FitsRun(p: Proc, sched: seq<Step>)
    requires Exec(p, sched).Some?
    ensures forall m | m in Exec(p, sched).value.tape && m.Heard? :: Fits(m.q, m.a)
    decreases |sched|
  {
    if sched != [] {
      FitsFire(p, sched[0]);
      FitsRun(Fire(p, sched[0]).value.next, sched[1..]);
    }
  }

  /** What replay reads from the original log. */
  ghost predicate Reads(recorded: map<Key, seq<Completion>>, granted: set<Id>, rows: seq<Row>) {
    (forall key :: Queue(recorded, key) == Recordings(rows, key)) && ReadsApprovals(granted, rows)
  }

  lemma GateObeys(w: World, g: GraphSpec, approvals: set<Id>, sched: seq<Step>, out: Outcome, tape: seq<Mark>,
                  granted: set<Id>, m: Mark)
    requires "" !in approvals && Original(w, g, approvals, sched, out, tape) && ReadsApprovals(granted, LogOf(tape))
    requires m in tape && m.Heard? && m.q.Gate?
    ensures m.a == Granted(m.q.node in granted)
  {
    var n := m.q.node;
    WhatWasHeardIsLogged(w, g, sched, out, tape, Some(n));
    GrantLogged(tape, n);
  }

  lemma CallObeys(w: World, g: GraphSpec, approvals: set<Id>, sched: seq<Step>, out: Outcome, tape: seq<Mark>,
                  recorded: map<Key, seq<Completion>>, granted: set<Id>, who: Option<Id>, t: nat)
    requires Original(w, g, approvals, sched, out, tape) && Reads(recorded, granted, LogOf(tape))
    requires t < |View(tape, who)| && View(tape, who)[t].Heard? && View(tape, who)[t].q.Complete?
    ensures View(tape, who)[t].a == ReplayOracle(recorded, granted)(View(tape, who)[t].q, View(tape, who)[..t])
  {
    var view := View(tape, who);
    ViewWho(tape, who);
    WhatWasHeardIsLogged(w, g, sched, out, tape, who);
    assert view[t] in view;
    var m := ViewFrom(tape, who, view[t]);
    FitsRun(RunWhole(w, g), sched);
    var agent := view[t].q.agent;
    RecordingsAreReplies(tape, who, agent);
    RepliesAt(view, t, agent);
    assert Queue(recorded, (who, agent)) == Recordings(LogOf(tape), (who, agent));
  }

  lemma OriginalObeys(w: World, g: GraphSpec, approvals: set<Id>, sched: seq<Step>, out: Outcome, tape: seq<Mark>,
                      recorded: map<Key, seq<Completion>>, granted: set<Id>)
    requires FirstVersion(g) && "" !in approvals && Original(w, g, approvals, sched, out, tape)
    requires Reads(recorded, granted, LogOf(tape))
    ensures Obeys(ReplayOracle(recorded, granted), [], tape)
  {
    var o := ReplayOracle(recorded, granted);
    forall who ensures Follows(o, View([], who), View(tape, who)) {
      var view := View(tape, who);
      ViewWho(tape, who);
      forall t | 0 <= t < |view| && view[t].Heard? ensures view[t].a == o(view[t].q, [] + view[..t]) {
        assert [] + view[..t] == view[..t] && view[t] in view;
        if view[t].q.Complete? {
          CallObeys(w, g, approvals, sched, out, tape, recorded, granted, who, t);
        } else {
          var m := ViewFrom(tape, who, view[t]);
          QueriesProper(w, g, sched, m);
          GateObeys(w, g, approvals, sched, out, tape, granted, m);
        }
      }
    }
  }

  // ---------- what two runs no node can tell apart have in common ----------

  /** A reading of one node's events is the same in both logs. */
  lemma SameReading<A>(f: Entry -> seq<A>, t1: seq<Mark>, t2: seq<Mark>, who: Option<Id>)
    requires Agree(t1, t2)
    requires forall e: Entry :: f(e) == if e.event.who == who then f(Entry(e.event, FREE)) else []
    ensures FlatMap(ByEntry(f), LogOf(t1)) == FlatMap(ByEntry(f), LogOf(t2))
  {
    ReadingLog(f, t1);
    ReadingLog(f, t2);
    ReadingNode(ByMark(f), ByMark(f), t1, who);
    ReadingNode(ByMark(f), ByMark(f), t2, who);
  }

  function Weigh(f: Event -> nat, tape: seq<Mark>): nat {
    if tape == [] then 0 else (if tape[0].Wrote? then f(tape[0].e) else 0) + Weigh(f, tape[1..])
  }

  lemma {:induction false} WeighConcat(f: Event -> nat, a: seq<Mark>, b: seq<Mark>)
    ensures Weigh(f, a + b) == Weigh(f, a) + Weigh(f, b)
  {
    if a == [] {
      assert a + b == b;
    } else {
      WeighConcat(f, a[1..], b);
      assert (a + b)[0] == a[0] && (a + b)[1..] == a[1..] + b;
    }
  }

  lemma {:induction false} WeighLog(f: Event -> nat, tape: seq<Mark>, last: nat)
    ensures SumInts(f, Numbered(FlatMap(EntryOf, tape), last)) == Weigh(f, tape)
  {
    if tape != [] {
      var rest := FlatMap(EntryOf, tape[1..]);
      if tape[0].Wrote? {
        WeighLog(f, tape[1..], last + 1);
        assert Numbered([Entry(tape[0].e, tape[0].bill)] + rest, last)[1..] == Numbered(rest, last + 1);
      } else {
        WeighLog(f, tape[1..], last);
        assert [] + rest == rest;
      }
    }
  }

  /** The first mark of a node, taken out of a tape. */
  lemma {:induction false} FirstOf(tape: seq<Mark>, who: Option<Id>) returns (j: nat)
    requires View(tape, who) != []
    ensures j < |tape| && Who(tape[j]) == who
    ensures View(tape, who) == [Bare(tape[j])] + View(tape[..j] + tape[j + 1..], who)
    ensures forall x | x != who :: View(tape, x) == View(tape[..j] + tape[j + 1..], x)
  {
    if Who(tape[0]) == who {
      j := 0;
      assert tape[..0] + tape[1..] == tape[1..];
    } else {
      var i := FirstOf(tape[1..], who);
      j := i + 1;
      var rest := tape[..j] + tape[j + 1..];
      assert rest[0] == tape[0] && rest[1..] == tape[1..][..i] + tape[1..][i + 1..];
      forall x | x != who ensures View(tape, x) == View(rest, x) {
        assert View(tape[1..], x) == View(rest[1..], x);
      }
    }
  }

  lemma HeadSeen(tape: seq<Mark>)
    requires tape != []
    ensures View(tape, Who(tape[0])) != []
  {
  }

  /** Sums over the log do not depend on the interleaving. */
  lemma {:induction false} SameWeight(f: Event -> nat, t1: seq<Mark>, t2: seq<Mark>)
    requires Agree(t1, t2)
    ensures Weigh(f, t1) == Weigh(f, t2)
    decreases |t1|
  {
    if t1 == [] {
      if t2 != [] {
        HeadSeen(t2);
      }
    } else {
      var who := Who(t1[0]);
      assert View(t1, who) == [Bare(t1[0])] + View(t1[1..], who);
      assert View(t1, who) == View(t2, who);
      var j := FirstOf(t2, who);
      var rest := t2[..j] + t2[j + 1..];
      assert Bare(t1[0]) == Bare(t2[j]) by {
        assert View(t1, who)[0] == View(t2, who)[0];
      }
      forall x ensures View(t1[1..], x) == View(rest, x) {
        assert View(t1, x) == View(t2, x);
        if x == who {
          assert View(t1[1..], x) == View(t1, x)[1..];
          assert View(rest, x) == View(t2, x)[1..];
        }
      }
      SameWeight(f, t1[1..], rest);
      assert t2 == t2[..j] + [t2[j]] + t2[j + 1..];
      WeighConcat(f, t2[..j] + [t2[j]], t2[j + 1..]);
      WeighConcat(f, t2[..j], [t2[j]]);
      WeighConcat(f, t2[..j], t2[j + 1..]);
      assert [t2[j]][1..] == [];
    }
  }

  // ---------- the replay ----------

  lemma {:induction false} BillsFire(p: Proc, s: Step)
    requires Fire(p, s).Some?
    ensures forall m | m in Fire(p, s).value.marks && m.Wrote? && !m.e.kind.ToolResult? :: m.bill == FREE
    decreases s
  {
    match s
    case In(i, inner) => BillsFire(p.kids[i].body, inner);
    case _ =>
  }

  lemma {:induction false} BillsRun(p: Proc, sched: seq<Step>)
    requires Exec(p, sched).Some?
    ensures forall m | m in Exec(p, sched).value.tape && m.Wrote? && !m.e.kind.ToolResult? :: m.bill == FREE
    decreases |sched|
  {
    if sched != [] {
      BillsFire(p, sched[0]);
      BillsRun(Fire(p, sched[0]).value.next, sched[1..]);
    }
  }

  /** What a served tape says about the completer that served it. */
  lemma {:induction false} ServedFacts(s: Server, approvals: set<Id>, tape: seq<Mark>)
    requires ServedTape(s, approvals, tape).Some?
    ensures forall m | m in tape && m.Wrote? && m.e.kind.ToolResult? :: m.bill == SERVED
    ensures (forall m | m in tape && m.Heard? :: !m.a.Raised?) ==>
              ServedTape(s, approvals, tape).value.missing == s.missing
              && ServedTape(s, approvals, tape).value.served == s.served + Calls(tape)
    decreases |tape|
  {
    if tape != [] {
      ServedTail(s, approvals, tape);
      ServedFacts(NextServer(s, tape[0]), approvals, tape[1..]);
    }
  }

  function Calls(tape: seq<Mark>): nat {
    if tape == [] then 0 else (if tape[0].Heard? && tape[0].q.Complete? then 1 else 0) + Calls(tape[1..])
  }

  lemma {:induction false} FreeLog(entries: seq<Entry>, last: nat)
    requires forall e | e in entries :: e.bill.cost == 0.0
    ensures SumCosts(Numbered(entries, last)) == 0.0
  {
    if entries != [] {
      FreeLog(entries[1..], last + 1);
      assert Numbered(entries, last)[1..] == Numbered(entries[1..], last + 1);
      assert entries[0] in entries;
    }
  }

  /** A run served by a LoggedCompleter over what replay read. */
  ghost predicate Replayed(w: World, g: GraphSpec, recorded: map<Key, seq<Completion>>, granted: set<Id>,
                           sched: seq<Step>, out: Outcome, tape: seq<Mark>) {
    && Completes(RunWhole(w, g), sched, out, tape)
    && ServedTape(Server(recorded, 0, 0), granted, tape).Some?
  }

  /** The outcome, the nodes' histories, and a completer that neither misses nor keeps a recording. */
  lemma ReplayAgrees(w: World, g: GraphSpec, approvals: set<Id>,
                     s1: seq<Step>, out1: Outcome, t1: seq<Mark>,
                     recorded: map<Key, seq<Completion>>, granted: set<Id>,
                     s2: seq<Step>, out2: Outcome, t2: seq<Mark>)
    requires FirstVersion(g) && "" !in approvals && Original(w, g, approvals, s1, out1, t1)
    requires Reads(recorded, granted, LogOf(t1)) && Replayed(w, g, recorded, granted, s2, out2, t2)
    ensures out1 == out2 && Agree(t1, t2)
    ensures var end := ServedTape(Server(recorded, 0, 0), granted, t2).value;
      end.missing == 0 && forall n, agent :: Queue(end.q, (Some(n), agent)) == []
  {
    var start, o := Server(recorded, 0, 0), ReplayOracle(recorded, granted);
    OriginalObeys(w, g, approvals, s1, out1, t1, recorded, granted);
    forall n, agent ensures TracksKey(recorded, start, [], n, agent) {
      var queue := Queue(recorded, (Some(n), agent));
      assert queue[0..] == queue;
    }
    ServedObeys(recorded, granted, start, [], t2);
    CleanWhole(w, g);
    Confluent(RunWhole(w, g), GraphScope(g) + {None}, o, [], s1, out1, t1, [], s2, out2, t2);
    var end := ServedTape(start, granted, t2).value;
    assert [] + t2 == t2;
    forall n, agent ensures Queue(end.q, (Some(n), agent)) == [] {
      assert TracksKey(recorded, end, t2, n, agent);
      WhatWasHeardIsLogged(w, g, s1, out1, t1, Some(n));
      RecordingsAreReplies(t1, Some(n), agent);
      assert View(t1, Some(n)) == View(t2, Some(n));
      assert Queue(recorded, (Some(n), agent)) == Recordings(LogOf(t1), (Some(n), agent));
    }
    forall m | m in t2 && m.Heard? ensures !m.a.Raised? {
      SameMarks(t1, t2, m);
    }
    ServedFacts(start, granted, t2);
  }

  lemma SameMarks(t1: seq<Mark>, t2: seq<Mark>, m: Mark)
    requires Agree(t1, t2) && m in t2 && m.Heard?
    ensures m in t1
  {
    ViewWho(t2, Who(m));
    ViewWho(t1, Who(m));
    assert Bare(m) in View(t2, Who(m)) && View(t1, Who(m)) == View(t2, Who(m));
    var x := ViewFrom(t1, Who(m), Bare(m));
  }

  // ---------- final_outputs and the diff ----------

  function Validated(n: Id): Entry -> seq<Value> {
    (e: Entry) => if e.event.kind.HandoffValidated? && e.event.who == Some(n) then [e.event.kind.payload] else []
  }

  /** The payloads one node had validated, oldest first. */
  function Validations(rows: seq<Row>, n: Id): seq<Value> {
    FlatMap(ByEntry(Validated(n)), rows)
  }

  /** The last validated payload of each node. */
  ghost predicate Finals(out: map<Id, Value>, rows: seq<Row>) {
    forall n ::
      && (n in out <==> n != "" && Validations(rows, n) != [])
      && (n in out ==> out[n] == Validations(rows, n)[|Validations(rows, n)| - 1])
  }

  /** What one row adds: a later validated payload replaces an earlier one. */
  function WithFinal(out: map<Id, Value>, e: Event): map<Id, Value> {
    if e.kind.HandoffValidated? && e.who.Some? && e.who.value != "" then out[e.who.value := e.kind.payload] else out
  }

  lemma ValidationsSnoc(rows: seq<Row>, row: Row, more: seq<Row>, n: Id)
    requires more == rows + [row]
    ensures Validations(more, n) == Validations(rows, n) + Validated(n)(Entry(row.event, row.bill))
  {
    FlatMapConcat(ByEntry(Validated(n)), rows, [row]);
    FlatMapOne(ByEntry(Validated(n)), row);
  }

  lemma FinalsSnoc(out: map<Id, Value>, rows: seq<Row>, row: Row, more: seq<Row>)
    requires Finals(out, rows) && more == rows + [row]
    ensures Finals(WithFinal(out, row.event), more)
  {
    hide Validations;
    var out' := WithFinal(out, row.event);
    forall n
      ensures (n in out' <==> n != "" && Validations(more, n) != [])
           && (n in out' ==> out'[n] == Validations(more, n)[|Validations(more, n)| - 1])
    {
      ValidationsSnoc(rows, row, more, n);
    }
  }

  method FinalOutputs(rows: seq<Row>) returns (out: map<Id, Value>)
    ensures Finals(out, rows)
  {
    hide Finals;
    out := map[];
    assert Finals(out, rows[..0]) by { NoFinals(rows[..0]); }
    for i := 0 to |rows|
      invariant Finals(out, rows[..i])
    {
      FinalsSnoc(out, rows[..i], rows[i], rows[..i + 1]);
      var e := rows[i].event;
      if e.kind.HandoffValidated? && e.who.Some? && e.who.value != "" { out := out[e.who.value := e.kind.payload]; }
    }
    assert rows[..|rows|] == rows;
  }

  lemma NoFinals(rows: seq<Row>)
    requires rows == []
    ensures Finals(map[], rows)
  {
  }

  lemma SameFinals(t1: seq<Mark>, t2: seq<Mark>, f1: map<Id, Value>, f2: map<Id, Value>)
    requires Agree(t1, t2) && Finals(f1, LogOf(t1)) && Finals(f2, LogOf(t2))
    ensures f1 == f2
  {
    forall n ensures Validations(LogOf(t1), n) == Validations(LogOf(t2), n) {
      SameValidations(t1, t2, n);
    }
    FinalsUnique(LogOf(t1), LogOf(t2), f1, f2);
  }

  lemma SameValidations(t1: seq<Mark>, t2: seq<Mark>, n: Id)
    requires Agree(t1, t2)
    ensures Validations(LogOf(t1), n) == Validations(LogOf(t2), n)
  {
    hide Agree, LogOf;
    SameReading(Validated(n), t1, t2, Some(n));
  }

  lemma FinalsUnique(rows1: seq<Row>, rows2: seq<Row>, f1: map<Id, Value>, f2: map<Id, Value>)
    requires forall n :: Validations(rows1, n) == Validations(rows2, n)
    requires Finals(f1, rows1) && Finals(f2, rows2)
    ensures f1 == f2
  {
    hide Validations;
    forall n ensures n in f1 <==> n in f2 { assert Validations(rows1, n) == Validations(rows2, n); }
    forall n | n in f1 ensures f1[n] == f2[n] { assert Validations(rows1, n) == Validations(rows2, n); }
  }

  function Get(out: map<Id, Value>, n: Id): Option<Value> { if n in out then Some(out[n]) else None }

  datatype Diff = Diff(identical: bool, nodes: seq<Id>)

  /** `dumps` is json.dumps(..., sort_keys=True) on a payload or None. */
  method BuildDiff(before: map<Id, Value>, after: map<Id, Value>, dumps: Option<Value> -> string) returns (d: Diff)
    ensures forall n :: n in d.nodes <==> n in before.Keys + after.Keys && dumps(Get(before, n)) != dumps(Get(after, n))
    ensures forall i, j | 0 <= i < j < |d.nodes| :: d.nodes[i] != d.nodes[j] && AtMost(d.nodes[i], d.nodes[j])
    ensures d.identical <==> d.nodes == [] && before.Keys == after.Keys
  {
    var ids := SortIds(before.Keys + after.Keys);
    var nodes := [];
    for i := 0 to |ids|
      invariant forall n :: n in nodes <==> n in ids[..i] && dumps(Get(before, n)) != dumps(Get(after, n))
      invariant forall a, b | 0 <= a < b < |nodes| :: nodes[a] != nodes[b] && AtMost(nodes[a], nodes[b])
    {
      assert ids[..i + 1] == ids[..i] + [ids[i]];
      if dumps(Get(before, ids[i])) != dumps(Get(after, ids[i])) {
        assert forall a | 0 <= a < |nodes| :: nodes[a] in ids[..i];
        nodes := nodes + [ids[i]];
      }
    }
    assert ids[..|ids|] == ids;
    d := Diff(nodes == [] && before.Keys == after.Keys, nodes);
  }

  // ---------- what replay restores ----------

  /** The executor replay_run builds is given no clarifications. */
  ghost predicate Deaf(w: World, w': World) { w' == w.(clarifications := None) }

  /** Neither answers some clarify node would pass on, nor a grant to a gate without a name. */
  ghost predicate Restorable(g: GraphSpec, clarifications: Option<Value>, approvals: set<Id>) {
    (clarifications.None? || Unasked(g)) && ("" !in approvals || "" !in AllIds(g))
  }

  lemma NoNamelessGrant(w: World, g: GraphSpec, approvals: set<Id>, sched: seq<Step>, out: Outcome, tape: seq<Mark>)
    requires Original(w, g, approvals, sched, out, tape) && "" !in AllIds(g)
    ensures Original(w, g, approvals - {""}, sched, out, tape)
  {
    hide RunWhole, Unreplayed;
    CleanWhole(w, g);
    TidyExec(RunWhole(w, g), sched, GraphScope(g) + {None});
    forall m | m in tape && m.Heard? && m.q.Gate? ensures m.q.node != "" {
      assert Who(m) in GraphScope(g) + {None};
    }
  }

  /** The replay of a restorable run, whose executor is given no clarifications, agrees with it. */
  lemma ReplayRestores(w: World, w': World, g: GraphSpec, approvals: set<Id>,
                       s1: seq<Step>, out1: Outcome, t1: seq<Mark>,
                       recorded: map<Key, seq<Completion>>, granted: set<Id>,
                       s2: seq<Step>, out2: Outcome, t2: seq<Mark>)
    requires FirstVersion(g) && Original(w, g, approvals, s1, out1, t1)
    requires Deaf(w, w') && Restorable(g, w.clarifications, approvals)
    requires Reads(recorded, granted, LogOf(t1)) && Replayed(w', g, recorded, granted, s2, out2, t2)
    ensures out1 == out2 && Agree(t1, t2) && Completes(RunWhole(w, g), s2, out2, t2)
    ensures var end := ServedTape(Server(recorded, 0, 0), granted, t2).value;
      end.missing == 0 && forall n, agent :: Queue(end.q, (Some(n), agent)) == []
  {
    hide RunWhole, Reads, Unreplayed, Agree;
    if w.clarifications.None? { assert w' == w; } else { SameRuns(w, w', g, s2, out2, t2); }
    if "" in approvals { NoNamelessGrant(w, g, approvals, s1, out1, t1); }
    var named := if "" in approvals then approvals - {""} else approvals;
    ReplayAgrees(w, g, named, s1, out1, t1, recorded, granted, s2, out2, t2);
  }

  /**
   * Replay is exact. For a version-1 graph and a restorable original run with
   * no exception from the completer and no timeout, any replay, however its
   * branches interleave, ends with the same results, failed list and
   * compensated list, the same validated outputs and the same token totals;
   * it consumes every recording, misses none, costs nothing, and leaves a log
   * with nothing to replay.
   */
  lemma ReplayIsExact(w: World, w': World, g: GraphSpec, approvals: set<Id>,
                    s1: seq<Step>, out1: Outcome, t1: seq<Mark>,
                    recorded: map<Key, seq<Completion>>, granted: set<Id>,
                    s2: seq<Step>, out2: Outcome, t2: seq<Mark>,
                    f1: map<Id, Value>, f2: map<Id, Value>)
    requires FirstVersion(g) && Original(w, g, approvals, s1, out1, t1)
    requires Deaf(w, w') && Restorable(g, w.clarifications, approvals)
    requires Reads(recorded, granted, LogOf(t1)) && Replayed(w', g, recorded, granted, s2, out2, t2)
    requires Finals(f1, LogOf(t1)) && Finals(f2, LogOf(t2))
    ensures out1 == out2 && f1 == f2
    ensures SumInts(TokensIn, LogOf(t1)) == SumInts(TokensIn, LogOf(t2))
    ensures SumInts(TokensOut, LogOf(t1)) == SumInts(TokensOut, LogOf(t2))
    ensures SumCosts(LogOf(t2)) == 0.0
    ensures var end := ServedTape(Server(recorded, 0, 0), granted, t2).value;
      end.missing == 0 && end.served == Calls(t2) && forall n, agent :: Queue(end.q, (Some(n), agent)) == []
    ensures forall key :: Recordings(LogOf(t2), key) == []
  {
    ReplayRestores(w, w', g, approvals, s1, out1, t1, recorded, granted, s2, out2, t2);
    SameFinals(t1, t2, f1, f2);
    SameTotals(t1, t2);
    ServedFacts(Server(recorded, 0, 0), granted, t2);
    forall m | m in t2 && m.Heard? ensures !m.a.Raised? { SameMarks(t1, t2, m); }
    BillsRun(RunWhole(w, g), s2);
    ServedLogFree(t2);
  }

  lemma SameTotals(t1: seq<Mark>, t2: seq<Mark>)
    requires Agree(t1, t2)
    ensures SumInts(TokensIn, LogOf(t1)) == SumInts(TokensIn, LogOf(t2))
    ensures SumInts(TokensOut, LogOf(t1)) == SumInts(TokensOut, LogOf(t2))
  {
    SameWeight(TokensIn, t1, t2);
    SameWeight(TokensOut, t1, t2);
    WeighLog(TokensIn, t1, 0);
    WeighLog(TokensIn, t2, 0);
    WeighLog(TokensOut, t1, 0);
    WeighLog(TokensOut, t2, 0);
  }

  lemma ServedLogFree(tape: seq<Mark>)
    requires forall m | m in tape && m.Wrote? :: m.bill == if m.e.kind.ToolResult? then SERVED else FREE
    ensures SumCosts(LogOf(tape)) == 0.0
    ensures forall key :: Recordings(LogOf(tape), key) == []
  {
    var entries := FlatMap(EntryOf, tape);
    forall e | e in entries ensures e.bill.cost == 0.0 && (e.event.kind.ToolResult? ==> e.bill.replayed) {
      FlatMapIn(EntryOf, tape, e);
    }
    FreeLog(entries, 0);
    forall key ensures Recordings(LogOf(tape), key) == [] {
      ReadingEntries(Recorded(key), entries, 0);
      AllEmpty(Recorded(key), entries);
    }
  }

  lemma {:induction false} AllEmpty<A, B>(f: A -> seq<B>, s: seq<A>)
    requires forall x | x in s :: f(x) == []
    ensures FlatMap(f, s) == []
  {
    if s != [] {
      assert s[0] in s;
      AllEmpty(f, s[1..]);
    }
  }

  // ---------- a log other writers have added rows to ----------

  /** What replay reads: completions, grants and validated outputs. */
  predicate Matters(e: Event) {
    e.kind.ToolResult? || e.kind.ApprovalGranted? || e.kind.HandoffValidated?
  }

  function Mattering(): Entry -> seq<Entry> {
    (e: Entry) => if Matters(e.event) then [e] else []
  }

  /** The log shows what the run wrote, apart from rows that replay does not read. */
  ghost predicate Shows(rows: seq<Row>, tape: seq<Mark>) {
    FlatMap(ByEntry(Mattering()), rows) == FlatMap(ByEntry(Mattering()), LogOf(tape))
  }

  /** A reading that skips what does not matter. */
  lemma SkipsOthers<A>(f: Entry -> seq<A>, rows: seq<Row>)
    requires forall e: Entry | !Matters(e.event) :: f(e) == []
    ensures FlatMap(ByEntry(f), rows) == FlatMap(f, FlatMap(ByEntry(Mattering()), rows))
  {
    forall r | r in rows ensures FlatMap(f, ByEntry(Mattering())(r)) == ByEntry(f)(r) {
      var e := Entry(r.event, r.bill);
      if Matters(e.event) { FlatMapOne(f, e); }
    }
    FlatMapCompose(f, ByEntry(Mattering()), ByEntry(f), rows);
  }

  lemma SameReadings<A>(f: Entry -> seq<A>, rows: seq<Row>, tape: seq<Mark>)
    requires Shows(rows, tape) && forall e: Entry | !Matters(e.event) :: f(e) == []
    ensures FlatMap(ByEntry(f), rows) == FlatMap(ByEntry(f), LogOf(tape))
  {
    SkipsOthers(f, rows);
    SkipsOthers(f, LogOf(tape));
  }

  lemma SameGrants(rows: seq<Row>, tape: seq<Mark>, n: Id)
    requires Shows(rows, tape)
    ensures GrantIn(rows, n) <==> GrantIn(LogOf(tape), n)
  {
    GrantsMatter(rows, n);
    GrantsMatter(LogOf(tape), n);
  }

  lemma GrantsMatter(rows: seq<Row>, n: Id)
    ensures GrantIn(rows, n)
      <==> exists e :: e in FlatMap(ByEntry(Mattering()), rows) && e.event == Event(ApprovalGranted, Some(n))
  {
    if r :| r in rows && GrantRow(r, n) {
      var e := Entry(r.event, r.bill);
      assert e in ByEntry(Mattering())(r);
      FlatMapIn(ByEntry(Mattering()), rows, e);
    }
    if e :| e in FlatMap(ByEntry(Mattering()), rows) && e.event == Event(ApprovalGranted, Some(n)) {
      FlatMapIn(ByEntry(Mattering()), rows, e);
      var r :| r in rows && e in ByEntry(Mattering())(r);
    }
  }

  function SumEntries(f: Event -> nat, entries: seq<Entry>): nat {
    if entries == [] then 0 else f(entries[0].event) + SumEntries(f, entries[1..])
  }

  /** Only completions carry tokens. */
  lemma {:induction false} TokensMatter(f: Event -> nat, rows: seq<Row>)
    requires forall e: Event | !Matters(e) :: f(e) == 0
    ensures SumInts(f, rows) == SumEntries(f, FlatMap(ByEntry(Mattering()), rows))
  {
    if rows != [] {
      TokensMatter(f, rows[1..]);
      var e, rest := Entry(rows[0].event, rows[0].bill), FlatMap(ByEntry(Mattering()), rows[1..]);
      if Matters(e.event) { assert ([e] + rest)[1..] == rest; } else { assert [] + rest == rest; }
    }
  }

  /** Whatever replay reads from such a log, it reads from the run's own rows. */
  lemma ReadsFromRun(rows: seq<Row>, tape: seq<Mark>, recorded: map<Key, seq<Completion>>, granted: set<Id>, finals: map<Id, Value>)
    requires Shows(rows, tape)
    ensures Reads(recorded, granted, rows) <==> Reads(recorded, granted, LogOf(tape))
    ensures Finals(finals, rows) <==> Finals(finals, LogOf(tape))
    ensures SumInts(TokensIn, rows) == SumInts(TokensIn, LogOf(tape)) && SumInts(TokensOut, rows) == SumInts(TokensOut, LogOf(tape))
  {
    hide Shows, LogOf;
    forall key: Key ensures Recordings(rows, key) == Recordings(LogOf(tape), key) { SameReadings(Recorded(key), rows, tape); }
    forall n: Id ensures Validations(rows, n) == Validations(LogOf(tape), n) { SameReadings(Validated(n), rows, tape); }
    forall n: Id ensures GrantIn(rows, n) <==> GrantIn(LogOf(tape), n) {
      SameGrants(rows, tape, n);
    }
    SameReads(rows, LogOf(tape), recorded, granted);
    SameFinalsOf(rows, LogOf(tape), finals);
    SameTokens(rows, tape);
  }

  lemma SameTokens(rows: seq<Row>, tape: seq<Mark>)
    requires Shows(rows, tape)
    ensures SumInts(TokensIn, rows) == SumInts(TokensIn, LogOf(tape)) && SumInts(TokensOut, rows) == SumInts(TokensOut, LogOf(tape))
  {
    TokensMatter(TokensIn, rows);
    TokensMatter(TokensIn, LogOf(tape));
    TokensMatter(TokensOut, rows);
    TokensMatter(TokensOut, LogOf(tape));
  }

  lemma SameReads(rows1: seq<Row>, rows2: seq<Row>, recorded: map<Key, seq<Completion>>, granted: set<Id>)
    requires forall key: Key :: Recordings(rows1, key) == Recordings(rows2, key)
    requires forall n: Id :: GrantIn(rows1, n) <==> GrantIn(rows2, n)
    ensures Reads(recorded, granted, rows1) <==> Reads(recorded, granted, rows2)
  {
    hide Recordings, Queue, GrantIn;
  }

  lemma SameFinalsOf(rows1: seq<Row>, rows2: seq<Row>, finals: map<Id, Value>)
    requires forall n: Id :: Validations(rows1, n) == Validations(rows2, n)
    ensures Finals(finals, rows1) <==> Finals(finals, rows2)
  {
    hide Validations;
  }
}
