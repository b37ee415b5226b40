// What an executor writes through and asks through: one run of the event
// store, and a completer that is either live or a recording.
module Journals {
  import opened Base
  import opened Events
  import opened Tasks
  import opened Confluence
  import opened Machine
  import opened Store
  import opened Replay

  /** `node.id in self.approvals` decides gates; everything else is the world's. */
  function Gated(live: Oracle, approvals: set<Id>): Oracle {
    (q: Query, past: seq<Mark>) => if q.Gate? then Granted(q.node in approvals) else live(q, past)
  }

  ghost predicate Sensible(live: Oracle) {
    forall q, past :: Fits(q, live(q, past))
  }

  ghost predicate NoRecall(tape: seq<Mark>) {
    forall m | m in tape && m.Heard? :: !m.q.Recall?
  }

  /** Who answers: the world given each node's past, or a recording; which gates are open; whose log it is; what a call costs. */
  datatype Terms = Terms(live: Oracle, logged: bool, approvals: set<Id>, run: Id, price: Completion -> Bill)

  /** A served completion costs nothing, a live one its price, and no other row costs anything. */
  function BillOf(r: Terms, e: Event): Bill {
    if !e.kind.ToolResult? then FREE else if r.logged then SERVED else r.price(e.kind.c)
  }

  ghost predicate Billed(r: Terms, tape: seq<Mark>) {
    forall m | m in tape && m.Wrote? :: m.bill == BillOf(r, m.e)
  }

  /** What has been logged and heard, how far the recording has been served, and the table. */
  datatype Moment = Moment(tape: seq<Mark>, server: Server, table: seq<Stored>)

  /** Rows were added for one run only, and none changed. */
  ghost predicate Grown(run: Id, before: seq<Stored>, after: seq<Stored>) {
    before <= after && forall x | x != run :: SameRows(before, after, x)
  }

  lemma GrownOn(run: Id, a: seq<Stored>, b: seq<Stored>, c: seq<Stored>)
    requires Grown(run, a, b) && Grown(run, b, c)
    ensures Grown(run, a, c)
  {
    forall x | x != run ensures SameRows(a, c, x) { assert SameRows(a, b, x) && SameRows(b, c, x); }
  }

  /** Everything asked between two moments was answered by the completer in force and billed, and no other run was touched. */
  ghost predicate Answered(r: Terms, m0: Moment, m1: Moment) {
    && m0.tape <= m1.tape && Billed(r, m1.tape[|m0.tape|..])
    && (!r.logged ==> Obeys(Gated(r.live, r.approvals), m0.tape, m1.tape[|m0.tape|..]))
    && (r.logged && NoRecall(m1.tape[|m0.tape|..]) ==>
          ServedTape(m0.server, r.approvals, m1.tape[|m0.tape|..]) == Some(m1.server))
    && Grown(r.run, m0.table, m1.table)
  }

  lemma {:induction false} ServedConcat(s: Server, approvals: set<Id>, a: seq<Mark>, b: seq<Mark>)
    requires ServedTape(s, approvals, a).Some?
    ensures ServedTape(s, approvals, a + b) == ServedTape(ServedTape(s, approvals, a).value, approvals, b)
    decreases |a|
  {
    if a == [] {
      assert a + b == b;
    } else {
      ServedTail(s, approvals, a);
      ServedConcat(NextServer(s, a[0]), approvals, a[1..], b);
      assert (a + b)[0] == a[0] && (a + b)[1..] == a[1..] + b;
    }
  }

  lemma AnsweredStart(r: Terms, m: Moment)
    ensures Answered(r, m, m)
  {
    assert m.tape[|m.tape|..] == [];
    NoneHeardObeys(Gated(r.live, r.approvals), m.tape, []);
  }

  lemma AnsweredOn(r: Terms, m0: Moment, m1: Moment, m2: Moment)
    requires Answered(r, m0, m1) && Answered(r, m1, m2)
    ensures Answered(r, m0, m2)
  {
    var a, b := m1.tape[|m0.tape|..], m2.tape[|m1.tape|..];
    assert m2.tape[|m0.tape|..] == a + b && m0.tape + a == m1.tape;
    GrownOn(r.run, m0.table, m1.table, m2.table);
    if !r.logged {
      ObeysConcat(Gated(r.live, r.approvals), m0.tape, a, b);
    } else if NoRecall(a + b) {
      ServedConcat(m0.server, r.approvals, a, b);
    }
  }

  lemma AnsweredWrites(r: Terms, m0: Moment, m1: Moment, added: seq<Mark>)
    requires (forall x | x in added :: x.Wrote?) && Billed(r, added)
    requires m1.tape == m0.tape + added && m1.server == m0.server && Grown(r.run, m0.table, m1.table)
    ensures Answered(r, m0, m1)
  {
    assert m1.tape[|m0.tape|..] == added;
    NoneHeardObeys(Gated(r.live, r.approvals), m0.tape, added);
    if r.logged { ServedWrites(m0.server, r.approvals, added); }
  }

  lemma {:induction false} ServedWrites(s: Server, approvals: set<Id>, added: seq<Mark>)
    requires forall m | m in added :: m.Wrote? && (m.e.kind.ToolResult? ==> m.bill == SERVED)
    ensures ServedTape(s, approvals, added) == Some(s)
  {
    if added != [] {
      assert added[0] in added;
      ServedWrites(s, approvals, added[1..]);
    }
  }

  // ---------- following a task tree ----------

  /** The log went from `p` to `q` between two moments, with honest answers. */
  ghost predicate Went(r: Terms, p: Proc, q: Proc, m0: Moment, m1: Moment) {
    Ran(p, q, m0.tape, m1.tape) && Answered(r, m0, m1)
  }

  lemma WentStart(r: Terms, p: Proc, m: Moment)
    ensures Went(r, p, p, m, m)
  {
    RanStart(p, m.tape);
    AnsweredStart(r, m);
  }

  lemma WentOn(r: Terms, p: Proc, q: Proc, q': Proc, m0: Moment, m1: Moment, m2: Moment)
    requires Went(r, p, q, m0, m1) && Went(r, q, q', m1, m2)
    ensures Went(r, p, q', m0, m2)
  {
    RanOn(p, q, q', m0.tape, m1.tape, m2.tape);
    AnsweredOn(r, m0, m1, m2);
  }

  /** Then a transaction with rows of the executor's own. */
  lemma WentWrite(r: Terms, p: Proc, batch: seq<Event>, next: Proc, m0: Moment, m1: Moment, m2: Moment)
    requires Went(r, p, Emit(batch, next), m0, m1) && forall e | e in batch :: !e.kind.ToolResult?
    requires m2.tape == m1.tape + Bills(batch) && m2.server == m1.server && Grown(r.run, m1.table, m2.table)
    ensures Went(r, p, next, m0, m2)
  {
    RanEmit(Emit(batch, next), m1.tape);
    AnsweredWrites(r, m1, m2, Bills(batch));
    WentOn(r, p, Emit(batch, next), next, m0, m1, m2);
  }

  /** Then the row an answer leaves. */
  lemma WentNote(r: Terms, p: Proc, e: Event, bill: Bill, next: Proc, m0: Moment, m1: Moment, m2: Moment)
    requires Went(r, p, Note(e, next), m0, m1) && bill == BillOf(r, e)
    requires m2.tape == m1.tape + [Wrote(e, bill)] && m2.server == m1.server && Grown(r.run, m1.table, m2.table)
    ensures Went(r, p, next, m0, m2)
  {
    RanNote(Note(e, next), bill, m1.tape);
    AnsweredWrites(r, m1, m2, [Wrote(e, bill)]);
    WentOn(r, p, Note(e, next), next, m0, m1, m2);
  }

  /** Then a question and its answer. */
  lemma WentAsk(r: Terms, p: Proc, ask: Proc, a: Answer, m0: Moment, m1: Moment, m2: Moment)
    requires Went(r, p, ask, m0, m1) && ask.Ask? && Fits(ask.q, a)
    requires m2.tape == m1.tape + [Heard(ask.q, a)] && Answered(r, m1, m2)
    ensures Went(r, p, AfterAnswer(ask.q, a, ask.k(a)), m0, m2)
  {
    RanAsk(ask, a, m1.tape);
    WentOn(r, p, ask, AfterAnswer(ask.q, a, ask.k(a)), m0, m1, m2);
  }

  /** Then an only child, awaited to its end. */
  lemma WentAwait(r: Terms, p: Proc, fork: Proc, out: Outcome, m0: Moment, m1: Moment, m2: Moment)
    requires Went(r, p, fork, m0, m1) && fork.Fork? && |fork.kids| == 1
    requires Went(r, fork.kids[0].body, Done(out), m1, m2)
    ensures Went(r, p, fork.join([out]), m0, m2)
  {
    RanAwait(fork, out, m1.tape, m2.tape);
    WentOn(r, p, fork, fork.join([out]), m0, m1, m2);
  }

  /** A finished task goes nowhere, and neither does any other meanwhile. */
  lemma WentNowhere(r: Terms, out: Outcome, out': Outcome, p: Proc, m0: Moment, m1: Moment)
    requires Went(r, Done(out), Done(out'), m0, m1)
    ensures out == out' && Went(r, p, p, m0, m1)
  {
    var sched :| Takes(Done(out), Done(out'), sched, m1.tape[|m0.tape|..]);
    assert sched == [];
    assert m1.tape == m0.tape;
    RanStart(p, m0.tape);
  }

  lemma LogGrows(tape: seq<Mark>, added: seq<Mark>)
    ensures LogOf(tape + added) == LogOf(tape) + Numbered(FlatMap(EntryOf, added), |LogOf(tape)|)
  {
    FlatMapConcat(EntryOf, tape, added);
    NumberedConcat(FlatMap(EntryOf, tape), FlatMap(EntryOf, added));
  }

  lemma NumberedConcat(a: seq<Entry>, b: seq<Entry>)
    ensures Numbered(a + b, 0) == Numbered(a, 0) + Numbered(b, |a|)
  {
  }

  class Journal {
    const store: EventStore
    const run: Id
    const approvals: set<Id>
    const live: Oracle                       // the world's answers, given the asking node's own past
    const price: Completion -> Bill          // what a live completion costs
    const completer: LoggedCompleter?        // set in a replay
    var tape: seq<Mark>

    function Now(): Server
      reads completer
    {
      if completer == null then Server(map[], 0, 0) else completer.State()
    }

    /** The run's rows in the store are exactly what has been logged. */
    ghost predicate Valid()
      reads this, store
    {
      && Sensible(live) && (forall c :: !price(c).replayed)
      && store.Valid() && run in store.runs && store.Log(run) == LogOf(tape)
    }

    ghost function Rules(): Terms { Terms(live, completer != null, approvals, run, price) }

    ghost function Here(): Moment
      reads this, store, completer
    {
      Moment(tape, Now(), store.table)
    }

    constructor (store: EventStore, run: Id, approvals: set<Id>, live: Oracle, price: Completion -> Bill,
                 completer: LoggedCompleter?)
      requires Sensible(live) && (forall c :: !price(c).replayed)
      requires store.Valid() && run in store.runs && store.Log(run) == []
      ensures Valid() && fresh(this) && tape == []
      ensures this.store == store && this.run == run && this.approvals == approvals
      ensures this.live == live && this.price == price && this.completer == completer
    {
      this.store, this.run, this.approvals := store, run, approvals;
      this.live, this.price, this.completer := live, price, completer;
      tape := [];
    }

    /** One transaction, as the next step of a task tree. */
    method PutMany(batch: seq<Event>, ghost p: Proc, ghost next: Proc, ghost m0: Moment)
      requires Valid() && batch != [] && (forall e | e in batch :: !e.kind.ToolResult?)
      requires Went(Rules(), p, Emit(batch, next), m0, Here())
      modifies this, store
      ensures Valid() && Went(Rules(), p, next, m0, Here())
    {
      hide Went;
      ghost var m1 := Here();
      var entries := seq(|batch|, i requires 0 <= i < |batch| => Entry(batch[i], FREE));
      LogGrows(tape, Bills(batch));
      EntriesOf(batch, entries);
      var nos := store.AppendMany(run, entries);
      tape := tape + Bills(batch);
      WentWrite(Rules(), p, batch, next, m0, m1, Here());
    }

    /** One row, as the next step of a task tree. */
    method Put(e: Event, ghost p: Proc, ghost next: Proc, ghost m0: Moment)
      requires Valid() && !e.kind.ToolResult? && Went(Rules(), p, Emit([e], next), m0, Here())
      modifies this, store
      ensures Valid() && Went(Rules(), p, next, m0, Here())
    {
      hide Went;
      ghost var m1 := Here();
      LogGrows(tape, [Wrote(e, FREE)]);
      FlatMapOne(EntryOf, Wrote(e, FREE));
      var no := store.Append(run, e, FREE);
      tape := tape + [Wrote(e, FREE)];
      assert Bills([e]) == [Wrote(e, FREE)];
      WentWrite(Rules(), p, [e], next, m0, m1, Here());
    }

    /** One row and the run's new status in one transaction. */
    method PutStatus(e: Event, status: string, ended: bool, ghost p: Proc, ghost next: Proc, ghost m0: Moment)
      requires Valid() && !e.kind.ToolResult? && Went(Rules(), p, Emit([e], next), m0, Here())
      modifies this, store
      ensures Valid() && Went(Rules(), p, next, m0, Here())
      ensures store.runs[run].status == status && (ended ==> store.runs[run].ended)
    {
      hide Went;
      ghost var m1 := Here();
      LogGrows(tape, [Wrote(e, FREE)]);
      FlatMapOne(EntryOf, Wrote(e, FREE));
      var no := store.AppendAndSetStatus(run, e, FREE, status, ended);
      tape := tape + [Wrote(e, FREE)];
      assert Bills([e]) == [Wrote(e, FREE)];
      WentWrite(Rules(), p, [e], next, m0, m1, Here());
    }

    /** The row of an answer, as the next step of a task tree. */
    method PutReceipt(e: Event, bill: Bill, ghost p: Proc, ghost next: Proc, ghost m0: Moment)
      requires Valid() && Went(Rules(), p, Note(e, next), m0, Here())
      requires bill == BillOf(Rules(), e)
      modifies this, store
      ensures Valid() && Went(Rules(), p, next, m0, Here())
    {
      hide Went;
      ghost var m1 := Here();
      LogGrows(tape, [Wrote(e, bill)]);
      FlatMapOne(EntryOf, Wrote(e, bill));
      var no := store.Append(run, e, bill);
      tape := tape + [Wrote(e, bill)];
      WentNote(Rules(), p, e, bill, next, m0, m1, Here());
    }

    method SetStatus(status: string, ended: bool)
      requires Valid()
      modifies store
      ensures Valid() && Here() == old(Here())
      ensures store.runs[run].status == status && (ended ==> store.runs[run].ended)
    {
      store.SetRunStatus(run, status, ended);
    }

    /** Asks the completer, the approval set or the shared memory; nothing is logged yet. */
    method Ask(q: Query) returns (a: Answer)
      requires Valid()
      modifies this, completer
      ensures Valid() && Fits(q, a) && tape == old(tape) + [Heard(q, a)] && Answered(Rules(), old(Here()), Here())
      ensures q.Gate? ==> a == Granted(q.node in approvals)
    {
      if q.Gate? {
        a := Granted(q.node in approvals);
      } else if q.Complete? && completer != null {
        a := completer.Call(Some(q.node), q.agent);
      } else {
        a := live(q, View(tape, Some(q.node)));
      }
      ghost var was := tape;
      LogGrows(tape, [Heard(q, a)]);
      FlatMapOne(EntryOf, Heard(q, a));
      tape := tape + [Heard(q, a)];
      assert tape[|was|..] == [Heard(q, a)];
      if completer == null { OneObeys(Gated(live, approvals), was, Heard(q, a)); }
      assert [Heard(q, a)][1..] == [];
      assert Heard(q, a) in [Heard(q, a)];
    }

    /** A question, as the next step of a task tree. */
    method AskFor(q: Query, ghost p: Proc, ghost ask: Proc, ghost m0: Moment) returns (a: Answer)
      requires Valid() && ask.Ask? && ask.q == q && Went(Rules(), p, ask, m0, Here())
      modifies this, completer
      ensures Valid() && Fits(q, a) && Went(Rules(), p, AfterAnswer(q, a, ask.k(a)), m0, Here())
      ensures q.Gate? ==> a == Granted(q.node in approvals)
    {
      hide Went;
      ghost var m1 := Here();
      a := Ask(q);
      WentAsk(Rules(), p, ask, a, m0, m1, Here());
    }
  }

  lemma {:induction false} EntriesOf(batch: seq<Event>, entries: seq<Entry>)
    requires |entries| == |batch| && forall i | 0 <= i < |batch| :: entries[i] == Entry(batch[i], FREE)
    ensures FlatMap(EntryOf, Bills(batch)) == entries
  {
    if batch != [] {
      EntriesOf(batch[1..], entries[1..]);
      assert Bills(batch)[1..] == Bills(batch[1..]);
      assert entries == [entries[0]] + entries[1..];
    }
  }
}
