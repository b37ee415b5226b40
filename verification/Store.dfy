// The event log of backend/events/store.py: rows numbered without a gap, one
// transaction at a time.
module Store {
  import opened Base
  import opened Events

  /** What a caller hands to an append; a Row is what the table then holds. */
  datatype Entry = Entry(event: Event, bill: Bill)
  datatype Row = Row(seqNo: nat, event: Event, bill: Bill)
  datatype Stored = Stored(run: Id, row: Row)
  datatype RunRow = RunRow(status: string, ended: bool, lastSeq: nat)

  function Numbered(entries: seq<Entry>, last: nat): (r: seq<Row>)
    ensures |r| == |entries|
    ensures forall i | 0 <= i < |r| :: r[i] == Row(last + i + 1, entries[i].event, entries[i].bill)
  {
    seq(|entries|, i requires 0 <= i < |entries| => Row(last + i + 1, entries[i].event, entries[i].bill))
  }

  function RowsOf(table: seq<Stored>, run: Id): seq<Row> {
    if table == [] then []
    else (if table[0].run == run then [table[0].row] else []) + RowsOf(table[1..], run)
  }

  lemma {:induction false} RowsOfConcat(a: seq<Stored>, b: seq<Stored>, run: Id)
    ensures RowsOf(a + b, run) == RowsOf(a, run) + RowsOf(b, run)
  {
    if a == [] {
      assert a + b == b;
    } else {
      RowsOfConcat(a[1..], b, run);
      assert (a + b)[0] == a[0] && (a + b)[1..] == a[1..] + b;
      var head := if a[0].run == run then [a[0].row] else [];
      assert head + (RowsOf(a[1..], run) + RowsOf(b, run)) == (head + RowsOf(a[1..], run)) + RowsOf(b, run);
    }
  }

  function StoredAs(run: Id, rows: seq<Row>): (r: seq<Stored>)
    ensures |r| == |rows| && forall i | 0 <= i < |r| :: r[i] == Stored(run, rows[i])
  {
    seq(|rows|, i requires 0 <= i < |rows| => Stored(run, rows[i]))
  }

  lemma {:induction false} RowsOfStored(run: Id, rows: seq<Row>, other: Id)
    ensures RowsOf(StoredAs(run, rows), other) == if run == other then rows else []
  {
    if rows != [] {
      RowsOfStored(run, rows[1..], other);
      assert StoredAs(run, rows)[1..] == StoredAs(run, rows[1..]);
      assert rows == [rows[0]] + rows[1..];
    }
  }

  /** Sequence numbers 1, 2, 3, ... with no gap and no duplicate. */
  ghost predicate Gapless(rows: seq<Row>) {
    forall i | 0 <= i < |rows| :: rows[i].seqNo == i + 1
  }

  ghost predicate NumberedTo(rows: seq<Row>, last: nat) { Gapless(rows) && |rows| == last }

  datatype CostTotals = CostTotals(tokensIn: int, tokensOut: int, cost: real, events: nat)

  function TokensIn(e: Event): nat { if e.kind.ToolResult? then e.kind.c.tokensIn else 0 }
  function TokensOut(e: Event): nat { if e.kind.ToolResult? then e.kind.c.tokensOut else 0 }

  function SumInts(f: Event -> nat, rows: seq<Row>): nat {
    if rows == [] then 0 else f(rows[0].event) + SumInts(f, rows[1..])
  }

  function SumCosts(rows: seq<Row>): real {
    if rows == [] then 0.0 else rows[0].bill.cost + SumCosts(rows[1..])
  }

  lemma {:induction false} SumsSnoc(f: Event -> nat, rows: seq<Row>, row: Row)
    ensures SumInts(f, rows + [row]) == SumInts(f, rows) + f(row.event)
    ensures SumCosts(rows + [row]) == SumCosts(rows) + row.bill.cost
  {
    if rows != [] {
      SumsSnoc(f, rows[1..], row);
      assert (rows + [row])[0] == rows[0] && (rows + [row])[1..] == rows[1..] + [row];
    }
  }

  /** Totals of a log; `round` rounds the cost to six places. */
  method AggregateCost(rows: seq<Row>, round: real -> real) returns (t: CostTotals)
    ensures t == CostTotals(SumInts(TokensIn, rows), SumInts(TokensOut, rows), round(SumCosts(rows)), |rows|)
  {
    t := CostTotals(0, 0, 0.0, |rows|);
    for i := 0 to |rows|
      invariant t == CostTotals(SumInts(TokensIn, rows[..i]), SumInts(TokensOut, rows[..i]), SumCosts(rows[..i]), |rows|)
    {
      assert rows[..i + 1] == rows[..i] + [rows[i]];
      SumsSnoc(TokensIn, rows[..i], rows[i]);
      SumsSnoc(TokensOut, rows[..i], rows[i]);
      t := t.(tokensIn := t.tokensIn + TokensIn(rows[i].event), tokensOut := t.tokensOut + TokensOut(rows[i].event),
              cost := t.cost + rows[i].bill.cost);
    }
    assert rows[..|rows|] == rows;
    t := t.(cost := round(t.cost));
  }

  /** Every run's rows are numbered 1 to its last_seq, and every row belongs to a run. */
  ghost predicate WellNumbered(runs: map<Id, RunRow>, table: seq<Stored>) {
    && (forall r :: RunNumbered(runs, table, r))
    && (forall s {:trigger Owned(runs, s)} | s in table :: Owned(runs, s))
  }

  ghost predicate RunNumbered(runs: map<Id, RunRow>, table: seq<Stored>, r: Id) {
    r in runs ==> NumberedTo(RowsOf(table, r), runs[r].lastSeq)
  }

  ghost predicate Owned(runs: map<Id, RunRow>, s: Stored) { s.run in runs }

  ghost predicate SameRows(was: seq<Stored>, table: seq<Stored>, r: Id) { RowsOf(table, r) == RowsOf(was, r) }

  /** One transaction: rows are added to one run, contiguously, and no row changes. */
  ghost predicate Extends(was: seq<Stored>, table: seq<Stored>, run: Id, entries: seq<Entry>) {
    && was <= table
    && RowsOf(table, run) == RowsOf(was, run) + Numbered(entries, |RowsOf(was, run)|)
    && (forall r | r != run :: SameRows(was, table, r))
  }

  function Bump(runs: map<Id, RunRow>, run: Id, n: nat): map<Id, RunRow>
    requires run in runs
  {
    runs[run := runs[run].(lastSeq := runs[run].lastSeq + n)]
  }

  /** One more row, and a new status; an ended run stays ended. */
  function Stamped(runs: map<Id, RunRow>, run: Id, status: string, ended: bool): map<Id, RunRow>
    requires run in runs
  {
    runs[run := RunRow(status, ended || runs[run].ended, runs[run].lastSeq + 1)]
  }

  /** What one committed transaction does to the two tables. */
  ghost predicate Appended(runs: map<Id, RunRow>, table: seq<Stored>, runs': map<Id, RunRow>, table': seq<Stored>,
                           run: Id, entries: seq<Entry>)
  {
    && run in runs
    && runs' == Bump(runs, run, |entries|)
    && WellNumbered(runs', table')
    && Extends(table, table', run, entries)
  }

  lemma InsertKeeps(runs: map<Id, RunRow>, was: seq<Stored>, run: Id, entries: seq<Entry>)
    requires WellNumbered(runs, was) && run in runs
    ensures runs[run].lastSeq == |RowsOf(was, run)|
    ensures Appended(runs, was, Bump(runs, run, |entries|), was + StoredAs(run, Numbered(entries, runs[run].lastSeq)),
                     run, entries)
  {
    assert RunNumbered(runs, was, run);
    var rows := Numbered(entries, runs[run].lastSeq);
    var added := StoredAs(run, rows);
    var table := was + added;
    var runs' := Bump(runs, run, |entries|);
    forall r ensures RowsOf(table, r) == RowsOf(was, r) + if r == run then rows else [] {
      RowsOfConcat(was, added, r);
      RowsOfStored(run, rows, r);
    }
    forall r | r != run ensures SameRows(was, table, r) {
      assert RowsOf(was, r) + [] == RowsOf(was, r);
    }
    forall r ensures RunNumbered(runs', table, r) {
      assert RunNumbered(runs, was, r) && (r != run ==> SameRows(was, table, r));
    }
    forall s | s in table ensures Owned(runs', s) {
      if s in was { assert Owned(runs, s); } else { assert s in added; }
    }
  }

  lemma {:induction false} UnknownRunEmpty(table: seq<Stored>, run: Id)
    requires forall s | s in table :: s.run != run
    ensures RowsOf(table, run) == []
  {
    if table != [] { UnknownRunEmpty(table[1..], run); }
  }

  lemma StampKeeps(runs: map<Id, RunRow>, table: seq<Stored>, runs': map<Id, RunRow>, table': seq<Stored>,
                   run: Id, entries: seq<Entry>, status: string, ended: bool)
    requires Appended(runs, table, runs', table', run, entries) && |entries| == 1
    ensures runs'[run := RunRow(status, ended || runs'[run].ended, runs'[run].lastSeq)] == Stamped(runs, run, status, ended)
    ensures WellNumbered(Stamped(runs, run, status, ended), table')
  {
    var after := Stamped(runs, run, status, ended);
    forall r ensures RunNumbered(after, table', r) { assert RunNumbered(runs', table', r); }
    forall s | s in table' ensures Owned(after, s) { assert Owned(runs', s); }
  }

  lemma StatusKeeps(runs: map<Id, RunRow>, table: seq<Stored>, run: Id, row: RunRow)
    requires WellNumbered(runs, table) && run in runs && row.lastSeq == runs[run].lastSeq
    ensures WellNumbered(runs[run := row], table)
  {
    var after := runs[run := row];
    forall r ensures RunNumbered(after, table, r) { assert RunNumbered(runs, table, r); }
    forall s | s in table ensures Owned(after, s) { assert Owned(runs, s); }
  }

  lemma NewRunKeeps(runs: map<Id, RunRow>, table: seq<Stored>, run: Id, status: string)
    requires WellNumbered(runs, table) && run !in runs && RowsOf(table, run) == []
    ensures WellNumbered(runs[run := RunRow(status, false, 0)], table)
  {
    var after := runs[run := RunRow(status, false, 0)];
    forall r ensures RunNumbered(after, table, r) { assert RunNumbered(runs, table, r); }
    forall s | s in table ensures Owned(after, s) { assert Owned(runs, s); }
  }

  /** The rows numbered above `from`. */
  function After(rows: seq<Row>, from: nat): seq<Row> {
    if rows == [] then []
    else (if rows[0].seqNo > from then [rows[0]] else []) + After(rows[1..], from)
  }

  lemma {:induction false} AfterSnoc(rows: seq<Row>, row: Row, from: nat)
    ensures After(rows + [row], from) == After(rows, from) + if row.seqNo > from then [row] else []
  {
    if rows == [] {
      assert rows + [row] == [row] && [row][1..] == [];
    } else {
      AfterSnoc(rows[1..], row, from);
      assert (rows + [row])[0] == rows[0] && (rows + [row])[1..] == rows[1..] + [row];
      var head, last := if rows[0].seqNo > from then [rows[0]] else [], if row.seqNo > from then [row] else [];
      assert head + (After(rows[1..], from) + last) == (head + After(rows[1..], from)) + last;
    }
  }

  lemma {:induction false} AfterIsRest(rows: seq<Row>, from: nat, base: nat)
    requires forall i | 0 <= i < |rows| :: rows[i].seqNo == base + i + 1
    ensures After(rows, from) ==
      if from <= base then rows else if from - base <= |rows| then rows[from - base..] else []
  {
    if rows != [] {
      AfterIsRest(rows[1..], from, base + 1);
      assert rows == [rows[0]] + rows[1..];
    }
  }

  lemma ReadStep(table: seq<Stored>, i: nat, run: Id, from: nat)
    requires i < |table|
    ensures After(RowsOf(table[..i + 1], run), from) == After(RowsOf(table[..i], run), from)
      + if table[i].run == run && table[i].row.seqNo > from then [table[i].row] else []
  {
    assert table[..i + 1] == table[..i] + [table[i]];
    RowsOfConcat(table[..i], [table[i]], run);
    assert [table[i]][1..] == [];
    if table[i].run == run {
      assert RowsOf([table[i]], run) == [table[i].row];
      AfterSnoc(RowsOf(table[..i], run), table[i].row, from);
    } else {
      assert RowsOf(table[..i + 1], run) == RowsOf(table[..i], run);
    }
  }

  class EventStore {
    var runs: map<Id, RunRow>
    var table: seq<Stored>

    ghost predicate Valid() reads this { WellNumbered(runs, table) }

    ghost function Log(run: Id): seq<Row> reads this { RowsOf(table, run) }

    constructor ()
      ensures Valid() && fresh(this) && runs == map[] && table == []
    {
      runs, table := map[], [];
    }

    /** The insert of an existing run_id is rejected by its key. */
    method CreateRun(run: Id, status: string) returns (ok: bool)
      requires Valid()
      modifies this
      ensures Valid() && table == old(table) && ok == (run !in old(runs))
      ensures runs == if ok then old(runs)[run := RunRow(status, false, 0)] else old(runs)
      ensures ok ==> Log(run) == []
    {
      ok := run !in runs;
      if ok {
        assert forall s | s in table :: Owned(runs, s) && s.run != run;
        UnknownRunEmpty(table, run);
        NewRunKeeps(runs, table, run, status);
        runs := runs[run := RunRow(status, false, 0)];
      }
    }

    /** The transaction inside every append: reserve the numbers, then insert the rows. */
    method Insert(run: Id, entries: seq<Entry>) returns (first: nat)
      requires Valid() && run in runs
      modifies this
      ensures Appended(old(runs), old(table), runs, table, run, entries) && first == |RowsOf(old(table), run)| + 1
    {
      InsertKeeps(runs, table, run, entries);
      var last := runs[run].lastSeq + |entries|;
      first := last - |entries| + 1;
      var added := StoredAs(run, Numbered(entries, first - 1));
      runs, table := runs[run := runs[run].(lastSeq := last)], table + added;
    }

    /** None is the EventStoreError for an unknown run. */
    method Append(run: Id, event: Event, bill: Bill) returns (no: Option<nat>)
      requires Valid()
      modifies this
      ensures no.None? <==> run !in old(runs)
      ensures no.None? ==> table == old(table) && runs == old(runs)
      ensures no.Some? ==> no.value == |RowsOf(old(table), run)| + 1
      ensures no.Some? ==> Appended(old(runs), old(table), runs, table, run, [Entry(event, bill)])
    {
      if run !in runs { return None; }
      var first := Insert(run, [Entry(event, bill)]);
      no := Some(first);
    }

    /** An empty batch succeeds before the run is looked up. */
    method AppendMany(run: Id, entries: seq<Entry>) returns (nos: Option<seq<nat>>)
      requires Valid()
      modifies this
      ensures nos.None? <==> run !in old(runs) && entries != []
      ensures nos.None? || entries == [] ==> table == old(table) && runs == old(runs)
      ensures nos.Some? && entries != [] ==> Appended(old(runs), old(table), runs, table, run, entries)
      ensures nos.Some? ==> |nos.value| == |entries|
      ensures nos.Some? ==> forall i | 0 <= i < |entries| :: nos.value[i] == |RowsOf(old(table), run)| + i + 1
    {
      if entries == [] { return Some([]); }
      if run !in runs { return None; }
      var first := Insert(run, entries);
      nos := Some(seq(|entries|, i requires 0 <= i < |entries| => first + i));
    }

    method AppendAndSetStatus(run: Id, event: Event, bill: Bill, status: string, ended: bool) returns (no: Option<nat>)
      requires Valid()
      modifies this
      ensures no.None? <==> run !in old(runs)
      ensures no.None? ==> table == old(table) && runs == old(runs)
      ensures no.Some? ==> no.value == |RowsOf(old(table), run)| + 1
      ensures no.Some? ==> run in old(runs) && runs == Stamped(old(runs), run, status, ended)
      ensures no.Some? ==> Valid() && Extends(old(table), table, run, [Entry(event, bill)])
    {
      if run !in runs { return None; }
      var first := Insert(run, [Entry(event, bill)]);
      StampKeeps(old(runs), old(table), runs, table, run, [Entry(event, bill)], status, ended);
      runs := runs[run := RunRow(status, ended || runs[run].ended, runs[run].lastSeq)];
      no := Some(first);
    }

    /** UPDATE of a run's status alone; no row for an unknown run. */
    method SetRunStatus(run: Id, status: string, ended: bool)
      requires Valid()
      modifies this
      ensures Valid() && table == old(table)
      ensures runs == if run !in old(runs) then old(runs)
        else old(runs)[run := RunRow(status, ended || old(runs)[run].ended, old(runs)[run].lastSeq)]
    {
      if run in runs {
        var row := RunRow(status, ended || runs[run].ended, runs[run].lastSeq);
        StatusKeeps(runs, table, run, row);
        runs := runs[run := row];
      }
    }

    /** SELECT ... WHERE seq > from ORDER BY seq: exactly the rest of the log. */
    method Read(run: Id, from: nat) returns (rows: seq<Row>)
      requires Valid()
      ensures rows == if from <= |Log(run)| then Log(run)[from..] else []
    {
      rows := [];
      for i := 0 to |table|
        invariant rows == After(RowsOf(table[..i], run), from)
      {
        ReadStep(table, i, run, from);
        if table[i].run == run && table[i].row.seqNo > from { rows := rows + [table[i].row]; }
      }
      assert table[..|table|] == table;
      assert RunNumbered(runs, table, run);
      if run in runs {
        AfterIsRest(Log(run), from, 0);
      } else {
        assert forall s | s in table :: Owned(runs, s) && s.run != run;
        UnknownRunEmpty(table, run);
      }
    }
  }
}
