// backend/replay/replay.py: reading a recording back, and serving it to a new
// run of the same graph.
module Replay {
  import opened Base
  import opened Events
  import opened Tasks
  import opened Confluence
  import opened Store

  // ---------- the log as rows ----------

  function EntryOf(m: Mark): seq<Entry> {
    match m
    case Wrote(e, bill) => [Entry(e, bill)]
    case Heard(_, _) => []
  }

  /** The rows an executor's run leaves in a log of its own. */
  function LogOf(tape: seq<Mark>): seq<Row> {
    Numbered(FlatMap(EntryOf, tape), 0)
  }

  /** A reading of rows that only looks at entries. */
  function ByEntry<A>(f: Entry -> seq<A>): Row -> seq<A> {
    (r: Row) => f(Entry(r.event, r.bill))
  }

  function ByMark<A>(f: Entry -> seq<A>): Mark -> seq<A> {
    (m: Mark) => if m.Wrote? then f(Entry(m.e, m.bill)) else []
  }

  lemma {:induction false} ReadingEntries<A>(f: Entry -> seq<A>, entries: seq<Entry>, last: nat)
    ensures FlatMap(ByEntry(f), Numbered(entries, last)) == FlatMap(f, entries)
  {
    if entries != [] {
      ReadingEntries(f, entries[1..], last + 1);
      var rows := Numbered(entries, last);
      assert rows[1..] == Numbered(entries[1..], last + 1);
    }
  }

  lemma ReadingLog<A>(f: Entry -> seq<A>, tape: seq<Mark>)
    ensures FlatMap(ByEntry(f), LogOf(tape)) == FlatMap(ByMark(f), tape)
  {
    ReadingEntries(f, FlatMap(EntryOf, tape), 0);
    forall m | m in tape ensures FlatMap(f, EntryOf(m)) == ByMark(f)(m) {
      if m.Wrote? { FlatMapOne(f, Entry(m.e, m.bill)); }
    }
    FlatMapCompose(f, EntryOf, ByMark(f), tape);
  }

  /** A reading that only looks at one node's rows sees that node's view. */
  lemma {:induction false} ReadingNode<A>(f: Mark -> seq<A>, h: Mark -> seq<A>, tape: seq<Mark>, who: Option<Id>)
    requires forall m | m in tape :: f(m) == if Who(m) == who then h(Bare(m)) else []
    ensures FlatMap(f, tape) == FlatMap(h, View(tape, who))
  {
    if tape != [] {
      assert tape[0] in tape;
      ReadingNode(f, h, tape[1..], who);
      var head := if Who(tape[0]) == who then [Bare(tape[0])] else [];
      FlatMapConcat(h, head, View(tape[1..], who));
      FlatMapOne(h, Bare(tape[0]));
    }
  }

  // ---------- recorded_completions ----------

  /** (node_id, agent_id) */
  type Key = (Option<Id>, Id)

  predicate Records(key: Key, e: Entry) {
    e.event.kind.ToolResult? && !e.bill.replayed && (e.event.who, e.event.kind.agent) == key
  }

  function Recorded(key: Key): Entry -> seq<Completion> {
    (e: Entry) => if Records(key, e) then [e.event.kind.c] else []
  }

  /** The unreplayed completions logged under one key, oldest first. */
  function Recordings(rows: seq<Row>, key: Key): seq<Completion> {
    FlatMap(ByEntry(Recorded(key)), rows)
  }

  function Queue(q: map<Key, seq<Completion>>, key: Key): seq<Completion> {
    if key in q then q[key] else []
  }

  method RecordedCompletions(rows: seq<Row>) returns (out: map<Key, seq<Completion>>)
    ensures forall key :: Queue(out, key) == Recordings(rows, key)
    ensures forall key | key in out :: out[key] != []
  {
    out := map[];
    for i := 0 to |rows|
      invariant forall key :: Queue(out, key) == Recordings(rows[..i], key)
      invariant forall key | key in out :: out[key] != []
    {
      var was, row := out, rows[i];
      if row.event.kind.ToolResult? && !row.bill.replayed {
        var key := (row.event.who, row.event.kind.agent);
        out := out[key := (if key in out then out[key] else []) + [row.event.kind.c]];
      }
      forall key ensures Queue(out, key) == Recordings(rows[..i + 1], key) { RecordingsStep(rows, i, key, was); }
    }
    assert rows[..|rows|] == rows;
  }

  lemma RecordingsStep(rows: seq<Row>, i: nat, key: Key, was: map<Key, seq<Completion>>)
    requires i < |rows| && Queue(was, key) == Recordings(rows[..i], key)
    ensures Recordings(rows[..i + 1], key) == Queue(was, key) + Recorded(key)(Entry(rows[i].event, rows[i].bill))
  {
    assert rows[..i + 1] == rows[..i] + [rows[i]];
    FlatMapConcat(ByEntry(Recorded(key)), rows[..i], [rows[i]]);
    FlatMapOne(ByEntry(Recorded(key)), rows[i]);
  }

  // ---------- LoggedCompleter ----------

  const SERVED := Bill(0.0, 0, true)

  datatype Server = Server(q: map<Key, seq<Completion>>, served: nat, missing: nat)

  /** One call: the oldest recording under the caller's own key. */
  function Serve(s: Server, key: Key): (Answer, Server) {
    var queue := Queue(s.q, key);
    if queue == [] then (Raised(OtherError("run is not replayable")), s.(missing := s.missing + 1))
    else (Reply(queue[0]), Server(s.q[key := queue[1..]], s.served + 1, s.missing))
  }

  class LoggedCompleter {
    var q: map<Key, seq<Completion>>
    var served: nat
    var missing: nat

    function State(): Server reads this { Server(q, served, missing) }

    constructor (recorded: map<Key, seq<Completion>>)
      ensures State() == Server(recorded, 0, 0)
    {
      q, served, missing := recorded, 0, 0;
    }

    method Call(node: Option<Id>, agent: Id) returns (a: Answer)
      modifies this
      ensures (a, State()) == Serve(old(State()), (node, agent))
    {
      var key := (node, agent);
      if key !in q || q[key] == [] {
        missing := missing + 1;
        return Raised(OtherError("run is not replayable"));
      }
      a := Reply(q[key][0]);
      q := q[key := q[key][1..]];
      served := served + 1;
    }
  }

  /**
   * A tape whose completions one LoggedCompleter served in the order they were
   * asked for, at no cost, and whose gates follow `approvals`; the completer's
   * last state, or None if some mark disagrees.
   */
  ghost function ServedTape(s: Server, approvals: set<Id>, tape: seq<Mark>): Option<Server>
    decreases |tape|
  {
    if tape == [] then Some(s)
    else match tape[0]
      case Wrote(e, bill) =>
        if e.kind.ToolResult? && bill != SERVED then None else ServedTape(s, approvals, tape[1..])
      case Heard(q, a) =>
        match q
        case Complete(n, agent, _, _, _, _) =>
          var r := Serve(s, (Some(n), agent));
          if a == r.0 then ServedTape(r.1, approvals, tape[1..]) else None
        case Gate(n) => if a == Granted(n in approvals) then ServedTape(s, approvals, tape[1..]) else None
        case Recall(_, _, _) => None
  }

  // ---------- the same completer as an oracle of each node's own past ----------

  function ReplyTo(agent: Id): Mark -> seq<Completion> {
    (m: Mark) => if m.Heard? && m.q.Complete? && m.q.agent == agent && m.a.Reply? then [m.a.c] else []
  }

  /** What one node's agent was answered. */
  function Replies(view: seq<Mark>, agent: Id): seq<Completion> {
    FlatMap(ReplyTo(agent), view)
  }

  function ReplayOracle(recorded: map<Key, seq<Completion>>, approvals: set<Id>): Oracle {
    (q: Query, past: seq<Mark>) =>
      match q
      case Complete(n, agent, _, _, _, _) =>
        var queue := Queue(recorded, (Some(n), agent));
        var k := |Replies(past, agent)|;
        if k < |queue| then Reply(queue[k]) else Raised(OtherError("run is not replayable"))
      case Gate(n) => Granted(n in approvals)
      case Recall(_, _, _) => Memory([], [])
  }

  /** How far each queue has been consumed is visible in each node's own past. */
  ghost predicate Tracks(recorded: map<Key, seq<Completion>>, s: Server, past: seq<Mark>) {
    forall n, agent :: TracksKey(recorded, s, past, n, agent)
  }

  ghost predicate TracksKey(recorded: map<Key, seq<Completion>>, s: Server, past: seq<Mark>, n: Id, agent: Id) {
    var k := |Replies(View(past, Some(n)), agent)|;
    var queue := Queue(recorded, (Some(n), agent));
    k <= |queue| && Queue(s.q, (Some(n), agent)) == queue[k..]
  }

  /** One more mark: one more reply, if it was this node's agent that was answered. */
  lemma RepliesStep(past: seq<Mark>, m: Mark, n: Id, agent: Id)
    ensures Replies(View(past + [m], Some(n)), agent) ==
      Replies(View(past, Some(n)), agent) + if Who(m) == Some(n) then ReplyTo(agent)(m) else []
  {
    ViewConcat(past, [m], Some(n));
    assert [m][1..] == [];
    FlatMapConcat(ReplyTo(agent), View(past, Some(n)), View([m], Some(n)));
    FlatMapOne(ReplyTo(agent), Bare(m));
  }

  /** The completer's next state, whatever the mark is. */
  function NextServer(s: Server, m: Mark): Server {
    if m.Heard? && m.q.Complete? then Serve(s, (Some(m.q.node), m.q.agent)).1 else s
  }

  predicate RightAnswer(s: Server, m: Mark) {
    m.Heard? && m.q.Complete? ==> m.a == Serve(s, (Some(m.q.node), m.q.agent)).0
  }

  lemma TracksStep(recorded: map<Key, seq<Completion>>, s: Server, past: seq<Mark>, m: Mark)
    requires Tracks(recorded, s, past) && RightAnswer(s, m)
    ensures Tracks(recorded, NextServer(s, m), past + [m])
  {
    forall n, agent ensures TracksKey(recorded, NextServer(s, m), past + [m], n, agent) {
      assert TracksKey(recorded, s, past, n, agent);
      RepliesStep(past, m, n, agent);
      TracksKeyStep(s, m, n, agent, Queue(recorded, (Some(n), agent)), |Replies(View(past, Some(n)), agent)|);
    }
  }

  lemma TracksKeyStep(s: Server, m: Mark, n: Id, agent: Id, queue: seq<Completion>, k: nat)
    requires RightAnswer(s, m) && k <= |queue| && Queue(s.q, (Some(n), agent)) == queue[k..]
    ensures var k1 := k + if Who(m) == Some(n) then |ReplyTo(agent)(m)| else 0;
      k1 <= |queue| && Queue(NextServer(s, m).q, (Some(n), agent)) == queue[k1..]
  {
    if m.Heard? && m.q.Complete? && m.q.node == n && m.q.agent == agent && k < |queue| {
      assert queue[k..][1..] == queue[k + 1..];
    }
  }

  lemma ServedTail(s: Server, approvals: set<Id>, tape: seq<Mark>)
    requires tape != [] && ServedTape(s, approvals, tape).Some?
    ensures ServedTape(s, approvals, tape) == ServedTape(NextServer(s, tape[0]), approvals, tape[1..])
    ensures RightAnswer(s, tape[0])
    ensures tape[0].Heard? ==> !tape[0].q.Recall? && (tape[0].q.Gate? ==> tape[0].a == Granted(tape[0].q.node in approvals))
    ensures tape[0].Wrote? && tape[0].e.kind.ToolResult? ==> tape[0].bill == SERVED
  {
  }

  lemma ServedMark(recorded: map<Key, seq<Completion>>, approvals: set<Id>, s: Server, past: seq<Mark>, m: Mark)
    requires Tracks(recorded, s, past) && RightAnswer(s, m)
    requires m.Heard? ==> !m.q.Recall? && (m.q.Gate? ==> m.a == Granted(m.q.node in approvals))
    ensures Obeys(ReplayOracle(recorded, approvals), past, [m])
  {
    var o := ReplayOracle(recorded, approvals);
    if m.Heard? {
      if m.q.Complete? { assert TracksKey(recorded, s, past, m.q.node, m.q.agent); }
      OneObeys(o, past, m);
    } else {
      NoneHeardObeys(o, past, [m]);
    }
  }

  /** Serving in the order of the tape is serving each node from its own past: nobody steals. */
  lemma {:induction false} ServedObeys(recorded: map<Key, seq<Completion>>, approvals: set<Id>, s: Server,
                                       past: seq<Mark>, tape: seq<Mark>)
    requires Tracks(recorded, s, past) && ServedTape(s, approvals, tape).Some?
    ensures Obeys(ReplayOracle(recorded, approvals), past, tape)
    ensures Tracks(recorded, ServedTape(s, approvals, tape).value, past + tape)
    decreases |tape|
  {
    if tape == [] {
      assert past + tape == past;
      NoneHeardObeys(ReplayOracle(recorded, approvals), past, tape);
    } else {
      var m, rest := tape[0], tape[1..];
      ServedTail(s, approvals, tape);
      ServedMark(recorded, approvals, s, past, m);
      TracksStep(recorded, s, past, m);
      ServedObeys(recorded, approvals, NextServer(s, m), past + [m], rest);
      assert past + [m] + rest == past + tape && [m] + rest == tape;
      ObeysConcat(ReplayOracle(recorded, approvals), past, [m], rest);
    }
  }

  lemma OneObeys(o: Oracle, past: seq<Mark>, m: Mark)
    requires m.Heard? && m.a == o(m.q, View(past, Some(m.q.node)))
    ensures Obeys(o, past, [m])
  {
    assert [m][1..] == [];
    forall w ensures Follows(o, View(past, w), View([m], w)) {
      if w == Some(m.q.node) {
        assert View([m], w) == [m];
        assert View(past, w) + [m][..0] == View(past, w);
      } else {
        assert View([m], w) == [];
      }
    }
  }
}
