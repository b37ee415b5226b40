// Every run of a graph, finished or not, is made of runs of its nodes' own
// coroutines: each node starts from what the nodes on earlier levels left, and
// what the run shows of it is a history of that one coroutine, whatever the
// interleaving, the nesting and the timeouts.
module NodeRuns {
  import opened Base
  import opened Graph
  import opened Layering
  import opened Events
  import opened Tasks
  import opened Kernel
  import opened Scopes
  import opened Failures
  import opened CausalLog
  import opened Contexts

  // ---------- one coroutine's part of a tape ----------

  /** What the tape shows under the ids `S` is the run of `p` by `s`. */
  ghost predicate Shows(p: Proc, s: seq<Step>, tape: seq<Mark>, S: set<Option<Id>>) {
    && Exec(p, s).Some?
    && forall who | who in S :: View(tape, who) == View(Exec(p, s).value.tape, who)
  }

  ghost predicate Begun(p: Proc, tape: seq<Mark>, S: set<Option<Id>>) {
    exists s :: Shows(p, s, tape, S)
  }

  ghost predicate Finished(p: Proc, o: Outcome, tape: seq<Mark>, S: set<Option<Id>>) {
    exists s :: Shows(p, s, tape, S) && Exec(p, s).value.proc == Done(o)
  }

  ghost predicate Silent(tape: seq<Mark>, S: set<Option<Id>>) {
    forall who | who in S :: View(tape, who) == []
  }

  ghost predicate SameViews(t1: seq<Mark>, t2: seq<Mark>, S: set<Option<Id>>) {
    forall who | who in S :: View(t1, who) == View(t2, who)
  }

  lemma BegunMoves(p: Proc, t1: seq<Mark>, t2: seq<Mark>, S: set<Option<Id>>)
    requires Begun(p, t1, S) && SameViews(t1, t2, S)
    ensures Begun(p, t2, S)
  {
    var s :| Shows(p, s, t1, S);
    assert Shows(p, s, t2, S);
  }

  lemma FinishedMoves(p: Proc, o: Outcome, t1: seq<Mark>, t2: seq<Mark>, S: set<Option<Id>>)
    requires Finished(p, o, t1, S) && SameViews(t1, t2, S)
    ensures Finished(p, o, t2, S)
  {
    var s :| Shows(p, s, t1, S) && Exec(p, s).value.proc == Done(o);
    assert Shows(p, s, t2, S);
  }

  lemma FinishedBegan(p: Proc, o: Outcome, tape: seq<Mark>, S: set<Option<Id>>)
    requires Finished(p, o, tape, S)
    ensures Begun(p, tape, S)
  {
  }

  // ---------- what a node starts from ----------

  /** Everything the scheduler waits for passed, and the condition, if the node has one, holds of what was left. */
  ghost predicate Cleared(w: World, g: GraphSpec, results: map<Id, NodeResult>, outputs: map<Id, Value>, n: Node) {
    && (forall e | Orders(g, e) && e.dst == n.id :: e.src in results && results[e.src].Passed?)
    && (n.ntype == ConditionalNode && n.condition != "" ==> w.holds(n.condition, outputs))
  }

  /** x passed on an earlier level, with an output. */
  ghost predicate Gave(ls: seq<seq<Id>>, k: int, results: map<Id, NodeResult>, x: Id) {
    Before(ls, k, x) && x in results && results[x].Passed? && results[x].output.Some?
  }

  /** `outputs` holds what the nodes before level k gave, and otherwise the seed. */
  ghost predicate LeftBefore(ls: seq<seq<Id>>, k: int, results: map<Id, NodeResult>, seed: map<Id, Value>,
                             outputs: map<Id, Value>) {
    forall x ::
      && (x in outputs <==> Gave(ls, k, results, x) || x in seed)
      && (x in outputs ==> outputs[x] == if Gave(ls, k, results, x) then results[x].output.value else seed[x])
  }

  /** A node that was ready ran to its end and this is its result; any other was skipped in silence. */
  ghost predicate Fate(w: World, g: GraphSpec, depth: nat, outputs: map<Id, Value>, results: map<Id, NodeResult>,
                       tape: seq<Mark>,
                       n: Node)
    requires n in g.nodes
  {
    n.id in results &&
    if Cleared(w, g, results, outputs, n) then
      exists o :: Finished(RunNode(w, g, depth, outputs, n), o, tape, ScopeOf(n)) && results[n.id] == ResultOf(o)
    else results[n.id] == Skipped && Silent(tape, ScopeOf(n))
  }

  /** So it is of node `id` of level k. */
  ghost predicate Explained(w: World, g: GraphSpec, depth: nat, seed: map<Id, Value>, ls: seq<seq<Id>>,
                            results: map<Id, NodeResult>,
                            tape: seq<Mark>, k: int, id: Id) {
    FindNode(g, id).Some? &&
    exists outputs :: LeftBefore(ls, k, results, seed, outputs) && Fate(w, g, depth, outputs, results, tape, FindNode(g, id).value)
  }

  /** The failed ones of a level, in its order. */
  function FailedIn(ids: seq<Id>, results: map<Id, NodeResult>): seq<Id> {
    if ids == [] then []
    else (if ids[0] in results && results[ids[0]].Failed? then [ids[0]] else []) + FailedIn(ids[1..], results)
  }

  /** The failed ones, level by level. */
  function FailedUpTo(ls: seq<seq<Id>>, results: map<Id, NodeResult>): seq<Id> {
    if ls == [] then [] else FailedUpTo(ls[..|ls| - 1], results) + FailedIn(ls[|ls| - 1], results)
  }

  /** The board before level k: everything on it is explained by the tape. */
  ghost predicate Backed(w: World, g: GraphSpec, depth: nat, seed: map<Id, Value>, ls: seq<seq<Id>>, k: int, b: Board,
                         tape: seq<Mark>) {
    && 0 <= k <= |ls| && Reached(ls, k, b.results) && LeftBefore(ls, k, b.results, seed, b.outputs)
    && b.failed == FailedUpTo(ls[..k], b.results)
    && forall j, id | j < k && At(ls, j, id) :: Explained(w, g, depth, seed, ls, b.results, tape, j, id)
  }

  /** Level k is being run: its ready nodes have begun, the others stay silent. */
  ghost predicate Underway(w: World, g: GraphSpec, depth: nat, ls: seq<seq<Id>>, k: int, b: Board, tape: seq<Mark>) {
    forall id | At(ls, k, id) :: FindNode(g, id).Some? && Moving(w, g, depth, b, tape, FindNode(g, id).value)
  }

  ghost predicate Moving(w: World, g: GraphSpec, depth: nat, b: Board, tape: seq<Mark>, n: Node)
    requires n in g.nodes
  {
    if Cleared(w, g, b.results, b.outputs, n) then Begun(RunNode(w, g, depth, b.outputs, n), tape, ScopeOf(n))
    else Silent(tape, ScopeOf(n))
  }

  /** The level loop's test is the same thing. */
  lemma ClearedIsShouldRun(w: World, g: GraphSpec, ls: seq<seq<Id>>, k: nat, b: Board, id: Id)
    requires UniqueIds(g) && LevelsOf(g) == Some(ls) && k < |ls| && id in ls[k] && Reached(ls, k, b.results)
    ensures FindNode(g, id).Some? && (ShouldRun(w, g, b, id) <==> Cleared(w, g, b.results, b.outputs, FindNode(g, id).value))
  {
    LevelIsNew(g, ls, k, id);
    forall e | Orders(g, e) && e.dst == id ensures e.src in b.results && e.src in Parents(g, id) {
      ParentsBeforeLevel(g, ls, k, e);
    }
    forall p | p in Parents(g, id) && p in b.results ensures exists e :: Orders(g, e) && e.dst == id && e.src == p {
      var e :| e in g.edges && e.dst == id && e.src == p;
      var j :| j < k && At(ls, j, p);
      LevelIsNew(g, ls, j, p);
      assert Orders(g, e);
    }
  }

  /** Results that agree before level k, and a tape that shows the node the same. */
  lemma ExplainedMoves(w: World, g: GraphSpec, depth: nat, seed: map<Id, Value>, ls: seq<seq<Id>>, r1: map<Id,
                       NodeResult>,
                       r2: map<Id, NodeResult>, t1: seq<Mark>, t2: seq<Mark>, k: nat, id: Id)
    requires LevelsOf(g) == Some(ls) && k < |ls| && At(ls, k, id) && Explained(w, g, depth, seed, ls, r1, t1, k, id)
    requires forall x | Before(ls, k + 1, x) :: x in r1 && x in r2 && r1[x] == r2[x]
    requires SameViews(t1, t2, ScopeOf(FindNode(g, id).value))
    ensures Explained(w, g, depth, seed, ls, r2, t2, k, id)
  {
    var n := FindNode(g, id).value;
    var outputs :| LeftBefore(ls, k, r1, seed, outputs) && Fate(w, g, depth, outputs, r1, t1, n);
    forall x ensures Gave(ls, k, r1, x) <==> Gave(ls, k, r2, x) { BeforeLater(ls, k, x); }
    forall x | Gave(ls, k, r1, x) ensures r1[x] == r2[x] { BeforeLater(ls, k, x); }
    assert LeftBefore(ls, k, r2, seed, outputs);
    assert Before(ls, k + 1, id) by { BeforeStep(ls, k, id); }
    forall e | Orders(g, e) && e.dst == id ensures e.src in r1 && e.src in r2 && r1[e.src] == r2[e.src] {
      ParentsBeforeLevel(g, ls, k, e);
      BeforeLater(ls, k, e.src);
    }
    assert Cleared(w, g, r1, outputs, n) <==> Cleared(w, g, r2, outputs, n);
    if Cleared(w, g, r1, outputs, n) {
      var o :| Finished(RunNode(w, g, depth, outputs, n), o, t1, ScopeOf(n)) && r1[n.id] == ResultOf(o);
      FinishedMoves(RunNode(w, g, depth, outputs, n), o, t1, t2, ScopeOf(n));
    }
  }

  lemma BeforeLater(ls: seq<seq<Id>>, k: nat, x: Id)
    requires k < |ls|
    ensures Before(ls, k, x) ==> Before(ls, k + 1, x)
  {
    BeforeStep(ls, k, x);
  }

  // ---------- scopes of the levels ----------

  /** Once a node owning x has had its level, no later level speaks for x. */
  lemma OwnerOnce(g: GraphSpec, ls: seq<seq<Id>>, k: nat, id: Id, x: Id)
    requires UniqueIds(g) && LevelsOf(g) == Some(ls) && k < |ls| && id in ls[k] && Owns(g, id, Some(x))
    ensures Some(x) !in TailScope(g, ls[k + 1..])
  {
    LevelsShape(g);
    LevelIsNew(g, ls, k, id);
    var m := FindNode(g, id).value;
    NodeScope(g, m);
    forall l, id2 | l in ls[k + 1..] && id2 in l ensures !Owns(g, id2, Some(x)) {
      var t :| 0 <= t < |ls[k + 1..]| && ls[k + 1..][t] == l;
      assert At(ls, k, id) && At(ls, k + 1 + t, id2);
      if FindNode(g, id2).Some? && id != id2 { ScopesApart(g, m, FindNode(g, id2).value); }
    }
  }

  /** What the levels from k on log leaves an earlier node's view alone. */
  lemma EarlierKept(g: GraphSpec, ls: seq<seq<Id>>, j: nat, k: nat, id: Id, past: seq<Mark>, more: seq<Mark>)
    requires UniqueIds(g) && LevelsOf(g) == Some(ls) && j < k <= |ls| && id in ls[j] && FindNode(g, id).Some?
    requires Inside(more, TailScope(g, ls[k..]))
    ensures SameViews(past, past + more, ScopeOf(FindNode(g, id).value))
  {
    forall who | who in ScopeOf(FindNode(g, id).value) ensures View(past, who) == View(past + more, who) {
      OwnerOnce(g, ls, j, id, who.value);
      assert forall l | l in ls[k..] :: l in ls[j + 1..] by {
        forall l | l in ls[k..] ensures l in ls[j + 1..] {
          var t :| 0 <= t < |ls[k..]| && ls[k..][t] == l;
          assert ls[j + 1..][k - j - 1 + t] == l;
        }
      }
      ViewOutside(more, TailScope(g, ls[k..]), who);
      ViewConcat(past, more, who);
    }
  }

  lemma BackedKept(w: World, g: GraphSpec, depth: nat, seed: map<Id, Value>, ls: seq<seq<Id>>, k: nat, b: Board,
                   past: seq<Mark>,
                   more: seq<Mark>)
    requires UniqueIds(g) && LevelsOf(g) == Some(ls) && k <= |ls| && Backed(w, g, depth, seed, ls, k, b, past)
    requires Inside(more, TailScope(g, ls[k..]))
    ensures Backed(w, g, depth, seed, ls, k, b, past + more)
  {
    forall j, id | j < k && At(ls, j, id) ensures Explained(w, g, depth, seed, ls, b.results, past + more, j, id) {
      assert Explained(w, g, depth, seed, ls, b.results, past, j, id);
      EarlierKept(g, ls, j, k, id, past, more);
      forall x | Before(ls, j + 1, x) ensures x in b.results {
        var i :| i < j + 1 && At(ls, i, x);
        assert i < k && At(ls, i, x);
      }
      ExplainedMoves(w, g, depth, seed, ls, b.results, b.results, past, past + more, j, id);
    }
  }

  // ---------- one level ----------

  /** `x` in the outputs after a node settled with `r`. */
  ghost predicate OutputsAs(before: map<Id, Value>, after: map<Id, Value>, x: Id, r: Option<NodeResult>) {
    if r.Some? && r.value.Passed? && r.value.output.Some? then x in after && after[x] == r.value.output.value
    else (x in after <==> x in before) && (x in before ==> after[x] == before[x])
  }

  lemma {:induction false} SettleAllOutputs(b: Board, ids: seq<Id>, outs: seq<Outcome>)
    requires |ids| == |outs| && NoDup(ids)
    ensures var r := SettleAll(b, ids, outs);
      && (forall i | 0 <= i < |ids| :: OutputsAs(b.outputs, r.outputs, ids[i], Some(ResultOf(outs[i]))))
      && (forall x | x !in ids :: OutputsAs(b.outputs, r.outputs, x, None))
    decreases |ids|
  {
    if ids != [] {
      assert ids == [ids[0]] + ids[1..];
      NoDupParts([ids[0]], ids[1..]);
      var b1, r := Place1(b, ids[0], ResultOf(outs[0])), SettleAll(b, ids, outs);
      SettleAllOutputs(b1, ids[1..], outs[1..]);
      assert ids[0] !in ids[1..];
      forall i | 0 <= i < |ids| ensures OutputsAs(b.outputs, r.outputs, ids[i], Some(ResultOf(outs[i]))) {
        if i > 0 {
          assert OutputsAs(b1.outputs, r.outputs, ids[1..][i - 1], Some(ResultOf(outs[1..][i - 1])));
        } else {
          assert OutputsAs(b1.outputs, r.outputs, ids[0], None);
        }
      }
      forall x | x !in ids ensures OutputsAs(b.outputs, r.outputs, x, None) {
        assert OutputsAs(b1.outputs, r.outputs, x, None);
      }
    }
  }

  /** Results after a level extend those before it. */
  ghost predicate Extends(ls: seq<seq<Id>>, k: int, before: map<Id, NodeResult>, after: map<Id, NodeResult>)
    requires 0 <= k < |ls|
  {
    && Reached(ls, k, before) && (forall x | x in ls[k] :: x !in before)
    && (forall x :: x in after <==> x in before || x in ls[k])
    && forall x | x in before :: after[x] == before[x]
  }

  lemma NextExtends(w: World, g: GraphSpec, ls: seq<seq<Id>>, k: nat, b: Board, outs: seq<Outcome>)
    requires LevelsOf(g) == Some(ls) && k < |ls| && Reached(ls, k, b.results) && |outs| == |Runnable(w, g, b, ls[k])|
    ensures Extends(ls, k, b.results, NextBoard(w, g, b, ls[k], outs).results)
  {
    hide NextBoard;
    NextResults(w, g, ls, k, b, outs);
    LevelUnreached(g, ls, k, b);
  }

  lemma GaveSame(ls: seq<seq<Id>>, k: nat, before: map<Id, NodeResult>, after: map<Id, NodeResult>, x: Id)
    requires k < |ls| && Extends(ls, k, before, after)
    ensures Gave(ls, k, before, x) <==> Gave(ls, k, after, x)
    ensures Gave(ls, k + 1, after, x) <==> Gave(ls, k, before, x) || (x in ls[k] && after[x].Passed? && after[x].output.Some?)
  {
    BeforeStep(ls, k, x);
  }

  lemma LeftSame(ls: seq<seq<Id>>, k: nat, before: map<Id, NodeResult>, after: map<Id, NodeResult>, seed: map<Id,
                 Value>,
                 outputs: map<Id, Value>)
    requires k < |ls| && Extends(ls, k, before, after) && LeftBefore(ls, k, before, seed, outputs)
    ensures LeftBefore(ls, k, after, seed, outputs)
  {
    hide Extends;
    forall x ensures Gave(ls, k, before, x) <==> Gave(ls, k, after, x) { GaveSame(ls, k, before, after, x); }
    forall x | Gave(ls, k, before, x) ensures after[x] == before[x] { ExtendsAt(ls, k, before, after, x); }
  }

  lemma ExtendsAt(ls: seq<seq<Id>>, k: nat, before: map<Id, NodeResult>, after: map<Id, NodeResult>, x: Id)
    requires k < |ls| && Extends(ls, k, before, after) && Before(ls, k, x)
    ensures x in before && x in after && after[x] == before[x]
  {
  }

  /** One id's output after a level. */
  lemma LeftStep(ls: seq<seq<Id>>, k: nat, seed: map<Id, Value>, before: map<Id, NodeResult>, after: map<Id,
                 NodeResult>,
                 outputs: map<Id, Value>, outputs': map<Id, Value>, x: Id)
    requires k < |ls| && Extends(ls, k, before, after) && LeftBefore(ls, k, before, seed, outputs)
    requires OutputsAs(outputs, outputs', x, if x in ls[k] then Some(after[x]) else None)
    ensures x in outputs' <==> Gave(ls, k + 1, after, x) || x in seed
    ensures x in outputs' ==> outputs'[x] == if Gave(ls, k + 1, after, x) then after[x].output.value else seed[x]
  {
    GaveSame(ls, k, before, after, x);
  }

  /** What the next board's outputs hold. */
  lemma NextLeft(w: World, g: GraphSpec, seed: map<Id, Value>, ls: seq<seq<Id>>, k: nat, b: Board, outs: seq<Outcome>)
    requires LevelsOf(g) == Some(ls) && k < |ls| && Reached(ls, k, b.results)
    requires |outs| == |Runnable(w, g, b, ls[k])| && LeftBefore(ls, k, b.results, seed, b.outputs)
    ensures var r := NextBoard(w, g, b, ls[k], outs); LeftBefore(ls, k + 1, r.results, seed, r.outputs)
  {
    var r := NextBoard(w, g, b, ls[k], outs);
    NextExtends(w, g, ls, k, b, outs);
    hide NextBoard, Extends, LeftBefore, OutputsAs;
    forall x
      ensures (x in r.outputs <==> Gave(ls, k + 1, r.results, x) || x in seed)
           && (x in r.outputs ==> r.outputs[x] == if Gave(ls, k + 1, r.results, x) then r.results[x].output.value else seed[x])
    {
      NextOutput(w, g, ls, k, b, outs, x);
      LeftStep(ls, k, seed, b.results, r.results, b.outputs, r.outputs, x);
    }
    LeftAll(ls, k + 1, r.results, seed, r.outputs);
  }

  lemma LeftAll(ls: seq<seq<Id>>, k: int, results: map<Id, NodeResult>, seed: map<Id, Value>, outputs: map<Id, Value>)
    requires forall x ::
      && (x in outputs <==> Gave(ls, k, results, x) || x in seed)
      && (x in outputs ==> outputs[x] == if Gave(ls, k, results, x) then results[x].output.value else seed[x])
    ensures LeftBefore(ls, k, results, seed, outputs)
  {
  }

  lemma NextOutput(w: World, g: GraphSpec, ls: seq<seq<Id>>, k: nat, b: Board, outs: seq<Outcome>, x: Id)
    requires LevelsOf(g) == Some(ls) && k < |ls| && Reached(ls, k, b.results) && |outs| == |Runnable(w, g, b, ls[k])|
    ensures var r := NextBoard(w, g, b, ls[k], outs);
      (x in ls[k] ==> x in r.results) && OutputsAs(b.outputs, r.outputs, x, if x in ls[k] then Some(r.results[x]) else None)
  {
    var run, r := Runnable(w, g, b, ls[k]), NextBoard(w, g, b, ls[k], outs);
    NextResults(w, g, ls, k, b, outs);
    LevelUnreached(g, ls, k, b);
    RunnableNoDup(w, g, b, ls[k]);
    SettleAllOutputs(SkipOthers(b, ls[k], run), run, outs);
    if x in run {
      var i :| 0 <= i < |run| && run[i] == x;
      assert OutputsAs(b.outputs, r.outputs, run[i], Some(ResultOf(outs[i])));
    } else {
      assert OutputsAs(b.outputs, r.outputs, x, None);
    }
  }

  /** A node of this level that ran, or did not. */
  ghost predicate Ran1(w: World, g: GraphSpec, depth: nat, b: Board, run: seq<Id>, outs: seq<Outcome>,
                       tape: seq<Mark>, id: Id)
    requires |outs| == |run|
  {
    FindNode(g, id).Some? &&
    var n := FindNode(g, id).value;
    if id in run then
      exists i :: 0 <= i < |run| && run[i] == id && Finished(RunNode(w, g, depth, b.outputs, n), outs[i], tape, ScopeOf(n))
    else Silent(tape, ScopeOf(n))
  }

  lemma NextExplained(w: World, g: GraphSpec, depth: nat, seed: map<Id, Value>, ls: seq<seq<Id>>, k: nat, b: Board,
                      tape: seq<Mark>,
                      outs: seq<Outcome>, id: Id)
    requires UniqueIds(g) && LevelsOf(g) == Some(ls) && k < |ls| && id in ls[k]
    requires Reached(ls, k, b.results) && LeftBefore(ls, k, b.results, seed, b.outputs)
    requires |outs| == |Runnable(w, g, b, ls[k])| && Ran1(w, g, depth, b, Runnable(w, g, b, ls[k]), outs, tape, id)
    ensures Explained(w, g, depth, seed, ls, NextBoard(w, g, b, ls[k], outs).results, tape, k, id)
  {
    var run, r, n := Runnable(w, g, b, ls[k]), NextBoard(w, g, b, ls[k], outs).results, FindNode(g, id).value;
    NextExtends(w, g, ls, k, b, outs);
    ClearedIsShouldRun(w, g, ls, k, b, id);
    LeftSame(ls, k, b.results, r, seed, b.outputs);
    ClearedSame(w, g, ls, k, b.results, r, b.outputs, n);
    NextFate(w, g, depth, ls, k, b, tape, outs, n);
  }

  lemma ClearedSame(w: World, g: GraphSpec, ls: seq<seq<Id>>, k: nat, before: map<Id, NodeResult>, after: map<Id,
                    NodeResult>,
                  outputs: map<Id, Value>, n: Node)
    requires LevelsOf(g) == Some(ls) && k < |ls| && n.id in ls[k] && Extends(ls, k, before, after)
    ensures Cleared(w, g, before, outputs, n) <==> Cleared(w, g, after, outputs, n)
  {
    forall e | Orders(g, e) && e.dst == n.id ensures e.src in before && e.src in after && after[e.src] == before[e.src] {
      ParentsBeforeLevel(g, ls, k, e);
      ExtendsAt(ls, k, before, after, e.src);
    }
  }

  lemma NextFate(w: World, g: GraphSpec, depth: nat, ls: seq<seq<Id>>, k: nat, b: Board, tape: seq<Mark>,
                 outs: seq<Outcome>,
                 n: Node)
    requires LevelsOf(g) == Some(ls) && k < |ls| && n.id in ls[k] && n in g.nodes && Reached(ls, k, b.results)
    requires |outs| == |Runnable(w, g, b, ls[k])| && FindNode(g, n.id) == Some(n)
    requires Ran1(w, g, depth, b, Runnable(w, g, b, ls[k]), outs, tape, n.id)
    requires var r := NextBoard(w, g, b, ls[k], outs).results; n.id in Runnable(w, g, b, ls[k]) <==> Cleared(w, g, r, b.outputs, n)
    ensures Fate(w, g, depth, b.outputs, NextBoard(w, g, b, ls[k], outs).results, tape, n)
  {
    hide Cleared, RunNode, Finished, Silent;
    NextResults(w, g, ls, k, b, outs);
    hide NextBoard, Runnable, ShouldRun, Reached;
    var run, r := Runnable(w, g, b, ls[k]), NextBoard(w, g, b, ls[k], outs).results;
    if n.id in run {
      var i :| 0 <= i < |run| && run[i] == n.id && Finished(RunNode(w, g, depth, b.outputs, n), outs[i], tape, ScopeOf(n));
      assert r[run[i]] == ResultOf(outs[i]);
    }
  }

  lemma {:induction false} FailedSame(ls: seq<seq<Id>>, r1: map<Id, NodeResult>, r2: map<Id, NodeResult>)
    requires forall l, x | l in ls && x in l :: x in r1 && x in r2 && r1[x] == r2[x]
    ensures FailedUpTo(ls, r1) == FailedUpTo(ls, r2)
  {
    if ls != [] {
      assert forall l | l in ls[..|ls| - 1] :: l in ls;
      assert ls[|ls| - 1] in ls;
      FailedSame(ls[..|ls| - 1], r1, r2);
      FailedInSame(ls[|ls| - 1], r1, r2);
    }
  }

  lemma {:induction false} FailedInSame(ids: seq<Id>, r1: map<Id, NodeResult>, r2: map<Id, NodeResult>)
    requires forall x | x in ids :: x in r1 && x in r2 && r1[x] == r2[x]
    ensures FailedIn(ids, r1) == FailedIn(ids, r2)
  {
    if ids != [] {
      assert ids[0] in ids;
      FailedInSame(ids[1..], r1, r2);
    }
  }

  lemma {:induction false} SettleFailed(b: Board, ids: seq<Id>, outs: seq<Outcome>, results: map<Id, NodeResult>)
    requires |ids| == |outs| && forall i | 0 <= i < |ids| :: ids[i] in results && results[ids[i]] == ResultOf(outs[i])
    ensures SettleAll(b, ids, outs).failed == b.failed + FailedIn(ids, results)
    decreases |ids|
  {
    if ids == [] {
      assert b.failed + [] == b.failed;
    } else {
      var r := ResultOf(outs[0]);
      assert results[ids[0]] == r;
      SettleFailed(Place1(b, ids[0], r), ids[1..], outs[1..], results);
      Associated(b.failed, if r.Failed? then [ids[0]] else [], FailedIn(ids[1..], results));
    }
  }

  lemma Associated(a: seq<Id>, b: seq<Id>, c: seq<Id>)
    ensures a + (b + c) == (a + b) + c && a + [] == a && [] + c == c
  {
  }

  /** Only nodes that run can fail. */
  lemma {:induction false} RunnableFailed(w: World, g: GraphSpec, b: Board, level: seq<Id>, results: map<Id,
                                          NodeResult>)
    requires forall x | x in level && !ShouldRun(w, g, b, x) :: x in results && results[x] == Skipped
    ensures FailedIn(level, results) == FailedIn(Runnable(w, g, b, level), results)
  {
    hide ShouldRun;
    if level != [] {
      var x, rest := level[0], level[1..];
      assert x in level;
      RunnableFailed(w, g, b, rest, results);
      if ShouldRun(w, g, b, x) {
        var run := Runnable(w, g, b, rest);
        assert ([x] + run)[0] == x && ([x] + run)[1..] == run;
      } else {
        assert [] + Runnable(w, g, b, rest) == Runnable(w, g, b, rest);
      }
    }
  }

  /** The failed list grows by the failed ones of the level. */
  lemma NextFailedList(w: World, g: GraphSpec, ls: seq<seq<Id>>, k: nat, b: Board, outs: seq<Outcome>)
    requires LevelsOf(g) == Some(ls) && k < |ls| && Reached(ls, k, b.results) && |outs| == |Runnable(w, g, b, ls[k])|
    requires b.failed == FailedUpTo(ls[..k], b.results)
    ensures NextBoard(w, g, b, ls[k], outs).failed == FailedUpTo(ls[..k + 1], NextBoard(w, g, b, ls[k], outs).results)
  {
    var run, r := Runnable(w, g, b, ls[k]), NextBoard(w, g, b, ls[k], outs);
    NextResults(w, g, ls, k, b, outs);
    SettleFailed(SkipOthers(b, ls[k], run), run, outs, r.results);
    hide NextBoard, LevelsOf, ShouldRun, SettleAll, SkipOthers;
    RunnableFailed(w, g, b, ls[k], r.results);
    assert ls[..k + 1][..k] == ls[..k] && ls[..k + 1][k] == ls[k];
    forall l, x | l in ls[..k] && x in l ensures x in b.results && x in r.results && b.results[x] == r.results[x] {
      var j :| 0 <= j < k && ls[..k][j] == l;
      assert At(ls, j, x);
    }
    FailedSame(ls[..k], b.results, r.results);
  }

  lemma BackedNext(w: World, g: GraphSpec, depth: nat, seed: map<Id, Value>, ls: seq<seq<Id>>, k: nat, b: Board,
                   past: seq<Mark>,
                   front: seq<Mark>, outs: seq<Outcome>)
    requires UniqueIds(g) && LevelsOf(g) == Some(ls) && k < |ls| && Backed(w, g, depth, seed, ls, k, b, past)
    requires Inside(front, TailScope(g, ls[k..])) && |outs| == |Runnable(w, g, b, ls[k])|
    requires forall id | At(ls, k, id) :: Ran1(w, g, depth, b, Runnable(w, g, b, ls[k]), outs, past + front, id)
    ensures Backed(w, g, depth, seed, ls, k + 1, NextBoard(w, g, b, ls[k], outs), past + front)
  {
    hide NextBoard, Runnable, Explained, LeftBefore;
    var r := NextBoard(w, g, b, ls[k], outs);
    NextLeft(w, g, seed, ls, k, b, outs);
    NextResults(w, g, ls, k, b, outs);
    NextFailedList(w, g, ls, k, b, outs);
    forall j, id | j < k + 1 && At(ls, j, id) ensures Explained(w, g, depth, seed, ls, r.results, past + front, j, id) {
      if j == k {
        NextExplained(w, g, depth, seed, ls, k, b, past + front, outs, id);
      } else {
        assert Explained(w, g, depth, seed, ls, b.results, past, j, id);
        ExplainedSome(w, g, depth, seed, ls, b.results, past, j, id);
        EarlierKept(g, ls, j, k, id, past, front);
        forall x | Before(ls, j + 1, x) ensures x in b.results && x in r.results && r.results[x] == b.results[x] {
          var i :| i < j + 1 && At(ls, i, x);
          assert i < k && At(ls, i, x);
        }
        ExplainedMoves(w, g, depth, seed, ls, b.results, r.results, past, past + front, j, id);
      }
    }
  }

  lemma ExplainedSome(w: World, g: GraphSpec, depth: nat, seed: map<Id, Value>, ls: seq<seq<Id>>, results: map<Id,
                      NodeResult>,
                      tape: seq<Mark>, k: int, id: Id)
    requires Explained(w, g, depth, seed, ls, results, tape, k, id)
    ensures FindNode(g, id).Some?
  {
  }

  // ---------- the level loop ----------

  ghost function CompScope(g: GraphSpec): set<Option<Id>> { set x | x in Comps(g) :: Some(x) }

  /** Where a run of the levels from k on has come: to level m, or to compensation. */
  ghost predicate CameTo(w: World, g: GraphSpec, depth: nat, seed: map<Id, Value>, ls: seq<seq<Id>>, m: int,
                         now: Board, p: Proc,
                         tape: seq<Mark>, front: seq<Mark>, last: seq<Step>) {
    && 0 <= m <= |ls| && Backed(w, g, depth, seed, ls, m, now, tape)
    && if m < |ls| then !p.Done? && Underway(w, g, depth, ls, m, now, tape) && Silent(tape, TailScope(g, ls[m + 1..]))
       else
         && Silent(front, CompScope(g)) && Exec(Compensate(g.nodes, now, []), last).Some?
         && p == Exec(Compensate(g.nodes, now, []), last).value.proc
         && tape == front + Exec(Compensate(g.nodes, now, []), last).value.tape
  }

  /** The children of a level, after any run of its gather. */
  lemma KidsShown(w: World, g: GraphSpec, depth: nat, outputs: map<Id, Value>, run: seq<Id>, sched: seq<Step>,
                  front: seq<Mark>, i: nat)
    requires Known(g, run) && i < |run| && ForkRan(NodeKids(w, g, depth, outputs, run), sched, front)
    ensures var n := FindNode(g, run[i]).value;
      Shows(RunNode(w, g, depth, outputs, n), KidSteps(sched, i), front, ScopeOf(n))
  {
    var kids := NodeKids(w, g, depth, outputs, run);
    assert kids[i].body == RunNode(w, g, depth, outputs, FindNode(g, run[i]).value);
  }

  /** Nodes of the level that do not run stay silent, as do compensators. */
  lemma OthersSilent(w: World, g: GraphSpec, depth: nat, outputs: map<Id, Value>, run: seq<Id>, sched: seq<Step>,
                     front: seq<Mark>, n: Node)
    requires UniqueIds(g) && Known(g, run) && n in g.nodes && n.id !in run
    requires ForkRan(NodeKids(w, g, depth, outputs, run), sched, front)
    ensures Silent(front, ScopeOf(n))
  {
    var kids := NodeKids(w, g, depth, outputs, run);
    forall who | who in ScopeOf(n) ensures View(front, who) == [] {
      forall i | 0 <= i < |kids| ensures who !in kids[i].scope { ScopesApart(g, n, FindNode(g, run[i]).value); }
    }
  }

  lemma SilentConcat(a: seq<Mark>, b: seq<Mark>, S: set<Option<Id>>)
    requires Silent(a, S)
    ensures SameViews(b, a + b, S) && (Silent(b, S) ==> Silent(a + b, S))
  {
    forall who | who in S ensures View(a + b, who) == View(b, who) { ViewConcat(a, b, who); }
  }

  /** A node of level k is in the scope of the levels from k on. */
  lemma InTailScope(g: GraphSpec, ls: seq<seq<Id>>, k: nat, n: Node)
    requires UniqueIds(g) && LevelsOf(g) == Some(ls) && k < |ls| && n in g.nodes && n.id in ls[k]
    requires FindNode(g, n.id) == Some(n)
    ensures ScopeOf(n) <= TailScope(g, ls[k..])
  {
    NodeScope(g, n);
    assert ls[k] in ls[k..] by { assert ls[k..][0] == ls[k]; }
    forall who | who in ScopeOf(n) ensures who in TailScope(g, ls[k..]) { assert Owns(g, n.id, who); }
  }

  lemma TailShrinks(g: GraphSpec, ls: seq<seq<Id>>, k: nat)
    requires k < |ls|
    ensures TailScope(g, ls[k + 1..]) <= TailScope(g, ls[k..]) && CompScope(g) <= TailScope(g, ls[k..])
    ensures CompScope(g) <= TailScope(g, ls[k + 1..])
  {
    assert ls[k..] == [ls[k]] + ls[k + 1..];
    assert forall l | l in ls[k + 1..] :: l in ls[k..];
    CompsInScope(g);
  }

  lemma CompsInScope(g: GraphSpec)
    ensures CompScope(g) <= GraphScope(g) && CompScope(g) <= TailScope(g, [])
  {
    forall x | x in Comps(g) ensures Some(x) in GraphScope(g) {
      var n :| n in g.nodes && n.ntype == CompensateNode && n.id == x;
      NodeScope(g, n);
    }
  }

  /** No node of a level speaks for a compensator or for a node of a later level. */
  lemma KidsApart(g: GraphSpec, ls: seq<seq<Id>>, k: nat, id: Id)
    requires UniqueIds(g) && LevelsOf(g) == Some(ls) && k < |ls| && id in ls[k]
    ensures FindNode(g, id).Some? && ScopeOf(FindNode(g, id).value) !! TailScope(g, ls[k + 1..])
  {
    LevelIsNew(g, ls, k, id);
    forall who | who in ScopeOf(FindNode(g, id).value) ensures who !in TailScope(g, ls[k + 1..]) {
      OwnerOnce(g, ls, k, id, who.value);
    }
  }

  /** While level k runs, everything later stays silent. */
  lemma LaterSilent(w: World, g: GraphSpec, depth: nat, outputs: map<Id, Value>, ls: seq<seq<Id>>, k: nat,
                    run: seq<Id>, sched: seq<Step>,
                    past: seq<Mark>, front: seq<Mark>)
    requires UniqueIds(g) && LevelsOf(g) == Some(ls) && k < |ls| && Known(g, run) && forall id | id in run :: id in ls[k]
    requires ForkRan(NodeKids(w, g, depth, outputs, run), sched, front) && Silent(past, TailScope(g, ls[k..]))
    ensures Silent(past + front, TailScope(g, ls[k + 1..]))
  {
    var kids := NodeKids(w, g, depth, outputs, run);
    TailShrinks(g, ls, k);
    forall who | who in TailScope(g, ls[k + 1..]) ensures View(front, who) == [] {
      forall i | 0 <= i < |kids| ensures who !in kids[i].scope { KidsApart(g, ls, k, run[i]); }
    }
    SilentConcat(past, front, TailScope(g, ls[k + 1..]));
  }

  lemma UnderwayNow(w: World, g: GraphSpec, depth: nat, ls: seq<seq<Id>>, k: nat, b: Board, sched: seq<Step>,
                    past: seq<Mark>,
                    front: seq<Mark>)
    requires UniqueIds(g) && LevelsOf(g) == Some(ls) && k < |ls| && Reached(ls, k, b.results)
    requires Known(g, Runnable(w, g, b, ls[k]))
    requires ForkRan(NodeKids(w, g, depth, b.outputs, Runnable(w, g, b, ls[k])), sched, front)
    requires Silent(past, TailScope(g, ls[k..]))
    ensures Underway(w, g, depth, ls, k, b, past + front)
  {
    var run := Runnable(w, g, b, ls[k]);
    forall id | At(ls, k, id) ensures FindNode(g, id).Some? && Moving(w, g, depth, b, past + front, FindNode(g, id).value) {
      ClearedIsShouldRun(w, g, ls, k, b, id);
      var n := FindNode(g, id).value;
      InTailScope(g, ls, k, n);
      SilentConcat(past, front, ScopeOf(n));
      if id in run {
        var i :| 0 <= i < |run| && run[i] == id;
        KidsShown(w, g, depth, b.outputs, run, sched, front, i);
        BegunMoves(RunNode(w, g, depth, b.outputs, n), front, past + front, ScopeOf(n));
      } else {
        OthersSilent(w, g, depth, b.outputs, run, sched, front, n);
      }
    }
  }

  lemma LevelRan(w: World, g: GraphSpec, depth: nat, ls: seq<seq<Id>>, k: nat, b: Board, sched: seq<Step>,
                 past: seq<Mark>,
                 front: seq<Mark>, outs: seq<Outcome>, id: Id)
    requires UniqueIds(g) && LevelsOf(g) == Some(ls) && k < |ls| && At(ls, k, id) && Known(g, Runnable(w, g, b, ls[k]))
    requires ForkRan(NodeKids(w, g, depth, b.outputs, Runnable(w, g, b, ls[k])), sched, front)
    requires KidsDone(NodeKids(w, g, depth, b.outputs, Runnable(w, g, b, ls[k])), sched, outs)
    requires Silent(past, TailScope(g, ls[k..]))
    ensures |outs| == |Runnable(w, g, b, ls[k])|
    ensures Ran1(w, g, depth, b, Runnable(w, g, b, ls[k]), outs, past + front, id)
  {
    var run := Runnable(w, g, b, ls[k]);
    var kids := NodeKids(w, g, depth, b.outputs, run);
    LevelIsNew(g, ls, k, id);
    var n := FindNode(g, id).value;
    InTailScope(g, ls, k, n);
    SilentConcat(past, front, ScopeOf(n));
    if id in run {
      var i :| 0 <= i < |run| && run[i] == id;
      KidsShown(w, g, depth, b.outputs, run, sched, front, i);
      assert kids[i].body == RunNode(w, g, depth, b.outputs, n);
      FinishedMoves(RunNode(w, g, depth, b.outputs, n), outs[i], front, past + front, ScopeOf(n));
    } else {
      OthersSilent(w, g, depth, b.outputs, run, sched, front, n);
    }
  }

  lemma {:induction false} LevelsRun(w: World, g: GraphSpec, depth: nat, seed: map<Id, Value>, ls: seq<seq<Id>>,
                                     k: nat, b: Board,
                                     past: seq<Mark>, sched: seq<Step>)
    returns (m: nat, now: Board, front: seq<Mark>, last: seq<Step>)
    requires UniqueIds(g) && LevelsOf(g) == Some(ls) && k <= |ls| && Backed(w, g, depth, seed, ls, k, b, past)
    requires (forall l | l in ls :: Known(g, l) && NoDup(l)) && Silent(past, TailScope(g, ls[k..]))
    requires Exec(RunLevels(w, g, depth, ls[k..], b), sched).Some?
    ensures var r := Exec(RunLevels(w, g, depth, ls[k..], b), sched).value;
      CameTo(w, g, depth, seed, ls, m, now, r.proc, past + r.tape, front, last)
    decreases |ls| - k
  {
    hide CameTo, Backed, Runnable, Silent, TailScope;
    if k == |ls| {
      m, now, front, last := k, b, past, sched;
      CompensatesOnly(w, g, depth, seed, ls, b, past, sched);
    } else {
      assert ls[k..][0] == ls[k] && ls[k..][1..] == ls[k + 1..] && ls[k] in ls;
      var run := Runnable(w, g, b, ls[k]);
      if run == [] {
        NoneRan(w, g, depth, seed, ls, k, b, past);
        m, now, front, last := LevelsRun(w, g, depth, seed, ls, k + 1, NextBoard(w, g, b, ls[k], []), past, sched);
      } else {
        m, now, front, last := OneLevelRun(w, g, depth, seed, ls, k, b, past, sched);
      }
    }
  }

  lemma CompensatesOnly(w: World, g: GraphSpec, depth: nat, seed: map<Id, Value>, ls: seq<seq<Id>>, b: Board,
                        past: seq<Mark>,
                        sched: seq<Step>)
    requires UniqueIds(g) && LevelsOf(g) == Some(ls) && Backed(w, g, depth, seed, ls, |ls|, b, past)
    requires Silent(past, TailScope(g, ls[|ls|..])) && Exec(RunLevels(w, g, depth, ls[|ls|..], b), sched).Some?
    ensures var r := Exec(RunLevels(w, g, depth, ls[|ls|..], b), sched).value;
      CameTo(w, g, depth, seed, ls, |ls|, b, r.proc, past + r.tape, past, sched)
  {
    assert ls[|ls|..] == [];
    CompsInScope(g);
    CleanLevels(w, g, depth, [], b);
    TidyExec(RunLevels(w, g, depth, [], b), sched, TailScope(g, []));
    BackedKept(w, g, depth, seed, ls, |ls|, b, past, Exec(RunLevels(w, g, depth, [], b), sched).value.tape);
  }

  /** A level none of whose nodes runs. */
  lemma NoneRan(w: World, g: GraphSpec, depth: nat, seed: map<Id, Value>, ls: seq<seq<Id>>, k: nat, b: Board,
                past: seq<Mark>)
    requires UniqueIds(g) && LevelsOf(g) == Some(ls) && k < |ls| && Backed(w, g, depth, seed, ls, k, b, past)
    requires Runnable(w, g, b, ls[k]) == [] && Silent(past, TailScope(g, ls[k..]))
    ensures NextBoard(w, g, b, ls[k], []) == SkipOthers(b, ls[k], [])
    ensures Backed(w, g, depth, seed, ls, k + 1, NextBoard(w, g, b, ls[k], []), past)
    ensures Silent(past, TailScope(g, ls[k + 1..]))
  {
    hide Backed, RunNode;
    TailShrinks(g, ls, k);
    assert past + [] == past;
    forall id | At(ls, k, id) ensures Ran1(w, g, depth, b, [], [], past, id) {
      LevelIsNew(g, ls, k, id);
      InTailScope(g, ls, k, FindNode(g, id).value);
    }
    BackedNext(w, g, depth, seed, ls, k, b, past, [], []);
  }

  lemma OneLevelRun(w: World, g: GraphSpec, depth: nat, seed: map<Id, Value>, ls: seq<seq<Id>>, k: nat, b: Board,
                    past: seq<Mark>,
                    sched: seq<Step>)
    returns (m: nat, now: Board, front: seq<Mark>, last: seq<Step>)
    requires UniqueIds(g) && LevelsOf(g) == Some(ls) && k < |ls| && Backed(w, g, depth, seed, ls, k, b, past)
    requires (forall l | l in ls :: Known(g, l) && NoDup(l)) && Silent(past, TailScope(g, ls[k..]))
    requires Exec(RunLevels(w, g, depth, ls[k..], b), sched).Some? && Runnable(w, g, b, ls[k]) != []
    ensures var r := Exec(RunLevels(w, g, depth, ls[k..], b), sched).value;
      CameTo(w, g, depth, seed, ls, m, now, r.proc, past + r.tape, front, last)
    decreases |ls| - k, 0
  {
    var p, joined, outs, head := LevelFork(w, g, depth, ls, k, b, sched);
    hide *;
    var r := Exec(p, sched).value;
    if !joined {
      MidwayRun(w, g, depth, seed, ls, k, b, past, head, sched, r.proc);
      m, now, front, last := k, b, past + head, [];
    } else {
      LevelDone(w, g, depth, seed, ls, k, b, past, head, sched, outs);
      var rest := Exec(p.join(outs), AfterJoin(sched)).value.tape;
      TapesAssociate(past, head, rest);
      m, now, front, last := LevelsRun(w, g, depth, seed, ls, k + 1, NextBoard(w, g, b, ls[k], outs), past + head, AfterJoin(sched));
    }
  }

  lemma TapesAssociate(a: seq<Mark>, b: seq<Mark>, c: seq<Mark>)
    ensures a + (b + c) == (a + b) + c
  {
  }

  /** The level is being run. */
  lemma MidwayRun(w: World, g: GraphSpec, depth: nat, seed: map<Id, Value>, ls: seq<seq<Id>>, k: nat, b: Board,
                  past: seq<Mark>,
                  head: seq<Mark>, sched: seq<Step>, p: Proc)
    requires UniqueIds(g) && LevelsOf(g) == Some(ls) && k < |ls| && Backed(w, g, depth, seed, ls, k, b, past) && p.Fork?
    requires Silent(past, TailScope(g, ls[k..])) && Known(g, Runnable(w, g, b, ls[k]))
    requires Inside(head, TailScope(g, ls[k..]))
    requires ForkRan(NodeKids(w, g, depth, b.outputs, Runnable(w, g, b, ls[k])), sched, head)
    ensures CameTo(w, g, depth, seed, ls, k, b, p, past + head, past + head, [])
  {
    hide RunLevels, CameTo, Backed, Silent, TailScope, ForkRan, Underway, LevelsOf;
    BackedReached(w, g, depth, seed, ls, k, b, past);
    UnderwayNow(w, g, depth, ls, k, b, sched, past, head);
    BackedKept(w, g, depth, seed, ls, k, b, past, head);
    LaterSilent(w, g, depth, b.outputs, ls, k, Runnable(w, g, b, ls[k]), sched, past, head);
    CameMidway(w, g, depth, seed, ls, k, b, p, past + head, past + head, []);
  }

  /** The level is done. */
  lemma LevelDone(w: World, g: GraphSpec, depth: nat, seed: map<Id, Value>, ls: seq<seq<Id>>, k: nat, b: Board,
                  past: seq<Mark>,
                  head: seq<Mark>, sched: seq<Step>, outs: seq<Outcome>)
    requires UniqueIds(g) && LevelsOf(g) == Some(ls) && k < |ls| && Backed(w, g, depth, seed, ls, k, b, past)
    requires Silent(past, TailScope(g, ls[k..])) && Known(g, Runnable(w, g, b, ls[k]))
    requires Inside(head, TailScope(g, ls[k..]))
    requires ForkRan(NodeKids(w, g, depth, b.outputs, Runnable(w, g, b, ls[k])), sched, head)
    requires KidsDone(NodeKids(w, g, depth, b.outputs, Runnable(w, g, b, ls[k])), sched, outs)
    ensures Backed(w, g, depth, seed, ls, k + 1, NextBoard(w, g, b, ls[k], outs), past + head)
    ensures Silent(past + head, TailScope(g, ls[k + 1..]))
  {
    hide RunLevels, Backed, Silent, TailScope, ForkRan, KidsDone, LevelsOf, NextBoard;
    var run := Runnable(w, g, b, ls[k]);
    BackedReached(w, g, depth, seed, ls, k, b, past);
    DoneLength(NodeKids(w, g, depth, b.outputs, run), sched, outs);
    forall id | At(ls, k, id) ensures Ran1(w, g, depth, b, run, outs, past + head, id) {
      LevelRan(w, g, depth, ls, k, b, sched, past, head, outs, id);
    }
    BackedNext(w, g, depth, seed, ls, k, b, past, head, outs);
    LaterSilent(w, g, depth, b.outputs, ls, k, run, sched, past, head);
  }

  lemma DoneLength(kids: seq<Kid>, sched: seq<Step>, outs: seq<Outcome>)
    requires KidsDone(kids, sched, outs)
    ensures |outs| == |kids|
  {
  }

  lemma BackedReached(w: World, g: GraphSpec, depth: nat, seed: map<Id, Value>, ls: seq<seq<Id>>, k: int, b: Board,
                      tape: seq<Mark>)
    requires Backed(w, g, depth, seed, ls, k, b, tape)
    ensures Reached(ls, k, b.results) && LeftBefore(ls, k, b.results, seed, b.outputs)
  {
  }

  lemma CameMidway(w: World, g: GraphSpec, depth: nat, seed: map<Id, Value>, ls: seq<seq<Id>>, k: nat, b: Board,
                   p: Proc, tape: seq<Mark>,
                   front: seq<Mark>, last: seq<Step>)
    requires k < |ls| && Backed(w, g, depth, seed, ls, k, b, tape) && p.Fork? && Underway(w, g, depth, ls, k, b, tape)
    requires Silent(tape, TailScope(g, ls[k + 1..]))
    ensures CameTo(w, g, depth, seed, ls, k, b, p, tape, front, last)
  {
  }

  /** The gather of level k, and what any run makes of it. */
  lemma LevelFork(w: World, g: GraphSpec, depth: nat, ls: seq<seq<Id>>, k: nat, b: Board, sched: seq<Step>)
    returns (p: Proc, joined: bool, outs: seq<Outcome>, head: seq<Mark>)
    requires UniqueIds(g) && k < |ls| && (forall l | l in ls :: Known(g, l) && NoDup(l))
    requires Exec(RunLevels(w, g, depth, ls[k..], b), sched).Some? && Runnable(w, g, b, ls[k]) != []
    ensures p == RunLevels(w, g, depth, ls[k..], b) && p.Fork? && Known(g, Runnable(w, g, b, ls[k]))
    ensures p.kids == NodeKids(w, g, depth, b.outputs, Runnable(w, g, b, ls[k])) && ForkRan(p.kids, sched, head)
    ensures Inside(head, TailScope(g, ls[k..]))
    ensures var r := Exec(p, sched).value;
      if joined then
        && KidsDone(p.kids, sched, outs) && p.join(outs) == RunLevels(w, g, depth, ls[k + 1..], NextBoard(w, g, b, ls[k], outs))
        && |AfterJoin(sched)| < |sched| && Exec(p.join(outs), AfterJoin(sched)).Some?
        && r.proc == Exec(p.join(outs), AfterJoin(sched)).value.proc && r.tape == head + Exec(p.join(outs), AfterJoin(sched)).value.tape
      else r.proc.Fork? && r.tape == head
  {
    p := RunLevels(w, g, depth, ls[k..], b);
    assert ls[k..][0] == ls[k] && ls[k..][1..] == ls[k + 1..] && ls[k] in ls;
    assert forall l | l in ls[k..] :: l in ls;
    CleanLevels(w, g, depth, ls[k..], b);
    hide ForkRan, KidsDone, Tidy;
    joined, outs, head := ForkRun(p.kids, p.join, TailScope(g, ls[k..]), sched);
    TidyExec(p, sched, TailScope(g, ls[k..]));
    InsideFront(head, Exec(p, sched).value.tape, TailScope(g, ls[k..]));
    if joined { DoneLength(p.kids, sched, outs); }
  }

  lemma InsideFront(a: seq<Mark>, whole: seq<Mark>, S: set<Option<Id>>)
    requires a <= whole && Inside(whole, S)
    ensures Inside(a, S)
  {
    forall m | m in a ensures Who(m) in S { assert m in whole; }
  }

  // ---------- whole graphs, nested graphs ----------

  /** A task with one child, awaited: its tape is the child's, and then the continuation's. */
  lemma {:induction false} WrapRun(kids: seq<Kid>, join: seq<Outcome> -> Proc, sched: seq<Step>)
    returns (joined: bool)
    requires |kids| == 1 && kids[0].late.None? && Exec(Fork(kids, join), sched).Some?
    ensures Exec(kids[0].body, KidSteps(sched, 0)).Some?
    ensures var r, kid := Exec(Fork(kids, join), sched).value, Exec(kids[0].body, KidSteps(sched, 0)).value;
      if joined then
        && kid.proc.Done? && Exec(join([kid.proc.out]), AfterJoin(sched)).Some?
        && r.proc == Exec(join([kid.proc.out]), AfterJoin(sched)).value.proc
        && r.tape == kid.tape + Exec(join([kid.proc.out]), AfterJoin(sched)).value.tape
      else r.proc.Fork? && r.tape == kid.tape
    decreases |sched|
  {
    if sched == [] {
      joined := false;
    } else if sched[0].Join? {
      joined := true;
      assert Outs(kids) == [kids[0].body.out];
      var rest := Exec(join([kids[0].body.out]), sched[1..]).value.tape;
      assert [] + rest == rest;
    } else {
      var inner := sched[0].step;
      var f := Fire(kids[0].body, inner).value;
      var kids' := kids[0 := kids[0].(body := f.next)];
      joined := WrapRun(kids', join, sched[1..]);
      var before := KidSteps(sched[1..], 0);
      assert KidSteps(sched, 0) == [inner] + before && ([inner] + before)[1..] == before;
      if joined {
        var kid := Exec(f.next, before).value;
        var rest := Exec(join([kid.proc.out]), AfterJoin(sched)).value.tape;
        assert f.marks + (kid.tape + rest) == (f.marks + kid.tape) + rest;
      }
    }
  }

  lemma StartBacked(w: World, g: GraphSpec, depth: nat, seed: map<Id, Value>, ls: seq<seq<Id>>)
    ensures Backed(w, g, depth, seed, ls, 0, Board(map[], seed, []), []) && Silent([], TailScope(g, ls[0..]))
  {
    hide Explained, TailScope;
  }

  lemma GraphRun(w: World, g: GraphSpec, depth: nat, seed: map<Id, Value>, sched: seq<Step>)
    returns (m: nat, now: Board, front: seq<Mark>, last: seq<Step>)
    requires UniqueIds(g) && LevelsOf(g).Some? && Exec(RunGraph(w, g, depth, seed), sched).Some?
    ensures var r := Exec(RunGraph(w, g, depth, seed), sched).value;
      CameTo(w, g, depth, seed, LevelsOf(g).value, m, now, r.proc, r.tape, front, last)
  {
    var ls, b := LevelsOf(g).value, Board(map[], seed, []);
    LevelsClean(g, ls);
    assert ls[0..] == ls;
    var r := Exec(RunGraph(w, g, depth, seed), sched).value;
    assert [] + r.tape == r.tape;
    StartBacked(w, g, depth, seed, ls);
    hide CameTo, Backed, LevelsOf, Silent, RunLevels;
    m, now, front, last := LevelsRun(w, g, depth, seed, ls, 0, b, [], sched);
  }

  /** Node n of level k began once everything it waits for had passed; all before it is explained. */
  ghost predicate Story(w: World, g: GraphSpec, depth: nat, seed: map<Id, Value>, tape: seq<Mark>, n: Node,
                        ls: seq<seq<Id>>, k: nat, results: map<Id, NodeResult>, outputs: map<Id, Value>)
    requires n in g.nodes
  {
    && LevelsOf(g) == Some(ls) && At(ls, k, n.id)
    && LeftBefore(ls, k, results, seed, outputs) && Cleared(w, g, results, outputs, n)
    && Begun(RunNode(w, g, depth, outputs, n), tape, ScopeOf(n))
    && forall j, id | j < k && At(ls, j, id) :: Explained(w, g, depth, seed, ls, results, tape, j, id)
  }

  /** Whoever logs anything has a story. */
  lemma NodeStory(w: World, g: GraphSpec, depth: nat, seed: map<Id, Value>, sched: seq<Step>, n: Node)
    returns (ls: seq<seq<Id>>, k: nat, results: map<Id, NodeResult>, outputs: map<Id, Value>)
    requires UniqueIds(g) && n in g.nodes && n.ntype != CompensateNode
    requires Exec(RunGraph(w, g, depth, seed), sched).Some?
    requires !Silent(Exec(RunGraph(w, g, depth, seed), sched).value.tape, ScopeOf(n))
    ensures Story(w, g, depth, seed, Exec(RunGraph(w, g, depth, seed), sched).value.tape, n, ls, k, results, outputs)
  {
    var r := Exec(RunGraph(w, g, depth, seed), sched).value;
    if LevelsOf(g).None? { NoLevelsSilent(w, g, depth, seed, sched, ScopeOf(n)); }
    ls := LevelsOf(g).value;
    var m, now, front, last := GraphRun(w, g, depth, seed, sched);
    assert n.id in Steps(g) by { StepNode(g, n); }
    LevelsShape(g);
    k :| At(ls, k, n.id);
    SameNode(g, n, FindNode(g, n.id).value);
    if k < m {
      results, outputs := StoryBefore(w, g, depth, seed, r.tape, n, ls, k, m, now);
    } else if k == m {
      results, outputs := now.results, now.outputs;
    } else {
      NotYet(g, ls, m, k, n, r.tape);
    }
  }

  lemma NoLevelsSilent(w: World, g: GraphSpec, depth: nat, seed: map<Id, Value>, sched: seq<Step>, S: set<Option<Id>>)
    requires LevelsOf(g).None? && Exec(RunGraph(w, g, depth, seed), sched).Some?
    ensures Silent(Exec(RunGraph(w, g, depth, seed), sched).value.tape, S)
  {
    assert sched == [];
  }

  lemma NotYet(g: GraphSpec, ls: seq<seq<Id>>, m: nat, k: nat, n: Node, tape: seq<Mark>)
    requires UniqueIds(g) && LevelsOf(g) == Some(ls) && m < k < |ls| && n in g.nodes && n.id in ls[k]
    requires FindNode(g, n.id) == Some(n)
    requires Silent(tape, TailScope(g, ls[m + 1..]))
    ensures Silent(tape, ScopeOf(n))
  {
    InTailScope(g, ls, k, n);
    TailsNest(g, ls, m + 1, k);
  }

  lemma StepNode(g: GraphSpec, n: Node)
    requires UniqueIds(g) && n in g.nodes && n.ntype != CompensateNode
    ensures n.id in Steps(g)
  {
    if n.id in Comps(g) {
      var c :| c in g.nodes && c.ntype == CompensateNode && c.id == n.id;
      SameNode(g, c, n);
    }
  }

  lemma TailsNest(g: GraphSpec, ls: seq<seq<Id>>, j: nat, k: nat)
    requires j <= k <= |ls|
    ensures TailScope(g, ls[k..]) <= TailScope(g, ls[j..])
  {
    forall l | l in ls[k..] ensures l in ls[j..] {
      var t :| 0 <= t < |ls[k..]| && ls[k..][t] == l;
      assert ls[j..][k - j + t] == l;
    }
  }

  lemma StoryBefore(w: World, g: GraphSpec, depth: nat, seed: map<Id, Value>, tape: seq<Mark>, n: Node,
                    ls: seq<seq<Id>>, k: nat, m: nat, now: Board)
    returns (results: map<Id, NodeResult>, outputs: map<Id, Value>)
    requires UniqueIds(g) && n in g.nodes && FindNode(g, n.id) == Some(n) && LevelsOf(g) == Some(ls) && k < m
    requires At(ls, k, n.id)
    requires Backed(w, g, depth, seed, ls, m, now, tape) && !Silent(tape, ScopeOf(n))
    ensures Story(w, g, depth, seed, tape, n, ls, k, results, outputs)
  {
    assert Explained(w, g, depth, seed, ls, now.results, tape, k, n.id);
    outputs :| LeftBefore(ls, k, now.results, seed, outputs) && Fate(w, g, depth, outputs, now.results, tape, n);
    results := now.results;
    if !Cleared(w, g, results, outputs, n) { assert false; }
    var o :| Finished(RunNode(w, g, depth, outputs, n), o, tape, ScopeOf(n)) && results[n.id] == ResultOf(o);
    FinishedBegan(RunNode(w, g, depth, outputs, n), o, tape, ScopeOf(n));
    forall j, id | j < k && At(ls, j, id) ensures Explained(w, g, depth, seed, ls, results, tape, j, id) { }
  }

  lemma StoryMoves(w: World, g: GraphSpec, depth: nat, seed: map<Id, Value>, t1: seq<Mark>, t2: seq<Mark>, n: Node,
                   ls: seq<seq<Id>>, k: nat, results: map<Id, NodeResult>, outputs: map<Id, Value>)
    requires n in g.nodes && Story(w, g, depth, seed, t1, n, ls, k, results, outputs)
    requires SameViews(t1, t2, GraphScope(g))
    ensures Story(w, g, depth, seed, t2, n, ls, k, results, outputs)
  {
    hide RunNode;
    NodeScope(g, n);
    BegunMoves(RunNode(w, g, depth, outputs, n), t1, t2, ScopeOf(n));
    forall j, id | j < k && At(ls, j, id) ensures Explained(w, g, depth, seed, ls, results, t2, j, id) {
      assert Explained(w, g, depth, seed, ls, results, t1, j, id);
      ExplainedSees(w, g, depth, seed, ls, results, t1, t2, j, id);
    }
  }

  lemma ExplainedSees(w: World, g: GraphSpec, depth: nat, seed: map<Id, Value>, ls: seq<seq<Id>>, results: map<Id,
                      NodeResult>,
                      t1: seq<Mark>, t2: seq<Mark>, k: int, id: Id)
    requires Explained(w, g, depth, seed, ls, results, t1, k, id) && SameViews(t1, t2, GraphScope(g))
    ensures Explained(w, g, depth, seed, ls, results, t2, k, id)
  {
    hide RunNode;
    var n := FindNode(g, id).value;
    NodeScope(g, n);
    var outputs :| LeftBefore(ls, k, results, seed, outputs) && Fate(w, g, depth, outputs, results, t1, n);
    if Cleared(w, g, results, outputs, n) {
      var o :| Finished(RunNode(w, g, depth, outputs, n), o, t1, ScopeOf(n)) && results[n.id] == ResultOf(o);
      FinishedMoves(RunNode(w, g, depth, outputs, n), o, t1, t2, ScopeOf(n));
    }
    assert Fate(w, g, depth, outputs, results, t2, n);
  }

  // ---------- nested graphs ----------

  /** `h` is run, `depth'` graphs deep and from `seed'`, as part of this run of `g`. */
  ghost predicate RunsIn(w: World, g: GraphSpec, depth: nat, seed: map<Id, Value>, tape: seq<Mark>,
                         h: GraphSpec, depth': nat, seed': map<Id, Value>)
    decreases g
  {
    || (h == g && depth' == depth && seed' == seed)
    || exists m, from :: m in g.nodes && m.ntype == SubgraphNode && m.subgraph.Some? && depth < MAX_SUBGRAPH_DEPTH
         && Handed(w, g, depth, seed, tape, m, from)
         && RunsIn(w, m.subgraph.value, depth + 1, from, tape, h, depth', seed')
  }

  /** Nested node m was run, and its graph started from `from`. */
  ghost predicate Handed(w: World, g: GraphSpec, depth: nat, seed: map<Id, Value>, tape: seq<Mark>, m: Node,
                         from: map<Id, Value>)
    requires m in g.nodes
  {
    exists ls, k: nat, results, outputs :: Story(w, g, depth, seed, tape, m, ls, k, results, outputs) && SeedFrom(g, outputs, m.id, from)
  }

  /** What a nested graph's node shows, the run of the nested graph shows. */
  lemma ChildRun(w: World, g: GraphSpec, depth: nat, outputs: map<Id, Value>, m: Node, tape: seq<Mark>)
    returns (s: seq<Step>)
    requires m in g.nodes && m.ntype == SubgraphNode && m.subgraph.Some?
    requires Begun(RunNode(w, g, depth, outputs, m), tape, ScopeOf(m)) && !Silent(tape, GraphScope(m.subgraph.value))
    ensures depth < MAX_SUBGRAPH_DEPTH && Validate(m.subgraph.value) == Problems([])
    ensures Shows(RunGraph(w, m.subgraph.value, depth + 1, ChildSeed(g, outputs, m.id)), s, tape, GraphScope(m.subgraph.value))
  {
    hide RunGraph, Validate, ChildSeed, View;
    var p, sub := SubgraphRun(w, g, depth, outputs, m), m.subgraph.value;
    var sched :| Shows(p, sched, tape, ScopeOf(m));
    if p.Done? { DoneSilent(p.out, sched, GraphScope(sub)); }
    var joined := WrapRun(p.kids, p.join, sched);
    s := KidSteps(sched, 0);
    var kid := Exec(p.kids[0].body, s).value;
    if joined {
      var last := p.join([kid.proc.out]);
      assert last.Done?;
      DoneSilent(last.out, AfterJoin(sched), GraphScope(sub));
      assert kid.tape + [] == kid.tape;
    }
  }

  lemma DoneSilent(o: Outcome, sched: seq<Step>, S: set<Option<Id>>)
    requires Exec(Done(o), sched).Some?
    ensures Exec(Done(o), sched).value == Run(Done(o), []) && Silent([], S)
  {
    if sched != [] { assert Fire(Done(o), sched[0]).None?; }
  }

  /** A compensator's nested graph is never run, and no other node but a nested graph speaks for more than itself. */
  lemma OnlyNestedSpeak(w: World, g: GraphSpec, depth: nat, seed: map<Id, Value>, sched: seq<Step>, c: Node, x: Id)
    requires UniqueIds(g) && c in g.nodes && c.ntype == CompensateNode && Some(x) in ScopeOf(c) && x != c.id
    requires Exec(RunGraph(w, g, depth, seed), sched).Some?
    ensures View(Exec(RunGraph(w, g, depth, seed), sched).value.tape, Some(x)) == []
  {
    if LevelsOf(g).None? {
      NoLevelsSilent(w, g, depth, seed, sched, {Some(x)});
    } else {
      var ls := LevelsOf(g).value;
      LevelsClean(g, ls);
      CleanLevels(w, g, depth, ls, Board(map[], seed, []));
      TidyExec(RunGraph(w, g, depth, seed), sched, TailScope(g, ls));
      NodeScope(g, c);
      forall l, id | l in ls && id in l ensures !Owns(g, id, Some(x)) {
        var k :| 0 <= k < |ls| && ls[k] == l;
        LevelIsNew(g, ls, k, id);
        ScopesApart(g, c, FindNode(g, id).value);
      }
      assert x !in Comps(g);
      ViewOutside(Exec(RunGraph(w, g, depth, seed), sched).value.tape, TailScope(g, ls), Some(x));
    }
  }

  lemma LeafSpeaks(w: World, g: GraphSpec, depth: nat, outputs: map<Id, Value>, c: Node, tape: seq<Mark>, x: Id)
    requires c in g.nodes && c.ntype != SubgraphNode && Some(x) in ScopeOf(c) && x != c.id
    requires Begun(RunNode(w, g, depth, outputs, c), tape, ScopeOf(c))
    ensures View(tape, Some(x)) == []
  {
    hide RunNode;
    var p := RunNode(w, g, depth, outputs, c);
    var s :| Shows(p, s, tape, ScopeOf(c));
    CleanLeaf(w, g, depth, outputs, c);
    TidyExec(p, s, {Some(c.id)});
    ViewOutside(Exec(p, s).value.tape, {Some(c.id)}, Some(x));
  }

  /** At any depth: a node of nested graph h that logs anything has a story there. */
  lemma {:induction false} NestedStory(w: World, g: GraphSpec, depth: nat, seed: map<Id, Value>, s: seq<Step>,
                                       tape: seq<Mark>,
                                       h: GraphSpec, n: Node)
    returns (depth': nat, seed': map<Id, Value>, ls: seq<seq<Id>>, k: nat, results: map<Id, NodeResult>, outputs: map<Id, Value>)
    requires UniqueIds(g) && Within(h, g) && n in h.nodes && n.ntype != CompensateNode && View(tape, Some(n.id)) != []
    requires Shows(RunGraph(w, g, depth, seed), s, tape, GraphScope(g))
    ensures RunsIn(w, g, depth, seed, tape, h, depth', seed')
    ensures Story(w, h, depth', seed', tape, n, ls, k, results, outputs)
    decreases g
  {
    hide RunGraph, RunNode, Story, View;
    var own := Exec(RunGraph(w, g, depth, seed), s).value.tape;
    IdsWithin(h, g, n);
    assert View(own, Some(n.id)) != [];
    if h == g {
      assert Some(n.id) in ScopeOf(n);
      depth', seed' := depth, seed;
      ls, k, results, outputs := NodeStory(w, g, depth, seed, s, n);
      StoryMoves(w, g, depth, seed, own, tape, n, ls, k, results, outputs);
    } else {
      var m :| m in g.nodes && m.subgraph.Some? && Within(h, m.subgraph.value);
      IdsWithin(h, m.subgraph.value, n);
      NodeScope(g, m);
      NestedNotOwn(g, m, n.id);
      assert m.id in Ids(g) && m.id != n.id;
      if m.ntype == CompensateNode { OnlyNestedSpeak(w, g, depth, seed, s, m, n.id); }
      var ls1, k1, results1, outputs1 := NodeStory(w, g, depth, seed, s, m);
      StoryMoves(w, g, depth, seed, own, tape, m, ls1, k1, results1, outputs1);
      StoryBegan(w, g, depth, seed, tape, m, ls1, k1, results1, outputs1);
      if m.ntype != SubgraphNode { LeafSpeaks(w, g, depth, outputs1, m, tape, n.id); }
      var s1 := ChildRun(w, g, depth, outputs1, m, tape);
      var from := ChildSeed(g, outputs1, m.id);
      ChildSeedIs(g, outputs1, m.id);
      assert Handed(w, g, depth, seed, tape, m, from);
      depth', seed', ls, k, results, outputs := NestedStory(w, m.subgraph.value, depth + 1, from, s1, tape, h, n);
    }
  }

  lemma StoryBegan(w: World, g: GraphSpec, depth: nat, seed: map<Id, Value>, tape: seq<Mark>, n: Node,
                   ls: seq<seq<Id>>, k: nat, results: map<Id, NodeResult>, outputs: map<Id, Value>)
    requires n in g.nodes && Story(w, g, depth, seed, tape, n, ls, k, results, outputs)
    ensures Begun(RunNode(w, g, depth, outputs, n), tape, ScopeOf(n))
  {
  }

  /** A whole run is its graph's run between two rows of its own. */
  lemma WholeRun(w: World, g: GraphSpec, sched: seq<Step>) returns (s: seq<Step>, rest: seq<Mark>)
    requires Exec(RunWhole(w, g), sched).Some?
    requires !Silent(Exec(RunWhole(w, g), sched).value.tape, GraphScope(g))
    ensures UniqueIds(g) && Validate(g) == Problems([]) && Exec(RunGraph(w, g, 0, map[]), s).Some?
    ensures var r, kid := Exec(RunWhole(w, g), sched).value, Exec(RunGraph(w, g, 0, map[]), s).value;
      && r.tape == [Wrote(Event(RunStart, None), FREE)] + kid.tape + rest
      && (forall m | m in rest :: Who(m) == None)
      && (r.proc.Done? ==> kid.proc == r.proc)
    ensures Shows(RunGraph(w, g, 0, map[]), s, Exec(RunWhole(w, g), sched).value.tape, GraphScope(g))
  {
    hide RunGraph, Validate, RunWhole, Shows, Silent, AfterRun;
    var first, r := [Wrote(Event(RunStart, None), FREE)], Exec(RunWhole(w, g), sched).value;
    WholeStarts(w, g, sched);
    var fork, after := WholeFork(w, g, sched);
    var joined := WrapRun(fork.kids, fork.join, after);
    s := KidSteps(after, 0);
    var kid := Exec(RunGraph(w, g, 0, map[]), s).value;
    rest := [];
    if joined {
      rest := Exec(AfterRun(kid.proc.out), AfterJoin(after)).value.tape;
      AfterRunRows(kid.proc.out, AfterJoin(after));
    }
    assert kid.tape + [] == kid.tape;
    assert first + (kid.tape + rest) == first + kid.tape + rest;
    WholeViews(first, kid.tape, rest, GraphScope(g));
    ShownBy(RunGraph(w, g, 0, map[]), s, r.tape, GraphScope(g));
  }

  lemma ShownBy(p: Proc, s: seq<Step>, tape: seq<Mark>, S: set<Option<Id>>)
    requires Exec(p, s).Some? && SameViews(tape, Exec(p, s).value.tape, S)
    ensures Shows(p, s, tape, S)
  {
  }

  /** A run that starts: the row, and then the graph as its only child. */
  lemma WholeFork(w: World, g: GraphSpec, sched: seq<Step>) returns (fork: Proc, after: seq<Step>)
    requires Exec(RunWhole(w, g), sched).Some? && sched != [] && sched[0] == Commit
    requires UniqueIds(g) && Validate(g) == Problems([])
    ensures after == sched[1..] && fork.Fork? && |fork.kids| == 1 && fork.kids[0].late.None?
    ensures fork.kids[0].body == RunGraph(w, g, 0, map[]) && forall o :: fork.join([o]) == AfterRun(o)
    ensures Exec(fork, after).Some?
    ensures var r, rest := Exec(RunWhole(w, g), sched).value, Exec(fork, after).value;
      r.proc == rest.proc && r.tape == [Wrote(Event(RunStart, None), FREE)] + rest.tape
  {
    hide RunGraph, Validate;
    var p := RunWhole(w, g);
    fork, after := p.next, sched[1..];
    assert Bills([Event(RunStart, None)]) == [Wrote(Event(RunStart, None), FREE)];
  }

  lemma WholeStarts(w: World, g: GraphSpec, sched: seq<Step>)
    requires Exec(RunWhole(w, g), sched).Some? && !Silent(Exec(RunWhole(w, g), sched).value.tape, GraphScope(g))
    ensures UniqueIds(g) && Validate(g) == Problems([]) && sched != [] && sched[0] == Commit
  {
    hide RunGraph, Validate;
    var p := RunWhole(w, g);
    if sched == [] {
    } else if p.Done? {
      DoneSilent(p.out, sched, GraphScope(g));
    } else if p.next.Done? {
      DoneSilent(p.next.out, sched[1..], GraphScope(g));
    }
  }

  lemma AfterRunRows(o: Outcome, sched: seq<Step>)
    requires Exec(AfterRun(o), sched).Some?
    ensures forall m | m in Exec(AfterRun(o), sched).value.tape :: Who(m) == None
    ensures Exec(AfterRun(o), sched).value.proc.Done? ==> Exec(AfterRun(o), sched).value.proc == Done(o)
  {
    var p := AfterRun(o);
    if p.Done? {
      DoneSilent(o, sched, {});
    } else if sched != [] {
      DoneSilent(o, sched[1..], {});
      assert Bills(p.batch) + [] == Bills(p.batch);
    }
  }

  lemma WholeViews(first: seq<Mark>, kid: seq<Mark>, rest: seq<Mark>, S: set<Option<Id>>)
    requires (forall m | m in first :: Who(m) == None) && (forall m | m in rest :: Who(m) == None) && None !in S
    ensures SameViews(first + kid + rest, kid, S)
  {
    forall who | who in S ensures View(first + kid + rest, who) == View(kid, who) {
      ViewOutside(first, {None}, who);
      ViewOutside(rest, {None}, who);
      ViewConcat(first + kid, rest, who);
      ViewConcat(first, kid, who);
    }
  }

  /** In every run of a whole graph, whatever node of it or of a nested graph logs anything has a story. */
  lemma RunStory(w: World, g: GraphSpec, sched: seq<Step>, h: GraphSpec, n: Node)
    returns (depth: nat, seed: map<Id, Value>, ls: seq<seq<Id>>, k: nat, results: map<Id, NodeResult>, outputs: map<Id, Value>)
    requires Exec(RunWhole(w, g), sched).Some?
    requires Within(h, g) && n in h.nodes && n.ntype != CompensateNode
    requires View(Exec(RunWhole(w, g), sched).value.tape, Some(n.id)) != []
    ensures UniqueIds(g) && RunsIn(w, g, 0, map[], Exec(RunWhole(w, g), sched).value.tape, h, depth, seed)
    ensures Story(w, h, depth, seed, Exec(RunWhole(w, g), sched).value.tape, n, ls, k, results, outputs)
  {
    hide RunWhole, RunGraph, Story, View;
    IdsWithin(h, g, n);
    var s, rest := WholeRun(w, g, sched);
    depth, seed, ls, k, results, outputs := NestedStory(w, g, 0, map[], s, Exec(RunWhole(w, g), sched).value.tape, h, n);
  }

  /**
   * Whatever the interleaving, the nesting and the timeouts: what a run shows
   * of one agent node is what some run of that node's own task shows.
   */
  lemma OwnHistory(w: World, g: GraphSpec, sched: seq<Step>, h: GraphSpec, n: Node)
    returns (outputs: map<Id, Value>, own: seq<Step>)
    requires Exec(RunWhole(w, g), sched).Some? && UniqueIds(g) && Within(h, g) && n in h.nodes && RunsAgent(n)
    ensures Exec(AgentRun(w, h, outputs, n), own).Some?
    ensures View(Exec(RunWhole(w, g), sched).value.tape, Some(n.id))
      == View(Exec(AgentRun(w, h, outputs, n), own).value.tape, Some(n.id))
  {
    hide RunWhole, AgentRun, View, Story, RunsIn, UniqueIds, Within;
    var tape := Exec(RunWhole(w, g), sched).value.tape;
    if View(tape, Some(n.id)) == [] {
      outputs, own := map[], [];
      assert View([], Some(n.id)) == [] by { EmptyView(Some(n.id)); }
    } else {
      var depth, seed, ls, k, results;
      depth, seed, ls, k, results, outputs := RunStory(w, g, sched, h, n);
      StoryBegan(w, h, depth, seed, tape, n, ls, k, results, outputs);
      own :| Shows(RunNode(w, h, depth, outputs, n), own, tape, ScopeOf(n));
    }
  }

  lemma EmptyView(who: Option<Id>)
    ensures View([], who) == []
  {
  }
}
