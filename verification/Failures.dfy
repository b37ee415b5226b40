// What `_run_graph` leaves behind, whatever its nodes do: the boards of the
// level loop, and the shape of the final results.
module Failures {
  import opened Base
  import opened Graph
  import opened Layering
  import opened Events
  import opened Kernel
  import opened Scopes

  // ---------- one level ----------

  lemma {:induction false} SettleAllResults(b: Board, ids: seq<Id>, outs: seq<Outcome>)
    requires |ids| == |outs| && NoDup(ids)
    ensures var r := SettleAll(b, ids, outs);
      && (forall n :: n in r.results <==> n in b.results || n in ids)
      && (forall n | n in b.results && n !in ids :: r.results[n] == b.results[n])
      && (forall i | 0 <= i < |ids| :: r.results[ids[i]] == ResultOf(outs[i]))
    decreases |ids|
  {
    if ids != [] {
      assert ids == [ids[0]] + ids[1..];
      NoDupParts([ids[0]], ids[1..]);
      var b1 := Place1(b, ids[0], ResultOf(outs[0]));
      SettleAllResults(b1, ids[1..], outs[1..]);
      var r := SettleAll(b, ids, outs);
      assert ids[0] !in ids[1..];
      forall i | 0 <= i < |ids| ensures r.results[ids[i]] == ResultOf(outs[i]) {
        if i > 0 { assert ids[i] == ids[1..][i - 1]; }
      }
    }
  }

  /** One of these nodes has this id and failed. */
  ghost predicate FailedAt(ids: seq<Id>, outs: seq<Outcome>, n: Id) {
    exists i :: 0 <= i < |ids| && i < |outs| && ids[i] == n && ResultOf(outs[i]).Failed?
  }

  lemma FailedAtCons(ids: seq<Id>, outs: seq<Outcome>, n: Id)
    requires ids != [] && |ids| == |outs|
    ensures FailedAt(ids, outs, n) <==> (ids[0] == n && ResultOf(outs[0]).Failed?) || FailedAt(ids[1..], outs[1..], n)
  {
    if i :| 0 <= i < |ids[1..]| && ids[1..][i] == n && ResultOf(outs[1..][i]).Failed? {
      assert ids[i + 1] == n && ResultOf(outs[i + 1]).Failed?;
    }
    if i :| 0 < i < |ids| && ids[i] == n && ResultOf(outs[i]).Failed? {
      assert ids[1..][i - 1] == n && ResultOf(outs[1..][i - 1]).Failed?;
    }
  }

  lemma {:induction false} SettleAllFailed(b: Board, ids: seq<Id>, outs: seq<Outcome>)
    requires |ids| == |outs| && NoDup(ids) && NoDup(b.failed)
    requires forall n | n in ids :: n !in b.failed
    ensures var r := SettleAll(b, ids, outs);
      NoDup(r.failed) && forall n :: n in r.failed <==> n in b.failed || FailedAt(ids, outs, n)
    decreases |ids|
  {
    if ids != [] {
      assert ids == [ids[0]] + ids[1..];
      NoDupParts([ids[0]], ids[1..]);
      var b1 := Place1(b, ids[0], ResultOf(outs[0]));
      NoDupSnoc(b.failed, ids[0]);
      SettleAllFailed(b1, ids[1..], outs[1..]);
      forall n ensures n in b1.failed || FailedAt(ids[1..], outs[1..], n) <==> n in b.failed || FailedAt(ids, outs, n) {
        FailedAtCons(ids, outs, n);
      }
    }
  }

  // ---------- the boards of the level loop ----------

  /** After levels 0..k: a result for each of their nodes, and no child of an unsuccessful node runs. */
  ghost predicate BoardOk(g: GraphSpec, ls: seq<seq<Id>>, k: int, b: Board) {
    && Reached(ls, k, b.results)
    && NoDup(b.failed)
    && (forall n :: n in b.failed <==> n in b.results && b.results[n].Failed?)
    && (forall e | Orders(g, e) && e.dst in b.results && e.src in b.results && !b.results[e.src].Passed? ::
          b.results[e.dst].Skipped?)
  }

  /** The board once level k has settled. */
  function NextBoard(w: World, g: GraphSpec, b: Board, level: seq<Id>, outs: seq<Outcome>): Board {
    var runnable := Runnable(w, g, b, level);
    SettleAll(SkipOthers(b, level, runnable), runnable, outs)
  }

  lemma SkipResults(b: Board, level: seq<Id>, run: seq<Id>)
    ensures var r := SkipOthers(b, level, run).results;
      && (forall n :: n in r <==> n in b.results || (n in level && n !in run))
      && (forall n | n in level && n !in run :: r[n] == Skipped)
      && (forall n | n in b.results && (n !in level || n in run) :: r[n] == b.results[n])
  {
  }

  lemma NextFromLevel(w: World, g: GraphSpec, b: Board, level: seq<Id>, outs: seq<Outcome>)
    requires NoDup(level) && |outs| == |Runnable(w, g, b, level)|
    requires forall n | n in level :: n !in b.results
    ensures var r := NextBoard(w, g, b, level, outs); var run := Runnable(w, g, b, level);
      && (forall n :: n in r.results <==> n in b.results || n in level)
      && (forall n | n in b.results :: r.results[n] == b.results[n])
      && (forall n | n in level && n !in run :: r.results[n] == Skipped)
      && (forall i | 0 <= i < |run| :: r.results[run[i]] == ResultOf(outs[i]))
  {
    var run := Runnable(w, g, b, level);
    RunnableNoDup(w, g, b, level);
    SkipResults(b, level, run);
    SettleAllResults(SkipOthers(b, level, run), run, outs);
  }

  ghost predicate Reached(ls: seq<seq<Id>>, k: int, results: map<Id, NodeResult>) {
    forall n :: n in results <==> Before(ls, k, n)
  }

  lemma LevelUnreached(g: GraphSpec, ls: seq<seq<Id>>, k: nat, b: Board)
    requires LevelsOf(g) == Some(ls) && k < |ls| && Reached(ls, k, b.results)
    ensures NoDup(ls[k]) && Known(g, ls[k]) && forall n | n in ls[k] :: n !in b.results
  {
    LevelsClean(g, ls);
    assert ls[k] in ls;
    forall n | n in ls[k] ensures n !in b.results { LevelIsNew(g, ls, k, n); }
  }

  lemma NextReached(ls: seq<seq<Id>>, k: nat, before: map<Id, NodeResult>, after: map<Id, NodeResult>)
    requires k < |ls| && Reached(ls, k, before)
    requires forall n :: n in after <==> n in before || n in ls[k]
    ensures Reached(ls, k + 1, after)
  {
    forall n ensures n in after <==> Before(ls, k + 1, n) { BeforeStep(ls, k, n); }
  }

  lemma NextResults(w: World, g: GraphSpec, ls: seq<seq<Id>>, k: nat, b: Board, outs: seq<Outcome>)
    requires LevelsOf(g) == Some(ls) && k < |ls| && Reached(ls, k, b.results)
    requires |outs| == |Runnable(w, g, b, ls[k])|
    ensures var r := NextBoard(w, g, b, ls[k], outs); var run := Runnable(w, g, b, ls[k]);
      && Reached(ls, k + 1, r.results)
      && (forall n :: n in r.results <==> n in b.results || n in ls[k])
      && (forall n | n in b.results :: r.results[n] == b.results[n])
      && (forall n | n in ls[k] && n !in run :: r.results[n] == Skipped)
      && (forall i | 0 <= i < |run| :: r.results[run[i]] == ResultOf(outs[i]))
  {
    LevelUnreached(g, ls, k, b);
    NextFromLevel(w, g, b, ls[k], outs);
    NextReached(ls, k, b.results, NextBoard(w, g, b, ls[k], outs).results);
  }

  lemma NextFailed(w: World, g: GraphSpec, ls: seq<seq<Id>>, k: nat, b: Board, outs: seq<Outcome>)
    requires LevelsOf(g) == Some(ls) && k < |ls| && BoardOk(g, ls, k, b)
    requires |outs| == |Runnable(w, g, b, ls[k])|
    ensures var r := NextBoard(w, g, b, ls[k], outs);
      NoDup(r.failed) && forall n :: n in r.failed <==> n in r.results && r.results[n].Failed?
  {
    var level, run := ls[k], Runnable(w, g, b, ls[k]);
    NextResults(w, g, ls, k, b, outs);
    LevelUnreached(g, ls, k, b);
    RunnableNoDup(w, g, b, level);
    assert forall n | n in run :: n in level && n !in b.failed;
    SettleAllFailed(SkipOthers(b, level, run), run, outs);
    FailedMatches(b, level, run, outs, NextBoard(w, g, b, level, outs));
  }

  /** The failed list after a level lists the failed results. */
  lemma FailedMatches(b: Board, level: seq<Id>, run: seq<Id>, outs: seq<Outcome>, r: Board)
    requires |outs| == |run| && NoDup(run) && (forall n | n in run :: n in level) && (forall n | n in level :: n !in b.results)
    requires forall n :: n in b.failed <==> n in b.results && b.results[n].Failed?
    requires forall n :: n in r.failed <==> n in b.failed || FailedAt(run, outs, n)
    requires forall n :: n in r.results <==> n in b.results || n in level
    requires forall n | n in b.results :: r.results[n] == b.results[n]
    requires forall n | n in level && n !in run :: r.results[n] == Skipped
    requires forall i | 0 <= i < |run| :: r.results[run[i]] == ResultOf(outs[i])
    ensures forall n :: n in r.failed <==> n in r.results && r.results[n].Failed?
  {
    forall n ensures n in r.failed <==> n in r.results && r.results[n].Failed? {
      if n in run {
        var i :| 0 <= i < |run| && run[i] == n;
        assert r.results[run[i]] == ResultOf(outs[i]);
      } else {
        assert !FailedAt(run, outs, n);
      }
    }
  }

  lemma NextChain(w: World, g: GraphSpec, ls: seq<seq<Id>>, k: nat, b: Board, outs: seq<Outcome>, e: Edge)
    requires LevelsOf(g) == Some(ls) && k < |ls| && BoardOk(g, ls, k, b)
    requires |outs| == |Runnable(w, g, b, ls[k])|
    requires var r := NextBoard(w, g, b, ls[k], outs).results;
      Orders(g, e) && e.dst in r && e.src in r && !r[e.src].Passed?
    ensures NextBoard(w, g, b, ls[k], outs).results[e.dst].Skipped?
  {
    NextResults(w, g, ls, k, b, outs);
    if e.dst in b.results {
      ParentsBefore(g, ls, k, e);
    } else {
      ParentsBeforeLevel(g, ls, k, e);
      assert e.src in Parents(g, e.dst);
      assert !ShouldRun(w, g, b, e.dst);
    }
  }

  lemma NextBoardOk(w: World, g: GraphSpec, ls: seq<seq<Id>>, k: nat, b: Board, outs: seq<Outcome>)
    requires LevelsOf(g) == Some(ls) && k < |ls| && BoardOk(g, ls, k, b)
    requires |outs| == |Runnable(w, g, b, ls[k])|
    ensures BoardOk(g, ls, k + 1, NextBoard(w, g, b, ls[k], outs))
  {
    NextResults(w, g, ls, k, b, outs);
    NextFailed(w, g, ls, k, b, outs);
    var r := NextBoard(w, g, b, ls[k], outs);
    forall e | Orders(g, e) && e.dst in r.results && e.src in r.results && !r.results[e.src].Passed?
      ensures r.results[e.dst].Skipped?
    {
      NextChain(w, g, ls, k, b, outs, e);
    }
  }

  // ---------- the end ----------

  function CompensatorsOf(nodes: seq<Node>, failed: seq<Id>): seq<Id> {
    if nodes == [] then []
    else (if Undoes(nodes[0], failed) then [nodes[0].id] else []) + CompensatorsOf(nodes[1..], failed)
  }

  /** `ids` are the ids of the nodes at positions `at`, ascending, which are those of the compensators of failed nodes. */
  ghost predicate Undone(nodes: seq<Node>, failed: seq<Id>, ids: seq<Id>, at: seq<nat>) {
    && |at| == |ids| && (forall i, j | 0 <= i < j < |at| :: at[i] < at[j])
    && (forall i | 0 <= i < |at| :: at[i] < |nodes| && nodes[at[i]].id == ids[i])
    && forall q: nat | q < |nodes| ::
         q in at <==> nodes[q].ntype == CompensateNode && nodes[q].compensates.Some? && nodes[q].compensates.value in failed
  }

  /** What holds of every graph that ran to its end. */
  ghost predicate Structured(g: GraphSpec, end: GraphEnd) {
    && (forall n | n in Steps(g) :: n in end.results)
    && NoDup(end.failed)
    && (forall n :: n in end.failed <==> n in Steps(g) && n in end.results && end.results[n].Failed?)
    && (forall e | Orders(g, e) && e.src in end.results && e.dst in end.results && !end.results[e.src].Passed? ::
          end.results[e.dst].Skipped?)
    && exists at :: Undone(g.nodes, end.failed, end.compensated, at)
  }

  /** Everything below a failed or skipped node is skipped; so failed nodes form an antichain. */
  lemma {:induction false} BelowIsSkipped(g: GraphSpec, end: GraphEnd, ps: seq<Id>)
    requires Structured(g, end) && StepWalk(g, ps) && |ps| >= 2 && !end.results[ps[0]].Passed?
    ensures end.results[ps[|ps| - 1]].Skipped?
    decreases |ps|
  {
    assert HasEdge(g, ps[0], ps[1]);
    var e :| e in g.edges && e.src == ps[0] && e.dst == ps[1];
    assert Orders(g, e);
    if |ps| > 2 {
      var tail := ps[1..];
      forall i | 0 <= i < |tail| - 1 ensures HasEdge(g, tail[i], tail[i + 1]) {
        assert HasEdge(g, ps[i + 1], ps[i + 2]);
      }
      BelowIsSkipped(g, end, tail);
    }
  }

  /** Positions one further on. */
  function Shifted(at: seq<nat>): (r: seq<nat>)
    ensures |r| == |at| && forall i | 0 <= i < |at| :: r[i] == at[i] + 1
  {
    seq(|at|, i requires 0 <= i < |at| => at[i] + 1)
  }

  lemma PositionCons(first: bool, at: seq<nat>, q: nat)
    ensures q in (if first then [0] else []) + Shifted(at) <==> (q == 0 && first) || (q > 0 && q - 1 in at)
  {
    var later := Shifted(at);
    if q > 0 && q - 1 in at {
      var i :| 0 <= i < |at| && at[i] == q - 1;
      assert later[i] == q;
    }
    if q in later {
      var i :| 0 <= i < |later| && later[i] == q;
      assert at[i] == q - 1;
    }
  }

  lemma UndoneCons(n: Node, nodes: seq<Node>, failed: seq<Id>, ids: seq<Id>, at: seq<nat>) returns (at': seq<nat>)
    requires Undone(nodes, failed, ids, at)
    ensures Undone([n] + nodes, failed, (if Undoes(n, failed) then [n.id] else []) + ids, at')
    ensures at' == (if Undoes(n, failed) then [0] else []) + Shifted(at)
  {
    at' := (if Undoes(n, failed) then [0] else []) + Shifted(at);
    var all := [n] + nodes;
    forall q: nat | q < |all|
      ensures q in at' <==> all[q].ntype == CompensateNode && all[q].compensates.Some? && all[q].compensates.value in failed
    {
      PositionCons(Undoes(n, failed), at, q);
      if q > 0 { assert all[q] == nodes[q - 1]; }
    }
  }

  /** The compensation loop takes them all, in node order. */
  lemma {:induction false} CompensatorsAt(nodes: seq<Node>, failed: seq<Id>) returns (at: seq<nat>)
    ensures Undone(nodes, failed, CompensatorsOf(nodes, failed), at)
  {
    if nodes == [] {
      at := [];
    } else {
      var rest := CompensatorsAt(nodes[1..], failed);
      at := UndoneCons(nodes[0], nodes[1..], failed, CompensatorsOf(nodes[1..], failed), rest);
      assert [nodes[0]] + nodes[1..] == nodes;
    }
  }

  /** x stands before y in the graph's list of nodes. */
  ghost predicate ListedFirst(g: GraphSpec, x: Id, y: Id) {
    exists p, q :: 0 <= p < q < |g.nodes| && g.nodes[p].id == x && g.nodes[q].id == y
  }

  /** Exactly the compensators of failed nodes ran, once each and in node order. */
  lemma CompensatorsExact(g: GraphSpec, end: GraphEnd)
    requires Structured(g, end) && NoDup(IdsOf(g.nodes))
    ensures NoDup(end.compensated)
    ensures forall x :: x in end.compensated <==>
      exists n :: n in g.nodes && n.id == x && n.ntype == CompensateNode && n.compensates.Some? && n.compensates.value in end.failed
    ensures forall i, j | 0 <= i < j < |end.compensated| :: ListedFirst(g, end.compensated[i], end.compensated[j])
  {
    var ids := end.compensated;
    var at :| Undone(g.nodes, end.failed, ids, at);
    forall i, j | 0 <= i < j < |ids| ensures ids[i] != ids[j] && ListedFirst(g, ids[i], ids[j]) {
      UndoneOrder(g, end.failed, ids, at, i, j);
    }
    forall x ensures x in ids <==>
      exists n :: n in g.nodes && n.id == x && n.ntype == CompensateNode && n.compensates.Some? && n.compensates.value in end.failed
    {
      UndoneIds(g, end.failed, ids, at, x);
    }
  }

  lemma UndoneOrder(g: GraphSpec, failed: seq<Id>, ids: seq<Id>, at: seq<nat>, i: nat, j: nat)
    requires Undone(g.nodes, failed, ids, at) && NoDup(IdsOf(g.nodes)) && i < j < |ids|
    ensures ids[i] != ids[j] && ListedFirst(g, ids[i], ids[j])
  {
    assert at[i] < at[j] && IdsOf(g.nodes)[at[i]] == ids[i] && IdsOf(g.nodes)[at[j]] == ids[j];
  }

  lemma UndoneIds(g: GraphSpec, failed: seq<Id>, ids: seq<Id>, at: seq<nat>, x: Id)
    requires Undone(g.nodes, failed, ids, at)
    ensures x in ids <==>
      exists n :: n in g.nodes && n.id == x && n.ntype == CompensateNode && n.compensates.Some? && n.compensates.value in failed
  {
    if x in ids {
      var i :| 0 <= i < |ids| && ids[i] == x;
      assert at[i] in at && g.nodes[at[i]] in g.nodes;
    }
    if n :| n in g.nodes && n.id == x && n.ntype == CompensateNode && n.compensates.Some? && n.compensates.value in failed {
      var q: nat :| q < |g.nodes| && g.nodes[q] == n;
      assert q in at;
      var i :| 0 <= i < |at| && at[i] == q;
      assert ids[i] == n.id;
    }
  }

  /** Compensation adds results for compensators only. */
  ghost predicate SameSteps(g: GraphSpec, before: map<Id, NodeResult>, after: map<Id, NodeResult>) {
    forall n | n !in Comps(g) :: (n in after <==> n in before) && (n in before ==> after[n] == before[n])
  }

  lemma StructuredEnd(g: GraphSpec, ls: seq<seq<Id>>, b: Board, end: GraphEnd)
    requires LevelsOf(g) == Some(ls) && BoardOk(g, ls, |ls|, b)
    requires SameSteps(g, b.results, end.results) && end.failed == b.failed
    requires end.compensated == CompensatorsOf(g.nodes, b.failed)
    ensures Structured(g, end)
  {
    var at := CompensatorsAt(g.nodes, b.failed);
    forall n ensures n in b.results <==> n in Steps(g) { AllBefore(g, ls, n); }
    forall e | Orders(g, e) && e.src in end.results && e.dst in end.results && !end.results[e.src].Passed?
      ensures end.results[e.dst].Skipped?
    {
      assert e.src in b.results && e.dst in b.results;
    }
  }
}
