// The log respects the graph: whatever the interleaving, every event of a
// node precedes every event of the nodes its edges lead to.
module CausalLog {
  import opened Base
  import opened Graph
  import opened Layering
  import opened Events
  import opened Tasks
  import opened Safety
  import opened Kernel
  import opened Scopes

  /** The pairs (p, c) of every edge between a graph's own nodes that does not leave a compensator, nested graphs included. */
  function OrderOf(g: GraphSpec): set<(Id, Id)>
    decreases g, 1
  {
    OwnOrder(g) + NestedOrder(g.nodes)
  }

  function OwnOrder(g: GraphSpec): set<(Id, Id)> {
    set e | e in g.edges && e.src in Steps(g) && e.dst in Ids(g) :: (e.src, e.dst)
  }

  function NestedOrder(nodes: seq<Node>): set<(Id, Id)>
    decreases nodes, 0
  {
    if nodes == [] then {}
    else (if nodes[0].subgraph.Some? then OrderOf(nodes[0].subgraph.value) else {}) + NestedOrder(nodes[1..])
  }

  lemma {:induction false} NestedOrderFrom(nodes: seq<Node>, x: Id, y: Id) returns (n: Node)
    requires (x, y) in NestedOrder(nodes)
    ensures n in nodes && n.subgraph.Some? && (x, y) in OrderOf(n.subgraph.value)
  {
    n := nodes[0];
    if !(n.subgraph.Some? && (x, y) in OrderOf(n.subgraph.value)) {
      n := NestedOrderFrom(nodes[1..], x, y);
    }
  }

  lemma {:induction false} OrderInside(g: GraphSpec, x: Id, y: Id)
    requires (x, y) in OrderOf(g)
    ensures Some(x) in GraphScope(g) && Some(y) in GraphScope(g)
    decreases g
  {
    OwnIds(g.nodes);
    if (x, y) !in OwnOrder(g) {
      var n := NestedOrderFrom(g.nodes, x, y);
      OrderInside(n.subgraph.value, x, y);
      NodeScope(g, n);
    }
  }

  /** Where an ordered pair comes from: the graph's own edges, or one nested graph. */
  lemma OrderSplit(g: GraphSpec, x: Id, y: Id) returns (n: Node)
    requires UniqueIds(g) && (x, y) in OrderOf(g)
    ensures (x, y) in OwnOrder(g)
         || (n in g.nodes && n.subgraph.Some? && (x, y) in OrderOf(n.subgraph.value)
             && Some(x) in GraphScope(n.subgraph.value) && Some(y) in GraphScope(n.subgraph.value))
  {
    if (x, y) !in OwnOrder(g) {
      n := NestedOrderFrom(g.nodes, x, y);
      OrderInside(n.subgraph.value, x, y);
    } else {
      n :| true;
    }
  }

  /** On the ids of `g`, `order` says no more than the graph's own order. */
  ghost predicate Narrow(order: set<(Id, Id)>, g: GraphSpec) {
    forall x, y | (x, y) in order && Some(x) in GraphScope(g) && Some(y) in GraphScope(g) :: (x, y) in OrderOf(g)
  }

  lemma NarrowNested(order: set<(Id, Id)>, g: GraphSpec, n: Node)
    requires UniqueIds(g) && Narrow(order, g) && n in g.nodes && n.subgraph.Some?
    ensures Narrow(order, n.subgraph.value)
  {
    var sub := n.subgraph.value;
    NodeScope(g, n);
    forall x, y | (x, y) in order && Some(x) in GraphScope(sub) && Some(y) in GraphScope(sub)
      ensures (x, y) in OrderOf(sub)
    {
      var m := OrderSplit(g, x, y);
      if (x, y) in OwnOrder(g) {
        NestedNotOwn(g, n, x);
      } else if m.id != n.id {
        ScopesApart(g, m, n);
      } else {
        SameNode(g, m, n);
      }
    }
  }

  lemma SameNode(g: GraphSpec, m: Node, n: Node)
    requires UniqueIds(g) && m in g.nodes && n in g.nodes && m.id == n.id
    ensures m == n
  {
    NoDupParts(IdsOf(g.nodes), NestedIds(g.nodes));
    var i :| 0 <= i < |g.nodes| && g.nodes[i] == m;
    var j :| 0 <= j < |g.nodes| && g.nodes[j] == n;
    assert IdsOf(g.nodes)[i] == IdsOf(g.nodes)[j];
  }

  lemma NestedNotOwn(g: GraphSpec, n: Node, x: Id)
    requires UniqueIds(g) && n in g.nodes && n.subgraph.Some? && Some(x) in GraphScope(n.subgraph.value)
    ensures x !in Ids(g)
  {
    OwnIds(g.nodes);
    NestedHas(g.nodes, n);
    NoDupParts(IdsOf(g.nodes), NestedIds(g.nodes));
    assert x in NestedIds(g.nodes);
  }

  // ---------- levels and the order ----------

  /** An ordered pair between two scheduled nodes climbs a level. */
  lemma EdgeClimbs(g: GraphSpec, ls: seq<seq<Id>>, x: Id, y: Id, k: nat)
    requires LevelsOf(g) == Some(ls) && (x, y) in OwnOrder(g) && At(ls, k, y)
    ensures Before(ls, k, x)
  {
    LevelsShape(g);
    assert Placed(ls, y);
    var e :| e in g.edges && e.src in Steps(g) && e.dst in Ids(g) && (e.src, e.dst) == (x, y);
    assert Orders(g, e);
  }

  /** An own node of the graph that may still log after level k is not below it. */
  lemma LaterIsNotBefore(g: GraphSpec, ls: seq<seq<Id>>, k: nat, y: Id)
    requires UniqueIds(g) && LevelsOf(g) == Some(ls) && k < |ls|
    requires Some(y) in TailScope(g, ls[k + 1..]) && y in Steps(g)
    ensures !Before(ls, k, y)
  {
    LevelsShape(g);
    var l, id :| l in ls[k + 1..] && id in l && Owns(g, id, Some(y));
    var t :| 0 <= t < |ls[k + 1..]| && ls[k + 1..][t] == l;
    NodeScope(g, FindNode(g, id).value);
    assert At(ls, k + 1 + t, y);
  }

  /** Nothing ordered before a node of level k runs on level k or later. */
  lemma LaterAvoids(g: GraphSpec, ls: seq<seq<Id>>, k: nat, id: Id, x: Id, y: Id)
    requires UniqueIds(g) && LevelsOf(g) == Some(ls) && At(ls, k, id) && Owns(g, id, Some(x))
    requires Some(y) in TailScope(g, ls[k + 1..])
    ensures (y, x) !in OrderOf(g)
  {
    if (y, x) in OrderOf(g) {
      NodeScope(g, FindNode(g, id).value);
      var m := OrderSplit(g, y, x);
      if (y, x) in OwnOrder(g) {
        LaterIsNotBefore(g, ls, k, y);
        EdgeClimbs(g, ls, y, x, k);
      } else {
        NestedLater(g, ls, k, id, x, y, m);
      }
    }
  }

  lemma NestedLater(g: GraphSpec, ls: seq<seq<Id>>, k: nat, id: Id, x: Id, y: Id, m: Node)
    requires UniqueIds(g) && LevelsOf(g) == Some(ls) && At(ls, k, id) && Owns(g, id, Some(x))
    requires m in g.nodes && m.subgraph.Some?
    requires Some(x) in GraphScope(m.subgraph.value) && Some(y) in GraphScope(m.subgraph.value)
    ensures Some(y) !in TailScope(g, ls[k + 1..])
  {
    LevelsShape(g);
    NestedNotOwn(g, m, x);
    NestedNotOwn(g, m, y);
    var nx := FindNode(g, id).value;
    if m.id != id { ScopesApart(g, m, nx); }
    forall l, id2 | l in ls[k + 1..] && id2 in l ensures !Owns(g, id2, Some(y)) {
      var t :| 0 <= t < |ls[k + 1..]| && ls[k + 1..][t] == l;
      assert At(ls, k + 1 + t, id2);
      if FindNode(g, id2).Some? && m.id != id2 { ScopesApart(g, m, FindNode(g, id2).value); }
    }
    assert y !in Comps(g);
  }

  /** Tasks of one level are unordered. */
  lemma SameLevelUnordered(g: GraphSpec, ls: seq<seq<Id>>, k: nat, a: Id, b: Id, x: Id, y: Id)
    requires UniqueIds(g) && LevelsOf(g) == Some(ls) && At(ls, k, a) && At(ls, k, b) && a != b
    requires Owns(g, a, Some(x)) && Owns(g, b, Some(y))
    ensures (y, x) !in OrderOf(g)
  {
    if (y, x) in OrderOf(g) {
      LevelsShape(g);
      var na, nb := FindNode(g, a).value, FindNode(g, b).value;
      NodeScope(g, na);
      NodeScope(g, nb);
      ScopesApart(g, na, nb);
      var m := OrderSplit(g, y, x);
      if (y, x) in OwnOrder(g) {
        NotBeforeItself(ls, k, b);
        EdgeClimbs(g, ls, y, x, k);
      } else {
        NodeScope(g, m);
        if m.id == a { ScopesApart(g, m, nb); } else { ScopesApart(g, m, na); }
      }
    }
  }

  lemma NoSelfOrder(g: GraphSpec, ls: seq<seq<Id>>, k: nat, x: Id)
    requires UniqueIds(g) && LevelsOf(g) == Some(ls) && At(ls, k, x)
    ensures (x, x) !in OrderOf(g)
  {
    if (x, x) in OrderOf(g) {
      LevelsShape(g);
      assert Placed(ls, x);
      var m := OrderSplit(g, x, x);
      if (x, x) in OwnOrder(g) {
        NotBeforeItself(ls, k, x);
        EdgeClimbs(g, ls, x, x, k);
      } else {
        NestedNotOwn(g, m, x);
      }
    }
  }

  // ---------- the executor's tasks ----------

  /** A task that speaks for one node only is causal as soon as that node is not ordered before itself. */
  greatest lemma SoloCausal(p: Proc, S: set<Option<Id>>, x: Id, order: set<(Id, Id)>)
    requires Tidy(p, S) && S <= {Some(x)} && (x, x) !in order
    ensures Causal(p, order)
  {
    SoloAvoids(p, S, x, order);
    match p
    case Done(_) =>
    case Emit(batch, next) => SoloCausal(next, S, x, order);
    case Ask(q, k) =>
      forall a | Fits(q, a) { SoloCausal(k(a), S, x, order); }
    case Note(e, next) => SoloCausal(next, S, x, order);
    case Fork(kids, join) =>
      forall i | 0 <= i < |kids| { SoloCausal(kids[i].body, kids[i].scope, x, order); }
      forall i | 0 <= i < |kids| && kids[i].late.Some? { SoloCausal(kids[i].late.value, kids[i].scope, x, order); }
      forall outs | |outs| == |kids| { SoloCausal(join(outs), S, x, order); }
  }

  /** What such a task does next never belongs to an earlier node. */
  lemma SoloAvoids(p: Proc, S: set<Option<Id>>, x: Id, order: set<(Id, Id)>)
    requires Tidy(p, S) && S <= {Some(x)} && (x, x) !in order
    ensures (p.Emit? || p.Note?) ==> Avoids(p.next, Earlier(order, x))
    ensures p.Ask? ==> forall a | Fits(p.q, a) :: Avoids(p.k(a), Earlier(order, x))
    ensures p.Fork? ==>
      && (forall i | 0 <= i < |p.kids| && p.kids[i].late.Some? :: Avoids(p.kids[i].late.value, Earlier(order, x)))
      && (forall outs | |outs| == |p.kids| :: Avoids(p.join(outs), Earlier(order, x)))
  {
    var banned := Earlier(order, x);
    match p
    case Done(_) =>
    case Emit(_, next) => TidyAvoids(next, S, banned);
    case Ask(q, k) =>
      forall a | Fits(q, a) ensures Avoids(k(a), banned) { TidyAvoids(k(a), S, banned); }
    case Note(_, next) => TidyAvoids(next, S, banned);
    case Fork(kids, join) =>
      forall i | 0 <= i < |kids| && kids[i].late.Some? ensures Avoids(kids[i].late.value, banned) {
        TidyAvoids(kids[i].late.value, kids[i].scope, banned);
      }
      forall outs | |outs| == |kids| ensures Avoids(join(outs), banned) { TidyAvoids(join(outs), S, banned); }
  }

  lemma {:induction false} CausalCompensate(g: GraphSpec, nodes: seq<Node>, b: Board, done: seq<Id>, order: set<(Id, Id)>)
    requires forall m, n | m in nodes && n in nodes && m.ntype == CompensateNode && n.ntype == CompensateNode ::
               (m.id, n.id) !in order
    ensures Causal(Compensate(nodes, b, done), order)
    decreases |nodes|
  {
    if nodes != [] {
      if Undoes(nodes[0], b.failed) {
        var r := if nodes[0].agent.Some? then Skipped else Passed(None);
        var b2, done2 := b.(results := b.results[nodes[0].id := r]), done + [nodes[0].id];
        CausalCompensate(g, nodes[1..], b2, done2, order);
        CompensateAvoids(nodes[1..], b2, done2, Earlier(order, nodes[0].id));
      } else {
        CausalCompensate(g, nodes[1..], b, done, order);
      }
    }
  }

  lemma {:induction false} CompensateAvoids(nodes: seq<Node>, b: Board, done: seq<Id>, banned: set<Id>)
    requires forall n | n in nodes && n.ntype == CompensateNode :: n.id !in banned
    ensures Avoids(Compensate(nodes, b, done), banned)
    decreases |nodes|
  {
    if nodes != [] {
      if Undoes(nodes[0], b.failed) {
        var r := if nodes[0].agent.Some? then Skipped else Passed(None);
        CompensateAvoids(nodes[1..], b.(results := b.results[nodes[0].id := r]), done + [nodes[0].id], banned);
      } else {
        CompensateAvoids(nodes[1..], b, done, banned);
      }
    }
  }

  /** Compensators are unordered among themselves. */
  lemma CompsUnordered(g: GraphSpec, order: set<(Id, Id)>)
    requires UniqueIds(g) && Narrow(order, g)
    ensures forall m, n | m in g.nodes && n in g.nodes && m.ntype == CompensateNode && n.ntype == CompensateNode ::
              (m.id, n.id) !in order
  {
    forall m, n | m in g.nodes && n in g.nodes && m.ntype == CompensateNode && n.ntype == CompensateNode
      ensures (m.id, n.id) !in order
    {
      NodeScope(g, m);
      NodeScope(g, n);
      if (m.id, n.id) in order {
        var s := OrderSplit(g, m.id, n.id);
        if (m.id, n.id) !in OwnOrder(g) { NestedNotOwn(g, s, m.id); }
      }
    }
  }

  /** A task that ends at once, or after rows of the run itself. */
  predicate Quiet(p: Proc) {
    p.Done? || (p.Emit? && p.next.Done? && forall e | e in p.batch :: e.who.None?)
  }

  lemma QuietCausal(p: Proc, order: set<(Id, Id)>, banned: set<Id>)
    requires Quiet(p)
    ensures Causal(p, order) && Avoids(p, banned)
  {
    if p.Emit? {
      assert Causal(p.next, order) && Avoids(p.next, banned);
    }
  }

  lemma CausalWrap(p: Proc, order: set<(Id, Id)>)
    requires p.Fork? && |p.kids| == 1 && p.kids[0].late.None? && Causal(p.kids[0].body, order)
    requires forall outs | |outs| == 1 :: Quiet(p.join(outs))
    ensures Causal(p, order)
  {
    forall outs | |outs| == 1 ensures Causal(p.join(outs), order) {
      QuietCausal(p.join(outs), order, {});
    }
    forall x, outs | Some(x) in p.kids[0].scope && |outs| == 1 ensures Avoids(p.join(outs), Earlier(order, x)) {
      QuietCausal(p.join(outs), order, Earlier(order, x));
    }
  }

  lemma CausalFork(p: Proc, order: set<(Id, Id)>)
    requires p.Fork? && forall i | 0 <= i < |p.kids| :: p.kids[i].late.None? && Causal(p.kids[i].body, order)
    requires forall i, j, x, y | 0 <= i < |p.kids| && 0 <= j < |p.kids| && i != j
               && Some(x) in p.kids[i].scope && Some(y) in p.kids[j].scope :: (y, x) !in order
    requires forall i, x, outs | 0 <= i < |p.kids| && Some(x) in p.kids[i].scope && |outs| == |p.kids| ::
               Avoids(p.join(outs), Earlier(order, x))
    requires forall outs | |outs| == |p.kids| :: Causal(p.join(outs), order)
    ensures Causal(p, order)
  {
  }

  lemma {:induction false} CausalSubgraph(w: World, g: GraphSpec, depth: nat, outputs: map<Id, Value>, n: Node,
                                          order: set<(Id, Id)>)
    requires n in g.nodes && UniqueIds(g) && Narrow(order, g)
    ensures Causal(SubgraphRun(w, g, depth, outputs, n), order)
    decreases g, 0, 0
  {
    if n.subgraph.Some? {
      NodeScope(g, n);
      NarrowNested(order, g, n);
      CausalGraph(w, n.subgraph.value, depth + 1, ChildSeed(g, outputs, n.id), order);
    }
    CausalNested(w, g, depth, outputs, n, order);
  }

  lemma CausalNested(w: World, g: GraphSpec, depth: nat, outputs: map<Id, Value>, n: Node, order: set<(Id, Id)>)
    requires n in g.nodes
    requires n.subgraph.Some? ==> Causal(RunGraph(w, n.subgraph.value, depth + 1, ChildSeed(g, outputs, n.id)), order)
    ensures Causal(SubgraphRun(w, g, depth, outputs, n), order)
  {
    var p := SubgraphRun(w, g, depth, outputs, n);
    if p.Fork? { CausalWrap(p, order); }
  }

  lemma {:induction false} CausalNode(w: World, g: GraphSpec, depth: nat, outputs: map<Id, Value>, n: Node,
                                      order: set<(Id, Id)>)
    requires n in g.nodes && UniqueIds(g) && Narrow(order, g) && (n.id, n.id) !in order
    ensures Causal(RunNode(w, g, depth, outputs, n), order)
    decreases g, 0, 1
  {
    if n.ntype == SubgraphNode {
      CausalSubgraph(w, g, depth, outputs, n, order);
    } else {
      CleanLeaf(w, g, depth, outputs, n);
      SoloCausal(RunNode(w, g, depth, outputs, n), {Some(n.id)}, n.id, order);
    }
  }

  /** `order` agrees with the graph's own order on the graph's scope. */
  lemma NarrowOut(order: set<(Id, Id)>, g: GraphSpec, x: Id, y: Id)
    requires Narrow(order, g) && Some(x) in GraphScope(g) && Some(y) in GraphScope(g) && (x, y) !in OrderOf(g)
    ensures (x, y) !in order
  {
  }

  lemma {:induction false} CausalLevels(w: World, g: GraphSpec, depth: nat, ls: seq<seq<Id>>, k: nat, b: Board,
                                        order: set<(Id, Id)>)
    requires UniqueIds(g) && Narrow(order, g) && LevelsOf(g) == Some(ls) && k <= |ls|
    requires forall l | l in ls :: Known(g, l) && NoDup(l)
    ensures Causal(RunLevels(w, g, depth, ls[k..], b), order)
    decreases g, 1, |ls| - k
  {
    if k == |ls| {
      CompsUnordered(g, order);
      CausalCompensate(g, g.nodes, b, [], order);
    } else {
      var level := ls[k];
      assert ls[k..][0] == level && ls[k..][1..] == ls[k + 1..] && level in ls;
      var runnable := Runnable(w, g, b, level);
      var b1 := SkipOthers(b, level, runnable);
      if runnable == [] {
        CausalLevels(w, g, depth, ls, k + 1, b1, order);
      } else {
        RunnableNoDup(w, g, b, level);
        CausalKids(w, g, depth, b.outputs, ls, k, runnable, order);
        forall outs: seq<Outcome> ensures Causal(RunLevels(w, g, depth, ls[k + 1..], SettleAll(b1, runnable, outs)), order) {
          CausalLevels(w, g, depth, ls, k + 1, SettleAll(b1, runnable, outs), order);
        }
        CausalOneLevel(w, g, depth, ls, k, b, RunLevels(w, g, depth, ls[k..], b), runnable, b1, order);
      }
    }
  }

  lemma CausalOneLevel(w: World, g: GraphSpec, depth: nat, ls: seq<seq<Id>>, k: nat, b: Board, p: Proc,
                       runnable: seq<Id>, b1: Board, order: set<(Id, Id)>)
    requires UniqueIds(g) && Narrow(order, g) && LevelsOf(g) == Some(ls) && k < |ls|
    requires forall l | l in ls :: Known(g, l) && NoDup(l)
    requires Known(g, runnable) && forall id | id in runnable :: id in ls[k]
    requires p.Fork? && p.kids == NodeKids(w, g, depth, b.outputs, runnable)
    requires forall outs :: p.join(outs) == RunLevels(w, g, depth, ls[k + 1..], SettleAll(b1, runnable, outs))
    requires forall outs: seq<Outcome> :: Causal(RunLevels(w, g, depth, ls[k + 1..], SettleAll(b1, runnable, outs)), order)
    requires forall i | 0 <= i < |p.kids| :: Causal(p.kids[i].body, order)
    requires forall i, j, x, y | 0 <= i < |p.kids| && 0 <= j < |p.kids| && i != j
               && Some(x) in p.kids[i].scope && Some(y) in p.kids[j].scope :: (y, x) !in order
    ensures Causal(p, order)
  {
    forall i, x, outs | 0 <= i < |p.kids| && Some(x) in p.kids[i].scope && |outs| == |p.kids|
      ensures Avoids(p.join(outs), Earlier(order, x))
    {
      LevelsAvoid(w, g, depth, ls, k, SettleAll(b1, runnable, outs), runnable[i], x, order);
    }
    CausalFork(p, order);
  }

  lemma LevelsAvoid(w: World, g: GraphSpec, depth: nat, ls: seq<seq<Id>>, k: nat, b: Board, id: Id, x: Id,
                    order: set<(Id, Id)>)
    requires UniqueIds(g) && Narrow(order, g) && LevelsOf(g) == Some(ls) && k < |ls|
    requires forall l | l in ls :: Known(g, l) && NoDup(l)
    requires id in ls[k] && Owns(g, id, Some(x))
    ensures Avoids(RunLevels(w, g, depth, ls[k + 1..], b), Earlier(order, x))
  {
    var S := TailScope(g, ls[k + 1..]);
    assert forall l | l in ls[k + 1..] :: l in ls;
    CleanLevels(w, g, depth, ls[k + 1..], b);
    NodeScope(g, FindNode(g, id).value);
    forall y | y in Earlier(order, x) ensures Some(y) !in S {
      if Some(y) in S {
        LaterAvoids(g, ls, k, id, x, y);
        NarrowOut(order, g, y, x);
      }
    }
    TidyAvoids(RunLevels(w, g, depth, ls[k + 1..], b), S, Earlier(order, x));
  }

  lemma {:induction false} CausalKids(w: World, g: GraphSpec, depth: nat, outputs: map<Id, Value>, ls: seq<seq<Id>>,
                                      k: nat, ids: seq<Id>, order: set<(Id, Id)>)
    requires UniqueIds(g) && Narrow(order, g) && LevelsOf(g) == Some(ls) && k < |ls|
    requires Known(g, ids) && NoDup(ids) && forall id | id in ids :: id in ls[k]
    ensures var kids := NodeKids(w, g, depth, outputs, ids);
      && (forall i | 0 <= i < |kids| :: Causal(kids[i].body, order))
      && (forall i, j, x, y | 0 <= i < |kids| && 0 <= j < |kids| && i != j
            && Some(x) in kids[i].scope && Some(y) in kids[j].scope :: (y, x) !in order)
    decreases g, 0, 2
  {
    var kids := NodeKids(w, g, depth, outputs, ids);
    forall i | 0 <= i < |kids| ensures Causal(kids[i].body, order) {
      var n := FindNode(g, ids[i]).value;
      NodeScope(g, n);
      NoSelfOrder(g, ls, k, ids[i]);
      NarrowOut(order, g, n.id, n.id);
      CausalNode(w, g, depth, outputs, n, order);
    }
    forall i, j, x, y | 0 <= i < |kids| && 0 <= j < |kids| && i != j
      && Some(x) in kids[i].scope && Some(y) in kids[j].scope
      ensures (y, x) !in order
    {
      NodeScope(g, FindNode(g, ids[i]).value);
      NodeScope(g, FindNode(g, ids[j]).value);
      assert ids[i] != ids[j];
      SameLevelUnordered(g, ls, k, ids[i], ids[j], x, y);
      NarrowOut(order, g, y, x);
    }
  }

  lemma {:induction false} CausalGraph(w: World, g: GraphSpec, depth: nat, seed: map<Id, Value>, order: set<(Id, Id)>)
    requires UniqueIds(g) && Narrow(order, g)
    ensures Causal(RunGraph(w, g, depth, seed), order)
    decreases g, 2
  {
    match LevelsOf(g)
    case None =>
    case Some(ls) =>
      LevelsClean(g, ls);
      CausalLevels(w, g, depth, ls, 0, Board(map[], seed, []), order);
      assert ls[0..] == ls;
  }

  lemma CausalWhole(w: World, g: GraphSpec)
    ensures Causal(RunWhole(w, g), OrderOf(g))
  {
    var p := RunWhole(w, g);
    if p.Emit? && p.next.Fork? {
      CausalGraph(w, g, 0, map[], OrderOf(g));
      CausalWrap(p.next, OrderOf(g));
    }
  }

  lemma RunOrdered(p: Proc, sched: seq<Step>, S: set<Option<Id>>, order: set<(Id, Id)>, s: nat, t: nat)
    requires Tidy(p, S) && Causal(p, order) && Exec(p, sched).Some?
    requires var tape := Exec(p, sched).value.tape;
      s < |tape| && t < |tape| && Who(tape[s]).Some? && Who(tape[t]).Some?
      && Who(tape[s]) != Who(tape[t]) && (Who(tape[s]).value, Who(tape[t]).value) in order
    ensures s < t
  {
    CausalRun(p, sched, S, order);
  }

  ghost predicate MarkedBy(tape: seq<Mark>, t: int, id: Id) {
    0 <= t < |tape| && Who(tape[t]) == Some(id)
  }

  /**
   * In every run, finished or not, with or without timeouts, nested graphs
   * included: for each edge p -> c that does not leave a compensator, no event
   * or call of p follows one of c.
   */
  lemma LogIsCausal(w: World, g: GraphSpec, sched: seq<Step>, s: nat, t: nat, p: Id, c: Id)
    requires Exec(RunWhole(w, g), sched).Some?
    requires MarkedBy(Exec(RunWhole(w, g), sched).value.tape, s, p)
    requires MarkedBy(Exec(RunWhole(w, g), sched).value.tape, t, c)
    requires (p, c) in OrderOf(g) && p != c
    ensures s < t
  {
    CleanWhole(w, g);
    CausalWhole(w, g);
    RunOrdered(RunWhole(w, g), sched, GraphScope(g) + {None}, OrderOf(g), s, t);
  }
}
