// `GraphSpec.levels`: Kahn layering, and why it is the optimal one.
module Layering {
  import opened Base
  import opened Graph

  /** An edge that `levels` counts and whose source has not been placed. */
  predicate Waits(g: GraphSpec, e: Edge, rest: set<Id>) {
    e.src !in Comps(g) && (e.src in rest || e.src !in Steps(g))
  }

  ghost function Ready(g: GraphSpec, rest: set<Id>): set<Id> {
    set n | n in rest && forall e | e in g.edges && e.dst == n :: !Waits(g, e, rest)
  }

  /** The levels of the nodes in `rest`, or None when a cycle or a missing parent blocks them. */
  ghost function Peel(g: GraphSpec, rest: set<Id>): Option<seq<seq<Id>>>
    decreases rest
  {
    if rest == {} then Some([])
    else
      var ready := Ready(g, rest);
      if ready == {} then None
      else match Peel(g, rest - ready)
        case None => None
        case Some(ls) => Some([Sorted(ready)] + ls)
  }

  ghost function LevelsOf(g: GraphSpec): Option<seq<seq<Id>>> {
    Peel(g, Steps(g))
  }

  // ---------- the specification ----------

  /** An edge whose order the scheduler keeps. */
  ghost predicate Orders(g: GraphSpec, e: Edge) {
    e in g.edges && e.dst in Steps(g) && e.src !in Comps(g)
  }

  /** Any assignment of levels that respects every such edge. */
  ghost predicate IsLayering(g: GraphSpec, f: map<Id, nat>) {
    f.Keys == Steps(g)
    && forall e | Orders(g, e) :: e.src in f && f[e.src] < f[e.dst]
  }

  /** A walk through scheduled nodes. */
  ghost predicate StepWalk(g: GraphSpec, ps: seq<Id>) {
    |ps| > 0
    && (forall i | 0 <= i < |ps| :: ps[i] in Steps(g))
    && forall i | 0 <= i < |ps| - 1 :: HasEdge(g, ps[i], ps[i + 1])
  }

  ghost predicate At(ls: seq<seq<Id>>, k: int, n: Id) {
    0 <= k < |ls| && n in ls[k]
  }

  ghost predicate Placed(ls: seq<seq<Id>>, n: Id) {
    exists k :: At(ls, k, n)
  }

  ghost predicate Before(ls: seq<seq<Id>>, k: int, n: Id) {
    exists j :: j < k && At(ls, j, n)
  }

  /** Every level is non-empty and listed in sorted order, each id once. */
  ghost predicate Tidied(ls: seq<seq<Id>>) {
    forall l | l in ls :: l != [] && exists s :: l == Sorted(s)
  }

  /** The levels hold exactly `rest`. */
  ghost predicate Covers(ls: seq<seq<Id>>, rest: set<Id>) {
    forall n :: n in rest <==> Placed(ls, n)
  }

  /** No id is on two levels. */
  ghost predicate Once(ls: seq<seq<Id>>) {
    forall j, k, n | At(ls, j, n) && At(ls, k, n) :: j == k
  }

  /** Every counted parent sits strictly earlier, or outside `rest`. */
  ghost predicate Respects(g: GraphSpec, ls: seq<seq<Id>>, rest: set<Id>) {
    forall e, k | Orders(g, e) && At(ls, k, e.dst) ::
      e.src in Steps(g) && (e.src in rest ==> Before(ls, k, e.src))
  }

  ghost predicate ParentOneBelow(g: GraphSpec, ls: seq<seq<Id>>, k: int, n: Id) {
    exists e :: Orders(g, e) && e.dst == n && k > 0 && At(ls, k - 1, e.src)
  }

  /** No node could sit earlier: its level is one past some parent's. */
  ghost predicate Tight(g: GraphSpec, ls: seq<seq<Id>>) {
    forall k, n | At(ls, k, n) && k > 0 :: ParentOneBelow(g, ls, k, n)
  }

  // ---------- what peeling produces ----------

  lemma AtTail(l: seq<Id>, tail: seq<seq<Id>>, k: int, n: Id)
    ensures At([l] + tail, k, n) <==> if k == 0 then n in l else At(tail, k - 1, n)
  {
  }

  lemma {:induction false} PeelShape(g: GraphSpec, rest: set<Id>, ls: seq<seq<Id>>)
    requires rest <= Steps(g) && Peel(g, rest) == Some(ls)
    ensures Tidied(ls) && Covers(ls, rest) && Once(ls) && Respects(g, ls, rest) && Tight(g, ls)
    decreases rest
  {
    if rest != {} {
      var ready := Ready(g, rest);
      var tail := Peel(g, rest - ready).value;
      PeelShape(g, rest - ready, tail);
      PeelTidied(ready, tail);
      PeelCovers(ready, tail, rest);
      PeelOnce(ready, tail, rest);
      PeelRespects(g, tail, rest);
      PeelTight(g, tail, rest);
    }
  }

  lemma PeelTidied(ready: set<Id>, tail: seq<seq<Id>>)
    requires ready != {} && Tidied(tail)
    ensures Tidied([Sorted(ready)] + tail)
  {
    var x :| x in ready;
    assert x in Sorted(ready);
  }

  lemma PeelCovers(ready: set<Id>, tail: seq<seq<Id>>, rest: set<Id>)
    requires ready <= rest && Covers(tail, rest - ready)
    ensures Covers([Sorted(ready)] + tail, rest)
  {
    var ls := [Sorted(ready)] + tail;
    forall n ensures n in rest <==> Placed(ls, n) {
      AtTail(Sorted(ready), tail, 0, n);
      if n in rest - ready {
        var k :| At(tail, k, n);
        AtTail(Sorted(ready), tail, k + 1, n);
      }
      if k :| At(ls, k, n) {
        AtTail(Sorted(ready), tail, k, n);
      }
    }
  }

  lemma PeelOnce(ready: set<Id>, tail: seq<seq<Id>>, rest: set<Id>)
    requires Covers(tail, rest - ready) && Once(tail)
    ensures Once([Sorted(ready)] + tail)
  {
    var ls := [Sorted(ready)] + tail;
    forall j, k, n | At(ls, j, n) && At(ls, k, n) ensures j == k {
      AtTail(Sorted(ready), tail, j, n);
      AtTail(Sorted(ready), tail, k, n);
      assert j > 0 || k > 0 ==> Placed(tail, n);
    }
  }

  lemma PeelRespects(g: GraphSpec, tail: seq<seq<Id>>, rest: set<Id>)
    requires rest <= Steps(g) && Respects(g, tail, rest - Ready(g, rest))
    ensures Respects(g, [Sorted(Ready(g, rest))] + tail, rest)
  {
    var ready := Ready(g, rest);
    var ls := [Sorted(ready)] + tail;
    forall e, k | Orders(g, e) && At(ls, k, e.dst)
      ensures e.src in Steps(g) && (e.src in rest ==> Before(ls, k, e.src))
    {
      AtTail(Sorted(ready), tail, k, e.dst);
      if k == 0 {
        assert !Waits(g, e, rest);
      } else if e.src in ready {
        AtTail(Sorted(ready), tail, 0, e.src);
        assert At(ls, 0, e.src);
      } else if e.src in rest {
        var j :| j < k - 1 && At(tail, j, e.src);
        AtTail(Sorted(ready), tail, j + 1, e.src);
        assert At(ls, j + 1, e.src);
      }
    }
  }

  lemma PeelTight(g: GraphSpec, tail: seq<seq<Id>>, rest: set<Id>)
    requires rest <= Steps(g)
    requires Tight(g, tail) && Peel(g, rest - Ready(g, rest)) == Some(tail)
    ensures Tight(g, [Sorted(Ready(g, rest))] + tail)
  {
    var ready := Ready(g, rest);
    var ls := [Sorted(ready)] + tail;
    forall k, n | At(ls, k, n) && k > 0 ensures ParentOneBelow(g, ls, k, n) {
      AtTail(Sorted(ready), tail, k, n);
      if k == 1 {
        SecondLevelWaited(g, rest, n);
        var e :| Orders(g, e) && e.dst == n && e.src in ready;
        AtTail(Sorted(ready), tail, 0, e.src);
      } else {
        assert ParentOneBelow(g, tail, k - 1, n);
        var e :| Orders(g, e) && e.dst == n && At(tail, k - 2, e.src);
        AtTail(Sorted(ready), tail, k - 1, e.src);
      }
    }
  }

  lemma SecondLevelWaited(g: GraphSpec, rest: set<Id>, n: Id)
    requires rest <= Steps(g) && n in Ready(g, rest - Ready(g, rest))
    ensures exists e :: Orders(g, e) && e.dst == n && e.src in Ready(g, rest)
  {
    var e :| e in g.edges && e.dst == n && Waits(g, e, rest);
    assert !Waits(g, e, rest - Ready(g, rest));
    assert Orders(g, e);
  }

  /** A stuck set leaves no layering to find. */
  lemma {:induction false} PeelStuck(g: GraphSpec, rest: set<Id>, f: map<Id, nat>)
    requires rest <= Steps(g) && IsLayering(g, f)
    ensures Peel(g, rest).Some?
    decreases rest
  {
    if rest != {} {
      var m := Lowest(f, rest);
      forall e | e in g.edges && e.dst == m ensures !Waits(g, e, rest) {
        if e.src !in Comps(g) { assert Orders(g, e); }
      }
      assert m in Ready(g, rest);
      PeelStuck(g, rest - Ready(g, rest), f);
    }
  }

  lemma {:induction false} Lowest(f: map<Id, nat>, s: set<Id>) returns (m: Id)
    requires s != {} && s <= f.Keys
    ensures m in s && forall x | x in s :: f[m] <= f[x]
    decreases s
  {
    m :| m in s;
    if s != {m} {
      var m' := Lowest(f, s - {m});
      if f[m'] < f[m] { m := m'; }
    }
  }

  // ---------- the theorems ----------

  /** A node's place in the layering. */
  ghost function Place(ls: seq<seq<Id>>, n: Id): (k: nat)
    requires Placed(ls, n)
    ensures At(ls, k, n)
  {
    var k :| At(ls, k, n);
    k
  }

  ghost function PlaceMap(g: GraphSpec, ls: seq<seq<Id>>): map<Id, nat>
    requires Covers(ls, Steps(g))
  {
    map n | n in Steps(g) :: Place(ls, n)
  }

  lemma LevelsShape(g: GraphSpec)
    requires LevelsOf(g).Some?
    ensures var ls := LevelsOf(g).value;
      Tidied(ls) && Covers(ls, Steps(g)) && Once(ls) && Respects(g, ls, Steps(g)) && Tight(g, ls)
  {
    PeelShape(g, Steps(g), LevelsOf(g).value);
  }

  lemma BeforeStep(ls: seq<seq<Id>>, k: nat, n: Id)
    requires k < |ls|
    ensures Before(ls, k + 1, n) <==> Before(ls, k, n) || n in ls[k]
  {
    if Before(ls, k + 1, n) {
      var j :| j < k + 1 && At(ls, j, n);
      if j < k { assert Before(ls, k, n); }
    }
    if Before(ls, k, n) {
      var j :| j < k && At(ls, j, n);
      assert j < k + 1 && At(ls, j, n);
    }
    if n in ls[k] { assert At(ls, k, n); }
  }

  lemma NotBeforeItself(ls: seq<seq<Id>>, k: int, x: Id)
    requires Once(ls) && At(ls, k, x)
    ensures !Before(ls, k, x)
  {
  }

  /** Ids of level k are new there. */
  lemma LevelIsNew(g: GraphSpec, ls: seq<seq<Id>>, k: nat, n: Id)
    requires LevelsOf(g) == Some(ls) && k < |ls| && n in ls[k]
    ensures !Before(ls, k, n) && n in Steps(g)
  {
    LevelsShape(g);
    assert At(ls, k, n);
    NotBeforeItself(ls, k, n);
    assert Placed(ls, n);
  }

  /** A scheduled node's counted parents come before it. */
  lemma ParentsBefore(g: GraphSpec, ls: seq<seq<Id>>, k: nat, e: Edge)
    requires LevelsOf(g) == Some(ls) && k <= |ls| && Orders(g, e) && Before(ls, k, e.dst)
    ensures e.src in Steps(g) && Before(ls, k, e.src)
  {
    LevelsShape(g);
    var j :| j < k && At(ls, j, e.dst);
    var i :| i < j && At(ls, i, e.src);
    assert i < k && At(ls, i, e.src);
  }

  lemma ParentsBeforeLevel(g: GraphSpec, ls: seq<seq<Id>>, k: nat, e: Edge)
    requires LevelsOf(g) == Some(ls) && k < |ls| && Orders(g, e) && e.dst in ls[k]
    ensures e.src in Steps(g) && Before(ls, k, e.src)
  {
    LevelsShape(g);
    assert At(ls, k, e.dst);
  }

  /** By the last level every scheduled node has had its turn. */
  lemma AllBefore(g: GraphSpec, ls: seq<seq<Id>>, n: Id)
    requires LevelsOf(g) == Some(ls)
    ensures Before(ls, |ls|, n) <==> n in Steps(g)
  {
    LevelsShape(g);
    if n in Steps(g) {
      var k :| At(ls, k, n);
      assert k < |ls| && At(ls, k, n);
    }
    if Before(ls, |ls|, n) {
      var k :| k < |ls| && At(ls, k, n);
    }
  }

  lemma PlaceMapIsLayering(g: GraphSpec, ls: seq<seq<Id>>)
    requires LevelsOf(g) == Some(ls)
    ensures Covers(ls, Steps(g)) && IsLayering(g, PlaceMap(g, ls))
    ensures forall k, n | At(ls, k, n) :: n in Steps(g) && PlaceMap(g, ls)[n] == k
  {
    LevelsShape(g);
    var f := PlaceMap(g, ls);
    forall k, n | At(ls, k, n) ensures n in Steps(g) && f[n] == k {
      assert Placed(ls, n);
      assert At(ls, f[n], n);
    }
    forall e | Orders(g, e) ensures e.src in f && f[e.src] < f[e.dst] {
      assert At(ls, f[e.dst], e.dst);
      var j :| j < f[e.dst] && At(ls, j, e.src);
    }
  }

  /** `levels` raises exactly when no layering exists. */
  lemma LevelsExist(g: GraphSpec)
    ensures LevelsOf(g).Some? <==> exists f :: IsLayering(g, f)
  {
    if LevelsOf(g).Some? {
      PlaceMapIsLayering(g, LevelsOf(g).value);
    }
    if f :| IsLayering(g, f) {
      PeelStuck(g, Steps(g), f);
    }
  }

  /** A cycle among scheduled nodes, or a parent that is not a node, makes `levels` raise. */
  lemma {:induction false} CyclesRaise(g: GraphSpec, ps: seq<Id>)
    requires StepWalk(g, ps) && |ps| >= 2 && ps[0] == ps[|ps| - 1]
    ensures LevelsOf(g).None?
  {
    LevelsExist(g);
    if f :| IsLayering(g, f) {
      WalkClimbs(g, f, ps, |ps| - 1);
    }
  }

  lemma DanglingRaises(g: GraphSpec, e: Edge)
    requires Orders(g, e) && e.src !in Ids(g)
    ensures LevelsOf(g).None?
  {
    LevelsExist(g);
  }

  ghost predicate Dangles(g: GraphSpec) { exists e :: Orders(g, e) && e.src !in Ids(g) }

  ghost predicate Loop(g: GraphSpec, ps: seq<Id>) { StepWalk(g, ps) && |ps| >= 2 && ps[0] == ps[|ps| - 1] }

  /** Cycles among scheduled nodes and dangling parents are the only reasons for `levels` to raise. */
  lemma RaisesExactly(g: GraphSpec)
    ensures LevelsOf(g).None? <==> Dangles(g) || exists ps :: Loop(g, ps)
  {
    hide LevelsOf, Loop, Ids;
    if e :| Orders(g, e) && e.src !in Ids(g) { DanglingRaises(g, e); }
    if ps :| Loop(g, ps) { LoopRaises(g, ps); }
    if LevelsOf(g).None? && !Dangles(g) { var ps := StuckLoops(g); }
  }

  lemma LoopRaises(g: GraphSpec, ps: seq<Id>)
    requires Loop(g, ps)
    ensures LevelsOf(g).None?
  {
    CyclesRaise(g, ps);
  }

  lemma StuckLoops(g: GraphSpec) returns (loop: seq<Id>)
    requires LevelsOf(g).None? && !Dangles(g)
    ensures Loop(g, loop)
  {
    hide Steps, HasPredecessor, Dangles, Ready, Loop;
    var stuck := StuckSet(g, Steps(g));
    var n :| n in stuck;
    forall m | m in stuck ensures HasPredecessor(g, stuck, m) { StuckWaits(g, stuck, m); }
    assert StepWalk(g, [n]);
    loop := WalkBack(g, stuck, [n]);
  }

  lemma StuckWaits(g: GraphSpec, stuck: set<Id>, m: Id)
    requires stuck <= Steps(g) && Ready(g, stuck) == {} && !Dangles(g) && m in stuck
    ensures HasPredecessor(g, stuck, m)
  {
    assert m !in Ready(g, stuck);
    var e :| e in g.edges && e.dst == m && Waits(g, e, stuck);
    assert Orders(g, e) && HasEdge(g, e.src, m);
  }

  /** The nodes left when no level can be formed. */
  lemma {:induction false} StuckSet(g: GraphSpec, rest: set<Id>) returns (stuck: set<Id>)
    requires rest <= Steps(g) && Peel(g, rest).None?
    ensures stuck != {} && stuck <= Steps(g) && Ready(g, stuck) == {}
    decreases rest
  {
    stuck := rest;
    if Ready(g, rest) != {} { stuck := StuckSet(g, rest - Ready(g, rest)); }
  }

  ghost predicate HasPredecessor(g: GraphSpec, stuck: set<Id>, m: Id) {
    exists p :: p in stuck && HasEdge(g, p, m)
  }

  lemma StepBack(g: GraphSpec, p: Id, ps: seq<Id>)
    requires StepWalk(g, ps) && p in Steps(g) && HasEdge(g, p, ps[0])
    ensures StepWalk(g, [p] + ps)
  {
    hide HasEdge, Steps;
    var back := [p] + ps;
    forall i | 0 <= i < |back| - 1 ensures HasEdge(g, back[i], back[i + 1]) {
      if i > 0 { assert HasEdge(g, ps[i - 1], ps[i]); }
    }
  }

  lemma WalkPrefix(g: GraphSpec, ps: seq<Id>, k: nat)
    requires StepWalk(g, ps) && 0 < k <= |ps|
    ensures StepWalk(g, ps[..k])
  {
    hide HasEdge, Steps;
    forall i | 0 <= i < k - 1 ensures HasEdge(g, ps[..k][i], ps[..k][i + 1]) { assert HasEdge(g, ps[i], ps[i + 1]); }
  }

  /** Walking backwards inside a finite set comes round. */
  lemma {:induction false} WalkBack(g: GraphSpec, stuck: set<Id>, ps: seq<Id>) returns (loop: seq<Id>)
    requires stuck <= Steps(g) && forall m | m in stuck :: HasPredecessor(g, stuck, m)
    requires StepWalk(g, ps) && Elems(ps) <= stuck
    ensures Loop(g, loop)
    decreases stuck - Elems(ps)
  {
    hide StepWalk, Steps, HasEdge;
    assert |ps| > 0 && ps[0] in Elems(ps) by { NonEmpty(g, ps); }
    var p :| p in stuck && HasEdge(g, p, ps[0]);
    var back := [p] + ps;
    StepBack(g, p, ps);
    assert Elems(back) == {p} + Elems(ps);
    if p in ps {
      var i :| 0 <= i < |ps| && ps[i] == p;
      WalkPrefix(g, back, i + 2);
      loop := back[..i + 2];
    } else {
      assert p in stuck - Elems(ps) && p !in stuck - Elems(back);
      loop := WalkBack(g, stuck, back);
    }
  }

  lemma NonEmpty(g: GraphSpec, ps: seq<Id>)
    requires StepWalk(g, ps)
    ensures |ps| > 0
  {
  }

  lemma {:induction false} WalkClimbs(g: GraphSpec, f: map<Id, nat>, ps: seq<Id>, i: nat)
    requires IsLayering(g, f) && StepWalk(g, ps) && i < |ps|
    ensures f[ps[i]] >= f[ps[0]] + i
  {
    if i > 0 {
      WalkClimbs(g, f, ps, i - 1);
      assert HasEdge(g, ps[i - 1], ps[i]);
      var e :| e in g.edges && e.src == ps[i - 1] && e.dst == ps[i];
      assert Orders(g, e);
    }
  }

  lemma WalkExtends(g: GraphSpec, front: seq<Id>, n: Id)
    requires StepWalk(g, front) && n in Steps(g) && HasEdge(g, front[|front| - 1], n)
    ensures StepWalk(g, front + [n])
  {
  }

  /** Some walk of k edges ends at each node of level k. */
  lemma {:induction false} WalkOfLevel(g: GraphSpec, ls: seq<seq<Id>>, k: nat, n: Id) returns (ps: seq<Id>)
    requires Covers(ls, Steps(g)) && Tight(g, ls)
    requires At(ls, k, n)
    ensures StepWalk(g, ps) && |ps| == k + 1 && ps[k] == n
  {
    assert Placed(ls, n);
    if k == 0 {
      ps := [n];
    } else {
      assert ParentOneBelow(g, ls, k, n);
      var e :| Orders(g, e) && e.dst == n && At(ls, k - 1, e.src);
      ps := WalkOfLevel(g, ls, k - 1, e.src);
      WalkExtends(g, ps, n);
      ps := ps + [n];
    }
  }

  /**
   * The layering is optimal: a node of level k ends a walk of k edges and no
   * longer one, so no layering places it earlier.
   */
  lemma LevelsOptimal(g: GraphSpec, ls: seq<seq<Id>>, k: nat, n: Id, qs: seq<Id>, f: map<Id, nat>)
    returns (ps: seq<Id>)
    requires LevelsOf(g) == Some(ls) && At(ls, k, n)
    ensures StepWalk(g, ps) && |ps| == k + 1 && ps[|ps| - 1] == n
    ensures StepWalk(g, qs) && qs[|qs| - 1] == n ==> |qs| <= k + 1
    ensures IsLayering(g, f) ==> n in f && k <= f[n]
  {
    hide LevelsOf, Tight, Once, Respects, Tidied;
    PlaceMapIsLayering(g, ls);
    LevelsShape(g);
    ps := WalkOfLevel(g, ls, k, n);
    if IsLayering(g, f) {
      WalkClimbs(g, f, ps, k);
    }
    if StepWalk(g, qs) && qs[|qs| - 1] == n {
      WalkClimbs(g, PlaceMap(g, ls), qs, |qs| - 1);
    }
  }

  /** No layering uses fewer levels: each one reaches the last level's number. */
  lemma LevelsFewest(g: GraphSpec, ls: seq<seq<Id>>, f: map<Id, nat>)
    requires LevelsOf(g) == Some(ls) && ls != [] && IsLayering(g, f)
    ensures exists n :: n in f && f[n] >= |ls| - 1
  {
    LevelsShape(g);
    var k := |ls| - 1;
    assert ls[k] in ls;
    var n := ls[k][0];
    assert At(ls, k, n);
    var _ := LevelsOptimal(g, ls, k, n, [], f);
  }

  /** A layering in which every node past level 0 has a parent one below is the computed one. */
  lemma TightLayeringIsComputed(g: GraphSpec, ls: seq<seq<Id>>, f: map<Id, nat>, k: nat, n: Id)
    requires LevelsOf(g) == Some(ls) && At(ls, k, n)
    requires IsLayering(g, f)
    requires forall m | m in f && f[m] > 0 :: exists e :: Orders(g, e) && e.dst == m && f[e.src] == f[m] - 1
    ensures n in f && f[n] == k
  {
    var _ := LevelsOptimal(g, ls, k, n, [], f);
    var ps := DescendingWalk(g, f, n);
    var _ := LevelsOptimal(g, ls, k, n, ps, f);
  }

  lemma {:induction false} DescendingWalk(g: GraphSpec, f: map<Id, nat>, n: Id) returns (ps: seq<Id>)
    requires IsLayering(g, f) && n in f
    requires forall m | m in f && f[m] > 0 :: exists e :: Orders(g, e) && e.dst == m && f[e.src] == f[m] - 1
    ensures StepWalk(g, ps) && |ps| == f[n] + 1 && ps[|ps| - 1] == n
    decreases f[n]
  {
    if f[n] == 0 {
      ps := [n];
    } else {
      var e :| Orders(g, e) && e.dst == n && f[e.src] == f[n] - 1;
      ps := DescendingWalk(g, f, e.src);
      WalkExtends(g, ps, n);
      ps := ps + [n];
    }
  }

  // ---------- the method ----------

  /** How many counted edges into `n` still wait. */
  ghost function Waiting(g: GraphSpec, edges: seq<Edge>, n: Id, rest: set<Id>): nat {
    if edges == [] then 0
    else (if edges[0].dst == n && Waits(g, edges[0], rest) then 1 else 0) + Waiting(g, edges[1..], n, rest)
  }

  ghost function Count(s: seq<Id>, x: Id): nat {
    if s == [] then 0 else (if s[0] == x then 1 else 0) + Count(s[1..], x)
  }

  lemma {:induction edges} WaitingZero(g: GraphSpec, edges: seq<Edge>, n: Id, rest: set<Id>)
    ensures Waiting(g, edges, n, rest) == 0 <==> forall e | e in edges && e.dst == n :: !Waits(g, e, rest)
  {
    if edges != [] {
      assert forall e :: e in edges <==> e == edges[0] || e in edges[1..];
    }
  }

  /** Placing `r` releases exactly its edges. */
  lemma {:induction false} WaitingDrops(g: GraphSpec, edges: seq<Edge>, n: Id, rest: set<Id>, r: Id)
    requires r in rest && rest <= Steps(g)
    ensures Waiting(g, edges, n, rest) == Waiting(g, edges, n, rest - {r}) + Count(TargetsFrom(edges, r), n)
  {
    if edges != [] {
      WaitingDrops(g, edges[1..], n, rest, r);
      var tail := TargetsFrom(edges[1..], r);
      if edges[0].src == r {
        assert TargetsFrom(edges, r) == [edges[0].dst] + tail;
      } else {
        assert TargetsFrom(edges, r) == tail;
      }
    }
  }

  /** len([p for p in parents(id) if p not in compensators]) */
  function InDegree(g: GraphSpec, edges: seq<Edge>, n: Id): nat {
    if edges == [] then 0
    else (if edges[0].dst == n && edges[0].src !in Comps(g) then 1 else 0) + InDegree(g, edges[1..], n)
  }

  lemma {:induction false} InDegreeWaits(g: GraphSpec, edges: seq<Edge>, n: Id)
    ensures InDegree(g, edges, n) == Waiting(g, edges, n, Steps(g))
  {
    if edges != [] { InDegreeWaits(g, edges[1..], n); }
  }

  ghost function Prepend(out: seq<seq<Id>>, r: Option<seq<seq<Id>>>): Option<seq<seq<Id>>> {
    match r
    case None => None
    case Some(ls) => Some(out + ls)
  }

  lemma PrependStep(g: GraphSpec, out: seq<seq<Id>>, rest: set<Id>)
    requires rest != {} && Ready(g, rest) != {}
    ensures Prepend(out, Peel(g, rest)) == Prepend(out + [Sorted(Ready(g, rest))], Peel(g, rest - Ready(g, rest)))
  {
    hide Ready, Lists;
    var r := Peel(g, rest - Ready(g, rest));
    if r.Some? {
      assert out + ([Sorted(Ready(g, rest))] + r.value) == (out + [Sorted(Ready(g, rest))]) + r.value;
    }
  }

  lemma PrependNothing(r: Option<seq<seq<Id>>>)
    ensures Prepend([], r) == r
  {
    if r.Some? { assert [] + r.value == r.value; }
  }

  /** Every pending node carries the number of its counted edges that still wait. */
  ghost predicate Counts(g: GraphSpec, remaining: map<Id, int>, rest: set<Id>) {
    forall n | n in remaining :: remaining[n] == Waiting(g, g.edges, n, rest)
  }

  lemma ZeroIsReady(g: GraphSpec, remaining: map<Id, int>, zero: set<Id>)
    requires Counts(g, remaining, remaining.Keys)
    requires zero == set n | n in remaining && remaining[n] == 0
    ensures zero == Ready(g, remaining.Keys)
  {
    forall n { WaitingZero(g, g.edges, n, remaining.Keys); }
  }

  method InDegrees(g: GraphSpec) returns (m: map<Id, int>)
    ensures m.Keys == Steps(g) && Counts(g, m, m.Keys)
  {
    m := map n | n in Steps(g) :: InDegree(g, g.edges, n);
    assert m.Keys == Steps(g);
    forall n { InDegreeWaits(g, g.edges, n); }
  }

  /**
   * `levels` with its `remaining` dict decremented in place; None stands for
   * the ValueError.
   */
  method Levels(g: GraphSpec) returns (result: Option<seq<seq<Id>>>)
    ensures result == LevelsOf(g)
  {
    var remaining := InDegrees(g);
    var out: seq<seq<Id>> := [];
    PrependNothing(LevelsOf(g));
    while remaining != map[]
      invariant remaining.Keys <= Steps(g)
      invariant Counts(g, remaining, remaining.Keys)
      invariant LevelsOf(g) == Prepend(out, Peel(g, remaining.Keys))
      decreases remaining.Keys
    {
      ghost var before := remaining.Keys;
      var zero := set n | n in remaining && remaining[n] == 0;
      ZeroIsReady(g, remaining, zero);
      var ready := SortIds(zero);
      if ready == [] {
        assert zero == {};
        return None;
      }
      assert ready[0] in zero;
      PrependStep(g, out, before);
      remaining := Release(g, remaining, ready);
      assert Elems(ready) == zero;
      out := out + [ready];
    }
    assert Peel(g, remaining.Keys) == Some([]) && out + [] == out;
    return Some(out);
  }

  /** The inner loops of `levels`: drop the ready nodes and decrement their children. */
  method Release(g: GraphSpec, start: map<Id, int>, ready: seq<Id>) returns (remaining: map<Id, int>)
    requires start.Keys <= Steps(g) && NoDup(ready) && forall r | r in ready :: r in start
    requires Counts(g, start, start.Keys)
    ensures remaining.Keys == start.Keys - Elems(ready)
    ensures Counts(g, remaining, remaining.Keys)
  {
    remaining := start;
    assert start.Keys - Elems(ready[..0]) == start.Keys;
    for i := 0 to |ready|
      invariant remaining.Keys == start.Keys - Elems(ready[..i])
      invariant Counts(g, remaining, remaining.Keys)
    {
      var r := ready[i];
      assert r !in ready[..i];
      remaining := Settle(g, remaining, r);
      assert ready[..i + 1] == ready[..i] + [r];
    }
    assert ready[..|ready|] == ready;
  }

  method Settle(g: GraphSpec, start: map<Id, int>, r: Id) returns (remaining: map<Id, int>)
    requires start.Keys <= Steps(g) && r in start && Counts(g, start, start.Keys)
    ensures remaining.Keys == start.Keys - {r}
    ensures Counts(g, remaining, remaining.Keys)
  {
    forall n { WaitingDrops(g, g.edges, n, start.Keys, r); }
    ghost var keys := start.Keys - {r};
    remaining := start - {r};
    var cs := Children(g, r);
    for j := 0 to |cs|
      invariant remaining.Keys == keys
      invariant forall n | n in remaining :: remaining[n] == Waiting(g, g.edges, n, keys) + Count(cs[j..], n)
    {
      assert cs[j..] == [cs[j]] + cs[j + 1..];
      if cs[j] in remaining {
        remaining := remaining[cs[j] := remaining[cs[j]] - 1];
      }
    }
  }
}
