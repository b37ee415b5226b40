// The canvas layout of frontend/src/GraphCanvas.tsx: its memoised recursion
// puts every node on the level the scheduler runs it on.
module GraphCanvas {
  import opened Base
  import opened Graph
  import opened Reach
  import opened Layering

  /** Ids `resolve` can be asked for: nodes, and sources of edges. */
  function Universe(g: GraphSpec): set<Id> { Ids(g) + Sources(g) }

  /** `parents(id).filter(p => !compensators.has(p))` */
  function Drawn(g: GraphSpec, ps: seq<Id>): (r: seq<Id>)
    ensures forall p :: p in r <==> p in ps && p !in Comps(g)
  {
    if ps == [] then [] else (if ps[0] in Comps(g) then [] else [ps[0]]) + Drawn(g, ps[1..])
  }

  /** The scheduler's levels as a map: a layering in which no node could sit lower. */
  ghost predicate Kahn(g: GraphSpec, f: map<Id, nat>) {
    && IsLayering(g, f)
    && forall n | n in f && f[n] > 0 :: ParentAt(g, f, n, f[n] - 1)
  }

  ghost predicate ParentAt(g: GraphSpec, f: map<Id, nat>, n: Id, k: int) {
    exists p :: p in Parents(g, n) && p !in Comps(g) && p in f && f[p] == k
  }

  lemma LevelsAreKahn(g: GraphSpec, ls: seq<seq<Id>>) returns (f: map<Id, nat>)
    requires LevelsOf(g) == Some(ls)
    ensures Kahn(g, f) && forall k, n :: At(ls, k, n) <==> n in f && f[n] == k
  {
    LevelsShape(g);
    PlaceMapIsLayering(g, ls);
    f := PlaceMap(g, ls);
    forall n | n in f ensures At(ls, f[n], n) {
      var k :| At(ls, k, n);
    }
    forall n | n in f && f[n] > 0 ensures ParentAt(g, f, n, f[n] - 1) {
      assert ParentOneBelow(g, ls, f[n], n);
      var e :| Orders(g, e) && e.dst == n && At(ls, f[n] - 1, e.src);
      assert e.src in Parents(g, n);
    }
  }

  /** The drawn parents of a step are steps below it, one of them just below. */
  lemma DrawnParents(g: GraphSpec, f: map<Id, nat>, n: Id, ps: seq<Id>)
    requires Kahn(g, f) && ps == Drawn(g, Parents(g, n))
    ensures forall p | p in ps :: p in Universe(g) && (n in f ==> p in f && f[p] < f[n])
    ensures n in f && f[n] > 0 ==> exists p :: p in ps && f[p] == f[n] - 1
  {
    forall p | p in ps ensures p in Universe(g) && (n in f ==> p in f && f[p] < f[n]) {
      var e :| e in g.edges && e.dst == n && e.src == p;
      assert n in f ==> Orders(g, e);
    }
    if n in f && f[n] > 0 {
      assert ParentAt(g, f, n, f[n] - 1);
      var p :| p in Parents(g, n) && p !in Comps(g) && p in f && f[p] == f[n] - 1;
      assert p in ps;
    }
  }

  /** What was memoised stays, and no call in progress ended. */
  ghost predicate Deeper(u: set<Id>, was: set<Id>, memo: map<Id, nat>, seen: set<Id>, level: map<Id, nat>) {
    && was <= seen <= u
    && (forall n | n in memo :: n in level && level[n] == memo[n])
    && seen - level.Keys == was - memo.Keys
  }

  lemma DeeperOn(u: set<Id>, s0: set<Id>, m0: map<Id, nat>, s1: set<Id>, m1: map<Id, nat>, s2: set<Id>, m2: map<Id, nat>)
    requires Deeper(u, s0, m0, s1, m1) && Deeper(u, s1, m1, s2, m2)
    ensures Deeper(u, s0, m0, s2, m2)
  {
  }

  /** A call that marked `id`, resolved its parents and memoised it. */
  lemma DeeperDone(u: set<Id>, s0: set<Id>, m0: map<Id, nat>, id: Id, s1: set<Id>, m1: map<Id, nat>, v: nat)
    requires id in u && id !in s0 && id !in m0 && Deeper(u, s0 + {id}, m0, s1, m1)
    ensures Deeper(u, s0, m0, s1, m1[id := v])
  {
    assert (s0 + {id}) - m0.Keys == (s0 - m0.Keys) + {id};
    assert s1 - m1[id := v].Keys == (s1 - m1.Keys) - {id};
  }

  class Canvas {
    const g: GraphSpec
    var level: map<Id, nat>

    constructor (g: GraphSpec)
      ensures this.g == g && level == map[]
    {
      this.g, level := g, map[];
    }

    /** Every step drawn so far sits on its scheduler level. */
    ghost predicate Agrees(f: map<Id, nat>)
      reads this
    {
      forall n | n in level && n in f :: level[n] == f[n]
    }

    /** Ids whose resolution has begun and not ended. */
    ghost function Busy(seen: SeenSet): set<Id>
      reads this, seen
    {
      seen.ids - level.Keys
    }

    /** `resolve(id, seen)`: the steps being resolved right now all sit above `id`. */
    method Resolve(id: Id, seen: SeenSet, ghost f: map<Id, nat>) returns (v: nat)
      requires id in Universe(g) && seen.ids <= Universe(g) && Kahn(g, f) && Agrees(f)
      requires forall x | x in Busy(seen) && x in f :: id in f && f[id] < f[x]
      modifies this, seen
      ensures Agrees(f) && Deeper(Universe(g), old(seen.ids), old(level), seen.ids, level)
      ensures id in f ==> v == f[id]
      ensures id in level || id in old(seen.ids)
      decreases Universe(g) - seen.ids, 0
    {
      hide Kahn, Universe, Drawn, Parents;
      if id in level { return level[id]; }
      if id in seen.ids { return 0; }
      ghost var was, memo := seen.ids, level;
      seen.ids := seen.ids + {id};
      assert id in Universe(g) - was && id !in Universe(g) - seen.ids;
      var ps := Drawn(g, Parents(g, id));
      DrawnParents(g, f, id, ps);
      v := Highest(id, ps, seen, f);
      DeeperDone(Universe(g), was, memo, id, seen.ids, level, v);
      level := level[id := v];
    }

    /** `ps.length === 0 ? 0 : Math.max(...ps.map(p => resolve(p, seen))) + 1` */
    method Highest(id: Id, ps: seq<Id>, seen: SeenSet, ghost f: map<Id, nat>) returns (v: nat)
      requires (forall p | p in ps :: p in Universe(g)) && seen.ids <= Universe(g) && Kahn(g, f) && Agrees(f)
      requires id in Busy(seen) && forall x | x in Busy(seen) && x in f && x != id :: id in f && f[id] < f[x]
      requires forall p | p in ps && id in f :: p in f && f[p] < f[id]
      modifies this, seen
      ensures Agrees(f) && Deeper(Universe(g), old(seen.ids), old(level), seen.ids, level)
      ensures id in f ==> v <= f[id] && forall p | p in ps :: f[p] < v
      decreases Universe(g) - seen.ids, 1
    {
      hide Kahn, Universe;
      v := 0;
      for i := 0 to |ps|
        invariant Agrees(f) && Deeper(Universe(g), old(seen.ids), old(level), seen.ids, level)
        invariant id in f ==> v <= f[id] && forall p | p in ps[..i] :: p in f && f[p] < v
      {
        assert ps[i] in ps;
        ghost var was, memo := seen.ids, level;
        assert Busy(seen) == old(Busy(seen));
        var u := Resolve(ps[i], seen, f);
        DeeperOn(Universe(g), old(seen.ids), old(level), was, memo, seen.ids, level);
        if u + 1 > v { v := u + 1; }
        assert ps[..i + 1] == ps[..i] + [ps[i]];
      }
      assert ps[..|ps|] == ps;
    }

    /** `graph.nodes.forEach(n => resolve(n.id))`, for nodes listed in any order. */
    method ResolveAll(order: seq<Id>, ghost f: map<Id, nat>)
      requires (forall n | n in order :: n in Universe(g)) && Kahn(g, f) && Agrees(f)
      modifies this
      ensures Agrees(f) && forall n | n in order :: n in level
    {
      hide Kahn, Universe;
      for i := 0 to |order|
        invariant Agrees(f) && forall n | n in order[..i] :: n in level
      {
        assert order[i] in order && order[..i + 1] == order[..i] + [order[i]];
        var seen := new SeenSet();
        var v := Resolve(order[i], seen, f);
      }
      assert order[..|order|] == order;
    }

    /** The rows of `layout`, compensators left out. */
    method Group(order: seq<Id>) returns (byLevel: map<nat, seq<Id>>)
      requires forall n | n in order :: n in level
      ensures forall k: nat, n :: OnRow(byLevel, k, n) <==> n in order && n !in Comps(g) && level[n] == k
    {
      byLevel := map[];
      for i := 0 to |order|
        invariant forall k: nat, n :: OnRow(byLevel, k, n) <==> n in order[..i] && n !in Comps(g) && level[n] == k
      {
        var id, was := order[i], byLevel;
        assert id in order && order[..i + 1] == order[..i] + [id];
        if id !in Comps(g) {
          var row := if level[id] in byLevel then byLevel[level[id]] else [];
          byLevel := byLevel[level[id] := row + [id]];
          forall k: nat, n ensures OnRow(byLevel, k, n) <==> OnRow(was, k, n) || (n == id && k == level[id]) { }
        }
      }
      assert order[..|order|] == order;
    }

    /** Row k holds exactly the nodes of the scheduler's level k. */
    method Rows(order: seq<Id>, ghost ls: seq<seq<Id>>) returns (byLevel: map<nat, seq<Id>>)
      requires Elems(order) == Ids(g) && level == map[] && LevelsOf(g) == Some(ls)
      modifies this
      ensures forall k: nat, n :: OnRow(byLevel, k, n) <==> At(ls, k, n)
    {
      ghost var f := LevelsAreKahn(g, ls);
      assert forall n :: n in order <==> n in Ids(g);
      ResolveAll(order, f);
      byLevel := Group(order);
      forall k: nat, n ensures OnRow(byLevel, k, n) <==> At(ls, k, n) {
        assert n in f <==> n in order && n !in Comps(g);
      }
    }
  }

  ghost predicate OnRow(byLevel: map<nat, seq<Id>>, k: nat, n: Id) {
    k in byLevel && n in byLevel[k]
  }
}
