// Reachability in a graph, and what `_has_upstream_approval` decides.
module Reach {
  import opened Base
  import opened Graph

  /** A walk along edges. */
  ghost predicate Walk(g: GraphSpec, ps: seq<Id>) {
    |ps| > 0 && forall i | 0 <= i < |ps| - 1 :: HasEdge(g, ps[i], ps[i + 1])
  }

  ghost predicate WalkFromTo(g: GraphSpec, ps: seq<Id>, a: Id, n: Id) {
    Walk(g, ps) && ps[0] == a && ps[|ps| - 1] == n
  }

  /** `a` reaches `n` by one or more edges. */
  ghost predicate Above(g: GraphSpec, a: Id, n: Id) {
    exists ps :: |ps| >= 2 && WalkFromTo(g, ps, a, n)
  }

  ghost predicate IsApproval(g: GraphSpec, a: Id) {
    FindNode(g, a).Some? && FindNode(g, a).value.ntype == ApprovalNode
  }

  lemma ParentIsAbove(g: GraphSpec, p: Id, n: Id)
    requires p in Parents(g, n)
    ensures Above(g, p, n)
  {
    assert HasEdge(g, p, n);
    assert WalkFromTo(g, [p, n], p, n);
  }

  lemma AboveParent(g: GraphSpec, a: Id, p: Id, n: Id)
    requires Above(g, a, p) && p in Parents(g, n)
    ensures Above(g, a, n)
  {
    var ps :| |ps| >= 2 && WalkFromTo(g, ps, a, p);
    assert HasEdge(g, p, n);
    assert WalkFromTo(g, ps + [n], a, n);
  }

  /** A set closed under parents that holds the parents of `n` holds everything above `n`. */
  lemma {:induction false} ClosedCovers(g: GraphSpec, closed: set<Id>, ps: seq<Id>, n: Id)
    requires forall x | x in closed :: forall p | p in Parents(g, x) :: p in closed
    requires forall p | p in Parents(g, n) :: p in closed
    requires Walk(g, ps) && |ps| >= 2 && ps[|ps| - 1] == n
    ensures ps[0] in closed
    decreases |ps|
  {
    var q := ps[|ps| - 2];
    assert HasEdge(g, q, n);
    assert q in Parents(g, n);
    if |ps| > 2 {
      var ps' := ps[..|ps| - 1];
      assert forall i | 0 <= i < |ps'| - 1 :: HasEdge(g, ps'[i], ps'[i + 1]) by {
        forall i | 0 <= i < |ps'| - 1 ensures HasEdge(g, ps'[i], ps'[i + 1]) {
          assert HasEdge(g, ps[i], ps[i + 1]);
        }
      }
      ClosedCovers(g, closed, ps', q);
    }
  }

  /** What a search among parents of `n` has established when it returns. */
  lemma {:induction false} SeekMeaning(g: GraphSpec, ps: seq<Id>, seen: set<Id>, n: Id)
    requires forall p | p in ps :: p in Parents(g, n)
    requires forall p | p in ps :: p in Sources(g)
    ensures var r := Seek(g, ps, seen);
      && (r.verdict == Found ==> exists a :: IsApproval(g, a) && Above(g, a, n))
      && (r.verdict == KeyError ==> exists a :: a !in Ids(g) && Above(g, a, n))
      && (r.verdict == Absent ==>
            && (forall p | p in ps :: p in r.seen)
            && forall x | x in r.seen && x !in seen ::
                 x in Ids(g) && !IsApproval(g, x) && forall p | p in Parents(g, x) :: p in r.seen)
    decreases Sources(g) - seen, |ps|
  {
    if ps == [] {
    } else if ps[0] in seen {
      SeekMeaning(g, ps[1..], seen, n);
    } else {
      var p := ps[0];
      var seen1 := seen + {p};
      ParentIsAbove(g, p, n);
      var node := FindNode(g, p);
      if node.Some? && node.value.ntype != ApprovalNode {
        assert p in Sources(g) - seen && p !in Sources(g) - seen1;
        var r := Seek(g, Parents(g, p), seen1);
        assert p in Sources(g) - seen && p !in Sources(g) - r.seen;
        SeekMeaning(g, Parents(g, p), seen1, p);
        if r.verdict == Absent {
          SeekMeaning(g, ps[1..], r.seen, n);
        } else {
          forall a | Above(g, a, p) ensures Above(g, a, n) { AboveParent(g, a, p, n); }
        }
      } else {
        assert node.Some? ==> IsApproval(g, p);
      }
    }
  }

  /**
   * `_has_upstream_approval` on any graph, cyclic or not: true only if an
   * approval node reaches the node, false exactly when none does and every
   * node above it exists, a KeyError only if something above it is missing.
   */
  lemma UpstreamApprovalExact(g: GraphSpec, n: Id)
    ensures UpstreamApproval(g, n) == Found ==> exists a :: IsApproval(g, a) && Above(g, a, n)
    ensures UpstreamApproval(g, n) == KeyError ==> exists a :: a !in Ids(g) && Above(g, a, n)
    ensures UpstreamApproval(g, n) == Absent <==>
              forall a | Above(g, a, n) :: a in Ids(g) && !IsApproval(g, a)
  {
    var r := Seek(g, Parents(g, n), {});
    SeekMeaning(g, Parents(g, n), {}, n);
    if r.verdict == Absent {
      forall a | Above(g, a, n) ensures a in Ids(g) && !IsApproval(g, a) {
        var ps :| |ps| >= 2 && WalkFromTo(g, ps, a, n);
        ClosedCovers(g, r.seen, ps, n);
      }
    }
  }

  /** With no dangling parent the answer is exactly "some approval node is upstream". */
  lemma UpstreamApprovalDecides(g: GraphSpec, n: Id)
    requires Sources(g) <= Ids(g)
    ensures UpstreamApproval(g, n) != KeyError
    ensures UpstreamApproval(g, n) == Found <==> exists a :: IsApproval(g, a) && Above(g, a, n)
  {
    UpstreamApprovalExact(g, n);
    forall a | Above(g, a, n) ensures a in Ids(g) {
      var ps :| |ps| >= 2 && WalkFromTo(g, ps, a, n);
      assert HasEdge(g, ps[0], ps[1]);
    }
  }

  /** The Python set object the recursive calls share. */
  class SeenSet {
    var ids: set<Id>
    constructor ()
      ensures ids == {}
    {
      ids := {};
    }
  }

  /** What the loop does with its next parent. */
  lemma SeekHead(g: GraphSpec, ps: seq<Id>, seen: set<Id>)
    requires ps != [] && forall p | p in ps :: p in Sources(g)
    ensures ps[0] in seen ==> Seek(g, ps, seen) == Seek(g, ps[1..], seen)
    ensures ps[0] !in seen && FindNode(g, ps[0]).None? ==> Seek(g, ps, seen) == Search(KeyError, seen + {ps[0]})
    ensures ps[0] !in seen && FindNode(g, ps[0]).Some? ==>
      if FindNode(g, ps[0]).value.ntype == ApprovalNode then Seek(g, ps, seen) == Search(Found, seen + {ps[0]})
      else
        var r := Seek(g, Parents(g, ps[0]), seen + {ps[0]});
        Seek(g, ps, seen) == if r.verdict != Absent then r else Seek(g, ps[1..], r.seen)
  {
  }

  lemma NextParent(g: GraphSpec, ps: seq<Id>, i: nat, seen: set<Id>)
    requires i < |ps| && forall p | p in ps :: p in Sources(g)
    ensures ps[i] in Sources(g)
    ensures ps[i] in seen ==> Seek(g, ps[i..], seen) == Seek(g, ps[i + 1..], seen)
    ensures ps[i] !in seen && FindNode(g, ps[i]).None? ==> Seek(g, ps[i..], seen) == Search(KeyError, seen + {ps[i]})
    ensures ps[i] !in seen && FindNode(g, ps[i]).Some? && FindNode(g, ps[i]).value.ntype == ApprovalNode ==>
      Seek(g, ps[i..], seen) == Search(Found, seen + {ps[i]})
    ensures ps[i] !in seen && FindNode(g, ps[i]).Some? && FindNode(g, ps[i]).value.ntype != ApprovalNode ==>
      var r := Seek(g, Parents(g, ps[i]), seen + {ps[i]});
      Seek(g, ps[i..], seen) == if r.verdict != Absent then r else Seek(g, ps[i + 1..], r.seen)
  {
    hide Seek, Sources, FindNode;
    assert ps[i..][0] == ps[i] && ps[i..][1..] == ps[i + 1..];
    SeekHead(g, ps[i..], seen);
  }

  /** Each parent looked at leaves fewer. */
  lemma FewerLeft(all: set<Id>, id: Id, start: set<Id>, seen: set<Id>, p: Id)
    requires start <= seen && p in all && p !in seen
    ensures all - (seen + {p}) < all - start && all - (seen + {p}) < all + {id}
  {
    assert p in all - start && p !in all - (seen + {p}) && p in all + {id};
  }

  lemma SeekNothing(g: GraphSpec, seen: set<Id>)
    ensures Seek(g, [], seen) == Search(Absent, seen)
  {
  }

  lemma ParentsAreSources(g: GraphSpec, id: Id)
    ensures forall p | p in Parents(g, id) :: p in Sources(g)
  {
  }

  /**
   * `_has_upstream_approval` itself. An absent or empty `seen` is replaced by
   * a fresh set (`seen or set()`), so only non-empty sets are shared.
   */
  method HasUpstreamApproval(g: GraphSpec, id: Id, given: SeenSet?) returns (verdict: Verdict)
    modifies given
    ensures given == null || old(given.ids) == {} ==> verdict == UpstreamApproval(g, id)
    ensures given != null && old(given.ids) != {} ==>
              Search(verdict, given.ids) == Seek(g, Parents(g, id), old(given.ids))
    decreases if given == null || given.ids == {} then Sources(g) + {id} else Sources(g) - given.ids, 1
  {
    var seen: SeenSet;
    if given != null && given.ids != {} {
      seen := given;
    } else {
      seen := new SeenSet();
    }
    ghost var start, shared := seen.ids, seen == given;
    var ps := Parents(g, id);
    ParentsAreSources(g, id);
    hide Seek, Sources, Parents, FindNode;
    var i := 0;
    while i < |ps|
      invariant 0 <= i <= |ps|
      invariant start <= seen.ids
      invariant if shared then seen == given else fresh(seen) && (given != null ==> given.ids == {})
      invariant Seek(g, ps, start) == Seek(g, ps[i..], seen.ids)
    {
      var p := ps[i];
      NextParent(g, ps, i, seen.ids);
      if p !in seen.ids {
        FewerLeft(Sources(g), id, start, seen.ids, p);
        seen.ids := seen.ids + {p};
        match FindNode(g, p) {
          case None => return KeyError;
          case Some(n) =>
            if n.ntype == ApprovalNode { return Found; }
        }
        var above := HasUpstreamApproval(g, p, seen);
        if above != Absent { return above; }
      }
      i := i + 1;
    }
    assert ps[i..] == [] && Seek(g, [], seen.ids) == Search(Absent, seen.ids) by { SeekNothing(g, seen.ids); }
    return Absent;
  }
}
