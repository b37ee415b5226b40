// What a node is given: exactly its parents' outputs, under them live memory,
// and in a nested graph what the node around it was given.
module Contexts {
  import opened Base
  import opened Graph
  import opened Events
  import opened Kernel
  import opened Scopes

  /** k is what node `id` is given: a parent's output, or the context handed down to a nested graph. */
  predicate Given(g: GraphSpec, outputs: map<Id, Value>, id: Id, k: Id) {
    k in outputs && (k in Parents(g, id) || (k == PARENT && id != PARENT))
  }

  /** What a nested graph starts from: nothing, or what its node is given, as one dict. */
  ghost predicate SeedFrom(g: GraphSpec, outputs: map<Id, Value>, id: Id, seed: map<Id, Value>) {
    if exists k :: Given(g, outputs, id, k) then
      && seed.Keys == {PARENT} && seed[PARENT].Dict?
      && (forall k :: k in seed[PARENT].fields <==> Given(g, outputs, id, k))
      && forall k | Given(g, outputs, id, k) :: seed[PARENT].fields[k] == outputs[k]
    else seed == map[]
  }

  /** Entries of a dict, later ones for the same key replacing earlier ones. */
  lemma {:induction false} PutIs(c: Ctx, k: Id, v: Value)
    requires NoDup(KeysOf(c))
    ensures NoDup(KeysOf(Put(c, k, v))) && (forall x :: x in KeysOf(Put(c, k, v)) <==> x == k || x in KeysOf(c))
    ensures forall x, y :: (x, y) in Put(c, k, v) <==> if x == k then y == v else (x, y) in c
  {
    if c != [] {
      var rest := c[1..];
      assert KeysOf(c) == [c[0].0] + KeysOf(rest);
      NoDupParts([c[0].0], KeysOf(rest));
      KeysIn(rest);
      assert forall e :: e in c <==> e == c[0] || e in rest;
      if c[0].0 == k {
        assert KeysOf([(k, v)] + rest) == [k] + KeysOf(rest);
        NoDupCons(k, KeysOf(rest));
      } else {
        PutIs(rest, k, v);
        var more := Put(rest, k, v);
        assert KeysOf([c[0]] + more) == [c[0].0] + KeysOf(more);
        NoDupCons(c[0].0, KeysOf(more));
      }
    }
  }

  lemma {:induction false} KeysIn(c: Ctx)
    ensures forall x :: x in KeysOf(c) <==> exists y :: (x, y) in c
  {
    if c != [] {
      KeysIn(c[1..]);
      assert forall e :: e in c <==> e == c[0] || e in c[1..];
      assert (c[0].0, c[0].1) == c[0];
    }
  }

  lemma {:induction false} ToMapIs(c: Ctx)
    requires NoDup(KeysOf(c))
    ensures forall x :: x in ToMap(c) <==> x in KeysOf(c)
    ensures forall x, y | (x, y) in c :: x in ToMap(c) && ToMap(c)[x] == y
  {
    if c != [] {
      var rest := c[1..];
      assert KeysOf(c) == [c[0].0] + KeysOf(rest);
      NoDupParts([c[0].0], KeysOf(rest));
      ToMapIs(rest);
      KeysIn(rest);
      assert forall e :: e in c <==> e == c[0] || e in rest;
    }
  }

  lemma {:induction false} FromParentsIs(ps: seq<Id>, outputs: map<Id, Value>, c: Ctx)
    requires NoDup(KeysOf(c))
    ensures NoDup(KeysOf(FromParents(ps, outputs, c)))
    ensures forall x, y :: (x, y) in FromParents(ps, outputs, c) <==> if x in ps && x in outputs then y == outputs[x] else (x, y) in c
    decreases |ps|
  {
    if ps != [] {
      if ps[0] in outputs { PutIs(c, ps[0], outputs[ps[0]]); }
      FromParentsIs(ps[1..], outputs, if ps[0] in outputs then Put(c, ps[0], outputs[ps[0]]) else c);
      assert forall x :: x in ps <==> x == ps[0] || x in ps[1..];
    }
  }

  /** `_upstream_context`: exactly what the node is given. */
  lemma UpstreamIs(g: GraphSpec, outputs: map<Id, Value>, id: Id)
    ensures var c := UpstreamContext(g, outputs, id);
      NoDup(KeysOf(c)) && forall x, y :: (x, y) in c <==> Given(g, outputs, id, x) && y == outputs[x]
  {
    var c := FromParents(Parents(g, id), outputs, []);
    FromParentsIs(Parents(g, id), outputs, []);
    ToMapIs(c);
    KeysIn(c);
    if id != PARENT && PARENT in outputs && PARENT !in ToMap(c) {
      KeysSnoc(c, (PARENT, outputs[PARENT]));
      NoDupSnoc(KeysOf(c), PARENT);
    }
  }

  lemma {:induction false} KeysSnoc(c: Ctx, e: (Id, Value))
    ensures KeysOf(c + [e]) == KeysOf(c) + [e.0]
  {
    if c == [] {
      assert [] + [e] == [e] && [e][1..] == [];
    } else {
      KeysSnoc(c[1..], e);
      assert (c + [e])[1..] == c[1..] + [e];
    }
  }

  /** `{**live, **upstream}`: the second dict wins. */
  lemma {:induction false} PutAllIs(c: Ctx, more: Ctx)
    requires NoDup(KeysOf(c)) && NoDup(KeysOf(more))
    ensures NoDup(KeysOf(PutAll(c, more)))
    ensures forall x, y :: (x, y) in PutAll(c, more) <==> (x, y) in more || (x !in KeysOf(more) && (x, y) in c)
    decreases |more|
  {
    if more != [] {
      var rest := more[1..];
      assert KeysOf(more) == [more[0].0] + KeysOf(rest);
      NoDupParts([more[0].0], KeysOf(rest));
      PutIs(c, more[0].0, more[0].1);
      PutAllIs(Put(c, more[0].0, more[0].1), rest);
      KeysIn(rest);
      assert forall e :: e in more <==> e == more[0] || e in rest;
    }
  }

  /** What `_subgraph_node` seeds a nested graph with. */
  lemma ChildSeedIs(g: GraphSpec, outputs: map<Id, Value>, id: Id)
    ensures SeedFrom(g, outputs, id, ChildSeed(g, outputs, id))
  {
    var up := UpstreamContext(g, outputs, id);
    UpstreamIs(g, outputs, id);
    KeysIn(up);
    ToMapIs(up);
    if up != [] {
      assert (up[0].0, up[0].1) == up[0] && up[0] in up;
      assert Given(g, outputs, id, up[0].0);
      forall k | Given(g, outputs, id, k) ensures k in ToMap(up) && ToMap(up)[k] == outputs[k] { assert (k, outputs[k]) in up; }
      forall k | k in ToMap(up) ensures Given(g, outputs, id, k) {
        var y :| (k, y) in up;
      }
    } else {
      forall k ensures !Given(g, outputs, id, k) { assert (k, if k in outputs then outputs[k] else Null) !in up; }
    }
  }

  /** The first of the node's edges that carries a schema. */
  ghost predicate FirstWithSchema(edges: seq<Edge>, id: Id, i: nat) {
    && i < |edges| && edges[i].src == id && edges[i].schema != ""
    && forall j | 0 <= j < i :: edges[j].src != id || edges[j].schema == ""
  }

  lemma {:induction false} OutgoingIs(edges: seq<Edge>, id: Id)
    ensures forall i: nat | FirstWithSchema(edges, id, i) :: OutgoingSchema(edges, id) == edges[i].schema
    ensures (forall e | e in edges && e.src == id :: e.schema == "") ==> OutgoingSchema(edges, id) == ""
  {
    if edges != [] {
      OutgoingIs(edges[1..], id);
      forall i: nat | FirstWithSchema(edges, id, i) ensures OutgoingSchema(edges, id) == edges[i].schema {
        if i > 0 {
          assert edges[0].src != id || edges[0].schema == "";
          forall j | 0 <= j < i - 1 ensures edges[1..][j].src != id || edges[1..][j].schema == "" { assert edges[1..][j] == edges[j + 1]; }
          assert FirstWithSchema(edges[1..], id, i - 1);
        }
      }
    }
  }

  /** A reply is checked against the first outgoing edge's schema, else the agent's own, else any object. */
  lemma SchemaIs(g: GraphSpec, n: Node, agent: AgentSpec)
    ensures forall i: nat | FirstWithSchema(g.edges, n.id, i) :: SchemaFor(g, n, agent) == g.edges[i].schema
    ensures (forall e | e in g.edges && e.src == n.id :: e.schema == "") ==>
      SchemaFor(g, n, agent) == if agent.outputSchema != "" then agent.outputSchema else "{\"type\": \"object\"}"
  {
    OutgoingIs(g.edges, n.id);
  }
}
