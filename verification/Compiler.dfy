// backend/council/compiler.py, build_graph: whatever branches a model proposes,
// the compiled graph is well formed, and inert until its gate opens.
module Compiler {
  import opened Base
  import opened Graph
  import opened Scopes

  /** What build_graph reads of one proposed branch; `id` is `str(b.get("id", ""))`. */
  datatype Branch = Branch(id: string)

  /** Text helpers: strip, lower and underscore; and str.isidentifier. */
  datatype Names = Names(tidy: string -> string, identifier: string -> bool)

  const MAX_BRANCHES := 4
  const DEFAULTS: seq<Id> := ["security", "quality", "docs"]

  predicate Usable(names: Names, id: Id, seen: set<Id>) {
    id != "" && id !in seen && names.identifier(id)
  }

  /** The ids the loop keeps, in order. */
  function Clean(names: Names, branches: seq<Branch>, seen: set<Id>): (r: seq<Id>)
    ensures forall x | x in r :: x !in seen && x != ""
  {
    if branches == [] then []
    else
      var id := names.tidy(branches[0].id);
      if Usable(names, id, seen) then [id] + Clean(names, branches[1..], seen + {id})
      else Clean(names, branches[1..], seen)
  }

  lemma {:induction false} CleanDistinct(names: Names, branches: seq<Branch>, seen: set<Id>)
    ensures NoDup(Clean(names, branches, seen))
  {
    if branches != [] {
      var id := names.tidy(branches[0].id);
      if Usable(names, id, seen) {
        CleanDistinct(names, branches[1..], seen + {id});
        assert id !in Clean(names, branches[1..], seen + {id});
        NoDupCons(id, Clean(names, branches[1..], seen + {id}));
      } else {
        CleanDistinct(names, branches[1..], seen);
      }
    }
  }

  function Chosen(names: Names, branches: seq<Branch>, allowDegenerate: bool): seq<Id> {
    var clean := Clean(names, branches, {});
    var some := if |clean| < 2 && !allowDegenerate then DEFAULTS else clean;
    if |some| <= MAX_BRANCHES then some else some[..MAX_BRANCHES]
  }

  /** Two to four distinct branches, whatever was proposed. */
  lemma ChosenShape(names: Names, branches: seq<Branch>)
    ensures 2 <= |Chosen(names, branches, false)| <= MAX_BRANCHES && NoDup(Chosen(names, branches, false))
  {
    CleanDistinct(names, branches, {});
  }

  // ---------- the graph ----------

  /** Per-branch models, schemas and the verifier, as the caller's intent picks them. */
  datatype Cast = Cast(models: seq<string>, verifier: string, findings: Schema, report: Schema)

  function Agent(id: Id, model: string, schema: Schema): AgentSpec {
    AgentSpec(id, model, SharedRo, 4000, schema, [])
  }

  function Plain(id: Id, t: NodeType): Node { Node(id, t, None, "", None, 1, None) }

  /** `ranked[i % len(ranked)]` */
  function ModelFor(c: Cast, i: nat): string {
    if c.models == [] then "" else c.models[i % |c.models|]
  }

  function Analyst(c: Cast, id: Id, i: nat): Node {
    Node(id, AgentNode, Some(Agent(id, ModelFor(c, i), c.findings)), "", None, 1, None)
  }

  function Verifier(c: Cast): Node {
    Node("verify", VerifyNode, Some(Agent("verifier", c.verifier, c.report)), "", None, 1, None)
  }

  function CompId(id: Id): Id { "comp_" + id }

  function Compensator(id: Id): Node { Node(CompId(id), CompensateNode, None, "", Some(id), 1, None) }

  function Analysts(c: Cast, ids: seq<Id>, from: nat): seq<Node> {
    if ids == [] then [] else [Analyst(c, ids[0], from)] + Analysts(c, ids[1..], from + 1)
  }

  function Compensators(ids: seq<Id>): seq<Node> {
    if ids == [] then [] else [Compensator(ids[0])] + Compensators(ids[1..])
  }

  function FanEdges(c: Cast, ids: seq<Id>): seq<Edge> {
    if ids == [] then [] else [Edge("fanout", ids[0], c.findings)] + FanEdges(c, ids[1..])
  }

  function JoinEdges(c: Cast, ids: seq<Id>): seq<Edge> {
    if ids == [] then [] else [Edge(ids[0], "join", c.findings)] + JoinEdges(c, ids[1..])
  }

  function Opening(): seq<Node> {
    [Plain("clarify", ClarifyNode), Plain("approve", ApprovalNode), Plain("fanout", FanoutNode)]
  }

  function Closing(c: Cast): seq<Node> { [Plain("join", JoinNode), Verifier(c)] }

  function Compiled(c: Cast, ids: seq<Id>): GraphSpec {
    GraphSpec(1,
      Opening() + Analysts(c, ids, 0) + Closing(c) + Compensators(ids),
      [Edge("clarify", "approve", ""), Edge("approve", "fanout", "")]
        + FanEdges(c, ids) + JoinEdges(c, ids) + [Edge("join", "verify", c.report)])
  }

  /** The loop over the proposed branches. */
  method CleanBranches(names: Names, branches: seq<Branch>) returns (clean: seq<Id>)
    ensures clean == Clean(names, branches, {})
  {
    var seen: set<Id> := {};
    clean := [];
    assert branches[0..] == branches;
    for i := 0 to |branches|
      invariant clean + Clean(names, branches[i..], seen) == Clean(names, branches, {})
    {
      assert branches[i..][1..] == branches[i + 1..];
      var id := names.tidy(branches[i].id);
      if id == "" || id in seen || !names.identifier(id) { continue; }
      seen := seen + {id};
      clean := clean + [id];
    }
    assert clean + [] == clean;
  }

  method AddAnalysts(c: Cast, ids: seq<Id>, nodes0: seq<Node>, edges0: seq<Edge>) returns (nodes: seq<Node>, edges: seq<Edge>)
    ensures nodes == nodes0 + Analysts(c, ids, 0) && edges == edges0 + FanEdges(c, ids)
  {
    nodes, edges := nodes0, edges0;
    assert ids[0..] == ids;
    for i := 0 to |ids|
      invariant nodes + Analysts(c, ids[i..], i) == nodes0 + Analysts(c, ids, 0)
      invariant edges + FanEdges(c, ids[i..]) == edges0 + FanEdges(c, ids)
    {
      assert ids[i..][1..] == ids[i + 1..] && ids[i..][0] == ids[i];
      nodes := nodes + [Analyst(c, ids[i], i)];
      edges := edges + [Edge("fanout", ids[i], c.findings)];
    }
    assert nodes + [] == nodes && edges + [] == edges;
  }

  method AddJoins(c: Cast, ids: seq<Id>, edges0: seq<Edge>) returns (edges: seq<Edge>)
    ensures edges == edges0 + JoinEdges(c, ids)
  {
    edges := edges0;
    assert ids[0..] == ids;
    for i := 0 to |ids|
      invariant edges + JoinEdges(c, ids[i..]) == edges0 + JoinEdges(c, ids)
    {
      assert ids[i..][1..] == ids[i + 1..];
      edges := edges + [Edge(ids[i], "join", c.findings)];
    }
    assert edges + [] == edges;
  }

  method AddCompensators(ids: seq<Id>, nodes0: seq<Node>) returns (nodes: seq<Node>)
    ensures nodes == nodes0 + Compensators(ids)
  {
    nodes := nodes0;
    assert ids[0..] == ids;
    for i := 0 to |ids|
      invariant nodes + Compensators(ids[i..]) == nodes0 + Compensators(ids)
    {
      assert ids[i..][1..] == ids[i + 1..];
      nodes := nodes + [Compensator(ids[i])];
    }
    assert nodes + [] == nodes;
  }

  /** None is the ZeroDivisionError of an empty model list. */
  method BuildGraph(names: Names, branches: seq<Branch>, c: Cast, allowDegenerate: bool) returns (g: Option<GraphSpec>)
    ensures g.None? <==> c.models == [] && Chosen(names, branches, allowDegenerate) != []
    ensures g.Some? ==> g.value == Compiled(c, Chosen(names, branches, allowDegenerate))
  {
    hide Analysts, Compensators, FanEdges, JoinEdges, Analyst, Verifier, Plain;
    var clean := CleanBranches(names, branches);
    if |clean| < 2 && !allowDegenerate { clean := DEFAULTS; }
    var ids := if |clean| <= MAX_BRANCHES then clean else clean[..MAX_BRANCHES];
    if ids != [] && c.models == [] { return None; }
    var nodes, edges := Opening(), [Edge("clarify", "approve", ""), Edge("approve", "fanout", "")];
    nodes, edges := AddAnalysts(c, ids, nodes, edges);
    nodes := nodes + [Plain("join", JoinNode)];
    edges := AddJoins(c, ids, edges);
    nodes := nodes + [Verifier(c)];
    edges := edges + [Edge("join", "verify", c.report)];
    nodes := AddCompensators(ids, nodes);
    assert nodes == Opening() + Analysts(c, ids, 0) + Closing(c) + Compensators(ids);
    g := Some(GraphSpec(1, nodes, edges));
  }

  // ---------- its nodes and edges ----------

  const FIXED: seq<Id> := ["clarify", "approve", "fanout", "join", "verify"]

  /** No branch is called like a fixed node, or like another branch's compensator. */
  predicate Unreserved(ids: seq<Id>) {
    forall b | b in ids :: b !in FIXED && forall d | d in ids :: b != CompId(d)
  }

  lemma CompIdIs(a: Id, b: Id)
    ensures CompId(a) == CompId(b) ==> a == b
    ensures CompId(a) !in FIXED
  {
    assert CompId(a)[5..] == a && CompId(b)[5..] == b;
    assert CompId(a)[..2] == "co";
    assert "clarify"[..2] == "cl" && "approve"[..2] == "ap" && "fanout"[..2] == "fa" && "join"[..2] == "jo" && "verify"[..2] == "ve";
    assert "cl"[1] == 'l' && "co"[1] == 'o' && "ap"[0] == 'a' && "co"[0] == 'c' && "fa"[0] == 'f' && "jo"[0] == 'j' && "ve"[0] == 'v';
  }

  lemma {:induction false} AnalystsAre(c: Cast, ids: seq<Id>, from: nat)
    ensures IdsOf(Analysts(c, ids, from)) == ids
    ensures forall n | n in Analysts(c, ids, from) :: n.id in ids && n.ntype == AgentNode && !Declares(n) && n.subgraph.None?
    ensures forall b | b in ids :: exists n :: n in Analysts(c, ids, from) && n.id == b
  {
    if ids != [] {
      AnalystsAre(c, ids[1..], from + 1);
      var rest := Analysts(c, ids[1..], from + 1);
      var all := [Analyst(c, ids[0], from)] + rest;
      assert all[1..] == rest && all[0].id == ids[0];
      assert forall n :: n in all <==> n == all[0] || n in rest;
    }
  }

  function CompIds(ids: seq<Id>): seq<Id> {
    if ids == [] then [] else [CompId(ids[0])] + CompIds(ids[1..])
  }

  lemma {:induction false} CompensatorsAre(ids: seq<Id>)
    ensures IdsOf(Compensators(ids)) == CompIds(ids)
    ensures forall n :: n in Compensators(ids) <==> exists b :: b in ids && n == Compensator(b)
    ensures forall x :: x in CompIds(ids) <==> exists b :: b in ids && x == CompId(b)
    ensures NoDup(ids) ==> NoDup(CompIds(ids))
  {
    if ids != [] {
      CompensatorsAre(ids[1..]);
      var rest := Compensators(ids[1..]);
      var all := [Compensator(ids[0])] + rest;
      assert all[1..] == rest;
      assert forall b :: b in ids <==> b == ids[0] || b in ids[1..];
      assert forall n :: n in all <==> n == all[0] || n in rest;
      if NoDup(ids) {
        assert ids == [ids[0]] + ids[1..];
        NoDupParts([ids[0]], ids[1..]);
        if CompId(ids[0]) in CompIds(ids[1..]) {
          var b :| b in ids[1..] && CompId(ids[0]) == CompId(b);
          CompIdIs(ids[0], b);
        }
        NoDupCons(CompId(ids[0]), CompIds(ids[1..]));
      }
    }
  }

  lemma {:induction false} EdgesAre(c: Cast, ids: seq<Id>)
    ensures forall e :: e in FanEdges(c, ids) <==> exists b :: b in ids && e == Edge("fanout", b, c.findings)
    ensures forall e :: e in JoinEdges(c, ids) <==> exists b :: b in ids && e == Edge(b, "join", c.findings)
  {
    if ids != [] {
      EdgesAre(c, ids[1..]);
      assert forall b :: b in ids <==> b == ids[0] || b in ids[1..];
    }
  }

  lemma IdsOfConcat(a: seq<Node>, b: seq<Node>)
    ensures IdsOf(a + b) == IdsOf(a) + IdsOf(b)
  {
    var both, one, two := IdsOf(a + b), IdsOf(a), IdsOf(b);
    forall i | 0 <= i < |a + b| ensures both[i] == (one + two)[i] { }
  }

  /** What a node of the compiled graph is. */
  ghost predicate Listed(n: Node, c: Cast, ids: seq<Id>) {
    || n in Opening() || n in Closing(c)
    || (n.id in ids && n.ntype == AgentNode && !Declares(n) && n.subgraph.None?)
    || exists b :: b in ids && n == Compensator(b)
  }

  lemma InFour<T>(a: seq<T>, b: seq<T>, c: seq<T>, d: seq<T>)
    ensures forall x :: x in a + b + c + d <==> x in a || x in b || x in c || x in d
  {
  }

  lemma NodesOf(c: Cast, ids: seq<Id>)
    ensures Compiled(c, ids).nodes == Opening() + Analysts(c, ids, 0) + Closing(c) + Compensators(ids)
  {
  }

  lemma NodesAre(c: Cast, ids: seq<Id>)
    ensures forall n | n in Compiled(c, ids).nodes :: Listed(n, c, ids) && n.subgraph.None? && !Declares(n)
  {
    hide Compiled, Analysts, Compensators, Opening, Closing, IdsOf, CompIds;
    NodesOf(c, ids);
    AnalystsAre(c, ids, 0);
    CompensatorsAre(ids);
    InFour(Opening(), Analysts(c, ids, 0), Closing(c), Compensators(ids));
    FixedPlain(c);
  }

  lemma NodesThere(c: Cast, ids: seq<Id>)
    ensures forall n | n in Opening() || n in Closing(c) :: n in Compiled(c, ids).nodes
    ensures forall b | b in ids :: exists n :: n in Compiled(c, ids).nodes && n.id == b && n.ntype == AgentNode
    ensures forall b | b in ids :: Compensator(b) in Compiled(c, ids).nodes
  {
    hide Compiled, Analysts, Compensators, Opening, Closing, IdsOf, CompIds;
    NodesOf(c, ids);
    AnalystsAre(c, ids, 0);
    CompensatorsAre(ids);
    InFour(Opening(), Analysts(c, ids, 0), Closing(c), Compensators(ids));
    forall b | b in ids ensures exists n :: n in Compiled(c, ids).nodes && n.id == b && n.ntype == AgentNode {
      var n :| n in Analysts(c, ids, 0) && n.id == b;
      assert n in Compiled(c, ids).nodes;
    }
  }

  lemma FixedPlain(c: Cast)
    ensures forall n | n in Opening() || n in Closing(c) :: n.subgraph.None? && !Declares(n) && n.ntype != CompensateNode
    ensures forall n | n in Opening() || n in Closing(c) :: n.id in FIXED
  {
  }

  lemma AllIdsAre(c: Cast, ids: seq<Id>)
    ensures AllIds(Compiled(c, ids)) == ["clarify", "approve", "fanout"] + ids + ["join", "verify"] + CompIds(ids)
  {
    hide Compiled, Analysts, Compensators, Opening, Closing, IdsOf, CompIds;
    var nodes := Compiled(c, ids).nodes;
    NodesOf(c, ids);
    NodesAre(c, ids);
    NothingNested(nodes);
    AnalystsAre(c, ids, 0);
    CompensatorsAre(ids);
    FixedIds(c);
    FourIds(Opening(), Analysts(c, ids, 0), Closing(c), Compensators(ids));
    assert IdsOf(nodes) + [] == IdsOf(nodes);
  }

  lemma FourIds(a: seq<Node>, b: seq<Node>, c: seq<Node>, d: seq<Node>)
    ensures IdsOf(a + b + c + d) == IdsOf(a) + IdsOf(b) + IdsOf(c) + IdsOf(d)
  {
    IdsOfConcat(a + b + c, d);
    IdsOfConcat(a + b, c);
    IdsOfConcat(a, b);
  }

  lemma FixedIds(c: Cast)
    ensures IdsOf(Opening()) == ["clarify", "approve", "fanout"] && IdsOf(Closing(c)) == ["join", "verify"]
  {
  }

  lemma NoDupConcat<T>(a: seq<T>, b: seq<T>)
    requires NoDup(a) && NoDup(b) && forall x | x in a :: x !in b
    ensures NoDup(a + b)
  {
    var s := a + b;
    forall i, j | 0 <= i < j < |s| ensures s[i] != s[j] {
      if i < |a| {
        assert s[i] in a;
        if j >= |a| { assert s[j] in b; }
      } else {
        assert s[i] == b[i - |a|] && s[j] == b[j - |a|];
      }
    }
  }

  /** The compiled ids are unique exactly when the branch names are clear of the reserved ones. */
  lemma UniqueIffUnreserved(c: Cast, ids: seq<Id>)
    requires NoDup(ids)
    ensures UniqueIds(Compiled(c, ids)) <==> Unreserved(ids)
  {
    AllIdsAre(c, ids);
    CompensatorsAre(ids);
    var o, z, k := ["clarify", "approve", "fanout"], ["join", "verify"], CompIds(ids);
    forall b ensures CompId(b) !in FIXED { CompIdIs(b, b); }
    if Unreserved(ids) {
      NoDupConcat(o, ids);
      NoDupConcat(o + ids, z);
      forall x | x in o + ids + z ensures x !in k { }
      NoDupConcat(o + ids + z, k);
    }
    if UniqueIds(Compiled(c, ids)) {
      NoDupParts(o + ids + z, k);
      NoDupParts(o + ids, z);
      NoDupParts(o, ids);
      forall b | b in ids ensures b !in FIXED && forall d | d in ids :: b != CompId(d) {
        assert b in o + ids && b in o + ids + z;
        assert "clarify" in o && "approve" in o && "fanout" in o && "join" in z && "verify" in z;
        forall d | d in ids ensures b != CompId(d) { assert CompId(d) in k; }
      }
    }
  }
}
