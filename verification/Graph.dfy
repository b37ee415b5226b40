// The graph data model of backend/engine/spec.py.
module Graph {
  import opened Base

  type Schema = string   // the JSON text of a schema; "" is the empty dict

  datatype NodeType =
    | ClarifyNode | AgentNode | FanoutNode | JoinNode | ConditionalNode
    | VerifyNode | CouncilNode | ApprovalNode | CompensateNode | SubgraphNode

  datatype MemoryScope = SharedRw | SharedRo | Isolated

  datatype AgentSpec = AgentSpec(
    id: Id,
    model: string,
    memoryScope: MemoryScope,
    budgetTokens: int,
    outputSchema: Schema,
    sideEffects: seq<string>)

  datatype Node = Node(
    id: Id,
    ntype: NodeType,
    agent: Option<AgentSpec>,
    condition: string,            // "" when the node carries none
    compensates: Option<Id>,
    maxRetries: int,
    subgraph: Option<GraphSpec>)

  datatype Edge = Edge(src: Id, dst: Id, schema: Schema)

  datatype GraphSpec = GraphSpec(version: int, nodes: seq<Node>, edges: seq<Edge>)

  // ---------- topology ----------

  /** The first node with this id; a missing id is a KeyError. */
  function FindIn(nodes: seq<Node>, id: Id): (r: Option<Node>)
    ensures r.Some? ==> r.value in nodes && r.value.id == id
    ensures r.None? <==> forall n | n in nodes :: n.id != id
  {
    if nodes == [] then None
    else if nodes[0].id == id then Some(nodes[0])
    else FindIn(nodes[1..], id)
  }

  function FindNode(g: GraphSpec, id: Id): (r: Option<Node>)
    ensures r.Some? ==> r.value in g.nodes && r.value.id == id
    ensures r.None? <==> id !in Ids(g)
  {
    FindIn(g.nodes, id)
  }

  function Ids(g: GraphSpec): set<Id> {
    set n | n in g.nodes :: n.id
  }

  function SourcesInto(edges: seq<Edge>, id: Id): (r: seq<Id>)
    ensures forall p :: p in r <==> exists e :: e in edges && e.dst == id && e.src == p
  {
    if edges == [] then []
    else (if edges[0].dst == id then [edges[0].src] else []) + SourcesInto(edges[1..], id)
  }

  function TargetsFrom(edges: seq<Edge>, id: Id): (r: seq<Id>)
    ensures forall c :: c in r <==> exists e :: e in edges && e.src == id && e.dst == c
  {
    if edges == [] then []
    else (if edges[0].src == id then [edges[0].dst] else []) + TargetsFrom(edges[1..], id)
  }

  function Parents(g: GraphSpec, id: Id): seq<Id> { SourcesInto(g.edges, id) }

  function Children(g: GraphSpec, id: Id): seq<Id> { TargetsFrom(g.edges, id) }

  ghost predicate HasEdge(g: GraphSpec, p: Id, c: Id) {
    exists e :: e in g.edges && e.src == p && e.dst == c
  }

  /** Ids of compensators; `levels` ignores the edges that leave them. */
  function Comps(g: GraphSpec): set<Id> {
    set n | n in g.nodes && n.ntype == CompensateNode :: n.id
  }

  /** Ids the scheduler places on a level. */
  function Steps(g: GraphSpec): set<Id> {
    Ids(g) - Comps(g)
  }

  // ---------- node ids of the whole nested graph ----------

  function AllIds(g: GraphSpec): seq<Id>
    decreases g, 1
  {
    IdsOf(g.nodes) + NestedIds(g.nodes)
  }

  function IdsOf(nodes: seq<Node>): (r: seq<Id>)
    ensures |r| == |nodes|
    ensures forall i | 0 <= i < |nodes| :: r[i] == nodes[i].id
  {
    if nodes == [] then [] else [nodes[0].id] + IdsOf(nodes[1..])
  }

  function NestedIds(nodes: seq<Node>): seq<Id>
    decreases nodes, 0
  {
    if nodes == [] then []
    else (if nodes[0].subgraph.Some? then AllIds(nodes[0].subgraph.value) else []) + NestedIds(nodes[1..])
  }

  // ---------- upstream approval ----------

  function Sources(g: GraphSpec): set<Id> {
    set e | e in g.edges :: e.src
  }

  datatype Verdict = Found | Absent | KeyError
  datatype Search = Search(verdict: Verdict, seen: set<Id>)

  /**
   * The loop of `_has_upstream_approval` over the parents `ps`, with the
   * `seen` set its recursive calls share.
   */
  function Seek(g: GraphSpec, ps: seq<Id>, seen: set<Id>): (r: Search)
    requires forall p | p in ps :: p in Sources(g)
    ensures seen <= r.seen
    decreases Sources(g) - seen, |ps|
  {
    if ps == [] then Search(Absent, seen)
    else if ps[0] in seen then Seek(g, ps[1..], seen)
    else
      var seen1 := seen + {ps[0]};
      match FindNode(g, ps[0])
      case None => Search(KeyError, seen1)
      case Some(n) =>
        if n.ntype == ApprovalNode then Search(Found, seen1)
        else
          assert Sources(g) - seen1 < Sources(g) - seen by {
            assert ps[0] in Sources(g) - seen && ps[0] !in Sources(g) - seen1;
          }
          var r := Seek(g, Parents(g, ps[0]), seen1);
          if r.verdict != Absent then r
          else
            assert Sources(g) - r.seen < Sources(g) - seen by {
              assert ps[0] in Sources(g) - seen && ps[0] !in Sources(g) - r.seen;
            }
            Seek(g, ps[1..], r.seen)
  }

  function UpstreamApproval(g: GraphSpec, id: Id): Verdict {
    Seek(g, Parents(g, id), {}).verdict
  }

  // ---------- side effects ----------

  predicate Declares(n: Node) {
    n.agent.Some? && n.agent.value.sideEffects != []
  }

  datatype Validation = Problems(nodes: seq<Id>) | Raises

  /**
   * validate_side_effects: the ids of unguarded nodes, in the order they are
   * reported, or the KeyError of an edge that names no node.
   */
  function Validate(g: GraphSpec): Validation
    decreases g, 1
  {
    ValidateNodes(g, g.nodes)
  }

  function ValidateNodes(g: GraphSpec, nodes: seq<Node>): Validation
    requires forall n | n in nodes :: n in g.nodes
    decreases g, 0, nodes
  {
    if nodes == [] then Problems([])
    else
      var n := nodes[0];
      var own := if Declares(n) then UpstreamApproval(g, n.id) else Found;
      if own == KeyError then Raises
      else
        assert n in g.nodes;
        var nested := if n.subgraph.Some? then Validate(n.subgraph.value) else Problems([]);
        if nested.Raises? then Raises
        else match ValidateNodes(g, nodes[1..])
          case Raises => Raises
          case Problems(rest) => Problems((if own == Absent then [n.id] else []) + nested.nodes + rest)
  }
}
