// Approval safety and the failure structure, for every run: which nodes may
// call the model, and what a finished graph's results look like.
module Approvals {
  import opened Base
  import opened Graph
  import opened Reach
  import opened Layering
  import opened Events
  import opened Tasks
  import opened Safety
  import opened Kernel
  import opened Scopes
  import opened Failures
  import opened CausalLog
  import opened Queries
  import opened Receipts
  import opened KernelInduction

  // ---------- what is promised ----------

  /** No edge leaves a compensator, at any nesting level. */
  predicate Firm(g: GraphSpec) {
    && (forall e | e in g.edges :: e.src !in Comps(g))
    && (forall n | n in g.nodes && n.subgraph.Some? :: Firm(n.subgraph.value))
  }

  /** A walk the scheduler orders: it leaves no compensator. */
  ghost predicate Ordered(g: GraphSpec, ps: seq<Id>) {
    Walk(g, ps) && forall i | 0 <= i < |ps| - 1 :: ps[i] !in Comps(g)
  }

  ghost predicate ScheduledAbove(g: GraphSpec, a: Id, n: Id) {
    exists ps: seq<Id> :: |ps| >= 2 && Ordered(g, ps) && ps[0] == a && ps[|ps| - 1] == n
  }


  /** All approvals the scheduler places above node `id` are granted. */
  ghost predicate GatesOpen(g: GraphSpec, id: Id, granted: set<Id>) {
    forall a | IsApproval(g, a) && ScheduledAbove(g, a, id) :: a in granted
  }

  /** An agent node that can be called, and so can pass. */
  predicate CanCall(n: Node) {
    RunsAgent(n) && n.agent.Some? && n.agent.value.budgetTokens > 0 && n.maxRetries >= 0
  }

  /** A node that can never pass: no agent, no budget, no attempt, or no nested graph. */
  predicate Dead(n: Node) {
    (RunsAgent(n) && !CanCall(n)) || (n.ntype == SubgraphNode && n.subgraph.None?)
  }

  predicate IsDead(g: GraphSpec, id: Id) {
    FindNode(g, id).Some? && Dead(FindNode(g, id).value)
  }

  /** Nothing the scheduler places above node `id` is dead. */
  ghost predicate Fed(g: GraphSpec, id: Id) {
    forall d | IsDead(g, d) :: !ScheduledAbove(g, d, id)
  }

  /** An approval is scheduled above every declaring node that could ever be called. */
  ghost predicate Guards(g: GraphSpec) {
    forall n | n in g.nodes && Declares(n) && CanCall(n) && Fed(g, n.id) ::
      exists a :: IsApproval(g, a) && ScheduledAbove(g, a, n.id)
  }

  /** So it is at every nesting level. */
  ghost predicate Sheltered(g: GraphSpec) {
    Guards(g) && forall n | n in g.nodes && n.subgraph.Some? :: Sheltered(n.subgraph.value)
  }

  /** x is an agent node that can be called, nothing above it is dead, and every approval above it is granted, in its own graph and above each nested graph around it. */
  ghost predicate Allowed(g: GraphSpec, x: Id, granted: set<Id>) {
    forall n | n in g.nodes && Some(x) in ScopeOf(n) ::
      && GatesOpen(g, n.id, granted) && Fed(g, n.id)
      && (n.id == x ==> CanCall(n))
      && (n.subgraph.Some? && Some(x) in GraphScope(n.subgraph.value) ==> Allowed(n.subgraph.value, x, granted))
  }

  /** Model calls only for nodes that are allowed to. */
  ghost function SafeCalls(g: GraphSpec): Permit {
    (q: Query, granted: set<Id>) => q.Complete? ==> Allowed(g, q.node, granted)
  }

  ghost function Anything(): Post { (o: Outcome, granted: set<Id>) => true }

  ghost function AnyCall(): Permit { (q: Query, granted: set<Id>) => true }

  /** fanout, join and clarify: no call, no condition, nothing that can fail. */
  predicate PassesOn(n: Node) {
    n.ntype == FanoutNode || n.ntype == JoinNode || n.ntype == ClarifyNode
  }

  /** A gate passes only with its grant in the log, and never skips itself; a pass-through node passes, a dead one does not. */
  ghost function NodeTold(n: Node): Post {
    var dead, gate, through := Dead(n), n.ntype == ApprovalNode, PassesOn(n);
    (o: Outcome, granted: set<Id>) =>
      && (dead ==> !(o.Settled? && o.result.Passed?))
      && (gate ==> !(o.Settled? && o.result.Skipped?) && (o.Settled? && o.result.Passed? ==> n.id in granted))
      && (through ==> o.Settled? && o.result.Passed?)
  }

  /** Everything the scheduler waits for above this node passed. */
  ghost predicate Due(g: GraphSpec, results: map<Id, NodeResult>, id: Id) {
    id in results && forall e | Orders(g, e) && e.dst == id :: e.src in results && results[e.src].Passed?
  }

  /** Gates and pass-through nodes run as soon as they are due. */
  ghost predicate Prompt(g: GraphSpec, results: map<Id, NodeResult>) {
    forall n | n in g.nodes && Due(g, results, n.id) ::
      (n.ntype == ApprovalNode ==> !results[n.id].Skipped?) && (PassesOn(n) ==> results[n.id].Passed?)
  }

  /** How every graph that ran to its end looks. */
  ghost predicate WellEnded(g: GraphSpec, end: GraphEnd, granted: set<Id>) {
    Structured(g, end) && Prompt(g, end.results) && Told(g, end.results, granted)
  }

  ghost function EndsStructured(g: GraphSpec): Post {
    (o: Outcome, granted: set<Id>) => o.Ended? ==> WellEnded(g, o.end, granted)
  }

  /** Once `base` is granted, `permit` lets through the calls of nodes that `g` allows, and whatever is no call. */
  ghost predicate Permits(permit: Permit, g: GraphSpec, base: set<Id>) {
    forall q: Query, granted: set<Id> ::
      base <= granted && (q.Complete? ==> Some(q.node) in GraphScope(g) && Allowed(g, q.node, granted)) ==> permit(q, granted)
  }

  lemma {:induction false} ValidCovers(g: GraphSpec, nodes: seq<Node>)
    requires (forall n | n in nodes :: n in g.nodes) && ValidateNodes(g, nodes) == Problems([])
    ensures forall n | n in nodes && Declares(n) :: exists a :: IsApproval(g, a) && Above(g, a, n.id)
    ensures forall n | n in nodes && n.subgraph.Some? :: Validate(n.subgraph.value) == Problems([])
  {
    if nodes != [] {
      assert nodes[0] in g.nodes;
      ValidCovers(g, nodes[1..]);
      UpstreamApprovalExact(g, nodes[0].id);
    }
  }

  /** No edge comes from an id that is no node, at any depth. */
  ghost predicate Rooted(g: GraphSpec) {
    Sources(g) <= Ids(g) && forall n | n in g.nodes && n.subgraph.Some? :: Rooted(n.subgraph.value)
  }

  /** Every declaring node has an approval above it, at every depth. */
  ghost predicate Covered(g: GraphSpec) {
    && (forall n | n in g.nodes && Declares(n) :: exists a :: IsApproval(g, a) && Above(g, a, n.id))
    && forall n | n in g.nodes && n.subgraph.Some? :: Covered(n.subgraph.value)
  }

  /** Where no parent is missing, validation reports nothing exactly if every declaring node is covered. */
  lemma {:induction false} ValidIffCovered(g: GraphSpec)
    requires Rooted(g)
    ensures Validate(g) == Problems([]) <==> Covered(g)
    decreases g
  {
    forall n | n in g.nodes && n.subgraph.Some? ensures Validate(n.subgraph.value) == Problems([]) <==> Covered(n.subgraph.value) {
      ValidIffCovered(n.subgraph.value);
    }
    if Validate(g) == Problems([]) { ValidCovers(g, g.nodes); }
    if Covered(g) { CoveredValidates(g, g.nodes); }
  }

  lemma {:induction false} CoveredValidates(g: GraphSpec, nodes: seq<Node>)
    requires Sources(g) <= Ids(g) && forall n | n in nodes :: n in g.nodes
    requires forall n | n in nodes && Declares(n) :: exists a :: IsApproval(g, a) && Above(g, a, n.id)
    requires forall n | n in nodes && n.subgraph.Some? :: Validate(n.subgraph.value) == Problems([])
    ensures ValidateNodes(g, nodes) == Problems([])
  {
    if nodes != [] {
      assert nodes[0] in nodes;
      UpstreamApprovalDecides(g, nodes[0].id);
      CoveredValidates(g, nodes[1..]);
    }
  }

  /** Where no edge leaves a compensator, what validation accepts is sheltered. */
  lemma {:induction false} FirmIsSheltered(g: GraphSpec)
    requires Firm(g) && Validate(g) == Problems([])
    ensures Sheltered(g)
    decreases g
  {
    ValidCovers(g, g.nodes);
    forall n | n in g.nodes && Declares(n) && RunsAgent(n) ensures exists a :: IsApproval(g, a) && ScheduledAbove(g, a, n.id) {
      var a :| IsApproval(g, a) && Above(g, a, n.id);
      var ps :| |ps| >= 2 && WalkFromTo(g, ps, a, n.id);
      forall i | 0 <= i < |ps| - 1 ensures ps[i] !in Comps(g) { assert HasEdge(g, ps[i], ps[i + 1]); }
      assert Ordered(g, ps);
    }
    forall n | n in g.nodes && n.subgraph.Some? ensures Sheltered(n.subgraph.value) {
      FirmIsSheltered(n.subgraph.value);
    }
  }

  // ---------- a call is allowed once its ancestors passed ----------

  /** Passed approvals have been granted, and nothing dead passed. */
  ghost predicate Told(g: GraphSpec, results: map<Id, NodeResult>, granted: set<Id>) {
    && (forall a | IsApproval(g, a) && a in results && results[a].Passed? :: a in granted)
    && (forall d | IsDead(g, d) && d in results :: !results[d].Passed?)
  }

  /** Along a walk into a node that runs, everything passed. */
  lemma {:induction false} AncestorsPassed(g: GraphSpec, ls: seq<seq<Id>>, k: nat, b: Board, ps: seq<Id>)
    requires LevelsOf(g) == Some(ls) && k <= |ls| && BoardOk(g, ls, k, b)
    requires Ordered(g, ps) && |ps| > 0 && ps[|ps| - 1] in b.results && b.results[ps[|ps| - 1]].Passed?
    ensures ps[0] in b.results && b.results[ps[0]].Passed?
    decreases |ps|
  {
    if |ps| > 1 {
      var front := ps[..|ps| - 1];
      var p, c := ps[|ps| - 2], ps[|ps| - 1];
      assert HasEdge(g, p, c);
      var e :| e in g.edges && e.src == p && e.dst == c;
      AllBeforeScheduled(g, ls, k, c);
      assert Orders(g, e);
      ParentsBefore(g, ls, k, e);
      forall i | 0 <= i < |front| - 1 ensures HasEdge(g, front[i], front[i + 1]) {
        assert HasEdge(g, ps[i], ps[i + 1]);
      }
      AncestorsPassed(g, ls, k, b, front);
    }
  }

  lemma AllBeforeScheduled(g: GraphSpec, ls: seq<seq<Id>>, k: nat, n: Id)
    requires LevelsOf(g) == Some(ls) && k <= |ls| && Before(ls, k, n)
    ensures n in Steps(g)
  {
    var j :| j < k && At(ls, j, n);
    assert n in ls[j];
    LevelIsNew(g, ls, j, n);
  }

  /** What the scheduler places above a node that runs has passed. */
  lemma AbovePassed(w: World, g: GraphSpec, ls: seq<seq<Id>>, k: nat, b: Board, a: Id, id: Id)
    requires LevelsOf(g) == Some(ls) && k < |ls| && BoardOk(g, ls, k, b)
    requires id in ls[k] && ShouldRun(w, g, b, id) && ScheduledAbove(g, a, id)
    ensures a in b.results && b.results[a].Passed?
  {
    var ps: seq<Id> :| |ps| >= 2 && Ordered(g, ps) && ps[0] == a && ps[|ps| - 1] == id;
    var front := ps[..|ps| - 1];
    var p := ps[|ps| - 2];
    assert HasEdge(g, p, id);
    var e :| e in g.edges && e.src == p && e.dst == id;
    LevelIsNew(g, ls, k, id);
    assert Orders(g, e);
    ParentsBeforeLevel(g, ls, k, e);
    assert p in Parents(g, id);
    forall i | 0 <= i < |front| - 1 ensures HasEdge(g, front[i], front[i + 1]) {
      assert HasEdge(g, ps[i], ps[i + 1]);
    }
    AncestorsPassed(g, ls, k, b, front);
  }

  /** A node runs only when every approval above it has passed, and nothing above it is dead. */
  lemma RunnableOpen(w: World, g: GraphSpec, ls: seq<seq<Id>>, k: nat, b: Board, granted: set<Id>, id: Id)
    requires LevelsOf(g) == Some(ls) && k < |ls| && BoardOk(g, ls, k, b) && Told(g, b.results, granted)
    requires id in ls[k] && ShouldRun(w, g, b, id)
    ensures GatesOpen(g, id, granted) && Fed(g, id)
  {
    forall a | IsApproval(g, a) && ScheduledAbove(g, a, id) ensures a in granted { AbovePassed(w, g, ls, k, b, a, id); }
    forall d | IsDead(g, d) ensures !ScheduledAbove(g, d, id) {
      if ScheduledAbove(g, d, id) { AbovePassed(w, g, ls, k, b, d, id); }
    }
  }

  lemma OwnNotNested(g: GraphSpec, x: Id)
    requires UniqueIds(g) && x in Ids(g)
    ensures forall m | m in g.nodes && m.subgraph.Some? :: Some(x) !in GraphScope(m.subgraph.value)
  {
    forall m | m in g.nodes && m.subgraph.Some? ensures Some(x) !in GraphScope(m.subgraph.value) {
      if Some(x) in GraphScope(m.subgraph.value) { NestedNotOwn(g, m, x); }
    }
  }

  /** Only one node of a graph speaks for x. */
  lemma OneOwner(g: GraphSpec, n: Node, x: Id)
    requires UniqueIds(g) && n in g.nodes && Some(x) in ScopeOf(n)
    ensures forall m | m in g.nodes && Some(x) in ScopeOf(m) :: m == n
  {
    forall m | m in g.nodes && Some(x) in ScopeOf(m) ensures m == n {
      if m.id == n.id { SameNode(g, m, n); } else { ScopesApart(g, m, n); }
    }
  }

  lemma OwnAllowed(g: GraphSpec, n: Node, granted: set<Id>)
    requires UniqueIds(g) && n in g.nodes && GatesOpen(g, n.id, granted) && Fed(g, n.id) && CanCall(n)
    ensures Allowed(g, n.id, granted)
  {
    NodeScope(g, n);
    OwnNotNested(g, n.id);
    OneOwner(g, n, n.id);
  }

  /** Inside a nested graph whose own gates are open, the nested graph's rule is enough. */
  lemma PermitsNested(permit: Permit, g: GraphSpec, base: set<Id>, n: Node, granted: set<Id>)
    requires UniqueIds(g) && Permits(permit, g, base) && n in g.nodes && n.subgraph.Some?
    requires base <= granted && GatesOpen(g, n.id, granted) && Fed(g, n.id)
    ensures Permits(permit, n.subgraph.value, granted)
  {
    var sub := n.subgraph.value;
    NodeScope(g, n);
    forall q: Query, now: set<Id>
      | granted <= now && (q.Complete? ==> Some(q.node) in GraphScope(sub) && Allowed(sub, q.node, now))
      ensures permit(q, now)
    {
      if q.Complete? {
        OneOwner(g, n, q.node);
        NestedNotOwn(g, n, q.node);
        assert n.id in Ids(g);
      }
    }
  }

  // ---------- the executor's tasks ----------

  /** Every query of node x is permitted from here on. */
  ghost predicate Free(permit: Permit, x: Id, granted: set<Id>) {
    forall q: Query, now: set<Id> | granted <= now && q.node == x :: permit(q, now)
  }

  ghost predicate Trivial(post: Post) {
    forall o: Outcome, now: set<Id> :: post(o, now)
  }

  ghost function Anythings(n: nat): (r: seq<Post>)
    ensures |r| == n && forall i | 0 <= i < n :: Trivial(r[i])
  {
    seq(n, _ => Anything())
  }

  /** A task that speaks for one node only asks nothing but that node's queries. */
  greatest lemma SoloGuarded(p: Proc, S: set<Option<Id>>, x: Id, granted: set<Id>, permit: Permit, post: Post)
    requires Tidy(p, S) && S <= {Some(x)} && Free(permit, x, granted) && Trivial(post)
    ensures Guarded(p, granted, permit, post)
  {
    match p
    case Done(_) =>
    case Emit(_, next) =>
      forall now | granted <= now { SoloGuarded(next, S, x, now, permit, post); }
    case Ask(q, k) =>
      forall now, a | granted <= now && Fits(q, a) {
        SoloGuarded(AfterAnswer(q, a, k(a)), S, x, now, permit, post);
      }
    case Note(e, next) =>
      forall now | granted <= now { SoloGuarded(next, S, x, now + Grants(Wrote(e, FREE)), permit, post); }
    case Fork(kids, join) =>
      SoloKidsGuarded(kids, join, S, x, granted, permit, post, Anythings(|kids|));
  }

  greatest lemma SoloKidsGuarded(kids: seq<Kid>, join: seq<Outcome> -> Proc, S: set<Option<Id>>, x: Id,
                                 granted: set<Id>, permit: Permit, post: Post, posts: seq<Post>)
    requires Tidy(Fork(kids, join), S) && S <= {Some(x)} && Free(permit, x, granted) && Trivial(post)
    requires |posts| == |kids| && forall i | 0 <= i < |kids| :: Trivial(posts[i])
    ensures GuardedKids(kids, join, granted, permit, post, posts)
  {
    forall i | 0 <= i < |kids| { SoloGuarded(kids[i].body, kids[i].scope, x, granted, permit, posts[i]); }
    forall i | 0 <= i < |kids| && kids[i].late.Some? {
      SoloGuarded(kids[i].late.value, kids[i].scope, x, granted, permit, posts[i]);
    }
    forall outs: seq<Outcome>, now: set<Id> | granted <= now && |outs| == |kids| { SoloGuarded(join(outs), S, x, now, permit, post); }
  }

  lemma GuardedFork(p: Proc, granted: set<Id>, permit: Permit, post: Post, posts: seq<Post>)
    requires p.Fork? && |posts| == |p.kids|
    requires forall i | 0 <= i < |p.kids| :: p.kids[i].late.None? && Guarded(p.kids[i].body, granted, permit, posts[i])
    requires forall outs: seq<Outcome>, now: set<Id> | granted <= now && |outs| == |p.kids| && (forall i | 0 <= i < |p.kids| :: posts[i](outs[i], now)) ::
               Guarded(p.join(outs), now, permit, post)
    ensures Guarded(p, granted, permit, post)
  {
    assert GuardedKids(p.kids, p.join, granted, permit, post, posts);
  }

  /** An approval node passes only with its grant in the log. */
  lemma GuardedApproval(g: GraphSpec, n: Node, granted: set<Id>, permit: Permit)
    requires Permits(permit, g, granted) && n.ntype == ApprovalNode
    ensures Guarded(Approval(n), granted, permit, NodeTold(n))
  {
    var ask := Approval(n).next;
    forall now: set<Id>, a | Fits(Gate(n.id), a)
      ensures Guarded(AfterAnswer(Gate(n.id), a, ask.k(a)), now, permit, NodeTold(n))
    {
      if a == Granted(true) {
        forall later: set<Id> | now <= later
          ensures Guarded(ask.k(a), later + Grants(Wrote(Log(ApprovalGranted, n.id), FREE)), permit, NodeTold(n))
        {
        }
      }
    }
    assert forall now: set<Id> | granted <= now :: Guarded(ask, now, permit, NodeTold(n));
  }

  /** How the handoff of a dead agent node ends, or its timeout. */
  ghost function NotPassing(): Post {
    (o: Outcome, granted: set<Id>) => o.OverBudget? || o.Threw? || (o.Settled? && !o.result.Passed?)
  }

  lemma GuardedStop(n: Node, o: Outcome, granted: set<Id>, permit: Permit)
    requires RunsAgent(n) && !ResultOf(o).Passed?
    ensures Guarded(Done(o), granted, permit, NodeTold(n))
  {
    assert n.ntype != ApprovalNode && !PassesOn(n);
    hide Dead, PassesOn, CanCall, ResultOf;
    var post := NodeTold(n);
    forall now: set<Id> ensures post(o, now) { }
  }

  /** A dead agent node asks the model nothing and does not pass. */
  lemma GuardedDead(w: World, g: GraphSpec, outputs: map<Id, Value>, n: Node, granted: set<Id>, permit: Permit)
    requires RunsAgent(n) && !CanCall(n) && Permits(permit, g, granted)
    ensures Guarded(AgentRun(w, g, outputs, n), granted, permit, NodeTold(n))
  {
    if n.agent.None? {
      GuardedStop(n, Settled(Skipped), granted, permit);
    } else {
      hide Screen, UpstreamContext, Recalled;
      var agent, up, p := n.agent.value, UpstreamContext(g, outputs, n.id), AgentRun(w, g, outputs, n);
      forall now: set<Id> | granted <= now ensures Guarded(p.next, now, permit, NodeTold(n)) {
        if g.version < 2 {
          GuardedDeadScreen(w, g, n, agent, up, up, false, now, permit);
        } else {
          forall later: set<Id>, a | now <= later && Fits(p.next.q, a)
            ensures Guarded(AfterAnswer(p.next.q, a, p.next.k(a)), later, permit, NodeTold(n))
          {
            GuardedDeadRecalled(w, g, n, agent, up, a, later, permit);
          }
          forall later: set<Id> | now <= later ensures permit(p.next.q, later) { }
        }
      }
    }
  }

  lemma GuardedDeadRecalled(w: World, g: GraphSpec, n: Node, agent: AgentSpec, up: Ctx, a: Answer, granted: set<Id>, permit: Permit)
    requires RunsAgent(n) && !CanCall(n) && n.agent == Some(agent)
    ensures Guarded(Recalled(w, g, n, agent, up, a), granted, permit, NodeTold(n))
  {
    hide Screen;
    match a
    case Memory(live, gone) =>
      var c := PutAll(live, up);
      forall now: set<Id> | granted <= now
        ensures Guarded(Screen(w, g, n, agent, up, up, false), now, permit, NodeTold(n))
        ensures Guarded(Emit([Log(MemoryRead(KeysOf(live)), n.id)], Screen(w, g, n, agent, c, c, false)), now, permit, NodeTold(n))
      {
        GuardedDeadScreen(w, g, n, agent, up, up, false, now, permit);
        forall later: set<Id> | now <= later { GuardedDeadScreen(w, g, n, agent, c, c, false, later, permit); }
      }
    case _ =>
  }

  /** The handoff of a dead node makes no call, and the timeout passes nothing on. */
  lemma GuardedDeadHandoff(w: World, g: GraphSpec, n: Node, agent: AgentSpec, c: Ctx, granted: set<Id>, permit: Permit)
    requires RunsAgent(n) && !CanCall(n) && n.agent == Some(agent)
    ensures Guarded(Screen(w, g, n, agent, c, [], false), granted, permit, NodeTold(n))
  {
    hide AfterHandoff, Late, Handoff;
    var p := Screen(w, g, n, agent, c, [], false);
    DeadHandoff(w, g, n, agent, c, granted, permit);
    GuardedLate(n, granted, permit, NotPassing());
    forall outs: seq<Outcome>, now: set<Id> | granted <= now && |outs| == 1 && NotPassing()(outs[0], now)
      ensures Guarded(p.join(outs), now, permit, NodeTold(n))
    {
      GuardedLate(n, now, permit, NodeTold(n));
      GuardedDeadEnd(w, g, n, agent, outs[0], now, permit);
    }
    assert GuardedKids(p.kids, p.join, granted, permit, NodeTold(n), [NotPassing()]);
  }

  lemma DeadHandoff(w: World, g: GraphSpec, n: Node, agent: AgentSpec, c: Ctx, granted: set<Id>, permit: Permit)
    requires RunsAgent(n) && !CanCall(n) && n.agent == Some(agent)
    ensures Guarded(Handoff(w, g, n, agent, c), granted, permit, NotPassing())
  {
  }

  lemma GuardedDeadEnd(w: World, g: GraphSpec, n: Node, agent: AgentSpec, o: Outcome, granted: set<Id>, permit: Permit)
    requires RunsAgent(n) && Guarded(Late(n), granted, permit, NodeTold(n)) && NotPassing()(o, granted)
    ensures Guarded(AfterHandoff(w, g, n, agent, o), granted, permit, NodeTold(n))
  {
  }

  lemma GuardedLate(n: Node, granted: set<Id>, permit: Permit, post: Post)
    requires forall now: set<Id> | granted <= now :: post(Settled(Failed("timeout", false)), now)
    ensures Guarded(Late(n), granted, permit, post)
  {
    assert forall now: set<Id> | granted <= now :: Guarded(Late(n).next, now, permit, post);
  }

  lemma GuardedEmitIf(cond: bool, e: Event, next: Proc, granted: set<Id>, permit: Permit, post: Post)
    requires forall now: set<Id> | granted <= now :: Guarded(next, now, permit, post)
    ensures Guarded(EmitIf(cond, e, next), granted, permit, post)
  {
    assert Guarded(next, granted, permit, post);
  }

  lemma {:induction false} GuardedDeadScreen(w: World, g: GraphSpec, n: Node, agent: AgentSpec, c: Ctx, left: Ctx, blocked: bool,
                                             granted: set<Id>, permit: Permit)
    requires RunsAgent(n) && !CanCall(n) && n.agent == Some(agent)
    ensures Guarded(Screen(w, g, n, agent, c, left, blocked), granted, permit, NodeTold(n))
    decreases |left|
  {
    if left != [] {
      var bad := w.flagged(left[0].1);
      var rest := Screen(w, g, n, agent, c, left[1..], blocked || bad);
      forall now: set<Id> | granted <= now ensures Guarded(rest, now, permit, NodeTold(n)) {
        GuardedDeadScreen(w, g, n, agent, c, left[1..], blocked || bad, now, permit);
      }
      assert Screen(w, g, n, agent, c, left, blocked) == EmitIf(bad, Log(InjectionBlocked(left[0].0), n.id), rest);
      GuardedEmitIf(bad, Log(InjectionBlocked(left[0].0), n.id), rest, granted, permit, NodeTold(n));
    } else if !blocked {
      GuardedDeadHandoff(w, g, n, agent, c, granted, permit);
    }
  }

  /** What compensators add changes nothing about gates and pass-through nodes. */
  lemma SameStepsEnd(g: GraphSpec, before: map<Id, NodeResult>, after: map<Id, NodeResult>, granted: set<Id>)
    requires UniqueIds(g) && SameSteps(g, before, after) && Told(g, before, granted) && Prompt(g, before)
    ensures Told(g, after, granted) && Prompt(g, after)
  {
    forall a | IsApproval(g, a) ensures a !in Comps(g) {
      NotComp(g, FindNode(g, a).value);
    }
    forall d | IsDead(g, d) ensures d !in Comps(g) {
      NotComp(g, FindNode(g, d).value);
    }
    forall n | n in g.nodes && Due(g, after, n.id) && (n.ntype == ApprovalNode || PassesOn(n))
      ensures !after[n.id].Skipped? && (PassesOn(n) ==> after[n.id].Passed?)
    {
      NotComp(g, n);
      assert Due(g, before, n.id);
    }
  }

  lemma NotComp(g: GraphSpec, n: Node)
    requires UniqueIds(g) && n in g.nodes && n.ntype != CompensateNode
    ensures n.id !in Comps(g)
  {
    if n.id in Comps(g) {
      var m :| m in g.nodes && m.ntype == CompensateNode && m.id == n.id;
      SameNode(g, m, n);
    }
  }

  lemma {:induction false} GuardedCompensate(g: GraphSpec, ls: seq<seq<Id>>, b0: Board, nodes: seq<Node>, b: Board,
                                             done: seq<Id>, granted: set<Id>, permit: Permit)
    requires LevelsOf(g) == Some(ls) && BoardOk(g, ls, |ls|, b0) && Told(g, b0.results, granted) && Prompt(g, b0.results)
    requires UniqueIds(g) && SameSteps(g, b0.results, b.results) && b.failed == b0.failed
    requires forall n | n in nodes :: n in g.nodes
    requires done + CompensatorsOf(nodes, b.failed) == CompensatorsOf(g.nodes, b.failed)
    ensures Guarded(Compensate(nodes, b, done), granted, permit, EndsStructured(g))
    decreases |nodes|
  {
    hide BoardOk, Prompt, Structured;
    if nodes == [] {
      assert done + [] == done;
      StructuredEnd(g, ls, b0, GraphEnd(b.results, b.outputs, b.failed, done));
      SameStepsEnd(g, b0.results, b.results, granted);
    } else if Undoes(nodes[0], b.failed) {
      var r := if nodes[0].agent.Some? then Skipped else Passed(None);
      var rest := CompensatorsOf(nodes[1..], b.failed);
      assert nodes[0] in g.nodes;
      assert done + ([nodes[0].id] + rest) == (done + [nodes[0].id]) + rest;
      forall now: set<Id> | granted <= now
        ensures Guarded(Compensate(nodes[1..], b.(results := b.results[nodes[0].id := r]), done + [nodes[0].id]),
                        now, permit, EndsStructured(g))
      {
        GuardedCompensate(g, ls, b0, nodes[1..], b.(results := b.results[nodes[0].id := r]), done + [nodes[0].id],
                          now, permit);
      }
    } else {
      assert done + ([] + CompensatorsOf(nodes[1..], b.failed)) == done + CompensatorsOf(nodes[1..], b.failed);
      GuardedCompensate(g, ls, b0, nodes[1..], b, done, granted, permit);
    }
  }

  lemma {:induction false} GuardedSubgraph(w: World, g: GraphSpec, depth: nat, outputs: map<Id, Value>, n: Node,
                                           granted: set<Id>, permit: Permit)
    requires n in g.nodes && n.ntype == SubgraphNode && UniqueIds(g)
    requires Permits(permit, g, granted) && GatesOpen(g, n.id, granted) && Fed(g, n.id)
    ensures Guarded(SubgraphRun(w, g, depth, outputs, n), granted, permit, NodeTold(n))
    decreases g, 0, 0
  {
    if n.subgraph.Some? {
      NodeScope(g, n);
      PermitsNested(permit, g, granted, n, granted);
      GuardedGraph(w, n.subgraph.value, depth + 1, ChildSeed(g, outputs, n.id), granted, permit);
    }
    GuardedNested(w, g, depth, outputs, n, granted, permit);
  }

  lemma GuardedNested(w: World, g: GraphSpec, depth: nat, outputs: map<Id, Value>, n: Node, granted: set<Id>, permit: Permit)
    requires n in g.nodes && n.ntype == SubgraphNode
    requires n.subgraph.Some? ==> Guarded(RunGraph(w, n.subgraph.value, depth + 1, ChildSeed(g, outputs, n.id)), granted,
                                          permit, EndsStructured(n.subgraph.value))
    ensures Guarded(SubgraphRun(w, g, depth, outputs, n), granted, permit, NodeTold(n))
  {
    hide RunGraph, WellEnded, Validate;
    var p := SubgraphRun(w, g, depth, outputs, n);
    if p.Fork? {
      forall outs: seq<Outcome>, now: set<Id> | granted <= now && |outs| == 1
        ensures Guarded(p.join(outs), now, permit, NodeTold(n))
      {
        assert p.join(outs).Done?;
      }
      GuardedFork(p, granted, permit, NodeTold(n), [EndsStructured(n.subgraph.value)]);
    }
  }

  lemma {:induction false} GuardedNode(w: World, g: GraphSpec, depth: nat, outputs: map<Id, Value>, n: Node,
                                       granted: set<Id>, permit: Permit)
    requires n in g.nodes && UniqueIds(g) && Permits(permit, g, granted) && GatesOpen(g, n.id, granted) && Fed(g, n.id)
    ensures Guarded(RunNode(w, g, depth, outputs, n), granted, permit, NodeTold(n))
    decreases g, 0, 1
  {
    hide SubgraphRun, AgentRun, Passthrough, Approval, Permits, GatesOpen, Fed;
    if n.ntype == SubgraphNode {
      GuardedSubgraph(w, g, depth, outputs, n, granted, permit);
    } else if n.ntype == ApprovalNode {
      GuardedApproval(g, n, granted, permit);
    } else if PassesOn(n) {
      GuardedPassthrough(w, g, outputs, n, granted, permit);
    } else if n.ntype == CompensateNode {
      assert Guarded(Done(Settled(Skipped)), granted, permit, NodeTold(n));
    } else if !CanCall(n) {
      GuardedDead(w, g, outputs, n, granted, permit);
    } else {
      GuardedCaller(w, g, depth, outputs, n, granted, permit);
    }
  }

  /** A node that can be called promises nothing. */
  lemma ToldAnyway(n: Node)
    requires CanCall(n)
    ensures Trivial(NodeTold(n))
  {
    assert !Dead(n) && n.ntype != ApprovalNode && !PassesOn(n);
    hide Dead, PassesOn, CanCall, ResultOf;
    var post := NodeTold(n);
    forall o: Outcome, now: set<Id> ensures post(o, now) { }
  }

  lemma GuardedPassthrough(w: World, g: GraphSpec, outputs: map<Id, Value>, n: Node, granted: set<Id>, permit: Permit)
    requires PassesOn(n)
    ensures Guarded(Passthrough(w, g, outputs, n), granted, permit, NodeTold(n))
  {
    hide Merged, CanCall;
    assert forall now: set<Id> | granted <= now :: Guarded(Passthrough(w, g, outputs, n).next, now, permit, NodeTold(n));
  }

  /** A node that can be called, with all above it passed, may ask what it likes. */
  lemma GuardedCaller(w: World, g: GraphSpec, depth: nat, outputs: map<Id, Value>, n: Node, granted: set<Id>, permit: Permit)
    requires n in g.nodes && UniqueIds(g) && Permits(permit, g, granted) && GatesOpen(g, n.id, granted) && Fed(g, n.id) && CanCall(n)
    ensures Guarded(RunNode(w, g, depth, outputs, n), granted, permit, NodeTold(n))
  {
    hide RunNode;
    NodeScope(g, n);
    CleanLeaf(w, g, depth, outputs, n);
    forall q: Query, now: set<Id> | granted <= now && q.node == n.id ensures permit(q, now) {
      OwnAllowed(g, n, now);
    }
    ToldAnyway(n);
    SoloGuarded(RunNode(w, g, depth, outputs, n), {Some(n.id)}, n.id, granted, permit, NodeTold(n));
  }

  lemma PermitsLater(permit: Permit, g: GraphSpec, base: set<Id>, later: set<Id>)
    requires Permits(permit, g, base) && base <= later
    ensures Permits(permit, g, later)
  {
  }

  /** A result new on this level is what its task promised. */
  lemma NewTold(w: World, g: GraphSpec, ls: seq<seq<Id>>, k: nat, b: Board, outs: seq<Outcome>, now: set<Id>, x: Id)
    requires LevelsOf(g) == Some(ls) && k < |ls| && BoardOk(g, ls, k, b) && Known(g, Runnable(w, g, b, ls[k]))
    requires AllTold(g, Runnable(w, g, b, ls[k]), outs, now)
    requires x in NextBoard(w, g, b, ls[k], outs).results && x !in b.results
    ensures var r := NextBoard(w, g, b, ls[k], outs).results[x];
      FindNode(g, x).Some? && (r.Passed? ==> NodeTold(FindNode(g, x).value)(Settled(r), now))
  {
    hide NextBoard;
    BoardReached(g, ls, k, b);
    hide BoardOk, LevelsOf, ShouldRun;
    var run := Runnable(w, g, b, ls[k]);
    NextResults(w, g, ls, k, b, outs);
    LevelUnreached(g, ls, k, b);
    if x in run {
      var i :| 0 <= i < |run| && run[i] == x;
      assert NodeTold(FindNode(g, run[i]).value)(outs[i], now);
    }
  }

  lemma BoardReached(g: GraphSpec, ls: seq<seq<Id>>, k: int, b: Board)
    requires BoardOk(g, ls, k, b)
    ensures Reached(ls, k, b.results)
  {
  }

  lemma NextTold(w: World, g: GraphSpec, ls: seq<seq<Id>>, k: nat, b: Board, outs: seq<Outcome>, granted: set<Id>, now: set<Id>)
    requires UniqueIds(g) && LevelsOf(g) == Some(ls) && k < |ls| && BoardOk(g, ls, k, b) && Told(g, b.results, granted) && granted <= now
    requires Known(g, Runnable(w, g, b, ls[k])) && AllTold(g, Runnable(w, g, b, ls[k]), outs, now)
    ensures Told(g, NextBoard(w, g, b, ls[k], outs).results, now)
    ensures Prompt(g, b.results) ==> Prompt(g, NextBoard(w, g, b, ls[k], outs).results)
  {
    hide NextBoard, Known, AllTold, LevelsOf, Dead;
    BoardReached(g, ls, k, b);
    var r := NextBoard(w, g, b, ls[k], outs).results;
    AllToldLength(g, Runnable(w, g, b, ls[k]), outs, now);
    NextResults(w, g, ls, k, b, outs);
    hide BoardOk;
    forall a | IsApproval(g, a) && a in r && r[a].Passed? ensures a in now {
      if a !in b.results {
        NewTold(w, g, ls, k, b, outs, now, a);
      }
    }
    forall d | IsDead(g, d) && d in r ensures !r[d].Passed? {
      if d !in b.results { NewTold(w, g, ls, k, b, outs, now, d); }
    }
    if Prompt(g, b.results) {
      forall n | n in g.nodes && Due(g, r, n.id)
        ensures (n.ntype == ApprovalNode ==> !r[n.id].Skipped?) && (PassesOn(n) ==> r[n.id].Passed?)
      {
        NextPrompt(w, g, ls, k, b, outs, now, n);
      }
    }
  }

  lemma AllToldLength(g: GraphSpec, run: seq<Id>, outs: seq<Outcome>, now: set<Id>)
    requires Known(g, run) && AllTold(g, run, outs, now)
    ensures |outs| == |run|
  {
  }

  lemma NextPrompt(w: World, g: GraphSpec, ls: seq<seq<Id>>, k: nat, b: Board, outs: seq<Outcome>, now: set<Id>, n: Node)
    requires UniqueIds(g) && LevelsOf(g) == Some(ls) && k < |ls| && BoardOk(g, ls, k, b) && Prompt(g, b.results)
    requires Known(g, Runnable(w, g, b, ls[k])) && AllTold(g, Runnable(w, g, b, ls[k]), outs, now)
    requires n in g.nodes && Due(g, NextBoard(w, g, b, ls[k], outs).results, n.id)
    ensures var r := NextBoard(w, g, b, ls[k], outs).results;
      (n.ntype == ApprovalNode ==> !r[n.id].Skipped?) && (PassesOn(n) ==> r[n.id].Passed?)
  {
    hide NextBoard;
    var run := Runnable(w, g, b, ls[k]);
    NextResults(w, g, ls, k, b, outs);
    var r := NextBoard(w, g, b, ls[k], outs).results;
    if n.id in b.results {
      forall e | Orders(g, e) && e.dst == n.id ensures e.src in b.results && b.results[e.src].Passed? {
        ParentsBefore(g, ls, k, e);
      }
      assert Due(g, b.results, n.id);
    } else if n.ntype == ApprovalNode || PassesOn(n) {
      SameNode(g, n, FindNode(g, n.id).value);
      forall p | p in Parents(g, n.id) && p in b.results ensures b.results[p].Passed? {
        var e :| e in g.edges && e.dst == n.id && e.src == p;
        AllBeforeScheduled(g, ls, k, p);
        LevelIsNew(g, ls, k, n.id);
        assert Orders(g, e);
      }
      assert ShouldRun(w, g, b, n.id);
      var i :| 0 <= i < |run| && run[i] == n.id;
      assert NodeTold(FindNode(g, run[i]).value)(outs[i], now);
    }
  }

  lemma {:induction false} GuardedLevels(w: World, g: GraphSpec, depth: nat, ls: seq<seq<Id>>, k: nat, b: Board,
                                         granted: set<Id>, permit: Permit)
    requires UniqueIds(g) && Permits(permit, g, granted)
    requires LevelsOf(g) == Some(ls) && k <= |ls| && BoardOk(g, ls, k, b) && Told(g, b.results, granted) && Prompt(g, b.results)
    requires forall l | l in ls :: Known(g, l) && NoDup(l)
    ensures Guarded(RunLevels(w, g, depth, ls[k..], b), granted, permit, EndsStructured(g))
    decreases g, 1, |ls| - k
  {
    if k == |ls| {
      assert [] + CompensatorsOf(g.nodes, b.failed) == CompensatorsOf(g.nodes, b.failed);
      GuardedCompensate(g, ls, b, g.nodes, b, [], granted, permit);
    } else {
      var level := ls[k];
      assert ls[k..][0] == level && ls[k..][1..] == ls[k + 1..] && level in ls;
      var run := Runnable(w, g, b, level);
      var b1 := SkipOthers(b, level, run);
      assert Known(g, run);
      if run == [] {
        assert NextBoard(w, g, b, level, []) == b1;
        NextBoardOk(w, g, ls, k, b, []);
        assert AllTold(g, run, [], granted);
        NextTold(w, g, ls, k, b, [], granted, granted);
        GuardedLevels(w, g, depth, ls, k + 1, b1, granted, permit);
      } else {
        GuardedNodes(w, g, depth, ls, k, b, granted, permit);
        forall outs: seq<Outcome>, now: set<Id> | granted <= now && AllTold(g, run, outs, now)
          ensures Guarded(RunLevels(w, g, depth, ls[k + 1..], SettleAll(b1, run, outs)), now, permit, EndsStructured(g))
        {
          NextBoardOk(w, g, ls, k, b, outs);
          NextTold(w, g, ls, k, b, outs, granted, now);
          PermitsLater(permit, g, granted, now);
          GuardedLevels(w, g, depth, ls, k + 1, NextBoard(w, g, b, level, outs), now, permit);
        }
        GuardedOneLevel(w, g, depth, ls[k..], b, granted, permit);
      }
    }
  }

  /** Each of these nodes kept its promise about approvals. */
  ghost predicate AllTold(g: GraphSpec, ids: seq<Id>, outs: seq<Outcome>, now: set<Id>)
    requires Known(g, ids)
  {
    |outs| == |ids| && forall i | 0 <= i < |ids| :: NodeTold(FindNode(g, ids[i]).value)(outs[i], now)
  }

  lemma GuardedOneLevel(w: World, g: GraphSpec, depth: nat, ls: seq<seq<Id>>, b: Board, granted: set<Id>, permit: Permit)
    requires ls != [] && (forall l | l in ls :: Known(g, l)) && Runnable(w, g, b, ls[0]) != [] && Known(g, ls[0])
    requires var run := Runnable(w, g, b, ls[0]);
      && (forall i | 0 <= i < |run| ::
            Guarded(NodeKids(w, g, depth, b.outputs, run)[i].body, granted, permit, NodeTold(FindNode(g, run[i]).value)))
      && (forall outs: seq<Outcome>, now: set<Id> | granted <= now && AllTold(g, run, outs, now) ::
            Guarded(RunLevels(w, g, depth, ls[1..], SettleAll(SkipOthers(b, ls[0], run), run, outs)), now, permit, EndsStructured(g)))
    ensures Guarded(RunLevels(w, g, depth, ls, b), granted, permit, EndsStructured(g))
  {
    var run := Runnable(w, g, b, ls[0]);
    var p := RunLevels(w, g, depth, ls, b);
    assert p.Fork? && p.kids == NodeKids(w, g, depth, b.outputs, run);
    var posts := NodeTolds(g, run);
    forall outs: seq<Outcome>, now: set<Id>
      | granted <= now && |outs| == |p.kids| && (forall i | 0 <= i < |p.kids| :: posts[i](outs[i], now))
      ensures Guarded(p.join(outs), now, permit, EndsStructured(g))
    {
      forall i | 0 <= i < |run| ensures NodeTold(FindNode(g, run[i]).value)(outs[i], now) {
        assert posts[i](outs[i], now);
      }
      assert AllTold(g, run, outs, now);
      assert p.join(outs) == RunLevels(w, g, depth, ls[1..], SettleAll(SkipOthers(b, ls[0], run), run, outs));
    }
    GuardedFork(p, granted, permit, EndsStructured(g), posts);
  }

  lemma {:induction false} GuardedNodes(w: World, g: GraphSpec, depth: nat, ls: seq<seq<Id>>, k: nat, b: Board,
                                        granted: set<Id>, permit: Permit)
    requires UniqueIds(g) && Permits(permit, g, granted)
    requires LevelsOf(g) == Some(ls) && k < |ls| && BoardOk(g, ls, k, b) && Told(g, b.results, granted)
    requires Known(g, Runnable(w, g, b, ls[k]))
    ensures var run := Runnable(w, g, b, ls[k]);
      forall i | 0 <= i < |run| ::
        Guarded(NodeKids(w, g, depth, b.outputs, run)[i].body, granted, permit, NodeTold(FindNode(g, run[i]).value))
    decreases g, 0, 2
  {
    var run := Runnable(w, g, b, ls[k]);
    forall i | 0 <= i < |run|
      ensures Guarded(NodeKids(w, g, depth, b.outputs, run)[i].body, granted, permit, NodeTold(FindNode(g, run[i]).value))
    {
      var n := FindNode(g, run[i]).value;
      RunnableOpen(w, g, ls, k, b, granted, run[i]);
      GuardedNode(w, g, depth, b.outputs, n, granted, permit);
    }
  }

  ghost function NodeTolds(g: GraphSpec, ids: seq<Id>): (r: seq<Post>)
    requires Known(g, ids)
    ensures |r| == |ids| && forall i | 0 <= i < |ids| :: r[i] == NodeTold(FindNode(g, ids[i]).value)
  {
    seq(|ids|, i requires 0 <= i < |ids| => NodeTold(FindNode(g, ids[i]).value))
  }

  lemma {:induction false} GuardedGraph(w: World, g: GraphSpec, depth: nat, seed: map<Id, Value>, granted: set<Id>,
                                        permit: Permit)
    requires UniqueIds(g) && Permits(permit, g, granted)
    ensures Guarded(RunGraph(w, g, depth, seed), granted, permit, EndsStructured(g))
    decreases g, 2
  {
    match LevelsOf(g)
    case None =>
    case Some(ls) =>
      LevelsClean(g, ls);
      GuardedLevels(w, g, depth, ls, 0, Board(map[], seed, []), granted, permit);
      assert ls[0..] == ls;
  }

  // ---------- the theorems ----------

  lemma GuardedWhole(w: World, g: GraphSpec, permit: Permit)
    requires Permits(permit, g, {})
    ensures Guarded(RunWhole(w, g), {}, permit, EndsStructured(g))
  {
    hide RunGraph, Validate, AllIds, NoDup;
    var p := RunWhole(w, g);
    if p.Emit? && p.next.Fork? {
      forall now: set<Id> ensures Guarded(p.next, now, permit, EndsStructured(g)) {
        PermitsLater(permit, g, {}, now);
        GuardedGraph(w, g, 0, map[], now, permit);
        forall outs: seq<Outcome>, later: set<Id> | now <= later && |outs| == 1 && EndsStructured(g)(outs[0], later)
          ensures Guarded(AfterRun(outs[0]), later, permit, EndsStructured(g))
        {
        }
        GuardedFork(p.next, now, permit, EndsStructured(g), [EndsStructured(g)]);
      }
    }
  }

  /**
   * In every run, finished or not, whatever times out: a model is called only
   * for agent nodes that can be called, and when it is, every approval the
   * scheduler places above the caller, in its own graph and above each nested
   * graph around it, has already logged its grant, and nothing placed there
   * is dead.
   */
  lemma GatesFirst(w: World, g: GraphSpec, sched: seq<Step>, t: nat)
    requires Exec(RunWhole(w, g), sched).Some?
    requires var tape := Exec(RunWhole(w, g), sched).value.tape; t < |tape| && tape[t].Heard? && tape[t].q.Complete?
    ensures var tape := Exec(RunWhole(w, g), sched).value.tape; Allowed(g, tape[t].q.node, Gains(tape[..t]))
  {
    var p, tape, permit := RunWhole(w, g), Exec(RunWhole(w, g), sched).value.tape, SafeCalls(g);
    GuardedWhole(w, g, permit);
    GuardedRun(p, sched, {}, permit, EndsStructured(g));
    assert permit(tape[t].q, {} + Gains(tape[..t]));
    assert {} + Gains(tape[..t]) == Gains(tape[..t]);
  }

  lemma {:induction false} AllowedWithin(h: GraphSpec, g: GraphSpec, n: Node, granted: set<Id>)
    requires Within(h, g) && n in h.nodes && Allowed(g, n.id, granted)
    ensures GatesOpen(h, n.id, granted) && Fed(h, n.id) && CanCall(n)
    decreases g
  {
    if h != g {
      var m :| m in g.nodes && m.subgraph.Some? && Within(h, m.subgraph.value);
      IdsWithin(h, m.subgraph.value, n);
      AllowedWithin(h, m.subgraph.value, n, granted);
    }
  }

  lemma {:induction false} ShelteredWithin(h: GraphSpec, g: GraphSpec)
    requires Within(h, g) && Sheltered(g)
    ensures Sheltered(h)
    decreases g
  {
    if h != g {
      var m :| m in g.nodes && m.subgraph.Some? && Within(h, m.subgraph.value);
      ShelteredWithin(h, m.subgraph.value);
    }
  }

  lemma {:induction false} GrantInLog(tape: seq<Mark>, a: Id) returns (s: nat)
    requires a in Gains(tape)
    ensures s < |tape| && tape[s].Wrote? && tape[s].e == Event(ApprovalGranted, Some(a))
  {
    if a in Grants(tape[0]) {
      s := 0;
    } else {
      var s1 := GrantInLog(tape[1..], a);
      s := s1 + 1;
    }
  }

  /** An ordered walk is a walk. */
  lemma ScheduledIsAbove(g: GraphSpec, a: Id, n: Id)
    requires ScheduledAbove(g, a, n)
    ensures Above(g, a, n)
  {
    var ps: seq<Id> :| |ps| >= 2 && Ordered(g, ps) && ps[0] == a && ps[|ps| - 1] == n;
    assert WalkFromTo(g, ps, a, n);
  }

  /** Some approval above the node has logged its grant before moment t. */
  ghost predicate ApprovedFirst(h: GraphSpec, n: Node, tape: seq<Mark>, t: nat) {
    exists a, s :: IsApproval(h, a) && Above(h, a, n.id)
      && 0 <= s < t <= |tape| && tape[s].Wrote? && tape[s].e == Event(ApprovalGranted, Some(a))
  }

  ghost predicate CallFor(n: Node, tape: seq<Mark>, t: nat) {
    t < |tape| && tape[t].Heard? && tape[t].q.Complete? && tape[t].q.node == n.id
  }

  /**
   * A node that declares side effects has its model called only after an
   * approval node above it in its own graph logged its grant. It is enough
   * that the graph is sheltered.
   */
  lemma ShelteredIsSafe(w: World, g: GraphSpec, sched: seq<Step>, h: GraphSpec, n: Node, t: nat)
    requires Sheltered(g) && Exec(RunWhole(w, g), sched).Some?
    requires Within(h, g) && n in h.nodes && Declares(n) && CallFor(n, Exec(RunWhole(w, g), sched).value.tape, t)
    ensures ApprovedFirst(h, n, Exec(RunWhole(w, g), sched).value.tape, t)
  {
    var tape := Exec(RunWhole(w, g), sched).value.tape;
    GatesFirst(w, g, sched, t);
    AllowedWithin(h, g, n, Gains(tape[..t]));
    ShelteredWithin(h, g);
    var a :| IsApproval(h, a) && ScheduledAbove(h, a, n.id);
    ScheduledIsAbove(h, a, n.id);
    var s := GrantInLog(tape[..t], a);
    assert tape[..t][s] == tape[s];
  }

  /** A run that asks anything was not refused. */
  lemma RefusedAsksNothing(w: World, g: GraphSpec, sched: seq<Step>, m: Mark)
    requires Exec(RunWhole(w, g), sched).Some? && m in Exec(RunWhole(w, g), sched).value.tape && m.Heard?
    ensures Validate(g) == Problems([]) && UniqueIds(g)
  {
    var p := RunWhole(w, g);
    if !(p.Emit? && p.next.Fork?) {
      assert Asks(p, q => false) by { assert p.Emit? ==> Asks(p.next, q => false); }
      AsksRun(p, sched, q => false);
    }
  }

  /** What starts is safe as long as no edge leaves a compensator. */
  lemma ApprovalSafety(w: World, g: GraphSpec, sched: seq<Step>, h: GraphSpec, n: Node, t: nat)
    requires Firm(g) && Exec(RunWhole(w, g), sched).Some?
    requires Within(h, g) && n in h.nodes && Declares(n) && CallFor(n, Exec(RunWhole(w, g), sched).value.tape, t)
    ensures ApprovedFirst(h, n, Exec(RunWhole(w, g), sched).value.tape, t)
  {
    RefusedAsksNothing(w, g, sched, Exec(RunWhole(w, g), sched).value.tape[t]);
    FirmIsSheltered(g);
    ShelteredIsSafe(w, g, sched, h, n, t);
  }

  /** A graph that ran to its end, at any depth and from any seed, in any interleaving, is structured. */
  lemma GraphsEndStructured(w: World, g: GraphSpec, depth: nat, seed: map<Id, Value>, sched: seq<Step>, end: GraphEnd)
    requires UniqueIds(g) && Exec(RunGraph(w, g, depth, seed), sched).Some?
    requires Exec(RunGraph(w, g, depth, seed), sched).value.proc == Done(Ended(end))
    ensures Structured(g, end)
  {
    GuardedGraph(w, g, depth, seed, {}, AnyCall());
    GuardedRun(RunGraph(w, g, depth, seed), sched, {}, AnyCall(), EndsStructured(g));
  }

  /** In particular a whole run's results are; and its gates and pass-through nodes ran when they were due. */
  lemma RunsEndStructured(w: World, g: GraphSpec, sched: seq<Step>, end: GraphEnd)
    requires Exec(RunWhole(w, g), sched).Some? && Exec(RunWhole(w, g), sched).value.proc == Done(Ended(end))
    ensures WellEnded(g, end, Gains(Exec(RunWhole(w, g), sched).value.tape))
  {
    assert {} + Gains(Exec(RunWhole(w, g), sched).value.tape) == Gains(Exec(RunWhole(w, g), sched).value.tape);
    GuardedWhole(w, g, AnyCall());
    GuardedRun(RunWhole(w, g), sched, {}, AnyCall(), EndsStructured(g));
  }

  /** y lies below x, over scheduled nodes. */
  ghost predicate Below(g: GraphSpec, x: Id, y: Id) {
    exists ps :: StepWalk(g, ps) && |ps| >= 2 && ps[0] == x && ps[|ps| - 1] == y
  }

  lemma DoneStays(out: Outcome, sched: seq<Step>)
    requires Exec(Done(out), sched).Some?
    ensures sched == []
  {
  }

  /** Nothing can happen to a refused graph but the refusal. */
  lemma OnlyAcceptedEnd(w: World, g: GraphSpec, sched: seq<Step>)
    requires Exec(RunWhole(w, g), sched).Some?
    ensures var p := Exec(RunWhole(w, g), sched).value.proc;
      p.Done? && p.out.Ended? ==> Validate(g) == Problems([]) && UniqueIds(g)
  {
    hide Validate, RunGraph;
    var p := RunWhole(w, g);
    if p.Done? {
      DoneStays(p.out, sched);
    } else if p.next.Done? && sched != [] {
      DoneStays(p.next.out, sched[1..]);
    }
  }

  /**
   * The failure structure of every run that ends, in any interleaving and with
   * any timeouts: each scheduled node succeeded, failed or was skipped; failed
   * nodes form an antichain, each listed once; everything below a failed or
   * skipped node was skipped; and exactly the compensators of failed nodes
   * were run, once each and in node order.
   */
  lemma FailureStructure(w: World, g: GraphSpec, sched: seq<Step>, end: GraphEnd)
    requires Exec(RunWhole(w, g), sched).Some? && Exec(RunWhole(w, g), sched).value.proc == Done(Ended(end))
    ensures forall n | n in Steps(g) :: n in end.results && (n in end.failed <==> end.results[n].Failed?)
    ensures NoDup(end.failed) && forall n | n in end.failed :: n in Steps(g)
    ensures forall x, y | x in end.failed && y in end.failed :: !Below(g, x, y)
    ensures forall x, y | x in Steps(g) && !end.results[x].Passed? && Below(g, x, y) :: y in Steps(g) && end.results[y].Skipped?
    ensures NoDup(end.compensated)
    ensures forall c :: c in end.compensated <==>
      exists n :: n in g.nodes && n.id == c && n.ntype == CompensateNode && n.compensates.Some? && n.compensates.value in end.failed
    ensures forall i, j | 0 <= i < j < |end.compensated| :: ListedFirst(g, end.compensated[i], end.compensated[j])
  {
    RunsEndStructured(w, g, sched, end);
    OnlyAcceptedEnd(w, g, sched);
    hide RunWhole, Validate;
    forall x, y | x in Steps(g) && !end.results[x].Passed? && Below(g, x, y) ensures y in Steps(g) && end.results[y].Skipped? {
      var ps :| StepWalk(g, ps) && |ps| >= 2 && ps[0] == x && ps[|ps| - 1] == y;
      BelowIsSkipped(g, end, ps);
    }
    OwnUnique(g);
    CompensatorsExact(g, end);
  }

  lemma OwnUnique(g: GraphSpec)
    requires UniqueIds(g)
    ensures NoDup(IdsOf(g.nodes))
  {
    NoDupParts(IdsOf(g.nodes), NestedIds(g.nodes));
  }

  // ---------- when no gate opens ----------

  ghost function WithholdsOf(): Proc -> bool { (p: Proc) => Withholds(p) }

  lemma {:induction false} ProduceWithholds(w: World, j: Job, t: Turn)
    requires InLoops(w, j, t)
    ensures Withholds(Produce(w, j, t))
    decreases j.retries - t.retry, w.maxRepairs - t.repair, 2
  {
    if j.agent.budgetTokens - t.spent > 0 {
      var q := Request(j, t);
      forall a | Fits(q, a) && a != Granted(true) ensures Withholds(AfterAnswer(q, a, Produced(w, j, t, a))) {
        match a
        case Reply(c) =>
          var spent := t.spent + c.tokensIn + c.tokensOut;
          if spent <= j.agent.budgetTokens { JudgedWithholds(w, j, t.(spent := spent), c.text); }
          assert Withholds(Produced(w, j, t, a));
        case Raised(e) => RetryWithholds(w, j, t, e);
        case _ =>
      }
    }
  }

  lemma {:induction false} JudgedWithholds(w: World, j: Job, t: Turn, text: string)
    requires InLoops(w, j, t)
    ensures Withholds(Judged(w, j, t, text))
    decreases j.retries - t.retry, w.maxRepairs - t.repair, 1
  {
    match w.judge(text, j.schema)
    case Accept(v) =>
    case Reject(errors) =>
      if t.repair < w.maxRepairs { ProduceWithholds(w, j, Corrected(j, t, errors)); }
      assert Withholds(Rejection(w, j, t, errors).next);
    case Crash(m) => RetryWithholds(w, j, t, OtherError(m));
  }

  lemma {:induction false} RetryWithholds(w: World, j: Job, t: Turn, e: Error)
    requires InLoops(w, j, t)
    ensures Withholds(TryAgain(w, j, t, e))
    decreases j.retries - t.retry, 0, 0
  {
    hide Produce;
    if t.retry < j.retries { ProduceWithholds(w, j, Turn(t.retry + 1, 0, t.spent, None)); }
  }

  lemma WithholdsInductive()
    ensures Inductive(WithholdsOf(), true)
  {
    var good := WithholdsOf();
    forall p: Proc | GoodAsk(p, good, true) ensures good(p) {
      forall a | Fits(p.q, a) && a != Granted(true) ensures Withholds(AfterAnswer(p.q, a, p.k(a))) {
        assert good(p.k(a));
      }
    }
    forall p: Proc | GoodFork(p, good) ensures good(p) { }
  }

  lemma HandoffsWithhold(w: World)
    ensures GoodHandoffs(w, WithholdsOf())
  {
    forall g: GraphSpec, n: Node, agent: AgentSpec, c: Ctx ensures Withholds(Handoff(w, g, n, agent, c)) {
      if n.maxRetries >= 0 {
        ProduceWithholds(w, Job(n.id, agent, c, SchemaFor(g, n, agent), n.maxRetries), Turn(0, 0, 0, None));
      }
    }
  }

  lemma WholeWithholds(w: World, g: GraphSpec)
    ensures Withholds(RunWhole(w, g))
  {
    WithholdsInductive();
    HandoffsWithhold(w);
    WholeGood(w, g, WithholdsOf(), true);
  }

  /** While every gate says no, no model below a gate is ever called. */
  lemma ClosedGates(w: World, g: GraphSpec, sched: seq<Step>, a: Id, n: Node, t: nat)
    requires Exec(RunWhole(w, g), sched).Some? && NoYes(Exec(RunWhole(w, g), sched).value.tape)
    requires n in g.nodes && IsApproval(g, a) && ScheduledAbove(g, a, n.id)
    ensures !CallFor(n, Exec(RunWhole(w, g), sched).value.tape, t)
  {
    hide RunWhole, Exec, Ordered;
    var tape := Exec(RunWhole(w, g), sched).value.tape;
    if CallFor(n, tape, t) {
      WholeWithholds(w, g);
      WithholdsRun(RunWhole(w, g), sched);
      GatesFirst(w, g, sched, t);
      NodeScope(g, n);
      var s := GrantInLog(tape[..t], a);
    }
  }
}
