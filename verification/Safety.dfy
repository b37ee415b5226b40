// Two program logics over task trees, both sound for every interleaving and
// every timeout: what must not be logged any more, and what must have been
// granted before a call is made.
module Safety {
  import opened Base
  import opened Events
  import opened Tasks

  // ---------- order ----------

  /** The task never logs or asks for a node in `banned`. */
  greatest predicate Avoids(p: Proc, banned: set<Id>) {
    match p
    case Done(_) => true
    case Emit(batch, next) =>
      (forall e | e in batch && e.who.Some? :: e.who.value !in banned) && Avoids(next, banned)
    case Ask(q, k) => q.node !in banned && forall a | Fits(q, a) :: Avoids(k(a), banned)
    case Note(e, next) => (e.who.Some? ==> e.who.value !in banned) && Avoids(next, banned)
    case Fork(kids, join) =>
      && (forall i | 0 <= i < |kids| :: Avoids(kids[i].body, banned))
      && (forall i | 0 <= i < |kids| && kids[i].late.Some? :: Avoids(kids[i].late.value, banned))
      && (forall outs | |outs| == |kids| :: Avoids(join(outs), banned))
  }

  ghost predicate Clear(tape: seq<Mark>, banned: set<Id>) {
    forall m | m in tape && Who(m).Some? :: Who(m).value !in banned
  }

  lemma {:induction false} AvoidsFire(p: Proc, s: Step, banned: set<Id>)
    requires Avoids(p, banned) && Fire(p, s).Some?
    ensures Avoids(Fire(p, s).value.next, banned) && Clear(Fire(p, s).value.marks, banned)
    decreases s
  {
    match s
    case In(i, inner) => AvoidsFire(p.kids[i].body, inner, banned);
    case _ =>
  }

  greatest lemma TidyAvoids(p: Proc, S: set<Option<Id>>, banned: set<Id>)
    requires Tidy(p, S) && forall x | x in banned :: Some(x) !in S
    ensures Avoids(p, banned)
  {
    match p
    case Done(_) =>
    case Emit(batch, next) => TidyAvoids(next, S, banned);
    case Ask(q, k) =>
      forall a | Fits(q, a) { TidyAvoids(k(a), S, banned); }
    case Note(e, next) => TidyAvoids(next, S, banned);
    case Fork(kids, join) =>
      forall i | 0 <= i < |kids| { TidyAvoids(kids[i].body, kids[i].scope, banned); }
      forall i | 0 <= i < |kids| && kids[i].late.Some? { TidyAvoids(kids[i].late.value, kids[i].scope, banned); }
      forall outs | |outs| == |kids| { TidyAvoids(join(outs), S, banned); }
  }

  /** The nodes whose work must be over once `x` has begun. */
  function Earlier(order: set<(Id, Id)>, x: Id): set<Id> {
    set e | e in order && e.1 == x :: e.0
  }

  /** Once a node has a mark, nothing ordered before it has another one. */
  greatest predicate Causal(p: Proc, order: set<(Id, Id)>) {
    match p
    case Done(_) => true
    case Emit(batch, next) =>
      && Causal(next, order)
      && (forall e | e in batch && e.who.Some? :: Avoids(next, Earlier(order, e.who.value)))
      && (forall e, d | e in batch && d in batch && e.who.Some? && d.who.Some? :: (d.who.value, e.who.value) !in order)
    case Ask(q, k) =>
      (q.node, q.node) !in order
      && forall a | Fits(q, a) :: Causal(k(a), order) && Avoids(k(a), Earlier(order, q.node))
    case Note(e, next) =>
      && Causal(next, order)
      && (e.who.Some? ==> (e.who.value, e.who.value) !in order && Avoids(next, Earlier(order, e.who.value)))
    case Fork(kids, join) =>
      && (forall i | 0 <= i < |kids| :: Causal(kids[i].body, order))
      && (forall i | 0 <= i < |kids| && kids[i].late.Some? :: Causal(kids[i].late.value, order))
      && (forall i, x | 0 <= i < |kids| && kids[i].late.Some? && Some(x) in kids[i].scope ::
            Avoids(kids[i].late.value, Earlier(order, x)))
      && (forall i, j, x, y | 0 <= i < |kids| && 0 <= j < |kids| && i != j
            && Some(x) in kids[i].scope && Some(y) in kids[j].scope :: (y, x) !in order)
      && (forall i, x, outs | 0 <= i < |kids| && Some(x) in kids[i].scope && |outs| == |kids| ::
            Avoids(join(outs), Earlier(order, x)))
      && (forall outs | |outs| == |kids| :: Causal(join(outs), order))
  }

  lemma {:induction false} AvoidsExec(p: Proc, sched: seq<Step>, banned: set<Id>)
    requires Avoids(p, banned) && Exec(p, sched).Some?
    ensures Clear(Exec(p, sched).value.tape, banned)
    decreases |sched|
  {
    if sched != [] {
      AvoidsFire(p, sched[0], banned);
      AvoidsExec(Fire(p, sched[0]).value.next, sched[1..], banned);
    }
  }

  /** No mark of `y` after a mark of `x` when y is ordered before x. */
  ghost predicate InOrder(tape: seq<Mark>, order: set<(Id, Id)>) {
    forall s, t | 0 <= s < t < |tape| && Who(tape[s]).Some? && Who(tape[t]).Some? ::
      (Who(tape[t]).value, Who(tape[s]).value) !in order
  }

  ghost predicate Silenced(p: Proc, tape: seq<Mark>, order: set<(Id, Id)>) {
    forall m | m in tape && Who(m).Some? :: Avoids(p, Earlier(order, Who(m).value))
  }

  lemma {:induction false} CausalFire(p: Proc, s: Step, S: set<Option<Id>>, order: set<(Id, Id)>)
    requires Tidy(p, S) && Causal(p, order) && Fire(p, s).Some?
    ensures Causal(Fire(p, s).value.next, order)
    ensures Silenced(Fire(p, s).value.next, Fire(p, s).value.marks, order)
    ensures InOrder(Fire(p, s).value.marks, order)
    decreases s
  {
    match s
    case In(i, inner) =>
      CausalFire(p.kids[i].body, inner, p.kids[i].scope, order);
      TidyFire(p.kids[i].body, inner, p.kids[i].scope);
      CausalIn(p, i, Fire(p.kids[i].body, inner).value, S, order);
    case _ => CausalOwn(p, s, order);
  }

  /** A step that is not a child's. */
  lemma CausalOwn(p: Proc, s: Step, order: set<(Id, Id)>)
    requires Causal(p, order) && Fire(p, s).Some? && !s.In?
    ensures Causal(Fire(p, s).value.next, order)
    ensures Silenced(Fire(p, s).value.next, Fire(p, s).value.marks, order)
    ensures InOrder(Fire(p, s).value.marks, order)
  {
    hide Bills, AfterAnswer;
    if s.Commit? { CausalCommit(p, order); }
    if s.Hear? { CausalHear(p, s.a, order); }
    if s.Cut? { CausalCut(p, s.kid, order); }
  }

  /** A timed-out child is replaced by its late branch. */
  lemma CausalCut(p: Proc, i: nat, order: set<(Id, Id)>)
    requires Causal(p, order) && Fire(p, Cut(i)).Some?
    ensures Causal(Fire(p, Cut(i)).value.next, order)
  {
    hide Avoids, Earlier;
  }

  lemma CausalHear(p: Proc, a: Answer, order: set<(Id, Id)>)
    requires Causal(p, order) && p.Ask? && Fits(p.q, a)
    ensures var next := AfterAnswer(p.q, a, p.k(a));
      Causal(next, order) && Silenced(next, [Heard(p.q, a)], order) && InOrder([Heard(p.q, a)], order)
  {
    assert Causal(p.k(a), order) && Avoids(p.k(a), Earlier(order, p.q.node));
  }

  lemma CausalCommit(p: Proc, order: set<(Id, Id)>)
    requires Causal(p, order) && p.Emit?
    ensures Causal(p.next, order) && Silenced(p.next, Bills(p.batch), order) && InOrder(Bills(p.batch), order)
  {
    hide Avoids, Earlier;
    var marks := Bills(p.batch);
    forall m | m in marks && Who(m).Some? ensures Avoids(p.next, Earlier(order, Who(m).value)) {
      assert m.e in p.batch;
    }
    forall a, b | 0 <= a < b < |marks| && Who(marks[a]).Some? && Who(marks[b]).Some?
      ensures (Who(marks[b]).value, Who(marks[a]).value) !in order
    {
      assert p.batch[a] in p.batch && p.batch[b] in p.batch;
    }
  }

  /** A child's step, seen from its fork. */
  lemma CausalIn(p: Proc, i: nat, kid: Fired, S: set<Option<Id>>, order: set<(Id, Id)>)
    requires Tidy(p, S) && Causal(p, order) && p.Fork? && i < |p.kids|
    requires Tidy(kid.next, p.kids[i].scope) && Causal(kid.next, order)
    requires Silenced(kid.next, kid.marks, order) && Inside(kid.marks, p.kids[i].scope)
    ensures var next := Fork(p.kids[i := p.kids[i].(body := kid.next)], p.join);
      Causal(next, order) && Silenced(next, kid.marks, order)
  {
    var next := Fork(p.kids[i := p.kids[i].(body := kid.next)], p.join);
    forall m | m in kid.marks && Who(m).Some? ensures Avoids(next, Earlier(order, Who(m).value)) {
      SiblingsAvoid(p, i, S, order, Who(m).value);
    }
  }

  /** What a mark of child `i` bans, its siblings, timeouts and successors already avoid. */
  lemma SiblingsAvoid(p: Proc, i: nat, S: set<Option<Id>>, order: set<(Id, Id)>, x: Id)
    requires Tidy(p, S) && Causal(p, order) && p.Fork? && i < |p.kids| && Some(x) in p.kids[i].scope
    ensures forall j | 0 <= j < |p.kids| && j != i :: Avoids(p.kids[j].body, Earlier(order, x))
    ensures forall j | 0 <= j < |p.kids| && p.kids[j].late.Some? :: Avoids(p.kids[j].late.value, Earlier(order, x))
    ensures forall outs | |outs| == |p.kids| :: Avoids(p.join(outs), Earlier(order, x))
  {
    forall j | 0 <= j < |p.kids| && j != i ensures Avoids(p.kids[j].body, Earlier(order, x)) {
      TidyAvoids(p.kids[j].body, p.kids[j].scope, Earlier(order, x));
    }
    forall j | 0 <= j < |p.kids| && p.kids[j].late.Some?
      ensures Avoids(p.kids[j].late.value, Earlier(order, x))
    {
      if j != i { TidyAvoids(p.kids[j].late.value, p.kids[j].scope, Earlier(order, x)); }
    }
  }

  /** Every interleaving, timeouts included, keeps the order. */
  lemma {:induction false} CausalRun(p: Proc, sched: seq<Step>, S: set<Option<Id>>, order: set<(Id, Id)>)
    requires Tidy(p, S) && Causal(p, order) && Exec(p, sched).Some?
    ensures InOrder(Exec(p, sched).value.tape, order)
    decreases |sched|
  {
    if sched != [] {
      var f := Fire(p, sched[0]).value;
      var rest := Exec(f.next, sched[1..]).value.tape;
      TidyFire(p, sched[0], S);
      CausalFire(p, sched[0], S, order);
      CausalRun(f.next, sched[1..], S, order);
      forall s, t | 0 <= s < t < |f.marks + rest| && Who((f.marks + rest)[s]).Some? && Who((f.marks + rest)[t]).Some?
        ensures (Who((f.marks + rest)[t]).value, Who((f.marks + rest)[s]).value) !in order
      {
        if s < |f.marks| && t >= |f.marks| {
          var m, n := f.marks[s], rest[t - |f.marks|];
          assert m in f.marks && n in rest;
          AvoidsExec(f.next, sched[1..], Earlier(order, Who(m).value));
        }
      }
    }
  }

  // ---------- permission ----------

  /** What a finished task promises, given the approvals granted by then. */
  type Post = (Outcome, set<Id>) -> bool

  /** Whether a query may be asked once these approvals are granted. */
  type Permit = (Query, set<Id>) -> bool

  /** Approvals a mark grants. */
  function Grants(m: Mark): set<Id> {
    if m.Wrote? && m.e.kind.ApprovalGranted? && m.e.who.Some? then {m.e.who.value} else {}
  }

  function Gains(tape: seq<Mark>): set<Id> {
    if tape == [] then {} else Grants(tape[0]) + Gains(tape[1..])
  }

  /**
   * With `granted` approvals logged, and possibly more by other tasks, every
   * query the task asks is permitted when it is asked, and `post` holds at the end.
   */
  greatest predicate Guarded(p: Proc, granted: set<Id>, permit: Permit, post: Post) {
    match p
    case Done(out) => forall now | granted <= now :: post(out, now)
    case Emit(_, next) => forall now | granted <= now :: Guarded(next, now, permit, post)
    case Ask(q, k) =>
      && (forall now | granted <= now :: permit(q, now))
      && (forall now, a | granted <= now && Fits(q, a) :: Guarded(AfterAnswer(q, a, k(a)), now, permit, post))
    case Note(e, next) =>
      forall now | granted <= now :: Guarded(next, now + Grants(Wrote(e, FREE)), permit, post)
    case Fork(kids, join) => exists posts: seq<Post> :: GuardedKids(kids, join, granted, permit, post, posts)
  }

  greatest predicate GuardedKids(kids: seq<Kid>, join: seq<Outcome> -> Proc, granted: set<Id>,
                                 permit: Permit, post: Post, posts: seq<Post>)
  {
    && |posts| == |kids|
    && (forall i | 0 <= i < |kids| :: Guarded(kids[i].body, granted, permit, posts[i]))
    && (forall i | 0 <= i < |kids| && kids[i].late.Some? :: Guarded(kids[i].late.value, granted, permit, posts[i]))
    && (forall outs, now | granted <= now && |outs| == |kids| && (forall i | 0 <= i < |kids| :: posts[i](outs[i], now)) ::
          Guarded(join(outs), now, permit, post))
  }

  lemma {:induction false} GuardedGrows(p: Proc, granted: set<Id>, more: set<Id>, permit: Permit, post: Post)
    requires Guarded(p, granted, permit, post) && granted <= more
    ensures Guarded(p, more, permit, post)
    decreases p
  {
    assert forall now | more <= now :: granted <= now;
    if p.Fork? {
      var posts: seq<Post> :| GuardedKids(p.kids, p.join, granted, permit, post, posts);
      forall i | 0 <= i < |p.kids| ensures Guarded(p.kids[i].body, more, permit, posts[i]) {
        GuardedGrows(p.kids[i].body, granted, more, permit, posts[i]);
      }
      forall i | 0 <= i < |p.kids| && p.kids[i].late.Some?
        ensures Guarded(p.kids[i].late.value, more, permit, posts[i])
      {
        GuardedGrows(p.kids[i].late.value, granted, more, permit, posts[i]);
      }
      assert GuardedKids(p.kids, p.join, more, permit, post, posts);
    }
  }

  /** A task that is no gather takes its step. */
  lemma GuardedLeaf(p: Proc, s: Step, granted: set<Id>, permit: Permit, post: Post)
    requires Guarded(p, granted, permit, post) && Fire(p, s).Some? && (s.Commit? || s.Hear? || s.Record?)
    ensures Guarded(Fire(p, s).value.next, granted + Gains(Fire(p, s).value.marks), permit, post)
    ensures forall m | m in Fire(p, s).value.marks && m.Heard? :: permit(m.q, granted)
  {
    var marks := Fire(p, s).value.marks;
    var now := granted + Gains(marks);
    assert granted <= granted && granted <= now;
    assert !s.Commit? ==> marks[1..] == [] && Gains(marks[1..]) == {} && Gains(marks) == Grants(marks[0]);
    if s.Hear? { assert now == granted; }
  }

  lemma GuardedJoin(p: Proc, granted: set<Id>, permit: Permit, post: Post)
    requires Guarded(p, granted, permit, post) && p.Fork? && AllDone(p.kids)
    ensures Guarded(p.join(Outs(p.kids)), granted, permit, post)
  {
    var posts: seq<Post> :| GuardedKids(p.kids, p.join, granted, permit, post, posts);
    var outs := Outs(p.kids);
    forall i | 0 <= i < |p.kids| ensures posts[i](outs[i], granted) {
      assert p.kids[i].body == Done(outs[i]) && Guarded(Done(outs[i]), granted, permit, posts[i]);
      DonePost(outs[i], granted, permit, posts[i]);
    }
    GuardedAfter(p.kids, p.join, granted, permit, post, posts, outs);
  }

  lemma DonePost(o: Outcome, granted: set<Id>, permit: Permit, post: Post)
    requires Guarded(Done(o), granted, permit, post)
    ensures post(o, granted)
  {
    assert granted <= granted;
  }

  lemma GuardedAfter(kids: seq<Kid>, join: seq<Outcome> -> Proc, granted: set<Id>, permit: Permit, post: Post,
                     posts: seq<Post>, outs: seq<Outcome>)
    requires GuardedKids(kids, join, granted, permit, post, posts)
    requires |outs| == |kids| && forall i | 0 <= i < |kids| :: posts[i](outs[i], granted)
    ensures Guarded(join(outs), granted, permit, post)
  {
    hide Guarded;
    assert granted <= granted;
  }

  lemma GuardedCut(p: Proc, i: nat, granted: set<Id>, permit: Permit, post: Post)
    requires Guarded(p, granted, permit, post) && Fire(p, Cut(i)).Some?
    ensures Guarded(Fire(p, Cut(i)).value.next, granted, permit, post)
  {
    var posts: seq<Post> :| GuardedKids(p.kids, p.join, granted, permit, post, posts);
    assert GuardedKids(Fire(p, Cut(i)).value.next.kids, p.join, granted, permit, post, posts);
  }

  /** A child moves on, and the others see what it was granted. */
  lemma GuardedMove(p: Proc, i: nat, next: Proc, granted: set<Id>, now: set<Id>, permit: Permit, post: Post, posts: seq<Post>)
    requires p.Fork? && i < |p.kids| && granted <= now
    requires GuardedKids(p.kids, p.join, granted, permit, post, posts) && Guarded(next, now, permit, posts[i])
    ensures Guarded(Fork(p.kids[i := p.kids[i].(body := next)], p.join), now, permit, post)
  {
    assert forall later | now <= later :: granted <= later;
    forall j | 0 <= j < |p.kids| && j != i ensures Guarded(p.kids[j].body, now, permit, posts[j]) {
      GuardedGrows(p.kids[j].body, granted, now, permit, posts[j]);
    }
    forall j | 0 <= j < |p.kids| && p.kids[j].late.Some? ensures Guarded(p.kids[j].late.value, now, permit, posts[j]) {
      GuardedGrows(p.kids[j].late.value, granted, now, permit, posts[j]);
    }
    assert GuardedKids(p.kids[i := p.kids[i].(body := next)], p.join, now, permit, post, posts);
  }

  lemma {:induction false} GuardedFire(p: Proc, s: Step, granted: set<Id>, permit: Permit, post: Post)
    requires Guarded(p, granted, permit, post) && Fire(p, s).Some?
    ensures Guarded(Fire(p, s).value.next, granted + Gains(Fire(p, s).value.marks), permit, post)
    ensures forall m | m in Fire(p, s).value.marks && m.Heard? :: permit(m.q, granted)
    decreases s
  {
    assert granted + {} == granted;
    match s
    case Join => GuardedJoin(p, granted, permit, post);
    case Cut(i) => GuardedCut(p, i, granted, permit, post);
    case In(i, inner) =>
      var posts: seq<Post> :| GuardedKids(p.kids, p.join, granted, permit, post, posts);
      GuardedFire(p.kids[i].body, inner, granted, permit, posts[i]);
      var f := Fire(p.kids[i].body, inner).value;
      GuardedMove(p, i, f.next, granted, granted + Gains(f.marks), permit, post, posts);
    case _ => GuardedLeaf(p, s, granted, permit, post);
  }

  lemma {:induction false} GainsConcat(t1: seq<Mark>, t2: seq<Mark>)
    ensures Gains(t1 + t2) == Gains(t1) + Gains(t2)
  {
    if t1 == [] {
      assert t1 + t2 == t2;
    } else {
      GainsConcat(t1[1..], t2);
      assert (t1 + t2)[0] == t1[0] && (t1 + t2)[1..] == t1[1..] + t2;
    }
  }

  /** Every query of every interleaving was permitted by the approvals logged before it. */
  ghost predicate Permitted(tape: seq<Mark>, granted: set<Id>, permit: Permit) {
    forall t | 0 <= t < |tape| && tape[t].Heard? :: permit(tape[t].q, granted + Gains(tape[..t]))
  }

  lemma {:induction false} GuardedRun(p: Proc, sched: seq<Step>, granted: set<Id>, permit: Permit, post: Post)
    requires Guarded(p, granted, permit, post) && Exec(p, sched).Some?
    ensures var r := Exec(p, sched).value;
      && Guarded(r.proc, granted + Gains(r.tape), permit, post)
      && Permitted(r.tape, granted, permit)
      && (r.proc.Done? ==> post(r.proc.out, granted + Gains(r.tape)))
    decreases |sched|
  {
    var r := Exec(p, sched).value;
    if sched == [] {
      assert granted + Gains(r.tape) == granted;
    } else {
      var f := Fire(p, sched[0]).value;
      var now := granted + Gains(f.marks);
      var rest := Exec(f.next, sched[1..]).value.tape;
      GuardedFire(p, sched[0], granted, permit, post);
      GuardedRun(f.next, sched[1..], now, permit, post);
      GainsConcat(f.marks, rest);
      assert now + Gains(rest) == granted + Gains(r.tape);
      HeardAlone(p, sched[0]);
      PermittedConcat(f.marks, rest, granted, permit);
    }
  }

  lemma PermittedConcat(front: seq<Mark>, rest: seq<Mark>, granted: set<Id>, permit: Permit)
    requires forall m | m in front && m.Heard? :: |front| == 1 && permit(m.q, granted)
    requires Permitted(rest, granted + Gains(front), permit)
    ensures Permitted(front + rest, granted, permit)
  {
    var tape := front + rest;
    forall t | 0 <= t < |tape| && tape[t].Heard? ensures permit(tape[t].q, granted + Gains(tape[..t])) {
      PermittedAt(front, rest, granted, permit, t);
    }
  }

  lemma PermittedAt(front: seq<Mark>, rest: seq<Mark>, granted: set<Id>, permit: Permit, t: nat)
    requires forall m | m in front && m.Heard? :: |front| == 1 && permit(m.q, granted)
    requires Permitted(rest, granted + Gains(front), permit) && t < |front + rest| && (front + rest)[t].Heard?
    ensures permit((front + rest)[t].q, granted + Gains((front + rest)[..t]))
  {
    var tape := front + rest;
    if t < |front| {
      assert tape[t] in front;
      assert tape[..t] == [] && granted + Gains([]) == granted;
    } else {
      GainsUpTo(front, rest, granted, t - |front|);
      assert rest[t - |front|].Heard?;
    }
  }

  lemma GainsUpTo(front: seq<Mark>, rest: seq<Mark>, granted: set<Id>, u: nat)
    requires u < |rest|
    ensures granted + Gains((front + rest)[..|front| + u]) == (granted + Gains(front)) + Gains(rest[..u])
    ensures (front + rest)[|front| + u] == rest[u]
  {
    assert (front + rest)[..|front| + u] == front + rest[..u];
    GainsConcat(front, rest[..u]);
  }

  lemma {:induction false} HeardAlone(p: Proc, s: Step)
    requires Fire(p, s).Some?
    ensures (exists m :: m in Fire(p, s).value.marks && m.Heard?) ==> |Fire(p, s).value.marks| == 1
    decreases s
  {
    match s
    case In(i, inner) => HeardAlone(p.kids[i].body, inner);
    case _ =>
  }
}
