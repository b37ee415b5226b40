// The shared and scratch memory of backend/memory/store.py: which keys an agent
// reads does not depend on what has been swept; which copy of a key it reads
// can, where one of two differing copies entered the dict again after the other.
module MemoryStores {
  import opened Base
  import opened Events

  const SHARED: Id := "shared"

  function Scratch(agent: Id): Id { "agent:" + agent }

  /** (run_id, bucket, key) */
  datatype Key = Key(run: Id, bucket: Id, name: Id)
  datatype Slot = Slot(key: Key, value: Value, at: real, ttl: real)

  predicate Expired(s: Slot, now: real) { now - s.at > s.ttl }

  /** Scratch buckets are private: no two agents share one, and none is the shared pool. */
  lemma ScratchIsPrivate(a: Id, b: Id)
    ensures Scratch(a) == Scratch(b) ==> a == b
    ensures Scratch(a) != SHARED
  {
    assert Scratch(a)[6..] == a && Scratch(b)[6..] == b;
    assert Scratch(a)[0] == 'a' && SHARED[0] == 's';
  }

  // ---------- a dict in insertion order ----------

  ghost predicate Distinct(data: seq<Slot>) {
    forall i, j | 0 <= i < j < |data| :: data[i].key != data[j].key
  }

  /** `data[key] = ...`: in place, or at the end. */
  function Assigned(data: seq<Slot>, s: Slot): seq<Slot> {
    if data == [] then [s]
    else if data[0].key == s.key then [s] + data[1..]
    else [data[0]] + Assigned(data[1..], s)
  }

  function Swept(data: seq<Slot>, now: real): seq<Slot> {
    if data == [] then []
    else (if Expired(data[0], now) then [] else [data[0]]) + Swept(data[1..], now)
  }

  lemma {:induction false} AssignedIs(data: seq<Slot>, s: Slot)
    requires Distinct(data)
    ensures Distinct(Assigned(data, s))
    ensures forall x :: x in Assigned(data, s) <==> x == s || (x in data && x.key != s.key)
  {
    if data != [] {
      var rest := data[1..];
      assert forall x :: x in data <==> x == data[0] || x in rest;
      assert forall x | x in rest :: x.key != data[0].key;
      if data[0].key != s.key {
        AssignedIs(rest, s);
        var more := Assigned(rest, s);
        forall i, j | 0 <= i < j < |[data[0]] + more| ensures ([data[0]] + more)[i].key != ([data[0]] + more)[j].key {
          assert more[j - 1] in more;
        }
      }
    }
  }

  lemma {:induction false} SweptIs(data: seq<Slot>, now: real)
    requires Distinct(data)
    ensures Distinct(Swept(data, now))
    ensures forall x :: x in Swept(data, now) <==> x in data && !Expired(x, now)
  {
    if data != [] {
      var rest := data[1..];
      SweptIs(rest, now);
      assert forall x :: x in data <==> x == data[0] || x in rest;
      assert forall x | x in rest :: x.key != data[0].key;
      var more := Swept(rest, now);
      forall i, j | 0 <= i < j < |[data[0]] + more| ensures ([data[0]] + more)[i].key != ([data[0]] + more)[j].key {
        assert more[j - 1] in more;
      }
    }
  }

  // ---------- the table that never deletes ----------

  /** `data` holds nothing stale, and every entry that has not expired. */
  ghost predicate Mirrors(data: seq<Slot>, ever: map<Key, Slot>, clock: real) {
    && Distinct(data)
    && (forall k | k in ever :: ever[k].key == k && ever[k].at <= clock)
    && (forall s | s in data :: s.key in ever && ever[s.key] == s)
    && (forall k | k in ever && !Expired(ever[k], clock) :: ever[k] in data)
  }

  lemma MirrorsLater(data: seq<Slot>, ever: map<Key, Slot>, clock: real, now: real)
    requires Mirrors(data, ever, clock) && clock <= now
    ensures Mirrors(data, ever, now)
  {
    forall k | k in ever && !Expired(ever[k], now) ensures ever[k] in data {
      assert !Expired(ever[k], clock);
    }
  }

  lemma MirrorsSwept(data: seq<Slot>, ever: map<Key, Slot>, now: real)
    requires Mirrors(data, ever, now)
    ensures Mirrors(Swept(data, now), ever, now)
  {
    SweptIs(data, now);
  }

  lemma MirrorsAssigned(data: seq<Slot>, ever: map<Key, Slot>, now: real, s: Slot)
    requires Mirrors(data, ever, now) && s.at <= now
    ensures Mirrors(Assigned(data, s), ever[s.key := s], now)
  {
    AssignedIs(data, s);
  }

  /** Buckets `read_for` looks into. */
  predicate Visible(k: Key, run: Id, agent: Id, shared: bool) {
    k.run == run && (k.bucket == Scratch(agent) || (shared && k.bucket == SHARED))
  }

  /** The unexpired entries an agent may see, were nothing ever deleted. */
  ghost predicate Readable(ever: map<Key, Slot>, k: Key, run: Id, agent: Id, shared: bool, now: real) {
    k in ever && Visible(k, run, agent, shared) && !Expired(ever[k], now)
  }

  /** No name an agent can read has two unexpired copies with different values. */
  ghost predicate CopiesAgree(ever: map<Key, Slot>, run: Id, agent: Id, shared: bool, now: real) {
    forall k, k' | Readable(ever, k, run, agent, shared, now) && Readable(ever, k', run, agent, shared, now) && k.name == k'.name ::
      ever[k].value == ever[k'].value
  }

  predicate Shown(s: Slot, run: Id, agent: Id, shared: bool, now: real) {
    Visible(s.key, run, agent, shared) && !Expired(s, now)
  }

  /** `live[key] = value` over the slots in order: the last one wins. */
  function LiveOf(data: seq<Slot>, run: Id, agent: Id, shared: bool, now: real): map<Id, Value> {
    if data == [] then map[]
    else
      var s, before := data[|data| - 1], LiveOf(data[..|data| - 1], run, agent, shared, now);
      if Shown(s, run, agent, shared, now) then before[s.key.name := s.value] else before
  }

  /** A slot of `data` that this agent sees holds v under this name. */
  ghost predicate Source(data: seq<Slot>, run: Id, agent: Id, shared: bool, now: real, n: Id, v: Value) {
    exists s :: s in data && Shown(s, run, agent, shared, now) && s.key.name == n && s.value == v
  }

  lemma {:induction false} LiveIs(data: seq<Slot>, run: Id, agent: Id, shared: bool, now: real)
    ensures forall s | s in data && Shown(s, run, agent, shared, now) :: s.key.name in LiveOf(data, run, agent, shared, now)
    ensures forall n | n in LiveOf(data, run, agent, shared, now) ::
              Source(data, run, agent, shared, now, n, LiveOf(data, run, agent, shared, now)[n])
  {
    if data != [] {
      var front, last := data[..|data| - 1], data[|data| - 1];
      LiveIs(front, run, agent, shared, now);
      assert data == front + [last];
      assert forall x :: x in data <==> x in front || x == last;
      var live, before := LiveOf(data, run, agent, shared, now), LiveOf(front, run, agent, shared, now);
      forall n | n in live ensures Source(data, run, agent, shared, now, n, live[n]) {
        if !(Shown(last, run, agent, shared, now) && n == last.key.name) {
          assert n in before && live[n] == before[n];
          SourceGrows(front, last, run, agent, shared, now, n, before[n]);
        }
      }
    }
  }

  lemma SourceGrows(front: seq<Slot>, last: Slot, run: Id, agent: Id, shared: bool, now: real, n: Id, v: Value)
    requires Source(front, run, agent, shared, now, n, v)
    ensures Source(front + [last], run, agent, shared, now, n, v)
  {
    var s :| s in front && Shown(s, run, agent, shared, now) && s.key.name == n && s.value == v;
    assert s in front + [last];
  }

  /** What the dict shows is what the table that never deletes shows. */
  lemma LiveMirrors(data: seq<Slot>, ever: map<Key, Slot>, run: Id, agent: Id, shared: bool, now: real)
    requires Mirrors(data, ever, now)
    ensures var live := LiveOf(data, run, agent, shared, now);
      && (forall k | Readable(ever, k, run, agent, shared, now) :: k.name in live)
      && (forall n | n in live :: exists k :: Readable(ever, k, run, agent, shared, now) && k.name == n && ever[k].value == live[n])
      && (CopiesAgree(ever, run, agent, shared, now) ==>
            forall k | Readable(ever, k, run, agent, shared, now) :: live[k.name] == ever[k].value)
  {
    var live := LiveOf(data, run, agent, shared, now);
    LiveIs(data, run, agent, shared, now);
    forall n | n in live
      ensures exists k :: Readable(ever, k, run, agent, shared, now) && k.name == n && ever[k].value == live[n]
    {
      var s :| s in data && Shown(s, run, agent, shared, now) && s.key.name == n && s.value == live[n];
      assert Readable(ever, s.key, run, agent, shared, now);
    }
    forall k | Readable(ever, k, run, agent, shared, now) ensures k.name in live {
      assert Shown(ever[k], run, agent, shared, now);
    }
  }

  /** What a read leaves in the table: its own expired slots are gone. */
  function Pruned(data: seq<Slot>, run: Id, agent: Id, shared: bool, now: real): seq<Slot> {
    if data == [] then []
    else
      var s, before := data[|data| - 1], Pruned(data[..|data| - 1], run, agent, shared, now);
      if Visible(s.key, run, agent, shared) && Expired(s, now) then before else before + [s]
  }

  lemma {:induction false} PrunedIs(data: seq<Slot>, run: Id, agent: Id, shared: bool, now: real)
    requires Distinct(data)
    ensures var r := Pruned(data, run, agent, shared, now);
      Distinct(r) && forall x :: x in r <==> x in data && !(Visible(x.key, run, agent, shared) && Expired(x, now))
  {
    if data != [] {
      var front, last := data[..|data| - 1], data[|data| - 1];
      assert data == front + [last];
      assert forall x :: x in data <==> x in front || x == last;
      assert Distinct(front) && forall x | x in front :: x.key != last.key;
      PrunedIs(front, run, agent, shared, now);
    }
  }

  /** The keys a read reports as evicted, each once. */
  ghost predicate Reports(evicted: seq<Id>, data: seq<Slot>, run: Id, agent: Id, shared: bool, now: real) {
    && NoDup(evicted)
    && forall n :: n in evicted <==> exists s :: s in data && Visible(s.key, run, agent, shared) && Expired(s, now) && s.key.name == n
  }

  method Fresh(data: seq<Slot>, now: real) returns (kept: seq<Slot>)
    ensures kept == Swept(data, now)
  {
    kept := [];
    assert data[0..] == data;
    for i := 0 to |data|
      invariant kept + Swept(data[i..], now) == Swept(data, now)
    {
      assert data[i..][1..] == data[i + 1..];
      if !Expired(data[i], now) { kept := kept + [data[i]]; }
    }
    assert kept + [] == kept;
  }

  /** read_for's loop: what is read, what is reported, and what stays. */
  method Scan(data: seq<Slot>, run: Id, agent: Id, shared: bool, now: real)
    returns (live: map<Id, Value>, evicted: seq<Id>, kept: seq<Slot>)
    ensures live == LiveOf(data, run, agent, shared, now)
    ensures kept == Pruned(data, run, agent, shared, now)
    ensures Reports(evicted, data, run, agent, shared, now)
  {
    live, evicted := map[], [];
    kept := [];
    for i := 0 to |data|
      invariant live == LiveOf(data[..i], run, agent, shared, now)
      invariant kept == Pruned(data[..i], run, agent, shared, now)
      invariant Reports(evicted, data[..i], run, agent, shared, now)
    {
      var s := data[i];
      assert data[..i + 1] == data[..i] + [s] && data[..i + 1][..|data[..i + 1]| - 1] == data[..i];
      if Visible(s.key, run, agent, shared) && Expired(s, now) {
        ReportsStep(evicted, data, i, run, agent, shared, now);
        if s.key.name !in evicted { evicted := evicted + [s.key.name]; }
      } else {
        kept := kept + [s];
        if Visible(s.key, run, agent, shared) { live := live[s.key.name := s.value]; }
      }
    }
    assert data[..|data|] == data;
  }

  lemma MirrorsPruned(data: seq<Slot>, ever: map<Key, Slot>, run: Id, agent: Id, shared: bool, now: real)
    requires Mirrors(data, ever, now)
    ensures Mirrors(Pruned(data, run, agent, shared, now), ever, now)
  {
    PrunedIs(data, run, agent, shared, now);
  }

  lemma FetchLeaves(p: Past, run: Id, agent: Id, shared: bool, now: real)
    ensures Perform(p, Fetch(run, agent, shared, now)).data == Pruned(p.data, run, agent, shared, now)
  {
  }

  class MemoryStore {
    var data: seq<Slot>
    ghost var ever: map<Key, Slot>          // the same writes, nothing deleted
    ghost var clock: real
    ghost var ops: seq<Op>                  // the calls so far

    ghost predicate Valid() reads this {
      Mirrors(data, ever, clock) && data == History(ops).data && Timed(ops, clock)
    }

    constructor ()
      ensures Valid() && ever == map[] && ops == []
    {
      data, ever, clock, ops := [], map[], 0.0, [];
    }

    method Sweep(now: real)
      requires Mirrors(data, ever, clock) && clock <= now
      modifies this`data, this`clock
      ensures Mirrors(data, ever, now) && clock == now && data == Swept(old(data), now)
    {
      MirrorsLater(data, ever, clock, now);
      MirrorsSwept(data, ever, now);
      data := Fresh(data, now);
      clock := now;
    }

    /** `write`: the agent's own scratch entry always, the shared pool if told so. */
    method Write(run: Id, agent: Id, name: Id, value: Value, ttl: real, shared: bool, now: real)
      requires Valid() && clock <= now
      modifies this
      ensures Valid() && clock == now && ops == old(ops) + [Store(run, agent, name, value, ttl, shared, now)]
      ensures var own := Slot(Key(run, Scratch(agent), name), value, now, ttl);
        var pool := own.(key := Key(run, SHARED, name));
        && ever == (if shared then old(ever)[own.key := own][pool.key := pool] else old(ever)[own.key := own])
        && data == if shared then Assigned(Assigned(Swept(old(data), now), own), pool) else Assigned(Swept(old(data), now), own)
    {
      Sweep(now);
      var own := Slot(Key(run, Scratch(agent), name), value, now, ttl);
      MirrorsAssigned(data, ever, now, own);
      data, ever := Assigned(data, own), ever[own.key := own];
      if shared {
        var pool := own.(key := Key(run, SHARED, name));
        MirrorsAssigned(data, ever, now, pool);
        data, ever := Assigned(data, pool), ever[pool.key := pool];
      }
      ops := Recorded(ops, Store(run, agent, name, value, ttl, shared, now));
    }

    /**
     * `read_for`: exactly the unexpired keys of the visible buckets of a table
     * that never deletes, each with the value of one of its unexpired entries.
     */
    method ReadFor(run: Id, agent: Id, shared: bool, now: real) returns (live: map<Id, Value>, evicted: seq<Id>)
      requires Valid() && clock <= now
      modifies this
      ensures Valid() && clock == now && ever == old(ever) && ops == old(ops) + [Fetch(run, agent, shared, now)]
      ensures live == LiveOf(old(data), run, agent, shared, now)
      ensures data == Pruned(old(data), run, agent, shared, now)
      ensures Reports(evicted, old(data), run, agent, shared, now)
      ensures forall k | Readable(ever, k, run, agent, shared, now) :: k.name in live
      ensures forall n | n in live ::
        exists k :: Readable(ever, k, run, agent, shared, now) && k.name == n && ever[k].value == live[n]
      ensures CopiesAgree(ever, run, agent, shared, now) ==>
        forall k | Readable(ever, k, run, agent, shared, now) :: live[k.name] == ever[k].value
      ensures Sound(History(old(ops)), now)
      ensures live == LiveOf(History(old(ops)).kept, run, agent, shared, now)
        <==> !(shared && Noticed(History(old(ops)), run, agent, now))
    {
      hide History, LiveOf, Sound, Noticed, CopiesAgree, Perform;
      var kept;
      live, evicted, kept := Scan(data, run, agent, shared, now);
      MirrorsLater(data, ever, clock, now);
      LiveMirrors(data, ever, run, agent, shared, now);
      MirrorsPruned(data, ever, run, agent, shared, now);
      TimedLater(ops, clock, now);
      EvictionUnnoticed(ops, run, agent, shared, now);
      FetchLeaves(History(ops), run, agent, shared, now);
      data, clock := kept, now;
      ops := Recorded(ops, Fetch(run, agent, shared, now));
    }
  }

  lemma ReportsStep(evicted: seq<Id>, data: seq<Slot>, i: nat, run: Id, agent: Id, shared: bool, now: real)
    requires i < |data| && Reports(evicted, data[..i], run, agent, shared, now)
    requires Visible(data[i].key, run, agent, shared) && Expired(data[i], now)
    ensures Reports(if data[i].key.name in evicted then evicted else evicted + [data[i].key.name], data[..i + 1], run, agent, shared, now)
  {
    assert data[..i + 1] == data[..i] + [data[i]];
    assert forall x :: x in data[..i + 1] <==> x in data[..i] || x == data[i];
    if data[i].key.name !in evicted { NoDupSnoc(evicted, data[i].key.name); }
  }

  // ---------- what a history of calls leaves in the dict ----------

  datatype Op =
    | Store(run: Id, agent: Id, name: Id, value: Value, ttl: real, shared: bool, now: real)
    | Fetch(run: Id, agent: Id, shared: bool, now: real)

  /**
   * The dict; the same assignments in a dict from which nothing is deleted;
   * and for each key the number of the assignment that first put it in, and of
   * the one that put it where it is now.
   */
  datatype Past = Past(data: seq<Slot>, kept: seq<Slot>, first: map<Key, nat>, entered: map<Key, nat>, count: nat)

  const NOTHING := Past([], [], map[], map[], 0)

  predicate Holds(data: seq<Slot>, k: Key) { exists s :: s in data && s.key == k }

  function PutBoth(p: Past, s: Slot): Past {
    Past(Assigned(p.data, s), Assigned(p.kept, s),
         if Holds(p.kept, s.key) then p.first else p.first[s.key := p.count],
         if Holds(p.data, s.key) then p.entered else p.entered[s.key := p.count],
         p.count + 1)
  }

  function Own(op: Op): Slot
    requires op.Store?
  {
    Slot(Key(op.run, Scratch(op.agent), op.name), op.value, op.now, op.ttl)
  }

  function Pool(op: Op): Slot
    requires op.Store?
  {
    Own(op).(key := Key(op.run, SHARED, op.name))
  }

  function Perform(p: Past, op: Op): Past {
    match op
    case Store(_, _, _, _, _, shared, now) =>
      var swept := PutBoth(p.(data := Swept(p.data, now)), Own(op));
      if shared then PutBoth(swept, Pool(op)) else swept
    case Fetch(run, agent, shared, now) => p.(data := Pruned(p.data, run, agent, shared, now))
  }

  function History(ops: seq<Op>): Past {
    if ops == [] then NOTHING else Perform(History(ops[..|ops| - 1]), ops[|ops| - 1])
  }

  /** The clock does not run backwards. */
  ghost predicate Timed(ops: seq<Op>, now: real) {
    && (forall i, j | 0 <= i < j < |ops| :: ops[i].now <= ops[j].now)
    && (forall i | 0 <= i < |ops| :: ops[i].now <= now)
  }

  /** One more call. */
  ghost function Recorded(ops: seq<Op>, op: Op): (r: seq<Op>)
    ensures History(r) == Perform(History(ops), op)
    ensures forall clock | Timed(ops, clock) && clock <= op.now :: Timed(r, op.now)
  {
    assert (ops + [op])[..|ops|] == ops;
    ops + [op]
  }

  lemma TimedLater(ops: seq<Op>, clock: real, now: real)
    requires Timed(ops, clock) && clock <= now
    ensures Timed(ops, now)
  {
  }

  // ---------- the order of the dict ----------

  /** Slots stand in the order in which they were put where they are. */
  ghost predicate InOrder(data: seq<Slot>, stamp: map<Key, nat>, count: nat) {
    && (forall s | s in data :: s.key in stamp && stamp[s.key] < count)
    && (forall i, j | 0 <= i < j < |data| :: data[i].key in stamp && data[j].key in stamp && stamp[data[i].key] < stamp[data[j].key])
  }

  /** Both dicts are in order, and they agree on every entry that has not expired. */
  ghost predicate Sound(p: Past, clock: real) {
    && InOrder(p.data, p.entered, p.count) && InOrder(p.kept, p.first, p.count)
    && (forall s | s in p.data :: s in p.kept && p.first[s.key] <= p.entered[s.key])
    && (forall s | s in p.kept :: s.at <= clock && (!Expired(s, clock) ==> s in p.data))
  }

  lemma {:induction false} AssignedAt(data: seq<Slot>, s: Slot) returns (i: nat)
    ensures !Holds(data, s.key) ==> Assigned(data, s) == data + [s]
    ensures Holds(data, s.key) ==> i < |data| && data[i].key == s.key && Assigned(data, s) == data[i := s]
  {
    i := 0;
    if data != [] && data[0].key != s.key {
      var j := AssignedAt(data[1..], s);
      assert Holds(data, s.key) <==> Holds(data[1..], s.key) by {
        assert forall x :: x in data <==> x == data[0] || x in data[1..];
      }
      i := j + 1;
    } else if data != [] {
      assert data[0] in data;
    }
  }

  lemma InOrderPut(data: seq<Slot>, stamp: map<Key, nat>, count: nat, s: Slot)
    requires InOrder(data, stamp, count)
    ensures InOrder(Assigned(data, s), if Holds(data, s.key) then stamp else stamp[s.key := count], count + 1)
    ensures forall x :: x in Assigned(data, s) <==> x == s || (x in data && x.key != s.key)
  {
    var i := AssignedAt(data, s);
    if Holds(data, s.key) {
      forall x ensures x in data[i := s] <==> x == s || (x in data && x.key != s.key) {
        if x in data && x.key != s.key {
          var j :| 0 <= j < |data| && data[j] == x;
          assert data[i := s][j] == x;
        }
        if x in data[i := s] && x != s {
          var j :| 0 <= j < |data| && data[i := s][j] == x;
          assert j != i && data[j] == x && (j < i || i < j);
        }
        if x == s { assert data[i := s][i] == s; }
      }
    } else {
      forall x | x in data ensures x.key != s.key { assert Holds(data, x.key); }
    }
  }

  lemma {:induction false} InOrderSwept(data: seq<Slot>, stamp: map<Key, nat>, count: nat, now: real)
    requires InOrder(data, stamp, count)
    ensures InOrder(Swept(data, now), stamp, count)
    ensures forall x :: x in Swept(data, now) <==> x in data && !Expired(x, now)
  {
    if data != [] {
      var rest, head := data[1..], data[0];
      assert forall x :: x in data <==> x == head || x in rest;
      InOrderSwept(rest, stamp, count, now);
      var more := Swept(rest, now);
      forall x | x in more ensures stamp[head.key] < stamp[x.key] {
        var j :| 0 <= j < |rest| && rest[j] == x;
        assert data[j + 1] == x;
      }
      if !Expired(head, now) { InOrderCons(head, more, stamp, count); }
    }
  }

  lemma InOrderCons(head: Slot, more: seq<Slot>, stamp: map<Key, nat>, count: nat)
    requires InOrder(more, stamp, count) && head.key in stamp && stamp[head.key] < count
    requires forall x | x in more :: stamp[head.key] < stamp[x.key]
    ensures InOrder([head] + more, stamp, count)
  {
    var all := [head] + more;
    forall i, j | 0 <= i < j < |all| ensures stamp[all[i].key] < stamp[all[j].key] {
      if i == 0 { assert all[j] in more; } else { assert all[i] == more[i - 1] && all[j] == more[j - 1]; }
    }
  }

  lemma {:induction false} InOrderPruned(data: seq<Slot>, stamp: map<Key, nat>, count: nat, run: Id, agent: Id, shared: bool, now: real)
    requires InOrder(data, stamp, count)
    ensures InOrder(Pruned(data, run, agent, shared, now), stamp, count)
    ensures forall x | x in Pruned(data, run, agent, shared, now) :: x in data
    ensures forall x | x in data && !Expired(x, now) :: x in Pruned(data, run, agent, shared, now)
  {
    if data != [] {
      var front, last := data[..|data| - 1], data[|data| - 1];
      assert data == front + [last];
      assert forall x :: x in data <==> x in front || x == last;
      InOrderPruned(front, stamp, count, run, agent, shared, now);
      var before := Pruned(front, run, agent, shared, now);
      forall x | x in before ensures stamp[x.key] < stamp[last.key] {
        var j :| 0 <= j < |front| && front[j] == x;
        assert data[j] == x;
      }
      InOrderSnoc(before, last, stamp, count);
    }
  }

  lemma InOrderSnoc(before: seq<Slot>, last: Slot, stamp: map<Key, nat>, count: nat)
    requires InOrder(before, stamp, count) && last.key in stamp && stamp[last.key] < count
    requires forall x | x in before :: stamp[x.key] < stamp[last.key]
    ensures InOrder(before + [last], stamp, count)
  {
    var all := before + [last];
    forall i, j | 0 <= i < j < |all| ensures stamp[all[i].key] < stamp[all[j].key] {
      if j == |before| { assert all[i] in before; } else { assert all[i] == before[i] && all[j] == before[j]; }
    }
  }

  lemma SoundLater(p: Past, clock: real, now: real)
    requires Sound(p, clock) && clock <= now
    ensures Sound(p, now)
  {
    forall s | s in p.kept && !Expired(s, now) ensures s in p.data { assert !Expired(s, clock); }
  }

  lemma SoundSwept(p: Past, now: real)
    requires Sound(p, now)
    ensures Sound(p.(data := Swept(p.data, now)), now)
  {
    InOrderSwept(p.data, p.entered, p.count, now);
  }

  lemma SoundPruned(p: Past, run: Id, agent: Id, shared: bool, now: real)
    requires Sound(p, now)
    ensures Sound(p.(data := Pruned(p.data, run, agent, shared, now)), now)
  {
    InOrderPruned(p.data, p.entered, p.count, run, agent, shared, now);
  }

  lemma SoundPut(p: Past, s: Slot, now: real)
    requires Sound(p, now) && s.at <= now
    ensures Sound(PutBoth(p, s), now)
  {
    hide InOrder;
    StampsBounded(p);
    InOrderPut(p.data, p.entered, p.count, s);
    InOrderPut(p.kept, p.first, p.count, s);
    var q := PutBoth(p, s);
    forall x | x in q.data ensures x in q.kept && q.first[x.key] <= q.entered[x.key] {
      if x == s && Holds(p.data, s.key) {
        var y :| y in p.data && y.key == s.key;
        assert Holds(p.kept, s.key);
      } else if x == s {
        HeldStamped(p, s.key);
      } else {
        assert Holds(p.kept, x.key);
      }
    }
  }

  lemma StampsBounded(p: Past)
    requires InOrder(p.data, p.entered, p.count) && InOrder(p.kept, p.first, p.count)
    ensures forall s | s in p.data :: s.key in p.entered && p.entered[s.key] < p.count
    ensures forall s | s in p.kept :: s.key in p.first && p.first[s.key] < p.count
  {
  }

  lemma HeldStamped(p: Past, k: Key)
    requires InOrder(p.kept, p.first, p.count)
    ensures Holds(p.kept, k) ==> k in p.first && p.first[k] <= p.count
  {
  }

  lemma SoundPerformed(p: Past, op: Op)
    requires Sound(p, op.now)
    ensures Sound(Perform(p, op), op.now)
  {
    hide Sound, PutBoth, Swept, Pruned;
    match op
    case Store(_, _, _, _, _, _, now) =>
      SoundSwept(p, now);
      SoundPut(p.(data := Swept(p.data, now)), Own(op), now);
      SoundPut(PutBoth(p.(data := Swept(p.data, now)), Own(op)), Pool(op), now);
    case Fetch(run, agent, shared, now) => SoundPruned(p, run, agent, shared, now);
  }

  lemma {:induction false} SoundHistory(ops: seq<Op>, now: real)
    requires Timed(ops, now)
    ensures Sound(History(ops), now)
  {
    if ops != [] {
      var front, last := ops[..|ops| - 1], ops[|ops| - 1];
      SoundHistory(front, last.now);
      SoundPerformed(History(front), last);
      SoundLater(History(ops), last.now, now);
    }
  }

  // ---------- when eviction can be noticed ----------

  /** The two copies of a name that an agent can both see, unexpired and different. */
  ghost predicate Contested(p: Past, own: Slot, pool: Slot, run: Id, agent: Id, now: real) {
    && own in p.kept && pool in p.kept && own.key == Key(run, Scratch(agent), pool.key.name) && pool.key == Key(run, SHARED, pool.key.name)
    && !Expired(own, now) && !Expired(pool, now) && own.value != pool.value
  }

  /** One of them is first in one dict and second in the other. */
  ghost predicate Overtaken(p: Past, a: Key, b: Key)
    requires a in p.first && b in p.first && a in p.entered && b in p.entered
  {
    (p.first[a] < p.first[b]) != (p.entered[a] < p.entered[b])
  }

  ghost predicate Noticed(p: Past, run: Id, agent: Id, now: real)
    requires Sound(p, now)
  {
    exists own, pool :: Contested(p, own, pool, run, agent, now) && Overtaken(p, own.key, pool.key)
  }

  /** The slot with the latest stamp among those shown under a name. */
  ghost predicate Latest(data: seq<Slot>, stamp: map<Key, nat>, run: Id, agent: Id, shared: bool, now: real, s: Slot) {
    && s in data && Shown(s, run, agent, shared, now)
    && forall x | x in data && Shown(x, run, agent, shared, now) && x.key.name == s.key.name ::
         x.key in stamp && s.key in stamp && stamp[x.key] <= stamp[s.key]
  }

  lemma {:induction false} LatestRead(data: seq<Slot>, stamp: map<Key, nat>, count: nat, run: Id, agent: Id, shared: bool, now: real, n: Id)
    returns (s: Slot)
    requires InOrder(data, stamp, count) && n in LiveOf(data, run, agent, shared, now)
    ensures Latest(data, stamp, run, agent, shared, now, s) && s.key.name == n
    ensures LiveOf(data, run, agent, shared, now)[n] == s.value
  {
    var front, last := data[..|data| - 1], data[|data| - 1];
    LastIsLatest(data, stamp, count);
    InOrderFront(data, stamp, count);
    hide InOrder;
    if Shown(last, run, agent, shared, now) && last.key.name == n {
      s := last;
    } else {
      s := LatestRead(front, stamp, count, run, agent, shared, now, n);
    }
  }

  lemma LastIsLatest(data: seq<Slot>, stamp: map<Key, nat>, count: nat)
    requires InOrder(data, stamp, count) && data != []
    ensures data[|data| - 1] in data && forall x :: x in data <==> x in data[..|data| - 1] || x == data[|data| - 1]
    ensures forall x | x in data :: x.key in stamp && data[|data| - 1].key in stamp && stamp[x.key] <= stamp[data[|data| - 1].key]
  {
    var front, last := data[..|data| - 1], data[|data| - 1];
    assert data == front + [last];
    forall x | x in data ensures x.key in stamp && stamp[x.key] <= stamp[last.key] {
      var j :| 0 <= j < |data| && data[j] == x;
    }
  }

  lemma InOrderFront(data: seq<Slot>, stamp: map<Key, nat>, count: nat)
    requires InOrder(data, stamp, count) && data != []
    ensures InOrder(data[..|data| - 1], stamp, count)
  {
    var front := data[..|data| - 1];
    forall s | s in front ensures s.key in stamp && stamp[s.key] < count { assert s in data; }
    forall i, j | 0 <= i < j < |front| ensures stamp[front[i].key] < stamp[front[j].key] {
      assert front[i] == data[i] && front[j] == data[j];
    }
  }

  lemma SameNames(p: Past, run: Id, agent: Id, shared: bool, now: real, n: Id)
    requires Sound(p, now)
    ensures n in LiveOf(p.data, run, agent, shared, now) <==> n in LiveOf(p.kept, run, agent, shared, now)
  {
    LiveIs(p.data, run, agent, shared, now);
    LiveIs(p.kept, run, agent, shared, now);
    if n in LiveOf(p.data, run, agent, shared, now) {
      var s :| s in p.data && Shown(s, run, agent, shared, now) && s.key.name == n;
      assert s in p.kept;
    }
    if n in LiveOf(p.kept, run, agent, shared, now) {
      var s :| s in p.kept && Shown(s, run, agent, shared, now) && s.key.name == n;
      assert s in p.data;
    }
  }

  /** Under one name an agent sees at most its own copy and the shared one. */
  lemma TwoCopies(x: Slot, y: Slot, run: Id, agent: Id, shared: bool, now: real)
    requires Shown(x, run, agent, shared, now) && Shown(y, run, agent, shared, now) && x.key.name == y.key.name && x.key != y.key
    ensures shared && x.key.run == run && y.key.run == run
    ensures (x.key.bucket == Scratch(agent) && y.key.bucket == SHARED) || (y.key.bucket == Scratch(agent) && x.key.bucket == SHARED)
  {
  }

  lemma KeysApart(p: Past, x: Slot, y: Slot, clock: real)
    requires Sound(p, clock) && x in p.kept && y in p.kept && x.key == y.key
    ensures x == y
  {
    var i :| 0 <= i < |p.kept| && p.kept[i] == x;
    var j :| 0 <= j < |p.kept| && p.kept[j] == y;
    assert i == j || i < j || j < i;
  }

  /** If the two dicts are read differently under a name, its copies are contested and one overtook the other. */
  lemma DifferenceIsNoticed(p: Past, run: Id, agent: Id, shared: bool, now: real, n: Id)
    requires Sound(p, now) && n in LiveOf(p.data, run, agent, shared, now) && n in LiveOf(p.kept, run, agent, shared, now)
    requires LiveOf(p.data, run, agent, shared, now)[n] != LiveOf(p.kept, run, agent, shared, now)[n]
    ensures shared && Noticed(p, run, agent, now)
  {
    hide LiveOf;
    var s := LatestRead(p.data, p.entered, p.count, run, agent, shared, now, n);
    var k := LatestRead(p.kept, p.first, p.count, run, agent, shared, now, n);
    assert s in p.kept && k in p.data;
    hide InOrder;
    if s.key == k.key { KeysApart(p, s, k, now); }
    TwoCopies(s, k, run, agent, shared, now);
    var own, pool := if s.key.bucket == SHARED then k else s, if s.key.bucket == SHARED then s else k;
    assert Contested(p, own, pool, run, agent, now);
    StampsDiffer(p, s, k, now);
    assert Overtaken(p, own.key, pool.key);
  }

  lemma StampsDiffer(p: Past, x: Slot, y: Slot, clock: real)
    requires Sound(p, clock) && x in p.data && y in p.data && x.key != y.key
    ensures p.entered[x.key] != p.entered[y.key] && p.first[x.key] != p.first[y.key]
  {
    var i :| 0 <= i < |p.data| && p.data[i] == x;
    var j :| 0 <= j < |p.data| && p.data[j] == y;
    var i' :| 0 <= i' < |p.kept| && p.kept[i'] == x;
    var j' :| 0 <= j' < |p.kept| && p.kept[j'] == y;
    assert i < j || j < i;
    assert i' < j' || j' < i';
  }

  /** If a contested copy overtook the other, the two dicts are read differently. */
  lemma NoticedIsDifference(p: Past, own: Slot, pool: Slot, run: Id, agent: Id, now: real)
    requires Sound(p, now) && Contested(p, own, pool, run, agent, now) && Overtaken(p, own.key, pool.key)
    ensures LiveOf(p.data, run, agent, true, now) != LiveOf(p.kept, run, agent, true, now)
  {
    var n := pool.key.name;
    assert own in p.data && pool in p.data;
    LiveIs(p.data, run, agent, true, now);
    LiveIs(p.kept, run, agent, true, now);
    assert Shown(pool, run, agent, true, now) && Shown(own, run, agent, true, now);
    var s := LatestRead(p.data, p.entered, p.count, run, agent, true, now, n);
    var k := LatestRead(p.kept, p.first, p.count, run, agent, true, now, n);
    hide LiveOf, InOrder;
    ScratchIsPrivate(agent, agent);
    StampsDiffer(p, own, pool, now);
    OneOfTwo(p, s, own, pool, run, agent, now);
    OneOfTwo(p, k, own, pool, run, agent, now);
  }

  lemma OneOfTwo(p: Past, s: Slot, own: Slot, pool: Slot, run: Id, agent: Id, now: real)
    requires Sound(p, now) && Contested(p, own, pool, run, agent, now)
    requires s in p.kept && Shown(s, run, agent, true, now) && s.key.name == pool.key.name
    ensures s == own || s == pool
  {
    if s.key == own.key { KeysApart(p, s, own, now); } else { KeysApart(p, s, pool, now); }
  }

  /**
   * After any calls at all, a reading equals that of the dict that never
   * deletes exactly when the reader does not see a name whose two copies
   * differ and stand in the other order there. `OnlyReentry` says what that
   * takes.
   */
  lemma EvictionUnnoticed(ops: seq<Op>, run: Id, agent: Id, shared: bool, now: real)
    requires Timed(ops, now)
    ensures Sound(History(ops), now)
    ensures LiveOf(History(ops).data, run, agent, shared, now) == LiveOf(History(ops).kept, run, agent, shared, now)
      <==> !(shared && Noticed(History(ops), run, agent, now))
  {
    SoundHistory(ops, now);
    var p := History(ops);
    hide LiveOf, Sound, History;
    if LiveOf(p.data, run, agent, shared, now) != LiveOf(p.kept, run, agent, shared, now) {
      var live, ever := LiveOf(p.data, run, agent, shared, now), LiveOf(p.kept, run, agent, shared, now);
      forall n ensures n in live <==> n in ever { SameNames(p, run, agent, shared, now, n); }
      var n :| n in live && live[n] != ever[n];
      DifferenceIsNoticed(p, run, agent, shared, now, n);
    }
    if shared && Noticed(p, run, agent, now) {
      var own, pool :| Contested(p, own, pool, run, agent, now) && Overtaken(p, own.key, pool.key);
      NoticedIsDifference(p, own, pool, run, agent, now);
    }
  }

  /** A key enters the dict again only when its earlier slot has expired. */
  lemma ReentryAfterExpiry(p: Past, k: Key, now: real)
    requires Sound(p, now) && Holds(p.kept, k) && !Holds(p.data, k)
    ensures forall s | s in p.kept && s.key == k :: Expired(s, now)
  {
    forall s | s in p.kept && s.key == k ensures Expired(s, now) {
      assert Expired(s, now) || s in p.data;
    }
  }

  /** One copy overtakes the other only by being put in again, after the other: its earlier slot had expired and was gone. */
  lemma OnlyReentry(p: Past, a: Slot, b: Slot, now: real)
    requires Sound(p, now) && a in p.data && b in p.data && a.key != b.key && Overtaken(p, a.key, b.key)
    ensures (p.first[a.key] < p.first[b.key] <= p.entered[b.key] < p.entered[a.key])
         || (p.first[b.key] < p.first[a.key] <= p.entered[a.key] < p.entered[b.key])
  {
    StampsDiffer(p, a, b, now);
  }

  /** Agent a stores a name, b shares the same name, a's copy expires, and a stores it again. */
  ghost predicate Reentry(op1: Op, op2: Op, op3: Op) {
    && op1.Store? && op2.Store? && op3.Store?
    && op1.agent == op3.agent && op1.agent != op2.agent && op1.run == op2.run == op3.run && op1.name == op2.name == op3.name
    && !op1.shared && op2.shared && !op3.shared
    && op1.now <= op2.now <= op1.now + op1.ttl < op3.now <= op2.now + op2.ttl && op3.ttl >= 0.0
  }

  /**
   * It happens, in every such history: a then reads its own copy, while a
   * dict that never deletes would have kept it in front of the shared one.
   */
  lemma EvictionMovesKeys(op1: Op, op2: Op, op3: Op)
    requires Reentry(op1, op2, op3) && op2.value != op3.value
    ensures var p := History([op1, op2, op3]);
      Timed([op1, op2, op3], op3.now) && Sound(p, op3.now) && Noticed(p, op3.run, op3.agent, op3.now)
      && LiveOf(p.data, op3.run, op3.agent, true, op3.now) != LiveOf(p.kept, op3.run, op3.agent, true, op3.now)
  {
    SoundHistory([op1, op2, op3], op3.now);
    ThreeOps(op1, op2, op3);
    hide History, LiveOf, Perform, Noticed;
    var p := ThirdStore(op1, op2, op3);
    OwnOvertakes(p, op1, op2, op3);
  }

  lemma OwnOvertakes(p: Past, op1: Op, op2: Op, op3: Op)
    requires op1.Store? && op2.Store? && op3.Store? && op1.agent == op3.agent && op1.run == op2.run == op3.run
    requires op1.name == op2.name == op3.name && op2.value != op3.value && op3.agent != op2.agent
    requires op3.ttl >= 0.0 && op3.now <= op2.now + op2.ttl && Sound(p, op3.now)
    requires p.data == [Own(op2), Pool(op2), Own(op3)] && p.kept == [Own(op3), Own(op2), Pool(op2)]
    requires p.first == map[Own(op1).key := 0, Own(op2).key := 1, Pool(op2).key := 2]
    requires p.entered == map[Own(op1).key := 3, Own(op2).key := 1, Pool(op2).key := 2]
    ensures Noticed(p, op3.run, op3.agent, op3.now)
    ensures LiveOf(p.data, op3.run, op3.agent, true, op3.now) != LiveOf(p.kept, op3.run, op3.agent, true, op3.now)
  {
    hide Sound, LiveOf;
    var own, pool := Own(op3), Pool(op2);
    assert own in p.kept && pool in p.kept;
    ScratchIsPrivate(op3.agent, op2.agent);
    ScratchIsPrivate(op2.agent, op3.agent);
    assert Contested(p, own, pool, op3.run, op3.agent, op3.now) && Overtaken(p, own.key, pool.key);
    NoticedIsDifference(p, own, pool, op3.run, op3.agent, op3.now);
  }

  lemma ThreeOps(op1: Op, op2: Op, op3: Op)
    ensures History([op1, op2, op3]) == Perform(Perform(Perform(NOTHING, op1), op2), op3)
  {
    hide Perform;
    assert [op1, op2, op3][..2] == [op1, op2] && [op1, op2][..1] == [op1] && [op1][..0] == [];
    assert History([op1]) == Perform(History([]), op1) && History([op1, op2]) == Perform(History([op1]), op2);
  }

  lemma FirstStore(op: Op) returns (p: Past)
    requires op.Store? && !op.shared
    ensures p == Perform(NOTHING, op) && p == Past([Own(op)], [Own(op)], map[Own(op).key := 0], map[Own(op).key := 0], 1)
  {
    p := Perform(NOTHING, op);
    assert Swept([], op.now) == [];
  }

  lemma SecondStore(op1: Op, op2: Op) returns (p: Past)
    requires op1.Store? && op2.Store? && !op1.shared && op2.shared && op1.agent != op2.agent
    requires op1.now <= op2.now <= op1.now + op1.ttl
    ensures p == Perform(Perform(NOTHING, op1), op2)
    ensures p.data == p.kept == [Own(op1), Own(op2), Pool(op2)] && p.count == 3
    ensures p.first == p.entered == map[Own(op1).key := 0, Own(op2).key := 1, Pool(op2).key := 2]
  {
    p := FirstStore(op1);
    BucketsApart(op1.agent, op2.agent);
    var a, b, c := Own(op1), Own(op2), Pool(op2);
    assert Swept([], op2.now) == [] && [a][1..] == [] && Swept([a], op2.now) == [a];
    assert !Holds([a], b.key) && !Holds([a, b], c.key);
    var i := AssignedAt([a], b);
    var j := AssignedAt([a, b], c);
    assert [a] + [b] == [a, b] && [a, b] + [c] == [a, b, c];
    hide Assigned, Swept, Holds;
    p := Perform(p, op2);
  }

  lemma ThirdStore(op1: Op, op2: Op, op3: Op) returns (p: Past)
    requires Reentry(op1, op2, op3)
    ensures p == Perform(Perform(Perform(NOTHING, op1), op2), op3)
    ensures p.data == [Own(op2), Pool(op2), Own(op3)] && p.kept == [Own(op3), Own(op2), Pool(op2)]
    ensures p.first == map[Own(op1).key := 0, Own(op2).key := 1, Pool(op2).key := 2]
    ensures p.entered == map[Own(op1).key := 3, Own(op2).key := 1, Pool(op2).key := 2]
  {
    p := SecondStore(op1, op2);
    BucketsApart(op1.agent, op2.agent);
    var a, b, c, d := Own(op1), Own(op2), Pool(op2), Own(op3);
    FirstSwept(a, b, c, op3.now);
    FirstReplaced(a, b, c, d);
    hide Assigned, Swept, Holds;
    p := Perform(p, op3);
  }

  lemma FirstSwept(a: Slot, b: Slot, c: Slot, now: real)
    requires Expired(a, now) && !Expired(b, now) && !Expired(c, now)
    ensures Swept([a, b, c], now) == [b, c]
  {
    assert [a, b, c][1..] == [b, c] && [b, c][1..] == [c] && [c][1..] == [] && Swept([], now) == [];
    assert Swept([c], now) == [c] && Swept([b, c], now) == [b, c];
  }

  lemma FirstReplaced(a: Slot, b: Slot, c: Slot, d: Slot)
    requires a.key == d.key && b.key != d.key && c.key != d.key
    ensures Holds([a, b, c], d.key) && !Holds([b, c], d.key)
    ensures Assigned([a, b, c], d) == [d, b, c] && Assigned([b, c], d) == [b, c, d]
  {
    assert a in [a, b, c];
    var i := AssignedAt([b, c], d);
    var j := AssignedAt([a, b, c], d);
    assert [b, c] + [d] == [b, c, d] && j == 0 && [a, b, c][0 := d] == [d, b, c];
  }

  lemma BucketsApart(a: Id, b: Id)
    requires a != b
    ensures Scratch(a) != Scratch(b) && Scratch(a) != SHARED && Scratch(b) != SHARED
  {
    ScratchIsPrivate(a, b);
    ScratchIsPrivate(b, a);
  }
}
