// Shared vocabulary: options, identifiers and the code-point order Python's
// `sorted` uses on them.
module Base {

  type Id = string

  datatype Option<+T> = None | Some(value: T)

  /** Two elements of a sequence are never equal. */
  ghost predicate NoDup<T>(s: seq<T>) {
    forall i, j | 0 <= i < j < |s| :: s[i] != s[j]
  }

  lemma NoDupSnoc<T>(s: seq<T>, x: T)
    requires NoDup(s) && x !in s
    ensures NoDup(s + [x])
  {
  }

  lemma NoDupCons<T>(x: T, s: seq<T>)
    requires NoDup(s) && x !in s
    ensures NoDup([x] + s)
  {
  }

  ghost function Elems<T>(s: seq<T>): set<T> {
    set x | x in s
  }

  function FlatMap<A, B>(f: A -> seq<B>, s: seq<A>): seq<B> {
    if s == [] then [] else f(s[0]) + FlatMap(f, s[1..])
  }

  lemma {:induction false} FlatMapConcat<A, B>(f: A -> seq<B>, s: seq<A>, t: seq<A>)
    ensures FlatMap(f, s + t) == FlatMap(f, s) + FlatMap(f, t)
  {
    if s == [] {
      assert s + t == t;
    } else {
      FlatMapConcat(f, s[1..], t);
      assert (s + t)[0] == s[0] && (s + t)[1..] == s[1..] + t;
      assert f(s[0]) + (FlatMap(f, s[1..]) + FlatMap(f, t)) == (f(s[0]) + FlatMap(f, s[1..])) + FlatMap(f, t);
    }
  }

  lemma FlatMapOne<A, B>(f: A -> seq<B>, x: A)
    ensures FlatMap(f, [x]) == f(x)
  {
    assert [x][1..] == [];
    assert f(x) + FlatMap(f, []) == f(x);
  }

  lemma {:induction false} FlatMapCompose<A, B, C>(h: B -> seq<C>, f: A -> seq<B>, hf: A -> seq<C>, s: seq<A>)
    requires forall x | x in s :: FlatMap(h, f(x)) == hf(x)
    ensures FlatMap(h, FlatMap(f, s)) == FlatMap(hf, s)
  {
    if s != [] {
      assert s[0] in s;
      FlatMapConcat(h, f(s[0]), FlatMap(f, s[1..]));
      FlatMapCompose(h, f, hf, s[1..]);
    }
  }

  lemma {:induction false} FlatMapIn<A, B>(f: A -> seq<B>, s: seq<A>, y: B)
    ensures y in FlatMap(f, s) <==> exists x :: x in s && y in f(x)
  {
    if s != [] {
      FlatMapIn(f, s[1..], y);
      assert forall x :: x in s <==> x == s[0] || x in s[1..];
    }
  }

  /** Lexicographic order by code point. */
  predicate AtMost(a: Id, b: Id) {
    a == [] || (b != [] && (a[0] < b[0] || (a[0] == b[0] && AtMost(a[1..], b[1..]))))
  }

  lemma {:induction false} AtMostTotal(a: Id, b: Id)
    ensures AtMost(a, b) || AtMost(b, a)
    ensures AtMost(a, b) && AtMost(b, a) ==> a == b
  {
    if a != [] && b != [] {
      AtMostTotal(a[1..], b[1..]);
      assert a == [a[0]] + a[1..] && b == [b[0]] + b[1..];
    }
  }

  lemma {:induction false} AtMostTransitive(a: Id, b: Id, c: Id)
    requires AtMost(a, b) && AtMost(b, c)
    ensures AtMost(a, c)
  {
    if a != [] && a[0] == b[0] && b[0] == c[0] {
      AtMostTransitive(a[1..], b[1..], c[1..]);
    }
  }

  ghost predicate IsLeast(m: Id, s: set<Id>) {
    m in s && forall x | x in s :: AtMost(m, x)
  }

  lemma {:induction false} LeastExists(s: set<Id>)
    requires s != {}
    ensures exists m :: IsLeast(m, s)
  {
    var x :| x in s;
    if s == {x} {
      AtMostTotal(x, x);
      assert IsLeast(x, s);
    } else {
      LeastExists(s - {x});
      var m :| IsLeast(m, s - {x});
      AtMostTotal(x, x);
      AtMostTotal(x, m);
      if AtMost(x, m) {
        forall y | y in s ensures AtMost(x, y) {
          if y != x { AtMostTransitive(x, m, y); }
        }
        assert IsLeast(x, s);
      } else {
        assert IsLeast(m, s);
      }
    }
  }

  /** `r` lists `s` once each in ascending order. */
  ghost predicate Lists(r: seq<Id>, s: set<Id>) {
    && (forall x :: x in r <==> x in s)
    && forall i, j | 0 <= i < j < |r| :: r[i] != r[j] && AtMost(r[i], r[j])
  }

  lemma {:induction false} ListsExists(s: set<Id>)
    ensures exists r :: Lists(r, s)
    decreases s
  {
    if s == {} {
      assert Lists([], s);
    } else {
      LeastExists(s);
      var m :| IsLeast(m, s);
      ListsExists(s - {m});
      var r :| Lists(r, s - {m});
      assert Lists([m] + r, s);
    }
  }

  lemma HeadIn(r: seq<Id>)
    ensures r != [] ==> r[0] in r
  {
  }

  lemma {:induction false} ListsUnique(p: seq<Id>, r: seq<Id>, s: set<Id>)
    requires Lists(p, s) && Lists(r, s)
    ensures p == r
    decreases |p|
  {
    if p == [] {
      HeadIn(r);
    } else {
      assert p[0] in r && r != [] && r[0] in p;
      AtMostTotal(p[0], r[0]);
      assert forall x | x in s && x != p[0] :: x in p[1..] && x in r[1..];
      ListsUnique(p[1..], r[1..], s - {p[0]});
      assert p == [p[0]] + p[1..] && r == [r[0]] + r[1..];
    }
  }

  /** What `sorted` makes of a set of ids. */
  ghost function Sorted(s: set<Id>): (r: seq<Id>)
    ensures Lists(r, s)
  {
    ListsExists(s);
    var r :| Lists(r, s);
    r
  }

  method Least(s: set<Id>) returns (m: Id)
    requires s != {}
    ensures IsLeast(m, s)
  {
    m :| m in s;
    var todo := s - {m};
    AtMostTotal(m, m);
    while todo != {}
      invariant m in s && todo <= s
      invariant forall x | x in s && x !in todo :: AtMost(m, x)
      decreases todo
    {
      var x :| x in todo;
      AtMostTotal(m, x);
      if !AtMost(m, x) {
        forall y | y in s && y !in todo ensures AtMost(x, y) { AtMostTransitive(x, m, y); }
        m := x;
      }
      AtMostTotal(x, x);
      todo := todo - {x};
    }
  }

  /** Selection by repeated minimum; the source calls the built-in. */
  method SortIds(s: set<Id>) returns (r: seq<Id>)
    ensures r == Sorted(s)
  {
    r := [];
    var left := s;
    while left != {}
      invariant left <= s && Lists(r, s - left)
      invariant forall x, y | x in r && y in left :: AtMost(x, y)
      decreases left
    {
      var m := Least(left);
      r := r + [m];
      left := left - {m};
    }
    assert s - left == s;
    ListsUnique(r, Sorted(s), s);
  }
}
