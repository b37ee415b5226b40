// The chunked event-stream reader of frontend/src/api.ts (streamChat). What it
// ends up with (frames and kept text) is what normalising and splitting the
// whole text once gives, for every way the network may cut the text, exactly
// when the text holds no CR CR LF. SseCuts says when cuts show in the frames.
module Sse {

  /** `.replace(/\r\n/g, '\n')` */
  function Normalised(s: string): string {
    if |s| < 2 then s
    else if s[0] == '\r' && s[1] == '\n' then "\n" + Normalised(s[2..])
    else [s[0]] + Normalised(s[1..])
  }

  /** `.split('\n\n')` */
  function Split(s: string): (r: seq<string>)
    ensures r != []
  {
    if |s| < 2 then [s]
    else if s[0] == '\n' && s[1] == '\n' then [""] + Split(s[2..])
    else Prefixed(s[0], Split(s[1..]))
  }

  /** One more character on the first piece. */
  function Prefixed(c: char, ps: seq<string>): (r: seq<string>)
    requires ps != []
    ensures |r| == |ps|
  {
    [[c] + ps[0]] + ps[1..]
  }

  function Last(ps: seq<string>): string requires ps != [] { ps[|ps| - 1] }
  function Front(ps: seq<string>): seq<string> requires ps != [] { ps[..|ps| - 1] }

  /** The frames dispatched so far, and the partial frame kept. */
  datatype Reading = Reading(frames: seq<string>, buf: string)

  /** The reference: normalise the whole text once and split it once. */
  function Whole(text: string): Reading {
    var ps := Split(Normalised(text));
    Reading(Front(ps), Last(ps))
  }

  function Concat(chunks: seq<string>): string {
    if chunks == [] then "" else chunks[0] + Concat(chunks[1..])
  }

  predicate CrLfAt(s: string, i: int) { 0 <= i < |s| - 1 && s[i] == '\r' && s[i + 1] == '\n' }
  predicate CrCrLfAt(s: string, i: int) { 0 <= i < |s| - 2 && s[i] == '\r' && s[i + 1] == '\r' && s[i + 2] == '\n' }

  ghost predicate Flat(s: string) { forall i :: !CrLfAt(s, i) }
  ghost predicate Plain(s: string) { forall i :: !CrCrLfAt(s, i) }

  // ---------- normalising ----------

  lemma PlainParts(a: string, b: string)
    requires Plain(a + b)
    ensures Plain(a) && Plain(b)
  {
    forall i ensures !CrCrLfAt(a, i) { assert !CrCrLfAt(a + b, i); }
    forall i ensures !CrCrLfAt(b, i) { assert !CrCrLfAt(a + b, |a| + i); }
  }

  lemma FlatParts(a: string, b: string)
    requires Flat(a + b)
    ensures Flat(a) && Flat(b)
  {
    forall i ensures !CrLfAt(a, i) { assert !CrLfAt(a + b, i); }
    forall i ensures !CrLfAt(b, i) { assert !CrLfAt(a + b, |a| + i); }
  }

  /** The first character survives, unless it is half of a CR LF. */
  lemma NormalisedHead(s: string)
    ensures s != [] ==> Normalised(s) != [] && Normalised(s)[0] == if CrLfAt(s, 0) then '\n' else s[0]
  {
  }

  lemma {:induction false} NormalisedFlat(s: string)
    requires Plain(s)
    ensures Flat(Normalised(s))
  {
    if |s| >= 2 {
      var k := if CrLfAt(s, 0) then 2 else 1;
      assert s == s[..k] + s[k..];
      PlainParts(s[..k], s[k..]);
      NormalisedFlat(s[k..]);
      NormalisedHead(s[k..]);
      var n, rest := Normalised(s), Normalised(s[k..]);
      assert !CrCrLfAt(s, 0);
      forall i ensures !CrLfAt(n, i) {
        if i > 0 { assert !CrLfAt(rest, i - 1); }
      }
    }
  }

  /** A prefix with nothing to normalise, not ending in CR, is passed over. */
  lemma {:induction false} NormalisedPasses(pre: string, s: string)
    requires Flat(pre) && (pre == "" || pre[|pre| - 1] != '\r')
    ensures Normalised(pre + s) == pre + Normalised(s)
  {
    hide Normalised;
    if pre == "" {
      assert pre + s == s;
    } else {
      assert !CrLfAt(pre, 0);
      assert pre == pre[..1] + pre[1..];
      FlatParts(pre[..1], pre[1..]);
      NormalisedPasses(pre[1..], s);
      assert (pre + s)[1..] == pre[1..] + s;
      assert !CrLfAt(pre + s, 0);
      OneOn(pre + s);
      assert [pre[0]] + (pre[1..] + Normalised(s)) == pre + Normalised(s);
    }
  }

  lemma OneOn(s: string)
    requires s != "" && !CrLfAt(s, 0)
    ensures Normalised(s) == [s[0]] + Normalised(s[1..])
  {
    if |s| == 1 { assert s == [s[0]] + s[1..]; }
  }

  lemma {:induction false} FlatIsNormalised(s: string)
    requires Flat(s)
    ensures Normalised(s) == s
  {
    if |s| >= 2 {
      assert !CrLfAt(s, 0);
      assert s == s[..1] + s[1..];
      FlatParts(s[..1], s[1..]);
      FlatIsNormalised(s[1..]);
    }
  }

  /** How many characters the first step of normalising takes, and what it makes of them. */
  function Step(s: string): nat { if CrLfAt(s, 0) then 2 else 1 }
  function Made(s: string): string requires s != "" { if CrLfAt(s, 0) then "\n" else [s[0]] }

  lemma StepOf(x: string, y: string)
    requires |x| >= 2
    ensures Normalised(x) == Made(x) + Normalised(x[Step(x)..])
    ensures Normalised(x + y) == Made(x) + Normalised(x[Step(x)..] + y)
  {
    assert (x + y)[Step(x)..] == x[Step(x)..] + y;
  }

  lemma OneStep(c: char, s: string)
    requires !CrLfAt([c] + s, 0)
    ensures Normalised([c] + s) == [c] + Normalised(s)
  {
    assert ([c] + s)[1..] == s;
    if s == "" { assert [c] + s == [c]; }
  }

  lemma Associates(a: string, b: string, c: string)
    ensures a + (b + c) == (a + b) + c
  {
  }

  /** Normalising early does no harm to a text without CR CR LF. */
  lemma {:induction false} NormalisedTwice(x: string, y: string)
    requires Plain(x + y)
    ensures Normalised(x + y) == Normalised(Normalised(x) + y)
  {
    if |x| < 2 {
      assert Normalised(x) == x;
    } else {
      hide Normalised;
      var k := Step(x);
      assert x + y == x[..k] + (x[k..] + y);
      PlainParts(x[..k], x[k..] + y);
      NormalisedTwice(x[k..], y);
      NormalisedHead(x[k..]);
      StepOf(x, y);
      var n := Normalised(x[k..]);
      assert !CrCrLfAt(x + y, 0);
      Associates(Made(x), n, y);
      OneStep(Made(x)[0], n + y);
    }
  }

  // ---------- splitting ----------

  lemma SplitStep(c: char, s: string)
    requires s != "" && !(c == '\n' && s[0] == '\n')
    ensures Split([c] + s) == Prefixed(c, Split(s))
  {
    assert ([c] + s)[1..] == s;
  }

  lemma SplitHere(x: string, y: string)
    requires |x| >= 2 && x[0] == '\n' && x[1] == '\n'
    ensures Split(x) == [""] + Split(x[2..]) && Split(x + y) == [""] + Split(x[2..] + y)
  {
    assert (x + y)[2..] == x[2..] + y;
  }

  lemma SplitThere(x: string, y: string)
    requires |x| >= 2 && !(x[0] == '\n' && x[1] == '\n')
    ensures Split(x) == Prefixed(x[0], Split(x[1..])) && Split(x + y) == Prefixed(x[0], Split(x[1..] + y))
  {
    assert (x + y)[1..] == x[1..] + y;
  }

  /** Splitting what has arrived, and then the rest, is splitting the whole. */
  lemma {:induction false} SplitFeed(x: string, y: string)
    ensures Split(x + y) == Front(Split(x)) + Split(Last(Split(x)) + y)
  {
    hide Split, Prefixed, Front, Last;
    if |x| < 2 {
      ShortFeed(x, y);
    } else if x[0] == '\n' && x[1] == '\n' {
      SplitFeed(x[2..], y);
      SplitHere(x, y);
      HereFeed(Split(x[2..]), y);
    } else {
      SplitFeed(x[1..], y);
      SplitThere(x, y);
      PrefixedFeed(x, y, Split(x[1..]));
    }
  }

  lemma ShortFeed(x: string, y: string)
    requires |x| < 2
    ensures Split(x + y) == Front(Split(x)) + Split(Last(Split(x)) + y)
  {
    assert Front([x]) == [] && Last([x]) == x;
  }

  lemma HereFeed(p: seq<string>, y: string)
    requires p != []
    ensures [""] + (Front(p) + Split(Last(p) + y)) == Front([""] + p) + Split(Last([""] + p) + y)
  {
    assert Front([""] + p) == [""] + Front(p) && Last([""] + p) == Last(p);
    assert [""] + (Front(p) + Split(Last(p) + y)) == ([""] + Front(p)) + Split(Last(p) + y);
  }

  lemma PrefixedFeed(x: string, y: string, p: seq<string>)
    requires |x| >= 2 && !(x[0] == '\n' && x[1] == '\n') && p == Split(x[1..])
    requires Split(x[1..] + y) == Front(p) + Split(Last(p) + y)
    ensures Prefixed(x[0], Split(x[1..] + y)) == Front(Prefixed(x[0], p)) + Split(Last(Prefixed(x[0], p)) + y)
  {
    if |p| == 1 {
      OnePiece(x[1..]);
      assert Prefixed(x[0], p) == [x] by { assert [x[0]] + x[1..] == x; }
      assert Last([x]) == x && Front([x]) == [];
      assert (x + y)[1..] == x[1..] + y && (x + y)[0] == x[0] && (x + y)[1] == x[1];
      assert Split(x + y) == Prefixed(x[0], Split(x[1..] + y));
      assert [] + Split(x + y) == Split(x + y);
    } else {
      var q := Split(Last(p) + y);
      assert Last(Prefixed(x[0], p)) == Last(p);
      assert Front(Prefixed(x[0], p)) == Prefixed(x[0], Front(p));
      assert Prefixed(x[0], Front(p) + q) == Prefixed(x[0], Front(p)) + q;
    }
  }

  lemma {:induction false} OnePiece(s: string)
    requires |Split(s)| == 1
    ensures Split(s) == [s]
  {
    if |s| >= 2 {
      OnePiece(s[1..]);
      assert [s[0]] + s[1..] == s;
    }
  }

  /** The text up to the last separator. */
  lemma {:induction false} UpToLast(s: string) returns (pre: string)
    ensures s == pre + Last(Split(s)) && Split(pre) == Front(Split(s)) + [""]
    ensures pre == "" || pre[|pre| - 1] == '\n'
  {
    hide Split, Prefixed;
    if |s| < 2 || |Split(s)| == 1 {
      OnePieceOf(s);
      pre := "";
      assert Front([s]) + [""] == [""];
      OnePieceOf("");
    } else if s[0] == '\n' && s[1] == '\n' {
      var rest := UpToLast(s[2..]);
      pre := "\n\n" + rest;
      SplitHere(s, "");
      SplitHere(pre, "");
      assert pre[2..] == rest;
      assert s == "\n\n" + s[2..];
      assert Front([""] + Split(s[2..])) + [""] == [""] + (Front(Split(s[2..])) + [""]);
    } else {
      SplitThere(s, "");
      var rest := UpToLast(s[1..]);
      pre := [s[0]] + rest;
      assert s == [s[0]] + s[1..];
      FirstKept(s[0], s[1..], rest);
    }
  }

  lemma OnePieceOf(s: string)
    requires |s| < 2 || |Split(s)| == 1
    ensures Split(s) == [s]
  {
    if |s| >= 2 { OnePiece(s); }
  }

  lemma FirstKept(c: char, tail: string, rest: string)
    requires tail != "" && !(c == '\n' && tail[0] == '\n') && |Split(tail)| > 1
    requires tail == rest + Last(Split(tail)) && Split(rest) == Front(Split(tail)) + [""]
    requires rest == "" || rest[|rest| - 1] == '\n'
    ensures [c] + tail == ([c] + rest) + Last(Split([c] + tail))
    ensures Split([c] + rest) == Front(Split([c] + tail)) + [""]
    ensures rest != ""
  {
    hide Split, Prefixed, Last;
    var p := Split(tail);
    PrefixedEnds(c, p);
    NotEmpty(rest, Front(p) + [""]);
    SplitStep(c, rest);
    SplitStep(c, tail);
    Associates([c], rest, Last(p));
  }

  lemma PrefixedEnds(c: char, p: seq<string>)
    requires |p| > 1
    ensures Last(Prefixed(c, p)) == Last(p)
    ensures Front(Prefixed(c, p)) + [""] == Prefixed(c, Front(p) + [""])
  {
  }

  lemma NotEmpty(s: string, ps: seq<string>)
    requires Split(s) == ps && |ps| > 1
    ensures s != ""
  {
  }

  // ---------- the reader ----------

  /** One pass of the read loop: append, normalise, split, keep the last piece. */
  function Feed(r: Reading, chunk: string): Reading {
    var ps := Split(Normalised(r.buf + chunk));
    Reading(r.frames + Front(ps), Last(ps))
  }

  /** What is already normalised and split stays as it is. */
  lemma FeedNormal(n: string, y: string)
    requires Flat(n)
    ensures var ps := Split(n);
      Split(Normalised(n + y)) == Front(ps) + Split(Normalised(Last(ps) + y))
  {
    var ps := Split(n);
    var pre := UpToLast(n);
    FlatParts(pre, Last(ps));
    var z := Normalised(Last(ps) + y);
    NormalisedPasses(pre, Last(ps) + y);
    assert n + y == pre + (Last(ps) + y);
    SplitFeed(pre, z);
    assert Front(Front(ps) + [""]) == Front(ps) && Last(Front(ps) + [""]) == "" && "" + z == z;
  }

  lemma FeedStep(x: string, y: string)
    requires Plain(x + y)
    ensures Feed(Whole(x), y) == Whole(x + y)
  {
    PlainParts(x, y);
    NormalisedFlat(x);
    NormalisedTwice(x, y);
    FeedNormal(Normalised(x), y);
    var ps := Split(Normalised(x));
    var qs := Split(Normalised(Last(ps) + y));
    assert Last(Front(ps) + qs) == Last(qs) && Front(Front(ps) + qs) == Front(ps) + Front(qs);
  }

  method ReadFrames(chunks: seq<string>) returns (r: Reading)
    ensures r == Reads(chunks)
    ensures Plain(Concat(chunks)) ==> r == Whole(Concat(chunks))
  {
    var buf := "";
    var frames: seq<string> := [];
    assert chunks[0..] == chunks;
    for i := 0 to |chunks|
      invariant Reading(frames, buf) == FeedAll(Reading([], ""), chunks[..i])
    {
      buf := Normalised(buf + chunks[i]);
      var ps := Split(buf);
      buf := Last(ps);
      frames := frames + Front(ps);
      assert chunks[..i + 1] == chunks[..i] + [chunks[i]];
      FeedSnoc(Reading([], ""), chunks[..i], chunks[i]);
    }
    assert chunks[..|chunks|] == chunks;
    buf := Normalised(buf);
    r := Reading(frames, buf);
    if Plain(Concat(chunks)) { ReadsWhole(chunks); }
  }

  function FeedAll(r: Reading, chunks: seq<string>): Reading
    decreases |chunks|
  {
    if chunks == [] then r else FeedAll(Feed(r, chunks[0]), chunks[1..])
  }

  /** The loop over the chunks, then the final flush, which normalises once more. */
  function Reads(chunks: seq<string>): Reading {
    var r := FeedAll(Reading([], ""), chunks);
    r.(buf := Normalised(r.buf))
  }

  lemma {:induction false} FeedSnoc(r: Reading, chunks: seq<string>, c: string)
    ensures FeedAll(r, chunks + [c]) == Feed(FeedAll(r, chunks), c)
    decreases |chunks|
  {
    if chunks != [] {
      FeedSnoc(Feed(r, chunks[0]), chunks[1..], c);
      assert (chunks + [c])[1..] == chunks[1..] + [c];
    } else {
      assert ([] + [c])[1..] == [];
    }
  }

  lemma {:induction false} FeedsWhole(x: string, chunks: seq<string>)
    requires Plain(x + Concat(chunks))
    ensures FeedAll(Whole(x), chunks) == Whole(x + Concat(chunks))
    decreases |chunks|
  {
    if chunks == [] {
      assert x + Concat(chunks) == x;
    } else {
      assert x + Concat(chunks) == (x + chunks[0]) + Concat(chunks[1..]);
      PlainParts(x + chunks[0], Concat(chunks[1..]));
      FeedStep(x, chunks[0]);
      FeedsWhole(x + chunks[0], chunks[1..]);
    }
  }

  /** However the text is cut, the reader sees what one pass over the whole text sees. */
  lemma ReadsWhole(chunks: seq<string>)
    requires Plain(Concat(chunks))
    ensures Reads(chunks) == Whole(Concat(chunks))
  {
    var text := Concat(chunks);
    assert "" + text == text;
    FeedsWhole("", chunks);
    NormalisedFlat(text);
    var pre := UpToLast(Normalised(text));
    FlatParts(pre, Last(Split(Normalised(text))));
    FlatIsNormalised(Last(Split(Normalised(text))));
  }

  // ---------- why CR CR LF is excluded ----------

  function Length(ps: seq<string>): nat {
    if ps == [] then 0 else |ps[0]| + 2 + Length(ps[1..])
  }

  /** How much text a reading accounts for. */
  function Size(r: Reading): nat { Length(r.frames) + |r.buf| }

  lemma {:induction false} LengthConcat(a: seq<string>, b: seq<string>)
    ensures Length(a + b) == Length(a) + Length(b)
  {
    if a == [] {
      assert a + b == b;
    } else {
      LengthConcat(a[1..], b);
      assert (a + b)[0] == a[0] && (a + b)[1..] == a[1..] + b;
    }
  }

  lemma {:induction false} SplitLength(s: string)
    ensures Length(Split(s)) == |s| + 2
  {
    if |s| < 2 {
      assert [s][1..] == [];
    } else if s[0] == '\n' && s[1] == '\n' {
      SplitLength(s[2..]);
      assert ([""] + Split(s[2..]))[1..] == Split(s[2..]);
    } else {
      var p := Split(s[1..]);
      SplitLength(s[1..]);
      assert Prefixed(s[0], p)[1..] == p[1..];
    }
  }

  lemma PieceSize(s: string)
    ensures Length(Front(Split(s))) + |Last(Split(s))| == |s|
  {
    var p := Split(s);
    SplitLength(s);
    assert p == Front(p) + [Last(p)];
    LengthConcat(Front(p), [Last(p)]);
    assert [Last(p)][1..] == [];
  }

  lemma {:induction false} NormalisedShrinks(a: string, b: string)
    ensures |Normalised(a + b)| <= |Normalised(a)| + |Normalised(b)|
    ensures |Normalised(a)| <= |a|
  {
    if |a| < 2 {
      if |a| == 1 { NormalisedCons(a[0], b); assert a + b == [a[0]] + b; } else { assert a + b == b; }
    } else {
      var k := if CrLfAt(a, 0) then 2 else 1;
      NormalisedShrinks(a[k..], b);
      assert (a + b)[k..] == a[k..] + b;
    }
  }

  lemma NormalisedCons(c: char, b: string)
    ensures |Normalised([c] + b)| <= 1 + |Normalised(b)|
  {
    var s := [c] + b;
    assert s[1..] == b;
    if |s| >= 2 && c == '\r' && b[0] == '\n' {
      assert s[2..] == b[1..];
      NormalisedHead(b);
      NormalisedTail(b);
    }
  }

  lemma NormalisedTail(b: string)
    requires b != "" && b[0] == '\n'
    ensures Normalised(b) == "\n" + Normalised(b[1..])
  {
  }

  lemma FeedShrinks(r: Reading, c: string)
    ensures Size(Feed(r, c)) <= Size(r) + |Normalised(c)|
    ensures Normalised(r.buf) != r.buf ==> Size(Feed(r, c)) < Size(r) + |Normalised(c)|
  {
    var s := Normalised(r.buf + c);
    PieceSize(s);
    LengthConcat(r.frames, Front(Split(s)));
    NormalisedShrinks(r.buf, c);
    SameLength(r.buf);
  }

  lemma {:induction false} SameLength(s: string)
    ensures |Normalised(s)| == |s| ==> Normalised(s) == s
  {
    if |s| >= 2 {
      var k := if CrLfAt(s, 0) then 2 else 1;
      SameLength(s[k..]);
      NormalisedShrinks(s[k..], "");
      assert s == s[..k] + s[k..];
    }
  }

  /** A CR LF anywhere becomes one line feed, whatever surrounds it. */
  lemma {:induction false} NormalisedAt(u: string, v: string)
    ensures Normalised(u + ("\r\n" + v)) == Normalised(u) + ("\n" + Normalised(v))
  {
    var w := "\r\n" + v;
    assert w[2..] == v;
    if u == "" {
      assert u + w == w;
    } else if |u| == 1 {
      assert (u + w)[1..] == w;
    } else {
      hide Normalised;
      NormalisedAt(u[Step(u)..], v);
      StepOf(u, w);
      Associates(Made(u), Normalised(u[Step(u)..]), "\n" + Normalised(v));
    }
  }

  lemma {:induction false} EndsCr(u: string)
    ensures Normalised(u + "\r") == Normalised(u) + "\r"
  {
    if u == "" {
      assert u + "\r" == "\r";
    } else if |u| == 1 {
      assert (u + "\r")[1..] == "\r";
    } else {
      var k := if CrLfAt(u, 0) then 2 else 1;
      EndsCr(u[k..]);
      assert (u + "\r")[k..] == u[k..] + "\r";
    }
  }

  predicate EndsCrLf(s: string) { CrLfAt(s, |s| - 2) }

  lemma TwoChars(s: string)
    requires |s| == 2 && s[0] == '\r'
    ensures Split(s) == [s]
  {
    assert [s[0]] + s[1..] == s && [s[1..]][1..] == [];
    assert Split(s) == Prefixed(s[0], [s[1..]]);
  }

  /** A CR LF at the end stays in the piece that is kept. */
  lemma {:induction false} LastEnds(s: string)
    requires EndsCrLf(s)
    ensures EndsCrLf(Last(Split(s)))
  {
    hide Split, Prefixed;
    if |s| == 2 {
      TwoChars(s);
    } else if s[0] == '\n' && s[1] == '\n' {
      LastEnds(s[2..]);
      SplitHere(s, "");
    } else {
      LastEnds(s[1..]);
      SplitThere(s, "");
      LastPrefixed(s[0], Split(s[1..]));
    }
  }

  lemma LastPrefixed(c: char, p: seq<string>)
    requires p != [] && EndsCrLf(Last(p))
    ensures EndsCrLf(Last(Prefixed(c, p)))
  {
    if |p| > 1 { assert Last(Prefixed(c, p)) == Last(p); }
  }

  lemma CrLfShrinks(s: string)
    requires EndsCrLf(s)
    ensures |Normalised(s)| < |s|
  {
    var u := s[..|s| - 2];
    assert s == u + ("\r\n" + "");
    NormalisedAt(u, "");
    NormalisedShrinks(u, "");
  }

  /** Cut right after a CR CR LF, the text loses a character it keeps when read whole. */
  lemma CutReads(pre: string, post: string)
    ensures Reads([pre + "\r" + "\r\n", post]) != Whole(pre + "\r" + ("\r\n" + post))
  {
    var u := pre + "\r";
    var cut, text := u + "\r\n", u + ("\r\n" + post);
    NormalisedAt(u, "");
    NormalisedAt(u, post);
    EndsCr(pre);
    assert cut == u + ("\r\n" + "");
    var n := Normalised(cut);
    assert n == Normalised(pre) + "\r" + "\n";
    var r := Feed(Reading([], ""), cut);
    CutSize(cut, n, post);
    PieceSize(Normalised(text));
    assert Size(Whole(text)) == |Normalised(text)| == |n| + |Normalised(post)|;
    assert [cut, post][1..] == [post] && [post][1..] == [];
    assert FeedAll(r, [post]) == FeedAll(Feed(r, post), []);
  }

  lemma CutSize(cut: string, n: string, post: string)
    requires n == Normalised(cut) && EndsCrLf(n)
    ensures var r := Feed(Feed(Reading([], ""), cut), post);
      Size(r.(buf := Normalised(r.buf))) < |n| + |Normalised(post)|
  {
    var r := Feed(Reading([], ""), cut);
    assert "" + cut == cut && [] + Front(Split(n)) == Front(Split(n));
    PieceSize(n);
    LastEnds(n);
    CrLfShrinks(r.buf);
    FeedShrinks(r, post);
    NormalisedShrinks(Feed(r, post).buf, "");
  }

  /** Every way of cutting the text reads the same as the whole text, exactly when it holds no CR CR LF. */
  lemma CutsDoNotMatter(text: string)
    ensures Plain(text) <==> forall chunks | Concat(chunks) == text :: Reads(chunks) == Whole(text)
  {
    if Plain(text) {
      forall chunks | Concat(chunks) == text ensures Reads(chunks) == Whole(text) { ReadsWhole(chunks); }
    } else {
      var i :| CrCrLfAt(text, i);
      var pre, post := text[..i], text[i + 3..];
      CutReads(pre, post);
      var chunks := [pre + "\r" + "\r\n", post];
      assert text == pre + "\r" + ("\r\n" + post);
      assert [post][1..] == [] && chunks[1..] == [post];
      assert Concat([post]) == post;
      assert Concat(chunks) == text;
    }
  }

  // ---------- what reaches the handlers ----------

  /** `if (buf.trim()) dispatch(buf)` on top of the complete frames. */
  function Dispatched(r: Reading, space: char -> bool): seq<string> {
    if forall c | c in r.buf :: space(c) then r.frames else r.frames + [r.buf]
  }

  /** streamChat's loop: the frames handed to `dispatch`, in order. */
  method StreamChat(chunks: seq<string>, space: char -> bool) returns (frames: seq<string>)
    ensures frames == Dispatched(Reads(chunks), space)
    ensures Plain(Concat(chunks)) ==> frames == Dispatched(Whole(Concat(chunks)), space)
  {
    var r := ReadFrames(chunks);
    frames := r.frames;
    if exists c :: c in r.buf && !space(c) { frames := frames + [r.buf]; }
  }
}
