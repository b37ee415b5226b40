// Which texts the event-stream reader dispatches alike however they are cut:
// exactly those that are plain up to their last frame, and whose remainder
// neither hides a separator nor outlasts two passes.
module SseCuts {
  import opened Sse

  // ---------- the text with every CR before a LF gone ----------

  /** Without its trailing CRs. */
  function Stripped(s: string): string {
    if s != "" && s[|s| - 1] == '\r' then Stripped(s[..|s| - 1]) else s
  }

  function Added(s: string, c: char): string {
    if c == '\n' then Stripped(s) + "\n" else s + [c]
  }

  function CollapsedOn(s: string, t: string): string
    decreases |t|
  {
    if t == "" then s else CollapsedOn(Added(s, t[0]), t[1..])
  }

  /** What normalising over and over makes of a text. */
  function Collapsed(t: string): string { CollapsedOn("", t) }

  predicate LfLfAt(s: string, i: int) { 0 <= i < |s| - 1 && s[i] == '\n' && s[i + 1] == '\n' }
  predicate Cr3LfAt(s: string, i: int) {
    0 <= i < |s| - 3 && s[i] == '\r' && s[i + 1] == '\r' && s[i + 2] == '\r' && s[i + 3] == '\n'
  }

  /** No separator. */
  ghost predicate Single(s: string) { forall i :: !LfLfAt(s, i) }
  ghost predicate TwoPass(s: string) { forall i :: !Cr3LfAt(s, i) }
  predicate EndsIn(s: string, c: char) { s != "" && s[|s| - 1] == c }

  predicate Blank(s: string, space: char -> bool) { forall c | c in s :: space(c) }

  lemma {:induction false} CollapsedOnConcat(s: string, a: string, b: string)
    ensures CollapsedOn(s, a + b) == CollapsedOn(CollapsedOn(s, a), b)
    decreases |a|
  {
    if a == "" {
      assert a + b == b;
    } else {
      CollapsedOnConcat(Added(s, a[0]), a[1..], b);
      assert (a + b)[1..] == a[1..] + b;
    }
  }

  lemma StripCr(s: string)
    ensures Stripped(s + "\r") == Stripped(s)
  {
    assert (s + "\r")[..|s|] == s;
  }

  /** Normalising a part first makes no difference to what is left in the end. */
  lemma {:induction false} CollapsedNormalised(s: string, x: string)
    ensures CollapsedOn(s, Normalised(x)) == CollapsedOn(s, x)
    decreases |x|
  {
    if |x| >= 2 {
      if CrLfAt(x, 0) {
        CollapsedNormalised(Added(s, '\n'), x[2..]);
        StripCr(s);
        assert ("\n" + Normalised(x[2..]))[1..] == Normalised(x[2..]);
        assert x[1..][1..] == x[2..];
      } else {
        CollapsedNormalised(Added(s, x[0]), x[1..]);
        assert ([x[0]] + Normalised(x[1..]))[1..] == Normalised(x[1..]);
      }
    }
  }

  lemma {:induction false} StrippedPrefix(s: string)
    ensures |Stripped(s)| <= |s| && s[..|Stripped(s)|] == Stripped(s)
    ensures forall i | |Stripped(s)| <= i < |s| :: s[i] == '\r'
  {
    if EndsIn(s, '\r') { StrippedPrefix(s[..|s| - 1]); }
  }

  /** A separator stays one. */
  lemma AddedKeeps(s: string, c: char, i: int)
    requires LfLfAt(s, i)
    ensures LfLfAt(Added(s, c), i)
  {
    StrippedPrefix(s);
    if c == '\n' { assert i + 1 < |Stripped(s)|; }
  }

  lemma {:induction false} SeparatorStays(s: string, t: string, i: int)
    requires LfLfAt(s, i)
    ensures !Single(CollapsedOn(s, t))
    decreases |t|
  {
    if t == "" {
      assert LfLfAt(CollapsedOn(s, t), i);
    } else {
      AddedKeeps(s, t[0], i);
      SeparatorStays(Added(s, t[0]), t[1..], i);
    }
  }

  lemma StripsNothing(s: string)
    requires !EndsIn(s, '\r')
    ensures Stripped(s) == s
  {
  }

  lemma TwoLfs(s: string, t: string)
    requires LfLfAt(t, 0)
    ensures !Single(CollapsedOn(s, t))
  {
    var a := Stripped(s) + "\n";
    StripsNothing(a);
    assert Added(s, t[0]) == a && Added(a, t[1..][0]) == a + "\n";
    assert LfLfAt(a + "\n", |a| - 1);
    SeparatorStays(a + "\n", t[1..][1..], |a| - 1);
  }

  /** A text whose collapsed form has no separator has none. */
  lemma {:induction false} SingleBefore(s: string, t: string)
    requires Single(CollapsedOn(s, t))
    ensures Single(t)
    decreases |t|
  {
    forall i ensures !LfLfAt(t, i) {
      if LfLfAt(t, i) {
        if i == 0 {
          TwoLfs(s, t);
        } else {
          SingleBefore(Added(s, t[0]), t[1..]);
          assert LfLfAt(t[1..], i - 1);
        }
      }
    }
  }

  lemma SinglePrefix(t: string, u: string)
    requires Single(Collapsed(t + u))
    ensures Single(Collapsed(t))
  {
    CollapsedOnConcat("", t, u);
    forall i ensures !LfLfAt(Collapsed(t), i) {
      if LfLfAt(Collapsed(t), i) { SeparatorStays(Collapsed(t), u, i); }
    }
  }

  /** A flat text is collapsed. */
  lemma {:induction false} FlatCollapsed(s: string, t: string)
    requires Flat(s + t)
    ensures CollapsedOn(s, t) == s + t
    decreases |t|
  {
    if t == "" {
      assert s + t == s;
    } else {
      if t[0] == '\n' {
        assert !CrLfAt(s + t, |s| - 1);
        StripsNothing(s);
      }
      assert Added(s, t[0]) == s + [t[0]];
      assert (s + [t[0]]) + t[1..] == s + t;
      FlatCollapsed(s + [t[0]], t[1..]);
    }
  }

  lemma CollapsedFlat(t: string)
    requires Flat(t)
    ensures Collapsed(t) == t
  {
    assert "" + t == t;
    FlatCollapsed("", t);
  }

  // ---------- splitting without separators ----------

  lemma {:induction false} SplitSingle(s: string)
    requires Single(s)
    ensures Split(s) == [s]
  {
    if |s| >= 2 {
      assert !LfLfAt(s, 0);
      forall i ensures !LfLfAt(s[1..], i) { assert !LfLfAt(s, i + 1); }
      SplitSingle(s[1..]);
      assert [s[0]] + s[1..] == s;
    }
  }

  // ---------- every cutting of such a text is dispatched alike ----------

  /** What the theorem asks of a text: plain whole frames, then a remainder that holds no separator, blank or short of CRs. */
  ghost predicate Parts(p: string, s: string, space: char -> bool) {
    && Plain(p) && Whole(p).buf == ""
    && Single(Collapsed(s)) && (Blank(s, space) || TwoPass(s))
  }

  ghost predicate Robust(text: string, space: char -> bool) {
    exists k :: 0 <= k <= |text| && Parts(text[..k], text[k..], space)
  }

  /** What is dispatched then: the frames, and the remainder unless it is blank. */
  function Delivered(p: string, s: string, space: char -> bool): seq<string> {
    Whole(p).frames + if Blank(s, space) then [] else [Collapsed(s)]
  }

  lemma {:induction false} BlankNormalised(s: string, space: char -> bool)
    requires Blank(s, space) && space('\n')
    ensures Blank(Normalised(s), space)
  {
    if |s| >= 2 {
      var k := Step(s);
      assert forall c | c in s[k..] :: c in s;
      BlankNormalised(s[k..], space);
      assert s[0] in s;
    }
  }

  lemma {:induction false} TwoPassNormalised(s: string)
    requires TwoPass(s)
    ensures Plain(Normalised(s))
  {
    if |s| >= 2 {
      var k := Step(s);
      forall i ensures !Cr3LfAt(s[k..], i) { assert !Cr3LfAt(s, i + k); }
      TwoPassNormalised(s[k..]);
      var n, rest := Normalised(s), Normalised(s[k..]);
      assert !Cr3LfAt(s, 0);
      forall i ensures !CrCrLfAt(n, i) {
        if i > 0 { assert !CrCrLfAt(rest, i - 1); } else if CrCrLfAt(n, 0) { CrLfFrom(s[1..], ""); }
      }
    }
  }

  /** A CR LF in front after normalising was CR LF or CR CR LF before. */
  lemma CrLfFrom(y: string, r: string)
    requires CrLfAt(Normalised(y) + r, 0)
    ensures CrLfAt(y + r, 0) || CrCrLfAt(y + r, 0)
  {
    if |y| >= 2 {
      assert !CrLfAt(y, 0);
      NormalisedHead(y[1..]);
    }
  }

  lemma CrCrLfFrom(y: string, r: string)
    requires CrCrLfAt(Normalised(y) + r, 0)
    ensures CrCrLfAt(y + r, 0) || Cr3LfAt(y + r, 0)
  {
    if |y| >= 2 {
      assert !CrLfAt(y, 0);
      var z := y[1..];
      assert Normalised(y) + r == [y[0]] + (Normalised(z) + r);
      CrLfFrom(z, r);
      assert y + r == [y[0]] + (z + r);
    } else if |y| == 1 {
      assert Normalised(y) == y;
    }
  }

  /** Normalising what has come leaves no CR CR CR LF with what is to come. */
  lemma {:induction false} TwoPassKept(y: string, r: string)
    requires TwoPass(y + r)
    ensures TwoPass(Normalised(y) + r)
  {
    if |y| >= 2 {
      var k := Step(y);
      assert (y + r)[k..] == y[k..] + r;
      forall i ensures !Cr3LfAt(y[k..] + r, i) { assert !Cr3LfAt(y + r, i + k); }
      TwoPassKept(y[k..], r);
      var rest := Normalised(y[k..]) + r;
      assert Normalised(y) + r == Made(y) + rest;
      forall i ensures !Cr3LfAt(Normalised(y) + r, i) {
        if i > 0 {
          assert !Cr3LfAt(rest, i - 1);
        } else if Cr3LfAt(Normalised(y) + r, 0) {
          assert y + r == [y[0]] + (y[1..] + r);
          assert !Cr3LfAt(y + r, 0) && !Cr3LfAt(y + r, 1);
          CrCrLfFrom(y[1..], r);
        }
      }
    }
  }

  /** One more chunk of the remainder dispatches nothing. */
  lemma QuietFeed(r: Reading, s: string, c: string)
    requires Collapsed(r.buf) == Collapsed(s) && Single(Collapsed(s + c))
    ensures Feed(r, c) == Reading(r.frames, Normalised(r.buf + c)) && Collapsed(Normalised(r.buf + c)) == Collapsed(s + c)
  {
    var x := Normalised(r.buf + c);
    CollapsedNormalised("", r.buf + c);
    CollapsedOnConcat("", r.buf, c);
    CollapsedOnConcat("", s, c);
    SingleBefore("", x);
    SplitSingle(x);
    assert Front([x]) == [] && r.frames + [] == r.frames;
  }

  /** How the remainder is read: nothing more is dispatched, and it ends up collapsed, or stays blank. */
  lemma {:induction false} RemainderRead(r: Reading, s: string, chunks: seq<string>, space: char -> bool) returns (end: Reading)
    requires Collapsed(r.buf) == Collapsed(s) && Single(Collapsed(s + Concat(chunks))) && space('\n')
    requires (Blank(r.buf, space) && Blank(Concat(chunks), space)) || (Plain(r.buf) && TwoPass(r.buf + Concat(chunks)))
    ensures end == FeedAll(r, chunks) && end.frames == r.frames
    ensures Blank(r.buf, space) && Blank(Concat(chunks), space) ==> Blank(end.buf, space)
    ensures Plain(r.buf) && TwoPass(r.buf + Concat(chunks)) ==>
      Plain(end.buf) && Collapsed(end.buf) == Collapsed(s + Concat(chunks))
    decreases |chunks|
  {
    if chunks == [] {
      end := r;
      assert s + "" == s;
    } else {
      var c, rest := chunks[0], Concat(chunks[1..]);
      assert s + (c + rest) == (s + c) + rest && r.buf + (c + rest) == (r.buf + c) + rest;
      SinglePrefix(s + c, rest);
      QuietFeed(r, s, c);
      var next := Feed(r, c);
      if Plain(r.buf) && TwoPass(r.buf + (c + rest)) {
        TwoPassKept(r.buf + c, rest);
        TwoPassParts(r.buf + c, rest);
        TwoPassNormalised(r.buf + c);
      }
      if Blank(r.buf, space) && Blank(c + rest, space) {
        assert forall x | x in r.buf + c :: space(x) by { assert forall x | x in c :: x in c + rest; }
        assert forall x | x in rest :: x in c + rest;
        BlankNormalised(r.buf + c, space);
      }
      end := RemainderRead(next, s + c, chunks[1..], space);
    }
  }

  lemma TwoPassParts(a: string, b: string)
    requires TwoPass(a + b)
    ensures TwoPass(a)
  {
    forall i ensures !Cr3LfAt(a, i) { assert !Cr3LfAt(a + b, i); }
  }

  // ---------- the frames before the remainder ----------

  /** Normalising goes part by part where the first does not end in CR. */
  lemma {:induction false} NormalisedJoin(a: string, b: string)
    requires !EndsIn(a, '\r')
    ensures Normalised(a + b) == Normalised(a) + Normalised(b)
  {
    if a == "" {
      assert a + b == b;
    } else if |a| == 1 {
      assert a == [a[0]];
      OneStep(a[0], b);
    } else {
      hide Normalised;
      NormalisedJoin(a[Step(a)..], b);
      StepOf(a, b);
      Associates(Made(a), Normalised(a[Step(a)..]), Normalised(b));
    }
  }

  lemma {:induction false} NormalisedLast(s: string)
    requires s != ""
    ensures Normalised(s) != "" && Final(Normalised(s)) == Final(s)
  {
    if |s| > Step(s) { NormalisedLast(s[Step(s)..]); }
  }

  function Final(s: string): char requires s != "" { s[|s| - 1] }

  lemma WholeEnds(p: string)
    requires Whole(p).buf == ""
    ensures !EndsIn(p, '\r')
  {
    if p != "" {
      NormalisedLast(p);
      var pre := UpToLast(Normalised(p));
      assert pre == Normalised(p);
    }
  }

  /** The chunk in which the plain frames end, and the remainder begins, is read as two. */
  lemma CrossFeed(x: string, p: string, c: string)
    requires Plain(x + p) && Whole(x + p).buf == "" && p != ""
    ensures Feed(Whole(x), p + c) == Feed(Whole(x + p), c)
  {
    var z := Whole(x).buf + p;
    FeedStep(x, p);
    WholeEnds(x + p);
    assert Final(z) == Final(p) == Final(x + p);
    NormalisedJoin(z, c);
    Associates(Whole(x).buf, p, c);
    SplitFeed(Normalised(z), Normalised(c));
    assert "" + Normalised(c) == Normalised(c) && "" + c == c;
    PiecesJoin(Whole(x).frames, Front(Split(Normalised(z))), Split(Normalised(c)));
  }

  lemma PiecesJoin(f: seq<string>, a: seq<string>, b: seq<string>)
    requires b != []
    ensures f + Front(a + b) == (f + a) + Front(b) && Last(a + b) == Last(b)
  {
  }

  /** Any cutting: the frames of the plain part, and of the remainder what is kept. */
  lemma {:induction false} Crossing(x: string, p: string, s: string, chunks: seq<string>, space: char -> bool) returns (end: Reading)
    requires Parts(x + p, s, space) && Concat(chunks) == p + s && space('\n')
    ensures end == FeedAll(Whole(x), chunks) && end.frames == Whole(x + p).frames
    ensures Blank(s, space) ==> Blank(end.buf, space)
    ensures TwoPass(s) ==> Plain(end.buf) && Collapsed(end.buf) == Collapsed(s)
    decreases |chunks|
  {
    hide Feed, Whole, Collapsed, Split, Parts;
    if p == "" {
      end := Remainder(x, p, s, chunks, space);
    } else {
      var c, rest := chunks[0], chunks[1..];
      if |c| <= |p| {
        WithinParts(x, p, s, c, rest, space);
        end := Crossing(x + c, p[|c|..], s, rest, space);
      } else {
        var d := c[|p|..];
        Overlap(c, Concat(rest), p, s);
        PartsOf(x + p, s, space);
        CrossFeed(x, p, d);
        assert ([d] + rest)[1..] == rest;
        assert p[|p|..] == "" && x + p + "" == x + p;
        end := Remainder(x + p, "", s, [d] + rest, space);
      }
    }
  }

  lemma Overlap(c: string, rest: string, p: string, s: string)
    requires c + rest == p + s && |c| >= |p|
    ensures c == p + c[|p|..] && s == c[|p|..] + rest
  {
    var t := p + s;
    assert c == t[..|c|] && rest == t[|c|..] && s == t[|p|..] && p == t[..|p|];
    assert t[|p|..] == t[|p|..|c|] + t[|c|..];
  }

  lemma PartsOf(p: string, s: string, space: char -> bool)
    requires Parts(p, s, space)
    ensures Plain(p) && Whole(p).buf == ""
  {
  }

  lemma WithinParts(x: string, p: string, s: string, c: string, rest: seq<string>, space: char -> bool)
    requires Parts(x + p, s, space) && |c| <= |p| && c + Concat(rest) == p + s
    ensures Parts(x + c + p[|c|..], s, space) && Concat(rest) == p[|c|..] + s && x + c + p[|c|..] == x + p
    ensures Feed(Whole(x), c) == Whole(x + c)
  {
    Overlap(p, s, c, Concat(rest));
    Associates(x, c, p[|c|..]);
    PlainParts(x + c, p[|c|..]);
    FeedStep(x, c);
  }

  lemma Remainder(x: string, p: string, s: string, chunks: seq<string>, space: char -> bool) returns (end: Reading)
    requires Parts(x + p, s, space) && p == "" && Concat(chunks) == s && space('\n')
    ensures end == FeedAll(Whole(x), chunks) && end.frames == Whole(x + p).frames
    ensures Blank(s, space) ==> Blank(end.buf, space)
    ensures TwoPass(s) ==> Plain(end.buf) && Collapsed(end.buf) == Collapsed(s)
  {
    assert x + p == x && "" + s == s;
    end := RemainderRead(Whole(x), "", chunks, space);
  }

  lemma {:induction false} CollapsedHolds(s: string, t: string, c: char)
    requires c != '\r' && (c in s || c in t)
    ensures c in CollapsedOn(s, t)
    decreases |t|
  {
    if t != "" {
      StrippedPrefix(s);
      if c in s { assert c in Added(s, t[0]); } else if c == t[0] { assert c in Added(s, t[0]); } else { assert c in t[1..]; }
      CollapsedHolds(Added(s, t[0]), t[1..], c);
    }
  }

  lemma BlankCollapsed(s: string, space: char -> bool)
    requires Blank(Collapsed(s), space) && space('\r')
    ensures Blank(s, space)
  {
    forall c | c in s ensures space(c) {
      if c != '\r' { CollapsedHolds("", s, c); }
    }
  }

  /** However the text is cut, the frames of the plain part are dispatched, and the collapsed remainder unless it is blank. */
  lemma Delivers(p: string, s: string, chunks: seq<string>, space: char -> bool)
    requires Parts(p, s, space) && Concat(chunks) == p + s && space('\r') && space('\n')
    ensures Dispatched(Reads(chunks), space) == Delivered(p, s, space)
  {
    hide Whole, Collapsed;
    assert "" + p == p && Whole("") == Reading([], "") by { EmptyWhole(); }
    var end := Crossing("", p, s, chunks, space);
    var buf := Normalised(end.buf);
    assert Reads(chunks) == Reading(end.frames, buf);
    if Blank(s, space) {
      BlankNormalised(end.buf, space);
    } else {
      Settled(end.buf);
      if Blank(buf, space) { BlankCollapsed(s, space); }
    }
  }

  lemma EmptyWhole()
    ensures Whole("") == Reading([], "")
  {
    assert Split("") == [""] && Front([""]) == [];
  }

  lemma Settled(b: string)
    requires Plain(b)
    ensures Normalised(b) == Collapsed(b)
  {
    NormalisedFlat(b);
    CollapsedFlat(Normalised(b));
    CollapsedNormalised("", b);
  }

  // ---------- a patient cutting, which waits until the kept text is flat ----------

  /** The pieces of a text but the last are frames. */
  function Taken(frames: seq<string>, x: string): Reading {
    Reading(frames + Front(Split(x)), Last(Split(x)))
  }

  lemma {:induction false} FeedAllJoin(r: Reading, a: seq<string>, b: seq<string>)
    ensures FeedAll(r, a + b) == FeedAll(FeedAll(r, a), b) && Concat(a + b) == Concat(a) + Concat(b)
    decreases |a|
  {
    hide Feed;
    if a == [] {
      assert a + b == b;
    } else {
      FeedAllJoin(Feed(r, a[0]), a[1..], b);
      assert (a + b)[0] == a[0] && (a + b)[1..] == a[1..] + b;
      Associates(a[0], Concat(a[1..]), Concat(b));
    }
  }

  /** No piece holds a separator. */
  lemma {:induction false} LastSingle(s: string)
    ensures Single(Last(Split(s)))
  {
    if |s| >= 2 {
      if s[0] == '\n' && s[1] == '\n' {
        LastSingle(s[2..]);
        SplitHere(s, "");
      } else {
        LastSingle(s[1..]);
        SplitThere(s, "");
        if |Split(s[1..])| == 1 { SingleOne(s); } else { assert Last(Split(s)) == Last(Split(s[1..])); }
      }
    }
  }

  lemma SingleOne(s: string)
    requires |s| >= 2 && !LfLfAt(s, 0) && |Split(s[1..])| == 1 && Single(Last(Split(s[1..])))
    ensures Single(Last(Split(s)))
  {
    OnePiece(s[1..]);
    assert [s[0]] + s[1..] == s && Split(s) == [s];
    forall i ensures !LfLfAt(s, i) { assert !LfLfAt(s[1..], i - 1); }
  }

  /** Nothing further arriving, the CRs before a final LF go one by one. */
  lemma {:induction false} Drain(frames: seq<string>, u: string) returns (chunks: seq<string>)
    requires Flat(u) && Single(u)
    ensures Concat(chunks) == "" && FeedAll(Taken(frames, u + "\n"), chunks) == Taken(frames, Stripped(u) + "\n")
  {
    if EndsIn(u, '\r') {
      var v := u[..|u| - 1];
      DrainOne(frames, u, v);
      var rest := Drain(frames, v);
      chunks := [""] + rest;
      assert chunks[1..] == rest;
    } else {
      chunks := [];
    }
  }

  lemma DrainOne(frames: seq<string>, u: string, v: string)
    requires Flat(u) && Single(u) && u == v + "\r"
    ensures Flat(v) && Single(v) && Feed(Taken(frames, u + "\n"), "") == Taken(frames, v + "\n")
  {
    FlatParts(v, "\r");
    forall i ensures !LfLfAt(v, i) { assert !LfLfAt(u, i); }
    forall i ensures !LfLfAt(u + "\n", i) { assert !LfLfAt(u, i); }
    var x := u + "\n";
    SplitSingle(x);
    assert Front([x]) == [] && frames + [] == frames && x + "" == x;
    DropCr(v);
  }

  lemma DropCr(v: string)
    requires Flat(v)
    ensures Normalised(v + "\r" + "\n") == v + "\n"
  {
    NormalisedAt(v, "");
    FlatIsNormalised(v);
    assert v + ("\r\n" + "") == v + "\r" + "\n";
  }

  lemma {:induction false} StrippedJoin(a: string, b: string)
    requires !EndsIn(a, '\r')
    ensures Stripped(a + b) == a + Stripped(b)
  {
    if EndsIn(b, '\r') {
      var c := b[..|b| - 1];
      assert (a + b)[..|a + b| - 1] == a + c;
      StrippedJoin(a, c);
    } else if b == "" {
      assert a + b == a;
      StripsNothing(a);
    }
  }

  lemma TakenJoin(pre: string, y: string)
    requires Last(Split(pre)) == ""
    ensures Taken([], pre + y) == Taken(Front(Split(pre)), y)
  {
    SplitFeed(pre, y);
    assert "" + y == y;
    PiecesJoin([], Front(Split(pre)), Split(y));
  }

  /** One more character, patiently. */
  lemma PatientStep(x: string, c: char) returns (chunks: seq<string>)
    requires Flat(x)
    ensures Concat(chunks) == [c] && FeedAll(Taken([], x), chunks) == Taken([], Added(x, c))
  {
    var pre := UpToLast(x);
    var u := Last(Split(x));
    FlatParts(pre, u);
    LastSingle(x);
    var f := Front(Split(pre));
    assert f == Front(Split(x)) && Last(Split(pre)) == "";
    assert Taken([], x) == Reading(f, u);
    if c == '\n' {
      StrippedJoin(pre, u);
      Associates(pre, Stripped(u), "\n");
      TakenJoin(pre, Stripped(u) + "\n");
      var rest := PatientLf(f, u);
      chunks := ["\n"] + rest;
      assert chunks[1..] == rest;
    } else {
      forall i ensures !CrLfAt(u + [c], i) { assert !CrLfAt(u, i); }
      FlatIsNormalised(u + [c]);
      Associates(pre, u, [c]);
      TakenJoin(pre, u + [c]);
      chunks := [[c]];
      assert Concat(chunks[1..]) == "" && [c] + "" == [c];
      assert FeedAll(Reading(f, u), chunks) == FeedAll(Feed(Reading(f, u), [c]), []);
    }
  }

  lemma PatientLf(f: seq<string>, u: string) returns (rest: seq<string>)
    requires Flat(u) && Single(u)
    ensures Concat(rest) == "" && FeedAll(Feed(Reading(f, u), "\n"), rest) == Taken(f, Stripped(u) + "\n")
  {
    if EndsIn(u, '\r') {
      var v := u[..|u| - 1];
      DrainOne(f, u, v);
      DropCr(v);
      assert u + "\n" == v + "\r" + "\n";
      rest := Drain(f, v);
    } else {
      forall i ensures !CrLfAt(u + "\n", i) { assert !CrLfAt(u, i); }
      FlatIsNormalised(u + "\n");
      StripsNothing(u);
      rest := [];
    }
  }

  lemma {:induction false} CollapsedIsFlat(s: string, t: string)
    requires Flat(s)
    ensures Flat(CollapsedOn(s, t))
    decreases |t|
  {
    if t != "" {
      var c := t[0];
      StrippedPrefix(s);
      forall i ensures !CrLfAt(Added(s, c), i) {
        assert !CrLfAt(s, i);
        if c == '\n' { StrippedEnd(s); }
      }
      CollapsedIsFlat(Added(s, c), t[1..]);
    }
  }

  lemma {:induction false} StrippedEnd(s: string)
    ensures !EndsIn(Stripped(s), '\r')
  {
    if EndsIn(s, '\r') { StrippedEnd(s[..|s| - 1]); }
  }

  /** A cutting under which the text is read as if it were collapsed first. */
  lemma {:induction false} Patient(t: string) returns (chunks: seq<string>)
    ensures Concat(chunks) == t && FeedAll(Reading([], ""), chunks) == Taken([], Collapsed(t))
  {
    if t == "" {
      chunks := [];
      EmptyWhole();
    } else {
      var u, c := t[..|t| - 1], t[|t| - 1];
      assert t == u + [c] && [c][1..] == "";
      var first := Patient(u);
      CollapsedOnConcat("", u, [c]);
      CollapsedIsFlat("", u);
      var more := PatientStep(Collapsed(u), c);
      FeedAllJoin(Reading([], ""), first, more);
      assert CollapsedOn(Collapsed(u), [c]) == Added(Collapsed(u), c);
      chunks := first + more;
    }
  }

  // ---------- the whole text at once, against the patient cutting ----------

  /** Line feeds, which no normalising adds or removes. */
  function Lfs(s: string): nat {
    if s == "" then 0 else (if s[|s| - 1] == '\n' then 1 else 0) + Lfs(s[..|s| - 1])
  }

  lemma {:induction false} LfsJoin(a: string, b: string)
    ensures Lfs(a + b) == Lfs(a) + Lfs(b)
  {
    if b == "" {
      assert a + b == a;
    } else {
      LfsJoin(a, b[..|b| - 1]);
      assert (a + b)[..|a + b| - 1] == a + b[..|b| - 1];
    }
  }

  lemma {:induction false} LfsStripped(s: string)
    ensures Lfs(Stripped(s)) == Lfs(s)
  {
    if EndsIn(s, '\r') { LfsStripped(s[..|s| - 1]); }
  }

  lemma LfsNone()
    ensures Lfs("") == 0
  {
  }

  lemma LfsAdded(s: string, c: char)
    ensures Lfs(Added(s, c)) == Lfs(s) + Lfs([c])
  {
    LfsStripped(s);
    if c == '\n' { LfsJoin(Stripped(s), [c]); } else { LfsJoin(s, [c]); }
  }

  lemma {:induction false} LfsCollapsed(s: string, t: string)
    ensures Lfs(CollapsedOn(s, t)) == Lfs(s) + Lfs(t)
    decreases |t|
  {
    hide Lfs, Added;
    if t == "" {
      LfsNone();
    } else {
      var c := t[0];
      LfsCollapsed(Added(s, c), t[1..]);
      LfsAdded(s, c);
      LfsJoin([c], t[1..]);
      assert [c] + t[1..] == t;
    }
  }

  lemma LfsAll(t: string)
    ensures Lfs(Collapsed(t)) == Lfs(t)
  {
    LfsCollapsed("", t);
  }

  lemma LfsNormalised(t: string)
    ensures Lfs(Normalised(t)) == Lfs(t)
  {
    CollapsedNormalised("", t);
    LfsCollapsed("", Normalised(t));
    LfsCollapsed("", t);
  }

  /** The line feeds of a list of pieces, those of the separators between them included. */
  function Tally(ps: seq<string>): nat {
    if ps == [] then 0 else Tally(ps[..|ps| - 1]) + Lfs(ps[|ps| - 1]) + 2
  }

  function Joined(ps: seq<string>): string requires ps != [] {
    if |ps| == 1 then ps[0] else ps[0] + "\n\n" + Joined(ps[1..])
  }

  lemma {:induction false} JoinSplit(s: string)
    ensures Joined(Split(s)) == s
  {
    if |s| >= 2 {
      if LfLfAt(s, 0) {
        JoinSplit(s[2..]);
        var ps := Split(s[2..]);
        assert ([""] + ps)[1..] == ps && "" + "\n\n" == "\n\n" && s == "\n\n" + s[2..];
      } else {
        JoinSplit(s[1..]);
        JoinPrefixed(s[0], Split(s[1..]));
        assert s == [s[0]] + s[1..];
      }
    }
  }

  lemma JoinPrefixed(c: char, ps: seq<string>)
    requires ps != []
    ensures Joined(Prefixed(c, ps)) == [c] + Joined(ps)
  {
    assert Prefixed(c, ps)[1..] == ps[1..];
  }

  lemma {:induction false} TallyJoined(ps: seq<string>)
    requires ps != []
    ensures Tally(ps) == Lfs(Joined(ps)) + 2
  {
    if |ps| == 1 {
      assert ps[..0] == [];
    } else {
      TallyJoined(ps[1..]);
      TallyFirst(ps);
      LfsJoin(ps[0] + "\n\n", Joined(ps[1..]));
      LfsJoin(ps[0], "\n\n");
      assert "\n\n"[..1] == "\n" && "\n"[..0] == "" && Lfs("\n") == 1 && Lfs("\n\n") == 2;
    }
  }

  lemma {:induction false} TallyFirst(ps: seq<string>)
    requires ps != []
    ensures Tally(ps) == Lfs(ps[0]) + 2 + Tally(ps[1..])
  {
    if |ps| > 1 {
      var front := ps[..|ps| - 1];
      TallyFirst(front);
      assert ps[1..][..|ps| - 2] == front[1..];
    } else {
      assert ps[..0] == [] && ps[1..] == [];
    }
  }

  lemma TallySplit(s: string)
    ensures Tally(Split(s)) == Lfs(s) + 2
  {
    JoinSplit(s);
    TallyJoined(Split(s));
  }

  /** Readings with as many line feeds dispatch alike only if they hold the same frames. */
  lemma SameFrames(r: Reading, q: Reading, space: char -> bool)
    requires Tally(r.frames + [r.buf]) == Tally(q.frames + [q.buf])
    requires Dispatched(r, space) == Dispatched(q, space)
    ensures r.frames == q.frames && (Blank(r.buf, space) <==> Blank(q.buf, space)) && (!Blank(q.buf, space) ==> r.buf == q.buf)
  {
    var f, g := r.frames + [r.buf], q.frames + [q.buf];
    assert f[..|f| - 1] == r.frames && g[..|g| - 1] == q.frames;
    assert f[|f| - 1] == r.buf && g[|g| - 1] == q.buf;
  }

  /** A part of the normalised text is what normalising makes of a part of the text. */
  lemma {:induction false} Preimage(t: string, a: string, b: string) returns (k: nat)
    requires Normalised(t) == a + b
    ensures k <= |t| && Normalised(t[..k]) == a && Normalised(t[k..]) == b
  {
    if a == "" {
      k := 0;
      assert t[..0] == "" && t[0..] == t && a + b == b;
    } else if |t| < 2 {
      k := |t|;
      assert a == t && b == "" && t[..k] == t;
    } else {
      var m := Step(t);
      var rest := t[m..];
      StepOf(t, "");
      assert (a + b)[1..] == a[1..] + b;
      var j := Preimage(rest, a[1..], b);
      k := m + j;
      var u := t[..k];
      assert u[m..] == rest[..j] && t[k..] == rest[j..] && Made(t) == [a[0]] && [a[0]] + a[1..] == a;
      if |u| >= 2 { StepOf(u, ""); } else { assert u == [t[0]] && j == 0; }
    }
  }

  lemma PlainFrom(p: string)
    requires Flat(Normalised(p))
    ensures Plain(p)
  {
    forall i ensures !CrCrLfAt(p, i) {
      if CrCrLfAt(p, i) {
        var u, v := p[..i], p[i + 3..];
        assert p == (u + "\r") + ("\r\n" + v);
        NormalisedAt(u + "\r", v);
        EndsCr(u);
        assert CrLfAt(Normalised(p), |Normalised(u)|);
      }
    }
  }

  lemma TwoPassFrom(s: string)
    requires Plain(Normalised(s))
    ensures TwoPass(s)
  {
    forall i ensures !Cr3LfAt(s, i) {
      if Cr3LfAt(s, i) {
        var u, v := s[..i], s[i + 4..];
        assert s == (u + "\r" + "\r") + ("\r\n" + v);
        NormalisedAt(u + "\r" + "\r", v);
        EndsCr(u);
        EndsCr(u + "\r");
        assert CrCrLfAt(Normalised(s), |Normalised(u)|);
      }
    }
  }

  lemma {:induction false} CollapsedJoin(a: string, s: string, t: string)
    requires !EndsIn(a, '\r')
    ensures CollapsedOn(a + s, t) == a + CollapsedOn(s, t)
    decreases |t|
  {
    if t != "" {
      StrippedJoin(a, s);
      Associates(a, s, [t[0]]);
      Associates(a, Stripped(s), "\n");
      CollapsedJoin(a, Added(s, t[0]), t[1..]);
    }
  }

  /** Where the two cuttings agree on the frames, the text has the two parts. */
  lemma Located(text: string, space: char -> bool)
    requires space('\r')
    requires var ps, qs := Split(Normalised(text)), Split(Collapsed(text));
      && Front(ps) == Front(qs)
      && (Blank(Last(qs), space) || Normalised(Last(ps)) == Last(qs))
    ensures Robust(text, space)
  {
    hide Collapsed, Normalised, Split, Front, Last, TwoPass;
    var ps, qs := Split(Normalised(text)), Split(Collapsed(text));
    var pre := UpToLast(Normalised(text));
    var same := UpToLast(Collapsed(text));
    JoinSplit(pre);
    JoinSplit(same);
    CollapsedTextFlat(text);
    FlatParts(pre, Last(qs));
    var k := Preimage(text, pre, Last(ps));
    var p, s := text[..k], text[k..];
    assert text == p + s;
    PlainFrom(p);
    CollapsedParts(p, s, pre, Last(qs));
    LastSingle(Collapsed(text));
    if Blank(Last(qs), space) {
      BlankCollapsed(s, space);
    } else {
      FlatTwice(s, Last(qs));
    }
    FramesEnd(p, Front(ps));
    assert Parts(p, s, space);
  }

  lemma FlatTwice(s: string, b: string)
    requires Normalised(Normalised(s)) == b && Flat(b)
    ensures TwoPass(s)
  {
    PlainFrom(Normalised(s));
    TwoPassFrom(s);
  }

  lemma CollapsedTextFlat(text: string)
    ensures Flat(Collapsed(text))
  {
    CollapsedIsFlat("", text);
  }

  lemma FramesEnd(p: string, f: seq<string>)
    requires Split(Normalised(p)) == f + [""]
    ensures Whole(p).buf == ""
  {
  }

  lemma CollapsedParts(p: string, s: string, pre: string, b: string)
    requires Normalised(p) == pre && Flat(pre) && !EndsIn(pre, '\r') && Collapsed(p + s) == pre + b
    ensures Collapsed(s) == b
  {
    CollapsedOnConcat("", p, s);
    CollapsedNormalised("", p);
    CollapsedFlat(pre);
    assert pre + "" == pre;
    CollapsedJoin(pre, "", s);
    assert (pre + b)[|pre|..] == b && (pre + Collapsed(s))[|pre|..] == Collapsed(s);
  }

  /** For any other text, two cuttings that dispatch differently: one chunk, and the patient cutting. */
  lemma TwoCuts(text: string, space: char -> bool) returns (patient: seq<string>)
    requires !Robust(text, space) && space('\r')
    ensures Concat(patient) == text
    ensures Dispatched(Reads([text]), space) != Dispatched(Reads(patient), space)
  {
    patient := Patient(text);
    OneChunk(text);
    var ps, qs := Split(Normalised(text)), Split(Collapsed(text));
    var r, q := Reads([text]), Reads(patient);
    PatientReads(text, patient);
    if Dispatched(r, space) == Dispatched(q, space) {
      Tallies(text);
      SameFrames(r, q, space);
      Located(text, space);
    }
  }

  lemma OneChunk(text: string)
    ensures Concat([text]) == text
    ensures var ps := Split(Normalised(text)); Reads([text]) == Reading(Front(ps), Normalised(Last(ps)))
  {
    assert [text][1..] == [] && text + "" == text && "" + text == text;
    var r := Reading([], "");
    assert FeedAll(r, [text]) == FeedAll(Feed(r, text), []);
    assert [] + Front(Split(Normalised(text))) == Front(Split(Normalised(text)));
  }

  lemma PatientReads(text: string, chunks: seq<string>)
    requires FeedAll(Reading([], ""), chunks) == Taken([], Collapsed(text))
    ensures var qs := Split(Collapsed(text)); Reads(chunks) == Reading(Front(qs), Last(qs))
  {
    var qs := Split(Collapsed(text));
    CollapsedTextFlat(text);
    var pre := UpToLast(Collapsed(text));
    FlatParts(pre, Last(qs));
    FlatIsNormalised(Last(qs));
    assert [] + Front(qs) == Front(qs);
  }

  lemma SameTally(ps: seq<string>, b: string)
    requires ps != [] && Lfs(b) == Lfs(Last(ps))
    ensures Tally(Front(ps) + [b]) == Tally(ps)
  {
    hide Lfs;
    var ns := Front(ps) + [b];
    assert ns[..|ns| - 1] == Front(ps);
  }

  lemma Tallies(text: string)
    ensures var ps, qs := Split(Normalised(text)), Split(Collapsed(text));
      Tally(Front(ps) + [Normalised(Last(ps))]) == Tally(Front(qs) + [Last(qs)])
  {
    hide Split, Normalised, Tally, Lfs;
    var ps, qs := Split(Normalised(text)), Split(Collapsed(text));
    TallySplit(Normalised(text));
    TallySplit(Collapsed(text));
    LfsNormalised(text);
    LfsAll(text);
    LfsNormalised(Last(ps));
    SameTally(ps, Normalised(Last(ps)));
    assert Front(qs) + [Last(qs)] == qs;
  }

  /** All cuttings of a text dispatch the same frames exactly when the text is robust. */
  lemma CutsDispatchAlike(text: string, space: char -> bool)
    requires space('\r') && space('\n')
    ensures Robust(text, space) <==>
      forall a, b | Concat(a) == text && Concat(b) == text :: Dispatched(Reads(a), space) == Dispatched(Reads(b), space)
  {
    hide Reads, Dispatched, Parts;
    if Robust(text, space) {
      var k :| 0 <= k <= |text| && Parts(text[..k], text[k..], space);
      var p, s := text[..k], text[k..];
      assert text == p + s;
      forall a, b | Concat(a) == text && Concat(b) == text
        ensures Dispatched(Reads(a), space) == Dispatched(Reads(b), space)
      {
        Delivers(p, s, a, space);
        Delivers(p, s, b, space);
      }
    } else {
      var patient := TwoCuts(text, space);
      OneChunk(text);
      var one := [text];
      assert Concat(one) == text && Concat(patient) == text;
    }
  }

  /** A text without CR CR LF is among them. */
  lemma PlainIsRobust(text: string, space: char -> bool)
    requires Plain(text) && space('\r') && space('\n')
    ensures Robust(text, space)
  {
    forall a, b | Concat(a) == text && Concat(b) == text
      ensures Dispatched(Reads(a), space) == Dispatched(Reads(b), space)
    {
      ReadsWhole(a);
      ReadsWhole(b);
    }
    CutsDispatchAlike(text, space);
  }
}
