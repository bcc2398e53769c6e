/**
 * Printing calls the way models write them and reading them back. Two things can go wrong, depending on how the
 * document is cut. The parser looks for closed parameters before it looks for the bullet that ends a call, so a
 * chunk that brings the bullet of a later call and a closed parameter after it loses that call to its predecessor.
 * And a chunk may end inside a parameter: that is safe as long as the parser can tell that the parameter goes on.
 * The round trip is shown to hold for exactly the cuts that avoid both.
 */
module HeuristicRoundTrip {
  import opened Wrappers
  import opened Strings
  import opened HeuristicTool
  import opened HeuristicLaws
  import Json

  datatype Call = Call(name: string, params: seq<(string, string)>)

  // ---- printing ----

  function PrintHeader(name: string): string
  {
    [BULLET] + " " + FUNCTION + name + ">"
  }

  function PrintParam(p: (string, string)): string
  {
    PARAMETER + p.0 + ">" + p.1 + PARAMETER_END
  }

  function PrintParams(ps: seq<(string, string)>): string
  {
    if ps == [] then "" else PrintParam(ps[0]) + PrintParams(ps[1..])
  }

  function PrintCalls(cs: seq<Call>): string
  {
    if cs == [] then "" else PrintHeader(cs[0].name) + (PrintParams(cs[0].params) + PrintCalls(cs[1..]))
  }

  // ---- what can be printed and read back ----

  predicate GoodName(n: string)
  {
    n != "" && TrimSpace(n) == n && '>' !in n && |PrintHeader(n)| <= HEADER_LIMIT + 1
  }

  predicate GoodKey(k: string)
  {
    k != "" && TrimSpace(k) == k && '>' !in k
  }

  predicate GoodValue(v: string)
  {
    TrimSpace(v) == v && !Contains(v, PARAMETER_END)
  }

  predicate GoodParams(ps: seq<(string, string)>)
  {
    forall p <- ps :: GoodKey(p.0) && GoodValue(p.1)
  }

  predicate GoodCalls(cs: seq<Call>)
  {
    forall c <- cs :: GoodName(c.name) && GoodParams(c.params)
  }

  // ---- the records expected back, ids aside ----

  function ParamMap(done: map<string, string>, ps: seq<(string, string)>): map<string, string>
    decreases |ps|
  {
    if ps == [] then done else ParamMap(done[ps[0].0 := ps[0].1], ps[1..])
  }

  function Expected(cs: seq<Call>): seq<(string, Json.Object)>
  {
    if cs == [] then []
    else [(cs[0].name, Strings2Values(ParamMap(map[], cs[0].params)))] + Expected(cs[1..])
  }

  function Shape(tools: seq<ToolUse>): (r: seq<(string, Json.Object)>)
    ensures |r| == |tools|
  {
    seq(|tools|, i requires 0 <= i < |tools| => (tools[i].name, tools[i].input))
  }

  // ---- whole runs ----

  function FeedAll(codec: Json.Codec, st: State, chunks: seq<string>): Output
    decreases |chunks|
  {
    if chunks == [] then Output(st, "", [])
    else
      var o := FeedSpec(codec, st, chunks[0]);
      Prefix(o.text, o.tools, FeedAll(codec, o.state, chunks[1..]))
  }

  function RunAll(codec: Json.Codec, strip: bool, chunks: seq<string>): Output
  {
    var o := FeedAll(codec, Fresh(strip), chunks);
    Prefix(o.text, o.tools, FlushSpec(o.state))
  }

  predicate ComesBack(codec: Json.Codec, strip: bool, t: string, cs: seq<Call>, chunks: seq<string>)
  {
    RunAll(codec, strip, chunks).text == t && Shape(RunAll(codec, strip, chunks).tools) == Expected(cs)
  }

  // ---- the cuts that are safe ----

  /** With its '>' such a key makes a closing mark of its own. */
  predicate Tricky(k: string)
  {
    HasSuffix(k, "</parameter")
  }

  /**
   * After n characters of a printed parameter the parser waits for
   * more: there is no bullet and nothing that looks closed.
   */
  predicate Open(p: (string, string), n: nat)
    requires n <= |PrintParam(p)|
  {
    var b := PrintParam(p)[..n];
    BULLET !in b && !(Tricky(p.0) && '>' in b)
  }

  /**
   * A chunk that ends with r characters left, `after` of them behind the parameter, does not end inside it, or
   * leaves it open. The last closing mark of the document can be spared: what is left of it is dropped.
   */
  predicate EndsWell(p: (string, string), after: nat, r: nat)
  {
    after < r < after + |PrintParam(p)| ==>
      Open(p, |PrintParam(p)| - (r - after)) || (after == 0 && r == |PARAMETER_END| && Tricky(p.0))
  }

  /**
   * A chunk from a to r characters before the end that brings the
   * first bullet of s brings no closed parameter after it.
   */
  predicate StartsWell(s: string, a: nat, r: nat)
  {
    r < |s| <= a ==> !ParamClosed(s[..|s| - r], FindParam(s[..|s| - r], 0))
  }

  /** From the parameters of a call on: every parameter and every later call. */
  predicate SafeParams(ps: seq<(string, string)>, cs: seq<Call>, a: nat, r: nat)
    decreases |cs|, 1, |ps|
  {
    if ps == [] then StartsWell(PrintCalls(cs), a, r) && SafeCalls(cs, a, r)
    else EndsWell(ps[0], |PrintParams(ps[1..])| + |PrintCalls(cs)|, r) && SafeParams(ps[1..], cs, a, r)
  }

  /** From the header of a call on: nobody reads parameters yet when its bullet comes. */
  predicate SafeCalls(cs: seq<Call>, a: nat, r: nat)
    decreases |cs|, 0
  {
    cs == [] || SafeParams(cs[0].params, cs[1..], a, r)
  }

  /** The document ends in a parameter with such a key. */
  predicate TrickyEnd(cs: seq<Call>)
  {
    cs != [] && var ps := cs[|cs| - 1].params; ps != [] && Tricky(ps[|ps| - 1].0)
  }

  /** The characters left before chunk i. */
  function Left(chunks: seq<string>, i: nat): nat
    requires i <= |chunks|
  {
    |Join(chunks[i..])|
  }

  /** Every chunk is safe. Chunks inside the last closing mark are, once it has been spared. */
  predicate CleanCut(cs: seq<Call>, chunks: seq<string>)
  {
    forall i :: 0 <= i < |chunks| ==>
      SafeCalls(cs, Left(chunks, i), Left(chunks, i + 1)) || (TrickyEnd(cs) && Left(chunks, i) <= |PARAMETER_END|)
  }

  /** The value under such a key could not be taken for anything else when it comes on its own. */
  predicate Sober(p: (string, string))
  {
    Tricky(p.0) ==> !Contains(p.1, PARAMETER) && BULLET !in p.1
  }

  predicate SoberParams(ps: seq<(string, string)>)
  {
    forall p <- ps :: Sober(p)
  }

  predicate SoberCalls(cs: seq<Call>)
  {
    forall c <- cs :: SoberParams(c.params)
  }

  // ---- where the parser stands in the document ----

  datatype Position = InText(text: string, calls: seq<Call>)
                    | InHeader(calls: seq<Call>)
                    | InParams(name: string, done: map<string, string>, ps: seq<(string, string)>, calls: seq<Call>)
                    | InMark(name: string, done: map<string, string>)  // the last closing mark, spared

  function Remaining(pos: Position): string
  {
    match pos
    case InText(t, cs) => t + PrintCalls(cs)
    case InHeader(cs) => PrintCalls(cs)
    case InParams(_, _, ps, cs) => PrintParams(ps) + PrintCalls(cs)
    case InMark(_, _) => PARAMETER_END
  }

  function TextLeft(pos: Position): string
  {
    if pos.InText? then pos.text else ""
  }

  function CallsLeft(pos: Position): seq<(string, Json.Object)>
  {
    match pos
    case InParams(n, done, ps, cs) => [(n, Strings2Values(ParamMap(done, ps)))] + Expected(cs)
    case InMark(n, done) => [(n, Strings2Values(done))]
    case _ => Expected(pos.calls)
  }

  predicate GoodPosition(pos: Position)
  {
    match pos
    case InText(t, cs) => BULLET !in t && GoodCalls(cs)
    case InHeader(cs) => cs != [] && GoodCalls(cs)
    case InParams(n, _, ps, cs) => n != "" && GoodParams(ps) && GoodCalls(cs)
    case InMark(n, _) => n != ""
  }

  /** The parser's state says it has reached pos, its buffer holding the next characters. */
  predicate At(st: State, pos: Position, rest: string)
  {
    GoodPosition(pos) && st.buffer + rest == Remaining(pos) &&
    match pos
    case InText(_, _) => st.mode == TextMode
    case InHeader(_) => st.mode == MatchingFunction && st.buffer != ""
    case _ => st.mode == ParsingParameters && st.toolID.Some? && st.name == pos.name && st.params == pos.done
  }

  /** Nothing more can be read off the buffer. */
  predicate Waits(b: string, pos: Position)
  {
    match pos
    case InText(_, _) => BULLET !in b
    case InHeader(cs) => cs != [] && b != "" && |b| < |PrintHeader(cs[0].name)|
    case InParams(_, _, ps, _) => if ps == [] then b == "" else |b| < |PrintParam(ps[0])| && Open(ps[0], |b|)
    case InMark(_, _) => true
  }

  // ---- what is safe from a position on ----

  predicate SafePos(pos: Position, a: nat, r: nat)
  {
    match pos
    case InParams(_, _, ps, cs) => SafeParams(ps, cs, a, r)
    case InMark(_, _) => true
    case _ => SafeCalls(pos.calls, a, r)
  }

  predicate EndsTricky(pos: Position)
  {
    match pos
    case InParams(_, _, ps, cs) => if cs == [] then ps != [] && Tricky(ps[|ps| - 1].0) else TrickyEnd(cs)
    case InMark(_, _) => true
    case _ => TrickyEnd(pos.calls)
  }

  predicate Fine(pos: Position, a: nat, r: nat)
  {
    SafePos(pos, a, r) || (EndsTricky(pos) && a <= |PARAMETER_END|)
  }

  predicate CleanFrom(pos: Position, chunks: seq<string>)
  {
    forall i :: 0 <= i < |chunks| ==> Fine(pos, Left(chunks, i), Left(chunks, i + 1))
  }

  predicate SoberPos(pos: Position)
  {
    match pos
    case InParams(_, _, ps, cs) => SoberParams(ps) && SoberCalls(cs)
    case InMark(_, _) => true
    case _ => SoberCalls(pos.calls)
  }

  /** For the last n characters of the document the two positions have the same safe chunks. */
  ghost predicate Same(pos: Position, later: Position, n: nat)
  {
    (forall a: nat, r: nat :: r <= a <= n ==> (Fine(pos, a, r) <==> Fine(later, a, r)))
        && (SoberPos(pos) ==> SoberPos(later))
  }

  /** The bullets of the calls still ahead come with the chunk that starts a characters before the end, or later. */
  predicate Unread(pos: Position, a: nat)
  {
    match pos
    case InParams(_, _, _, cs) => |PrintCalls(cs)| <= a
    case InMark(_, _) => true
    case _ => pos.calls != [] ==> |PrintCalls(pos.calls[1..])| <= a
  }

  lemma SameIs(pos: Position, later: Position, n: nat, a: nat, r: nat)
    requires Same(pos, later, n) && r <= a <= n
    ensures Fine(pos, a, r) <==> Fine(later, a, r)
  {
    hide Fine;
  }

  lemma SameTwice(pos: Position, mid: Position, later: Position, n: nat)
    requires Same(pos, mid, n) && Same(mid, later, n)
    ensures Same(pos, later, n)
  {
    hide Fine, SoberPos;
  }

  lemma SameNow(pos: Position, n: nat)
    ensures Same(pos, pos, n)
  {
    hide Fine, SoberPos;
  }

  lemma ParamsShorter(ps: seq<(string, string)>, k: nat)
    requires k <= |ps|
    ensures |PrintParams(ps[k..])| <= |PrintParams(ps)|
  {
    hide PrintParam;
    if k == 0 {
      assert ps[0..] == ps;
    } else {
      ParamsShorter(ps[1..], k - 1);
      assert ps[1..][k - 1..] == ps[k..];
    }
  }

  /** What is behind the first parameters alone decides. */
  lemma SafeSkip(ps: seq<(string, string)>, cs: seq<Call>, a: nat, r: nat)
    requires ps != [] && r <= |PrintParams(ps[1..])| + |PrintCalls(cs)|
    ensures SafeParams(ps, cs, a, r) <==> SafeParams(ps[1..], cs, a, r)
  {
  }

  lemma {:induction false} SafeZero(ps: seq<(string, string)>, cs: seq<Call>)
    ensures SafeParams(ps, cs, 0, 0) && SafeCalls(cs, 0, 0)
    decreases |cs|, |ps|
  {
    hide PrintParams, PrintCalls, PrintParam, Open;
    if ps != [] {
      SafeZero(ps[1..], cs);
    } else if cs != [] {
      SafeZero(cs[0].params, cs[1..]);
    }
  }

  /** With nothing of a stretch read, everything in it is safe. */
  lemma {:induction false} SafeAhead(ps: seq<(string, string)>, cs: seq<Call>, a: nat, r: nat)
    requires |PrintParams(ps)| + |PrintCalls(cs)| <= r
    ensures SafeParams(ps, cs, a, r) && SafeCalls(cs, a, r)
    decreases |cs|, |ps|
  {
    hide PrintParam, Open, PrintHeader;
    if ps != [] {
      assert |PrintParams(ps)| == |PrintParam(ps[0])| + |PrintParams(ps[1..])|;
      SafeAhead(ps[1..], cs, a, r);
    } else if cs != [] {
      assert |PrintCalls(cs)| == |PrintHeader(cs[0].name)| + (|PrintParams(cs[0].params)| + |PrintCalls(cs[1..])|);
      SafeAhead(cs[0].params, cs[1..], a, r);
    }
  }

  // ---- strings ----

  /** No character of s but the last is '>', so a closing mark in s + u ends s or starts after it. */
  lemma EndMarkAfter(s: string, u: string, i: nat)
    requires s != "" && s[|s| - 1] == '>' && forall j :: 0 <= j < |s| - 1 ==> s[j] != '>'
    requires OccursAt(s + u, PARAMETER_END, i)
    ensures |s| <= i || (i + |PARAMETER_END| == |s| && OccursAt(s, PARAMETER_END, i))
  {
    OccursChar(s + u, PARAMETER_END, i, 11);
    if i < |s| {
      if |s| - 1 < i + 11 {
        OccursChar(s + u, PARAMETER_END, i, |s| - 1 - i);
        assert false;
      } else {
        assert i + 11 == |s| - 1;
        OccursWithin(s, u, PARAMETER_END, i);
      }
    }
  }

  /** A tag `...=x>` holds no closing mark unless x ends in one. */
  lemma TagHasNoEndMark(pre: string, x: string, i: nat)
    requires pre != "" && pre[|pre| - 1] == '=' && '>' !in pre && '>' !in x && !HasSuffix(x, "</parameter")
    ensures !OccursAt(pre + x + ">", PARAMETER_END, i)
  {
    var s := pre + x + ">";
    if OccursAt(s, PARAMETER_END, i) {
      assert s + "" == s;
      EndMarkAfter(s, "", i);
      if |x| >= 11 {
        var y := x[|x| - 11..];
        assert s[i..i + 12] == y + ">";
        SuffixIs(x, y);
        assert false;
      } else {
        OccursChar(s, PARAMETER_END, i, |pre| - 1 - i);
        assert false;
      }
    }
  }

  lemma SuffixIs(x: string, y: string)
    requires |x| >= 11 && y == x[|x| - 11..] && y + ">" == PARAMETER_END
    ensures HasSuffix(x, "</parameter")
  {
    assert y == (y + ">")[..11];
    assert PARAMETER_END[..11] == "</parameter";
  }

  /** In v followed by the closing mark the mark does not occur before the end of v. */
  lemma ValueEndsOnce(v: string, u: string, i: nat)
    requires !Contains(v, PARAMETER_END) && OccursAt(v + PARAMETER_END + u, PARAMETER_END, i)
    ensures |v| <= i
  {
    var s := v + PARAMETER_END + u;
    if i < |v| {
      if i + 12 <= |v| {
        assert s == v + (PARAMETER_END + u);
        OccursWithin(v, PARAMETER_END + u, PARAMETER_END, i);
      } else {
        OccursChar(s, PARAMETER_END, i, |v| - i);
      }
      assert false;
    }
  }

  // ---- reading a header and a parameter ----

  lemma HeaderMatches(n: string, b: string)
    requires n != "" && '>' !in n && PrintHeader(n) <= b
    ensures HeaderAt(b, 0) == Some(Span(0, 12, 12 + |n|, 13 + |n|, 13 + |n|))
    ensures b[12..12 + |n|] == n
  {
    hide TrimSpace, HasSuffix;
    var h := PrintHeader(n);
    assert forall j :: 0 <= j < |h| ==> b[j] == h[j];
    assert h == [BULLET, ' '] + FUNCTION + n + ">";
    assert b[0] == BULLET && b[1] == ' ' && b[2] == FUNCTION[0];
    assert SkipSpaces(b, 1) == 2;
    assert b[2..12] == FUNCTION;
    assert b[12..12 + |n|] == n;
    assert forall j :: 12 <= j < 12 + |n| ==> b[j] == n[j - 12];
    assert b[12 + |n|] == '>';
  }

  lemma ParamMatches(p: (string, string), b: string)
    requires GoodKey(p.0) && GoodValue(p.1) && PrintParam(p) <= b
    ensures ParamAt(b, 0) == Some(Span(0, 11, 11 + |p.0|, 12 + |p.0| + |p.1|, |PrintParam(p)|))
    ensures b[11..11 + |p.0|] == p.0 && b[12 + |p.0|..12 + |p.0| + |p.1|] == p.1
  {
    hide TrimSpace, HasSuffix, Contains, Index, IndexFrom, OccursAt;
    var e := 11 + |p.0|;
    var u := b[|PrintParam(p)|..];
    ParamLayout(p, b);
    ValueClosesAt(b, e + 1, p.1, u);
    assert IndexChar(b, '>', 11) == e;
    assert e + 1 + |p.1| + |PARAMETER_END| == |PrintParam(p)|;
  }

  lemma ParamLayout(p: (string, string), b: string)
    requires '>' !in p.0 && PrintParam(p) <= b
    ensures |b| >= 24 + |p.0| + |p.1|
    ensures OccursAt(b, PARAMETER, 0)
    ensures b[11..11 + |p.0|] == p.0 && b[11 + |p.0|] == '>'
    ensures forall j :: 11 <= j < 11 + |p.0| ==> b[j] != '>'
    ensures b[12 + |p.0|..12 + |p.0| + |p.1|] == p.1
    ensures b[12 + |p.0|..] == p.1 + PARAMETER_END + b[|PrintParam(p)|..]
  {
    var b3 := p.1 + PARAMETER_END + b[|PrintParam(p)|..];
    var b2 := ">" + b3;
    var b1 := p.0 + b2;
    assert b == PARAMETER + b1;
    assert b[..11] == PARAMETER && b[11..] == b1;
    assert b1[..|p.0|] == p.0 && b1[|p.0|..] == b2;
    assert b[11 + |p.0|..] == b2 && b[12 + |p.0|..] == b2[1..] == b3;
    assert forall j :: 11 <= j < 11 + |p.0| ==> b[j] == p.0[j - 11];
    assert b3[..|p.1|] == p.1;
  }

  lemma ValueClosesAt(b: string, from: nat, v: string, u: string)
    requires from <= |b| && b[from..] == v + PARAMETER_END + u && !Contains(v, PARAMETER_END)
    ensures IndexFrom(b, PARAMETER_END, from) == from + |v|
  {
    hide Contains;
    var s := v + PARAMETER_END + u;
    assert s[|v|..|v| + 12] == PARAMETER_END;
    OccursDrop(b, PARAMETER_END, from, |v|);
    forall i | from <= i < from + |v| ensures !OccursAt(b, PARAMETER_END, i) {
      OccursDrop(b, PARAMETER_END, from, i - from);
      if OccursAt(s, PARAMETER_END, i - from) { ValueEndsOnce(v, u, i - from); }
    }
  }

  /** The closing mark is the very end of a printed parameter. */
  lemma ParamEndsOnce(p: (string, string), i: nat)
    requires GoodKey(p.0) && GoodValue(p.1) && !Tricky(p.0) && OccursAt(PrintParam(p), PARAMETER_END, i)
    ensures i + |PARAMETER_END| == |PrintParam(p)|
  {
    hide TrimSpace, HasSuffix;
    var s := PARAMETER + p.0 + ">";
    var w := p.1 + PARAMETER_END;
    assert PrintParam(p) == s + w;
    EndMarkAfter(s, w, i);
    if i < |s| {
      TagHasNoEndMark(PARAMETER, p.0, i);
    } else {
      assert (s + w)[|s|..] == w;
      OccursDrop(s + w, PARAMETER_END, |s|, i - |s|);
      assert p.1 + PARAMETER_END + "" == w;
      ValueEndsOnce(p.1, "", i - |s|);
    }
  }

  /** A parameter that is open holds no closing mark. */
  lemma PartialParamOpen(p: (string, string), b: string)
    requires GoodKey(p.0) && GoodValue(p.1) && b <= PrintParam(p) && |b| < |PrintParam(p)| && Open(p, |b|)
    ensures !Contains(b, PARAMETER_END)
  {
    hide GoodKey, GoodValue, PrintParam;
    var q := PrintParam(p);
    assert q[..|b|] == b;
    forall i | OccursAt(b, PARAMETER_END, i) ensures false {
      OccursChar(b, PARAMETER_END, i, 11);
      assert b[i + 11] == '>';
      assert q == b + q[|b|..];
      OccursWithin(b, q[|b|..], PARAMETER_END, i);
      ParamEndsOnce(p, i);
    }
  }

  /** The '>' of a tricky key closes the parameter: what has come of its value is taken for all of it. */
  lemma EarlyTake(p: (string, string), b: string, done: map<string, string>)
    requires GoodKey(p.0) && GoodValue(p.1) && Tricky(p.0) && b <= PrintParam(p) && 12 + |p.0| <= |b| < |PrintParam(p)|
    ensures TakeParams(b, done) == ("", "", done[p.0 := TrimSpace(b[12 + |p.0|..])])
  {
    hide Contains, ParamAt, FindParam, TrimSpace, HasSuffix, Index;
    EarlyMatch(p, b);
    FindFirst(b);
    var m := ParamAt(b, 0).value;
    assert b[0..|b|] == b;
    assert Contains(b, PARAMETER_END) by { TrickyHoldsMark(p, b); }
    assert m.Key(b) == p.0 by { assert TrimSpace(p.0) == p.0; }
    assert b[m.keyEnd + 1..m.valueEnd] == b[12 + |p.0|..];
    assert b[m.end..] == "" && b[..m.start] == "";
    NothingTaken(done[p.0 := TrimSpace(b[12 + |p.0|..])]);
    AheadNothing(TakeParams("", done[p.0 := TrimSpace(b[12 + |p.0|..])]));
  }

  lemma NothingTaken(done: map<string, string>)
    ensures TakeParams("", done) == ("", "", done)
  {
  }

  lemma TrickyHoldsMark(p: (string, string), b: string)
    requires Tricky(p.0) && '>' !in p.0 && b <= PrintParam(p) && 12 + |p.0| <= |b|
    ensures Contains(b, PARAMETER_END)
  {
    hide Contains;
    var x := PARAMETER + p.0[..|p.0| - 11];
    var u := b[12 + |p.0|..];
    TrickyLayout(p, b);
    assert x + PARAMETER_END + u == x + (PARAMETER_END + u);
    assert (x + (PARAMETER_END + u))[|x|..|x| + 12] == PARAMETER_END;
    ContainsAt(b, PARAMETER_END, |x|);
  }

  lemma TrickyLayout(p: (string, string), b: string)
    requires Tricky(p.0) && b <= PrintParam(p) && 12 + |p.0| <= |b|
    ensures b == PARAMETER + p.0[..|p.0| - 11] + PARAMETER_END + b[12 + |p.0|..]
  {
    var tag, y := PARAMETER + p.0 + ">", p.0[..|p.0| - 11];
    assert p.0 == y + "</parameter";
    assert PARAMETER_END == "</parameter" + ">";
    assert tag == PARAMETER + y + PARAMETER_END;
    assert PrintParam(p) == tag + (p.1 + PARAMETER_END);
    assert b[..|tag|] == PrintParam(p)[..|tag|] == tag;
  }

  lemma EarlyMatch(p: (string, string), b: string)
    requires GoodKey(p.0) && GoodValue(p.1) && b <= PrintParam(p) && 12 + |p.0| <= |b| < |PrintParam(p)|
    ensures ParamAt(b, 0) == Some(Span(0, 11, 11 + |p.0|, |b|, |b|)) && b[11..11 + |p.0|] == p.0
  {
    hide Contains, TrimSpace, IndexFrom, Index;
    var q, from := PrintParam(p), 12 + |p.0|;
    ParamLayout(p, q);
    assert q[|q|..] == "" && q[from..] == p.1 + PARAMETER_END + "";
    assert b == q[..|b|];
    assert OccursAt(b, PARAMETER, 0) by { assert b[0..11] == q[0..11]; }
    assert b[11..11 + |p.0|] == q[11..11 + |p.0|];
    assert IndexChar(b, '>', 11) == 11 + |p.0|;
    forall i | from <= i ensures !OccursAt(b, PARAMETER_END, i) {
      if OccursAt(b, PARAMETER_END, i) {
        assert q == b + q[|b|..];
        OccursWithin(b, q[|b|..], PARAMETER_END, i);
        OccursDrop(q, PARAMETER_END, from, i - from);
        ValueEndsOnce(p.1, "", i - from);
        assert false;
      }
    }
    assert IndexFrom(b, PARAMETER_END, from) == -1;
  }

  // ---- the automaton follows the document ----

  /** A printed parameter at the front of the buffer is taken off whole. */
  lemma TakeOne(p: (string, string), b: string, done: map<string, string>)
    requires GoodKey(p.0) && GoodValue(p.1) && PrintParam(p) <= b
    ensures TakeParams(b, done) == TakeParams(b[|PrintParam(p)|..], done[p.0 := p.1])
  {
    hide Contains, ParamAt, FindParam, TrimSpace;
    var q := PrintParam(p);
    ParamMatches(p, b);
    var m := FindParam(b, 0);
    assert m == ParamAt(b, 0) by { FindFirst(b); }
    assert b[0..|q|] == q;
    assert OccursAt(q, PARAMETER_END, |q| - 12);
    assert Contains(q, PARAMETER_END) by { ContainsAt(q, PARAMETER_END, |q| - 12); }
    AheadNothing(TakeParams(b[|q|..], done[p.0 := p.1]));
  }

  lemma FindFirst(b: string)
    requires ParamAt(b, 0).Some?
    ensures FindParam(b, 0) == ParamAt(b, 0)
  {
  }

  /** When q comes first and the buffer is long enough, the buffer starts with q. */
  lemma CutFront(b: string, rest: string, q: string, after: string)
    requires b + rest == q + after && |q| <= |b|
    ensures q <= b && b == q + b[|q|..] && b[|q|..] + rest == after
  {
    assert q == (b + rest)[..|q|] == b[..|q|];
    assert after == (b + rest)[|q|..];
  }

  /** Running the automaton moves it from pos to later, emitting exactly what lies between. */
  ghost predicate Moves(o: Output, pos: Position, later: Position, rest: string, strip: bool)
  {
    && At(o.state, later, rest) && Waits(o.state.buffer, later) && o.state.strip == strip
    && o.text + TextLeft(later) == TextLeft(pos)
    && Shape(o.tools) + CallsLeft(later) == CallsLeft(pos)
    && Same(pos, later, |rest|)
  }

  lemma ShapeConcat(a: seq<ToolUse>, b: seq<ToolUse>)
    ensures Shape(a + b) == Shape(a) + Shape(b)
  {
  }

  lemma MovesPrefix(text: string, tools: seq<ToolUse>, o: Output, pos: Position, mid: Position, later: Position,
                    rest: string, strip: bool)
    requires Moves(o, mid, later, rest, strip) && Same(pos, mid, |rest|)
    requires text + TextLeft(mid) == TextLeft(pos) && Shape(tools) + CallsLeft(mid) == CallsLeft(pos)
    ensures Moves(Prefix(text, tools, o), pos, later, rest, strip)
  {
    hide At, Waits, Shape, CallsLeft, TextLeft, Same;
    SameTwice(pos, mid, later, |rest|);
    ShapeConcat(tools, o.tools);
    assert text + o.text + TextLeft(later) == text + (o.text + TextLeft(later));
    assert Shape(tools) + Shape(o.tools) + CallsLeft(later) == Shape(tools) + (Shape(o.tools) + CallsLeft(later));
  }

  lemma {:induction false} DriveFollows(st: State, pos: Position, rest: string, a: nat) returns (later: Position)
    requires At(st, pos, rest) && SafePos(pos, a, |rest|) && Unread(pos, a) && NoControl(st.strip, st.buffer)
    ensures Moves(Drive(st), pos, later, rest, st.strip)
    decreases |st.buffer|, Rank(st.mode), 1
  {
    hide SafeCalls, SafeParams, NoControl, Moves, Drive;
    match pos
    case InText(t, cs) => later := FollowText(st, t, cs, rest, a);
    case InHeader(cs) => later := FollowHeader(st, cs, rest, a);
    case InParams(n, done, ps, cs) => later := FollowParams(st, n, done, ps, cs, rest, a);
    case InMark(n, done) =>
      later := pos;
      MarkWaits(st, pos, rest);
  }

  lemma {:induction false} FollowText(st: State, t: string, cs: seq<Call>, rest: string, a: nat)
      returns (later: Position)
    requires At(st, InText(t, cs), rest) && SafeCalls(cs, a, |rest|) && Unread(InText(t, cs), a)
             && NoControl(st.strip, st.buffer)
    ensures Moves(Drive(st), InText(t, cs), later, rest, st.strip)
    decreases |st.buffer|, Rank(st.mode), 0
  {
    hide SafeCalls, NoControl, Moves, Drive, At, GoodCalls, PrintCalls;
    if BULLET !in st.buffer {
      later := InText(t, cs);
      TextWaits(st, t, cs, rest);
    } else {
      TextStep(st, t, cs, rest);
      var st' := st.(mode := MatchingFunction, buffer := st.buffer[|t|..]);
      later := DriveFollows(st', InHeader(cs), rest, a);
      TextEmitted(t, cs, |rest|);
      MovesPrefix(t, [], Drive(st'), InText(t, cs), InHeader(cs), later, rest, st.strip);
    }
  }

  lemma TextStep(st: State, t: string, cs: seq<Call>, rest: string)
    requires At(st, InText(t, cs), rest) && NoControl(st.strip, st.buffer) && BULLET in st.buffer
    ensures st.mode == TextMode && |t| <= |st.buffer|
    ensures var st' := st.(mode := MatchingFunction, buffer := st.buffer[|t|..]);
            At(st', InHeader(cs), rest) && NoControl(st.strip, st'.buffer) && Drive(st) == Prefix(t, [], Drive(st'))
  {
    hide NoControl, Drive, GoodCalls, IndexChar, PrintCalls;
    var b := st.buffer;
    TextEnds(b, rest, t, cs);
    assert b == t + b[|t|..];
    NoControlSuffix(st.strip, b, |t|);
    DriveToBullet(st);
  }

  lemma TextEmitted(t: string, cs: seq<Call>, n: nat)
    ensures t + TextLeft(InHeader(cs)) == TextLeft(InText(t, cs))
    ensures Shape([]) + CallsLeft(InHeader(cs)) == CallsLeft(InText(t, cs))
    ensures Same(InText(t, cs), InHeader(cs), n)
  {
    hide SafeCalls;
  }

  lemma TextWaits(st: State, t: string, cs: seq<Call>, rest: string)
    requires At(st, InText(t, cs), rest) && NoControl(st.strip, st.buffer) && BULLET !in st.buffer
    ensures Moves(Drive(st), InText(t, cs), InText(t, cs), rest, st.strip)
  {
    hide GoodCalls, PrintCalls, Expected, Same;
    SameNow(InText(t, cs), |rest|);
    assert st.strip ==> LastControlStart(st.buffer) == -1;
    assert Drive(st) == Output(st, "", []);
    assert Shape([]) == [];
  }

  lemma DriveToBullet(st: State)
    requires st.mode == TextMode && IndexChar(st.buffer, BULLET, 0) != -1
    ensures var idx := IndexChar(st.buffer, BULLET, 0);
            Drive(st) == Prefix(st.buffer[..idx], [], Drive(st.(mode := MatchingFunction, buffer := st.buffer[idx..])))
  {
    hide IndexChar;
  }

  /** The first bullet in the buffer is where the text ends and the calls begin. */
  lemma TextEnds(b: string, rest: string, t: string, cs: seq<Call>)
    requires b + rest == t + PrintCalls(cs) && BULLET !in t && BULLET in b
    ensures cs != [] && IndexChar(b, BULLET, 0) == |t| && b[..|t|] == t && b[|t|..] + rest == PrintCalls(cs)
  {
    var s := b + rest;
    var i :| 0 <= i < |b| && b[i] == BULLET;
    assert s[..|t|] == t && s[|t|..] == PrintCalls(cs);
    assert s[i] == BULLET && forall j :: 0 <= j < |t| ==> s[j] != BULLET;
    assert |t| <= i < |s|;
    assert PrintCalls(cs)[0] == BULLET;
    assert s[|t|] == BULLET;
    assert b[|t|] == BULLET;
    assert forall j :: 0 <= j < |t| ==> b[j] == t[j];
  }

  lemma {:induction false} FollowHeader(st: State, cs: seq<Call>, rest: string, a: nat) returns (later: Position)
    requires At(st, InHeader(cs), rest) && SafeCalls(cs, a, |rest|) && Unread(InHeader(cs), a)
             && NoControl(st.strip, st.buffer)
    ensures Moves(Drive(st), InHeader(cs), later, rest, st.strip)
    decreases |st.buffer|, Rank(st.mode), 0
  {
    hide SafeParams, NoControl, Moves, Drive, At, GoodCalls, PrintHeader, PrintCalls;
    HeaderHasCall(st, cs, rest);
    if |st.buffer| < |PrintHeader(cs[0].name)| {
      later := InHeader(cs);
      HeaderWaits(st, cs, rest);
    } else {
      HeaderStep(st, cs, rest);
      var entered := Entered(st, cs[0].name);
      var mid := InParams(cs[0].name, map[], cs[0].params, cs[1..]);
      later := DriveFollows(entered, mid, rest, a);
      HeaderEmitted(cs, |rest|);
      MovesPrefix("", [], Drive(entered), InHeader(cs), mid, later, rest, st.strip);
      PrefixNothing(Drive(entered));
    }
  }

  lemma HeaderHasCall(st: State, cs: seq<Call>, rest: string)
    requires At(st, InHeader(cs), rest)
    ensures cs != []
  {
  }

  /** The state right after the header of a call has been read. */
  function Entered(st: State, n: string): State
    requires |PrintHeader(n)| <= |st.buffer|
  {
    State(ParsingParameters, st.buffer[|PrintHeader(n)|..], Some(st.serial), n, map[], st.strip, st.serial + 1)
  }

  lemma HeaderStep(st: State, cs: seq<Call>, rest: string)
    requires At(st, InHeader(cs), rest) && NoControl(st.strip, st.buffer)
    requires |PrintHeader(cs[0].name)| <= |st.buffer|
    ensures var st' := Entered(st, cs[0].name);
            At(st', InParams(cs[0].name, map[], cs[0].params, cs[1..]), rest)
            && NoControl(st.strip, st'.buffer) && |st'.buffer| < |st.buffer| && Drive(st) == Drive(st')
  {
    hide NoControl, Drive, PrintHeader, GoodName, GoodParams, PrintParams;
    var b := st.buffer;
    var n := cs[0].name;
    var h := PrintHeader(n);
    var after := PrintParams(cs[0].params) + PrintCalls(cs[1..]);
    assert b + rest == h + after;
    assert h == (b + rest)[..|h|] == b[..|h|];
    assert b == h + b[|h|..] && b[|h|..] + rest == after;
    HeaderEntered(st, n);
    NoControlSuffix(st.strip, b, |h|);
    NameNonEmpty(n);
    HeaderNonEmpty(n);
  }

  lemma HeaderEmitted(cs: seq<Call>, n: nat)
    requires cs != []
    ensures var mid := InParams(cs[0].name, map[], cs[0].params, cs[1..]);
            && "" + TextLeft(mid) == TextLeft(InHeader(cs)) && Shape([]) + CallsLeft(mid) == CallsLeft(InHeader(cs))
            && Same(InHeader(cs), mid, n)
  {
    hide Same;
    assert Shape([]) == [];
    SameEntered(cs, n);
  }

  lemma SameEntered(cs: seq<Call>, n: nat)
    requires cs != []
    ensures Same(InHeader(cs), InParams(cs[0].name, map[], cs[0].params, cs[1..]), n)
  {
    hide SafeParams, Tricky, SoberParams;
    var mid := InParams(cs[0].name, map[], cs[0].params, cs[1..]);
    assert |cs| > 1 ==> cs[1..][|cs| - 2] == cs[|cs| - 1];
    assert EndsTricky(InHeader(cs)) <==> EndsTricky(mid);
    assert SoberPos(InHeader(cs)) ==> SoberPos(mid);
  }

  lemma NameNonEmpty(n: string)
    requires GoodName(n)
    ensures n != ""
  {
  }

  lemma HeaderNonEmpty(n: string)
    ensures PrintHeader(n) != ""
  {
  }

  lemma HeaderWaits(st: State, cs: seq<Call>, rest: string)
    requires At(st, InHeader(cs), rest) && |st.buffer| < |PrintHeader(cs[0].name)|
    ensures Moves(Drive(st), InHeader(cs), InHeader(cs), rest, st.strip)
  {
    hide FindHeader, PrintHeader, GoodCalls, Remaining, IndexChar, TakeParams, EndOfCall, SplitControlTail, Same;
    SameNow(InHeader(cs), |rest|);
    HeaderStillPartial(st, cs, rest);
    assert Drive(st) == Output(st, "", []);
    assert Shape([]) == [];
  }

  lemma HeaderStillPartial(st: State, cs: seq<Call>, rest: string)
    requires At(st, InHeader(cs), rest) && |st.buffer| < |PrintHeader(cs[0].name)|
    ensures FindHeader(st.buffer, 0) == None && |st.buffer| <= HEADER_LIMIT
  {
    hide FindHeader, PrintHeader, GoodName, PrintParams;
    var b, h := st.buffer, PrintHeader(cs[0].name);
    assert b + rest == h + (PrintParams(cs[0].params) + PrintCalls(cs[1..]));
    assert b == (b + rest)[..|b|] == h[..|b|];
    PartialHeaderWaits(cs[0].name, b);
  }

  lemma PartialHeaderWaits(n: string, b: string)
    requires GoodName(n) && b <= PrintHeader(n) && |b| < |PrintHeader(n)|
    ensures FindHeader(b, 0) == None && |b| <= HEADER_LIMIT
  {
    hide TrimSpace, HasSuffix, FindHeader;
    var h := PrintHeader(n);
    var body := [BULLET] + " " + FUNCTION + n;
    assert h == body + ">" && b <= body;
    assert '>' !in body;
    NoAngleNoHeader(b);
  }

  lemma NoAngleNoHeader(b: string)
    requires '>' !in b
    ensures FindHeader(b, 0) == None
  {
    hide FindHeader;
    forall i | 0 <= i < |b| ensures HeaderAt(b, i) == None {
    }
  }

  lemma HeaderEntered(st: State, n: string)
    requires st.mode == MatchingFunction && GoodName(n) && PrintHeader(n) <= st.buffer
    ensures Drive(st) == Drive(State(ParsingParameters, st.buffer[|PrintHeader(n)|..], Some(st.serial), n, map[],
                                     st.strip, st.serial + 1))
  {
    hide Drive, TrimSpace, HasSuffix, HeaderAt, FindHeader;
    HeaderMatches(n, st.buffer);
    FindFirstHeader(st.buffer);
    DriveIntoCall(st);
    assert |PrintHeader(n)| == 13 + |n|;
  }

  lemma FindFirstHeader(b: string)
    requires HeaderAt(b, 0).Some?
    ensures FindHeader(b, 0) == HeaderAt(b, 0)
  {
  }

  lemma DriveIntoCall(st: State)
    requires st.mode == MatchingFunction && FindHeader(st.buffer, 0).Some?
    ensures Drive(st) == Drive(EnterCall(st, FindHeader(st.buffer, 0).value))
  {
    hide FindHeader, EnterCall;
  }

  lemma {:induction false} FollowParams(st: State, n: string, done: map<string, string>, ps: seq<(string, string)>,
                                        cs: seq<Call>, rest: string, a: nat) returns (later: Position)
    requires At(st, InParams(n, done, ps, cs), rest) && SafeParams(ps, cs, a, |rest|) && |PrintCalls(cs)| <= a
             && NoControl(st.strip, st.buffer)
    ensures Moves(Drive(st), InParams(n, done, ps, cs), later, rest, st.strip)
    decreases |st.buffer|, Rank(st.mode), 0
  {
    hide SafeParams, SafeCalls, NoControl, Moves, TakeParams, Drive, At, PrintParam, PrintCalls;
    var pos := InParams(n, done, ps, cs);
    if ps == [] {
      if st.buffer == "" {
        later := pos;
        ParamsDone(st, pos, rest);
      } else {
        CallSafe(st, n, done, cs, rest, a);
        CallStep(st, n, done, cs, rest, a);
        later := DriveFollows(st.(mode := TextMode), InText("", cs), rest, a);
        MovesPrefix("", [BuildTool(st)], Drive(st.(mode := TextMode)), pos, InText("", cs), later, rest, st.strip);
      }
    } else if |PrintParam(ps[0])| <= |st.buffer| {
      var st' := st.(buffer := st.buffer[|PrintParam(ps[0])|..], params := done[ps[0].0 := ps[0].1]);
      var mid := InParams(n, st'.params, ps[1..], cs);
      ParamStep(st, n, done, ps, cs, rest);
      SafeSkipped(ps, cs, a, |rest|);
      later := DriveFollows(st', mid, rest, a);
      MovesPrefix("", [], Drive(st'), pos, mid, later, rest, st.strip);
      PrefixNothing(Drive(st'));
    } else {
      later := PartStep(st, n, done, ps, cs, rest, a);
    }
  }

  lemma SafeSkipped(ps: seq<(string, string)>, cs: seq<Call>, a: nat, r: nat)
    requires ps != [] && SafeParams(ps, cs, a, r)
    ensures SafeParams(ps[1..], cs, a, r)
    ensures EndsWell(ps[0], |PrintParams(ps[1..])| + |PrintCalls(cs)|, r)
  {
    hide EndsWell;
  }

  /** A parameter that is there whole is taken, and the parser goes on behind it. */
  lemma ParamStep(st: State, n: string, done: map<string, string>, ps: seq<(string, string)>, cs: seq<Call>,
                  rest: string)
    requires At(st, InParams(n, done, ps, cs), rest) && ps != [] && |PrintParam(ps[0])| <= |st.buffer|
             && NoControl(st.strip, st.buffer)
    ensures var st' := st.(buffer := st.buffer[|PrintParam(ps[0])|..], params := done[ps[0].0 := ps[0].1]);
            var mid := InParams(n, st'.params, ps[1..], cs);
            && At(st', mid, rest) && NoControl(st.strip, st'.buffer) && |st'.buffer| < |st.buffer|
               && Drive(st) == Drive(st')
            && Shape([]) + CallsLeft(mid) == CallsLeft(InParams(n, done, ps, cs))
            && "" + TextLeft(mid) == TextLeft(InParams(n, done, ps, cs))
            && Same(InParams(n, done, ps, cs), mid, |rest|)
            && |rest| <= |PrintParams(ps[1..])| + |PrintCalls(cs)|
  {
    hide NoControl, TakeParams, GoodKey, GoodValue, PrintParam, PrintCalls, Drive, Same, GoodCalls, Expected,
         Strings2Values;
    var b, q := st.buffer, PrintParam(ps[0]);
    var after := PrintParams(ps[1..]) + PrintCalls(cs);
    assert b + rest == q + after;
    CutFront(b, rest, q, after);
    TakeOne(ps[0], b, done);
    DriveTakes(st, st.(buffer := b[|q|..], params := done[ps[0].0 := ps[0].1]));
    NoControlSuffix(st.strip, b, |q|);
    assert Shape([]) == [];
    assert |q| > 0 by { ParamNonEmpty(ps[0]); }
    SameBehind(n, done, ps, cs, done[ps[0].0 := ps[0].1], |rest|);
  }

  lemma ParamNonEmpty(p: (string, string))
    ensures |PrintParam(p)| == 24 + |p.0| + |p.1|
  {
  }

  /** The automaton does not care when parameters were taken. */
  lemma DriveTakes(st: State, st': State)
    requires st.mode == ParsingParameters && st' == st.(buffer := st'.buffer, params := st'.params)
    requires TakeParams(st.buffer, st.params) == TakeParams(st'.buffer, st'.params)
    ensures Drive(st) == Drive(st')
  {
    hide TakeParams, EndOfCall;
  }

  lemma SameBehind(n: string, done: map<string, string>, ps: seq<(string, string)>, cs: seq<Call>,
                   done': map<string, string>, k: nat)
    requires ps != [] && k <= |PrintParams(ps[1..])| + |PrintCalls(cs)|
    ensures Same(InParams(n, done, ps, cs), InParams(n, done', ps[1..], cs), k)
  {
    hide SafeParams, PrintParams, PrintCalls, Tricky, Sober;
    var pos, mid := InParams(n, done, ps, cs), InParams(n, done', ps[1..], cs);
    forall a: nat, r: nat | r <= a <= k ensures Fine(pos, a, r) <==> Fine(mid, a, r) {
      SafeSkip(ps, cs, a, r);
      if ps[1..] == [] && cs == [] {
        NothingPrinted();
        SafeZero(ps, cs);
      } else {
        assert cs == [] ==> ps[1..][|ps| - 2] == ps[|ps| - 1];
      }
    }
  }

  lemma NothingPrinted()
    ensures PrintParams([]) == "" && PrintCalls([]) == ""
  {
  }

  lemma ParamsDone(st: State, pos: Position, rest: string)
    requires pos.InParams? && pos.ps == [] && At(st, pos, rest) && st.buffer == ""
    ensures Moves(Drive(st), pos, pos, rest, st.strip)
  {
    hide TakeParams, EndOfCall, Same, GoodCalls, PrintCalls, Expected;
    SameNow(pos, |rest|);
    NothingTaken(st.params);
    NoEndYet("");
    assert Shape([]) == [];
  }

  /** Behind the last parameter comes a bullet, and with no closed parameter in sight the call is over. */
  lemma CallStep(st: State, n: string, done: map<string, string>, cs: seq<Call>, rest: string, a: nat)
    requires At(st, InParams(n, done, [], cs), rest) && !ParamClosed(st.buffer, FindParam(st.buffer, 0))
             && |PrintCalls(cs)| <= a && st.buffer != ""
    ensures cs != [] && Unread(InText("", cs), a)
    ensures st.toolID.Some? && At(st.(mode := TextMode), InText("", cs), rest) && st.mode == ParsingParameters
    ensures Drive(st) == Prefix("", [BuildTool(st)], Drive(st.(mode := TextMode)))
    ensures Shape([BuildTool(st)]) + CallsLeft(InText("", cs)) == CallsLeft(InParams(n, done, [], cs))
    ensures "" + TextLeft(InText("", cs)) == TextLeft(InParams(n, done, [], cs))
    ensures Same(InParams(n, done, [], cs), InText("", cs), |rest|)
  {
    hide SafeCalls, Drive, TakeParams, GoodCalls, FindParam, Contains, Same, Expected, Strings2Values, PrintCalls, At;
    CallThere(st, n, done, cs, rest);
    StaysTaken(st.buffer, done);
    CallEnds(st);
    assert st.(buffer := st.buffer, params := done) == st;
    OneCallLess(st, cs);
    SameCall(n, done, cs, |rest|);
    LaterIsShorter(cs);
  }

  lemma CallThere(st: State, n: string, done: map<string, string>, cs: seq<Call>, rest: string)
    requires At(st, InParams(n, done, [], cs), rest) && st.buffer != ""
    ensures cs != [] && st.buffer[0] == BULLET && |rest| < |PrintCalls(cs)|
    ensures st.toolID.Some? && st.mode == ParsingParameters && st.name == n && n != "" && st.params == done
    ensures At(st.(mode := TextMode), InText("", cs), rest)
  {
    hide GoodCalls, PrintCalls;
    var s := PrintCalls(cs);
    assert "" + s == s && PrintParams([]) + s == s;
    assert st.buffer[0] == s[0];
    FirstIsBullet(cs);
  }

  lemma OneCallLess(st: State, cs: seq<Call>)
    requires st.toolID.Some?
    ensures Shape([BuildTool(st)]) + CallsLeft(InText("", cs)) == CallsLeft(InParams(st.name, st.params, [], cs))
    ensures "" + TextLeft(InText("", cs)) == TextLeft(InParams(st.name, st.params, [], cs))
  {
    hide Strings2Values, Expected;
  }

  lemma CallSafe(st: State, n: string, done: map<string, string>, cs: seq<Call>, rest: string, a: nat)
    requires At(st, InParams(n, done, [], cs), rest) && st.buffer != "" && |PrintCalls(cs)| <= a
    ensures SafeParams([], cs, a, |rest|) <==>
            !ParamClosed(st.buffer, FindParam(st.buffer, 0))
            && SafeCalls(cs, a, |rest|)
  {
    hide SafeCalls, FindParam, PrintCalls, Contains, GoodCalls;
    var b, s := st.buffer, PrintCalls(cs);
    assert PrintParams([]) + s == s;
    assert b == s[..|s| - |rest|];
  }

  lemma FirstIsBullet(cs: seq<Call>)
    ensures PrintCalls(cs) != "" ==> cs != [] && PrintCalls(cs)[0] == BULLET
    ensures PrintCalls(cs) == "" ==> cs == []
  {
  }

  lemma LaterIsShorter(cs: seq<Call>)
    requires cs != []
    ensures |PrintCalls(cs[1..])| + |PrintHeader(cs[0].name)| + |PrintParams(cs[0].params)| == |PrintCalls(cs)|
            && |PrintHeader(cs[0].name)| >= 13
  {
  }

  lemma StaysTaken(b: string, done: map<string, string>)
    requires !ParamClosed(b, FindParam(b, 0))
    ensures TakeParams(b, done) == ("", b, done)
  {
    hide FindParam, Contains;
  }

  lemma SameCall(n: string, done: map<string, string>, cs: seq<Call>, k: nat)
    requires cs != [] && k < |PrintCalls(cs)|
    ensures Same(InParams(n, done, [], cs), InText("", cs), k)
  {
    hide SafeCalls, PrintCalls, Tricky, Sober;
  }

  lemma CallEnds(st: State)
    requires st.mode == ParsingParameters && st.toolID.Some? && st.name != ""
    requires var r := TakeParams(st.buffer, st.params); r.0 == "" && r.1 != "" && r.1[0] == BULLET
    ensures var r := TakeParams(st.buffer, st.params);
            var st' := st.(buffer := r.1, params := r.2);
            Drive(st) == Prefix("", [BuildTool(st')], Drive(st'.(mode := TextMode)))
  {
    hide TakeParams, EndOfCall;
    EndAtBullet(TakeParams(st.buffer, st.params).1);
  }

  lemma EndAtBullet(b: string)
    requires b != "" && b[0] == BULLET
    ensures EndOfCall(b) == ("", b, true)
  {
  }

  /**
   * Less than a whole parameter is there: the parser waits, or takes it for whole just before the document's last mark.
   */
  lemma PartStep(st: State, n: string, done: map<string, string>, ps: seq<(string, string)>, cs: seq<Call>,
                 rest: string, a: nat)
      returns (later: Position)
    requires At(st, InParams(n, done, ps, cs), rest) && ps != [] && |st.buffer| < |PrintParam(ps[0])|
             && SafeParams(ps, cs, a, |rest|)
    ensures Moves(Drive(st), InParams(n, done, ps, cs), later, rest, st.strip)
  {
    hide Drive, TakeParams, GoodKey, GoodValue, PrintParam, SafeParams, Moves, Open, EndsWell, Tricky, At, PrintCalls;
    var b, p := st.buffer, ps[0];
    PartialIs(st, n, done, ps, cs, rest);
    SafeSkipped(ps, cs, a, |rest|);
    PartEnds(p, b, |PrintParams(ps[1..])| + |PrintCalls(cs)|, |rest|);
    if Open(p, |b|) {
      later := InParams(n, done, ps, cs);
      PartWaits(st, later, rest);
    } else {
      later := InMark(n, done[p.0 := p.1]);
      MarkSpared(st, n, done, ps, cs, rest);
    }
  }

  lemma PartialIs(st: State, n: string, done: map<string, string>, ps: seq<(string, string)>, cs: seq<Call>,
                  rest: string)
    requires At(st, InParams(n, done, ps, cs), rest) && ps != [] && |st.buffer| < |PrintParam(ps[0])|
    ensures st.buffer <= PrintParam(ps[0]) && GoodKey(ps[0].0) && GoodValue(ps[0].1)
    ensures |st.buffer| + |rest| == |PrintParam(ps[0])| + (|PrintParams(ps[1..])| + |PrintCalls(cs)|)
    ensures rest == PrintParam(ps[0])[|st.buffer|..] + (PrintParams(ps[1..]) + PrintCalls(cs))
  {
    hide GoodKey, GoodValue, PrintParam, PrintCalls;
    var b, q, after := st.buffer, PrintParam(ps[0]), PrintParams(ps[1..]) + PrintCalls(cs);
    assert b + rest == q + after;
    assert b == (b + rest)[..|b|] == q[..|b|];
    assert rest == (b + rest)[|b|..] == q[|b|..] + after;
  }

  lemma PartEnds(p: (string, string), b: string, after: nat, r: nat)
    requires EndsWell(p, after, r) && b <= PrintParam(p) && |b| < |PrintParam(p)| && |b| + r == |PrintParam(p)| + after
    ensures Open(p, |b|) || (after == 0 && r == |PARAMETER_END| && Tricky(p.0))
  {
    hide PrintParam, Tricky;
    if b == "" { assert PrintParam(p)[..0] == ""; }
  }

  lemma PartWaits(st: State, pos: Position, rest: string)
    requires pos.InParams? && pos.ps != [] && At(st, pos, rest) && |st.buffer| < |PrintParam(pos.ps[0])|
             && Open(pos.ps[0], |st.buffer|)
    ensures Moves(Drive(st), pos, pos, rest, st.strip)
  {
    hide TakeParams, GoodKey, GoodValue, PrintParam, Same, Tricky, Drive, TrimSpace, Expected, Strings2Values, ParamMap,
         PrintCalls, Contains, FindParam;
    var b, p := st.buffer, pos.ps[0];
    SameNow(pos, |rest|);
    PartialIs(st, pos.name, pos.done, pos.ps, pos.calls, rest);
    PartialParamOpen(p, b);
    assert PrintParam(p)[..|b|] == b;
    UnclosedStays(b, st.params);
    PartialParamShape(p, b);
    CallContinues(st);
    assert st.(buffer := b, params := st.params) == st;
    assert Shape([]) == [];
  }

  lemma UnclosedStays(b: string, done: map<string, string>)
    requires !Contains(b, PARAMETER_END)
    ensures TakeParams(b, done) == ("", b, done)
  {
    hide Contains, FindParam;
    var m := FindParam(b, 0);
    if ParamClosed(b, m) {
      ContainsInner(b, m.value.start, m.value.end, PARAMETER_END);
    }
  }

  lemma PartialParamShape(p: (string, string), b: string)
    requires b <= PrintParam(p)
    ensures b != "" ==> "<" <= TrimSpace(b)
  {
    hide TrimSpace;
    if b != "" {
      assert b[0] == PrintParam(p)[0] == '<';
      TrimKeepsAngle(b);
    }
  }

  lemma TrimKeepsAngle(b: string)
    requires b != "" && b[0] == '<'
    ensures "<" <= TrimSpace(b)
  {
    hide IsSpace;
    InkIsNoSpace('<');
    assert TrimLeft(b) == b;
    TrimRightIsPrefix(b);
    assert !IsSpace(b[0]) && TrimRight(b) != "";
  }

  lemma CallContinues(st: State)
    requires st.mode == ParsingParameters
    requires var r := TakeParams(st.buffer, st.params);
             r.0 == "" && BULLET !in r.1 && (r.1 != "" ==> "<" <= TrimSpace(r.1))
    ensures var r := TakeParams(st.buffer, st.params); Drive(st) == Output(st.(buffer := r.1, params := r.2), "", [])
  {
    hide TakeParams, EndOfCall;
    NoEndYet(TakeParams(st.buffer, st.params).1);
  }

  lemma NoEndYet(b: string)
    requires BULLET !in b && (b != "" ==> "<" <= TrimSpace(b))
    ensures EndOfCall(b) == ("", b, false)
  {
    hide TrimSpace, Contains;
  }

  /** All of the document's last value is there, and the key has closed the parameter. */
  lemma MarkSpared(st: State, n: string, done: map<string, string>, ps: seq<(string, string)>, cs: seq<Call>,
                   rest: string)
    requires At(st, InParams(n, done, ps, cs), rest) && ps != [] && |st.buffer| < |PrintParam(ps[0])|
    requires |PrintParams(ps[1..])| + |PrintCalls(cs)| == 0 && |rest| == |PARAMETER_END| && Tricky(ps[0].0)
    ensures Moves(Drive(st), InParams(n, done, ps, cs), InMark(n, done[ps[0].0 := ps[0].1]), rest, st.strip)
  {
    hide TakeParams, GoodKey, GoodValue, Same, Tricky, Drive, TrimSpace, PrintCalls, Strings2Values;
    var b, p := st.buffer, ps[0];
    PartialIs(st, n, done, ps, cs, rest);
    ParamNonEmpty(p);
    FirstIsBullet(cs);
    NoneLeft(ps[1..]);
    ValueThere(p, b);
    EarlyTake(p, b, done);
    var st' := st.(buffer := "", params := done[p.0 := p.1]);
    NothingTaken(st'.params);
    DriveTakes(st, st');
    CallContinues(st');
    assert st'.(buffer := "", params := st'.params) == st';
    assert rest == PARAMETER_END by { assert rest == PrintParam(p)[|b|..] + ("" + ""); }
    assert Shape([]) == [] && Expected([]) == [];
    assert ps == [p] && ParamMap(done, ps) == ParamMap(done[p.0 := p.1], []);
    MarkSame(n, done, ps, done[p.0 := p.1]);
  }

  lemma NoneLeft(ps: seq<(string, string)>)
    ensures PrintParams(ps) == "" ==> ps == []
  {
  }

  lemma ValueThere(p: (string, string), b: string)
    requires GoodKey(p.0) && GoodValue(p.1) && b <= PrintParam(p) && |b| == 12 + |p.0| + |p.1|
    ensures TrimSpace(b[12 + |p.0|..]) == p.1 && PrintParam(p)[|b|..] == PARAMETER_END
  {
    hide TrimSpace;
    var q := PrintParam(p);
    ParamLayout(p, q);
    assert b == q[..|b|];
    assert b[12 + |p.0|..] == q[12 + |p.0|..12 + |p.0| + |p.1|];
    assert q == (PARAMETER + p.0 + ">" + p.1) + PARAMETER_END;
  }

  lemma MarkSame(n: string, done: map<string, string>, ps: seq<(string, string)>, done': map<string, string>)
    requires ps != [] && Tricky(ps[|ps| - 1].0)
    ensures Same(InParams(n, done, ps, []), InMark(n, done'), |PARAMETER_END|)
  {
    hide Tricky, SafeParams;
  }

  /** What is left of the last mark waits, to be dropped. */
  lemma MarkWaits(st: State, pos: Position, rest: string)
    requires pos.InMark? && At(st, pos, rest)
    ensures Moves(Drive(st), pos, pos, rest, st.strip)
  {
    hide TakeParams, Same, Drive, TrimSpace, FindParam, Contains;
    var b := st.buffer;
    SameNow(pos, |rest|);
    assert b == (b + rest)[..|b|] == PARAMETER_END[..|b|];
    MarkIsNoParam(b);
    StaysTaken(b, st.params);
    if b != "" { TrimKeepsAngle(b); }
    CallContinues(st);
    assert st.(buffer := b, params := st.params) == st;
    assert Shape([]) == [];
  }

  lemma MarkIsNoParam(b: string)
    requires b <= PARAMETER_END
    ensures FindParam(b, 0) == None && BULLET !in b
  {
    assert PARAMETER_END[0..11][1] == '/' && PARAMETER[1] == 'p' && PARAMETER_END[1..12][0] == '/'
        && PARAMETER[0] == '<';
    forall i | 0 <= i < |b| ensures ParamAt(b, i) == None {
      assert i + 11 <= |b| ==> b[i..i + 11] == PARAMETER_END[i..i + 11];
    }
  }

  // ---- one feed ----

  /** What a waiting parser holds comes before every bullet that is still to count. */
  lemma UnreadWhileWaiting(st: State, pos: Position, rest: string)
    requires At(st, pos, rest) && Waits(st.buffer, pos)
    ensures Unread(pos, |rest|)
  {
    hide GoodCalls, GoodParams, PrintParam, PrintHeader, Open;
    match pos
    case InText(t, cs) =>
      if cs != [] {
        LaterIsShorter(cs);
        TextHolds(st.buffer, rest, t, cs);
      }
    case InHeader(cs) =>
      LaterIsShorter(cs);
    case InParams(_, _, ps, cs) =>
      if ps != [] { assert |PrintParams(ps)| == |PrintParam(ps[0])| + |PrintParams(ps[1..])|; }
    case InMark(_, _) =>
  }

  lemma TextHolds(b: string, rest: string, t: string, cs: seq<Call>)
    requires b + rest == t + PrintCalls(cs) && BULLET !in b && cs != []
    ensures |b| <= |t| && |PrintCalls(cs)| <= |rest|
  {
    hide PrintCalls;
    FirstIsBullet(cs);
    assert (t + PrintCalls(cs))[|t|] == BULLET;
    assert forall j :: 0 <= j < |b| ==> (b + rest)[j] == b[j];
  }

  lemma FeedFollows(codec: Json.Codec, st: State, pos: Position, x: string, rest: string) returns (later: Position)
    requires At(st, pos, x + rest) && Waits(st.buffer, pos) && Plain(st.strip, Remaining(pos))
             && SafePos(pos, |x + rest|, |rest|)
    ensures Moves(FeedSpec(codec, st, x), pos, later, rest, st.strip)
    ensures Plain(st.strip, Remaining(later))
  {
    hide Drive, SafePos, Unread, Waits, Plain, NoControl, FeedSpec, Remaining, GoodPosition, Shape, CallsLeft, TextLeft,
         Same;
    var b := st.buffer + x;
    var st1 := st.(buffer := b);
    FeedIsDrive(codec, st, pos, x, rest);
    UnreadWhileWaiting(st, pos, x + rest);
    later := DriveFollows(st1, pos, rest, |x + rest|);
    var b' := Drive(st1).state.buffer;
    DriveSuffix(st1);
    assert b' + rest == (b + rest)[|b| - |b'|..];
    PlainSuffix(st.strip, b + rest, |b| - |b'|);
  }

  lemma FeedIsDrive(codec: Json.Codec, st: State, pos: Position, x: string, rest: string)
    requires At(st, pos, x + rest) && Plain(st.strip, Remaining(pos))
    ensures FeedSpec(codec, st, x) == Drive(st.(buffer := st.buffer + x))
    ensures At(st.(buffer := st.buffer + x), pos, rest) && NoControl(st.strip, st.buffer + x)
    ensures st.buffer + x + rest == Remaining(pos)
  {
    hide Drive, FeedSpec, Remaining, GoodPosition;
    var b := st.buffer + x;
    assert b + rest == st.buffer + (x + rest);
    PlainPrefix(st.strip, b, rest);
    PlainFeed(codec, st, x);
  }

  // ---- the positive half ----

  /** Near the end of such a document a waiting parser has spared the last mark. */
  lemma MarkHere(st: State, pos: Position, rest: string)
    requires At(st, pos, rest) && Waits(st.buffer, pos) && EndsTricky(pos) && 0 < |rest| <= |PARAMETER_END|
    ensures pos.InMark?
  {
    hide GoodCalls, GoodParams, Tricky;
    match pos
    case InText(t, cs) =>
      LaterIsShorter(cs);
      TextHolds(st.buffer, rest, t, cs);
      assert false;
    case InHeader(cs) =>
      LaterIsShorter(cs);
      EndIsLong(cs);
      assert false;
    case InParams(n, done, ps, cs) =>
      if ps == [] {
        FirstIsBullet(cs);
        LaterIsShorter(cs);
        assert false;
      } else {
        ParamLeft(st, n, done, ps, cs, rest);
        assert false;
      }
    case InMark(_, _) =>
  }

  lemma EndIsLong(cs: seq<Call>)
    requires TrickyEnd(cs)
    ensures |PrintParams(cs[0].params)| + |PrintCalls(cs[1..])| > |PARAMETER_END|
  {
    hide PrintHeader;
    if |cs| > 1 {
      LaterIsShorter(cs[1..]);
    } else {
      ParamNonEmpty(cs[0].params[0]);
    }
  }

  lemma ParamLeft(st: State, n: string, done: map<string, string>, ps: seq<(string, string)>, cs: seq<Call>,
                  rest: string)
    requires At(st, InParams(n, done, ps, cs), rest) && ps != [] && Waits(st.buffer, InParams(n, done, ps, cs))
    requires EndsTricky(InParams(n, done, ps, cs))
    ensures |rest| > |PARAMETER_END|
  {
    hide GoodKey, GoodValue, HasSuffix;
    PartialIs(st, n, done, ps, cs, rest);
    ParamNonEmpty(ps[0]);
    if cs != [] {
      LaterIsShorter(cs);
    } else if |ps| > 1 {
      ParamNonEmpty(ps[1]);
    } else {
      var b := st.buffer;
      assert b == PrintParam(ps[0])[..|b|];
      if 12 + |ps[0].0| <= |b| {
        AngleThere(ps[0], b);
        assert false;
      }
    }
  }

  lemma AngleThere(p: (string, string), b: string)
    requires b <= PrintParam(p) && 12 + |p.0| <= |b|
    ensures '>' in b
  {
    var i := 11 + |p.0|;
    assert PrintParam(p) == PARAMETER + p.0 + ">" + (p.1 + PARAMETER_END);
    assert b[i] == PrintParam(p)[i] == '>';
  }

  lemma NoneToCome(pos: Position)
    ensures SafePos(pos, 0, 0)
  {
    hide SafeParams, SafeCalls;
    match pos
    case InParams(_, _, ps, cs) => SafeZero(ps, cs);
    case InMark(_, _) =>
    case _ => SafeZero([], pos.calls);
  }

  /** A fine chunk is safe where the parser is. */
  lemma FineIsSafe(st: State, pos: Position, x: string, rest: string)
    requires At(st, pos, x + rest) && Waits(st.buffer, pos) && Fine(pos, |x + rest|, |rest|)
    ensures SafePos(pos, |x + rest|, |rest|)
  {
    hide At, Waits, SafeParams, SafeCalls, EndsTricky;
    if !SafePos(pos, |x + rest|, |rest|) {
      if x + rest == "" {
        NoneToCome(pos);
      } else {
        MarkHere(st, pos, x + rest);
      }
    }
  }

  lemma CleanFirst(pos: Position, chunks: seq<string>)
    requires chunks != []
    ensures var x, rest := chunks[0], Join(chunks[1..]);
            CleanFrom(pos, chunks) <==> Fine(pos, |x + rest|, |rest|) && CleanFrom(pos, chunks[1..])
  {
    hide Fine, Join;
    JoinHead(chunks);
    assert chunks[0..] == chunks;
    forall i | 0 <= i < |chunks| ensures Left(chunks[1..], i) == Left(chunks, i + 1) {
      assert chunks[1..][i..] == chunks[i + 1..];
    }
    assert Left(chunks, 0) == |chunks[0] + Join(chunks[1..])| && Left(chunks, 1) == |Join(chunks[1..])|;
    if CleanFrom(pos, chunks) {
      forall i | 0 <= i < |chunks[1..]| ensures Fine(pos, Left(chunks[1..], i), Left(chunks[1..], i + 1)) {
        assert Fine(pos, Left(chunks, i + 1), Left(chunks, i + 2));
      }
      assert Fine(pos, Left(chunks, 0), Left(chunks, 0 + 1));
    }
    if Fine(pos, Left(chunks, 0), Left(chunks, 1)) && CleanFrom(pos, chunks[1..]) {
      forall i | 0 <= i < |chunks| ensures Fine(pos, Left(chunks, i), Left(chunks, i + 1)) {
        if i > 0 { assert Fine(pos, Left(chunks[1..], i - 1), Left(chunks[1..], i - 1 + 1)); }
      }
    }
  }

  /** Cleanliness from one position on is cleanliness from the next. */
  lemma CleanLater(pos: Position, later: Position, chunks: seq<string>)
    requires Same(pos, later, |Join(chunks)|)
    ensures CleanFrom(pos, chunks) <==> CleanFrom(later, chunks)
  {
    hide Fine, Join, Same;
    forall i | 0 <= i < |chunks|
      ensures Fine(pos, Left(chunks, i), Left(chunks, i + 1)) <==> Fine(later, Left(chunks, i), Left(chunks, i + 1))
    {
      LeftShrinks(chunks, 0, i);
      LeftShrinks(chunks, i, i + 1);
      assert chunks[0..] == chunks;
      SameIs(pos, later, |Join(chunks)|, Left(chunks, i), Left(chunks, i + 1));
    }
  }

  lemma LeftShrinks(chunks: seq<string>, i: nat, j: nat)
    requires i <= j <= |chunks|
    ensures Left(chunks, j) <= Left(chunks, i)
  {
    hide Join;
    assert chunks[i..] == chunks[i..j] + chunks[j..];
    JoinConcat(chunks[i..j], chunks[j..]);
  }

  lemma {:induction false} RunFollows(codec: Json.Codec, st: State, pos: Position, chunks: seq<string>)
      returns (later: Position)
    requires At(st, pos, Join(chunks)) && Waits(st.buffer, pos) && Plain(st.strip, Remaining(pos))
             && CleanFrom(pos, chunks)
    ensures Moves(FeedAll(codec, st, chunks), pos, later, "", st.strip) && Plain(st.strip, Remaining(later))
    decreases |chunks|
  {
    hide At, Waits, Plain, Fine, SafePos, CleanFrom, FeedSpec, Moves, Same, Remaining;
    if chunks == [] {
      later := pos;
      StaysPut(st, pos);
    } else {
      CleanFirst(pos, chunks);
      var o, mid := FeedFirst(codec, st, pos, chunks);
      later := RunFollows(codec, o.state, mid, chunks[1..]);
      SameToEnd(pos, mid, |Join(chunks[1..])|);
      MovesPrefix(o.text, o.tools, FeedAll(codec, o.state, chunks[1..]), pos, mid, later, "", st.strip);
    }
  }

  lemma SameToEnd(pos: Position, later: Position, n: nat)
    requires Same(pos, later, n)
    ensures Same(pos, later, 0)
  {
    hide Fine, SoberPos;
  }

  /** A fine chunk moves the parser on, and leaves the others as clean as they were. */
  lemma FeedFirst(codec: Json.Codec, st: State, pos: Position, chunks: seq<string>) returns (o: Output, mid: Position)
    requires chunks != [] && At(st, pos, Join(chunks)) && Waits(st.buffer, pos) && Plain(st.strip, Remaining(pos))
    requires Fine(pos, |chunks[0] + Join(chunks[1..])|, |Join(chunks[1..])|)
    ensures o == FeedSpec(codec, st, chunks[0]) && Same(pos, mid, |Join(chunks[1..])|)
    ensures At(o.state, mid, Join(chunks[1..])) && Waits(o.state.buffer, mid) && Plain(o.state.strip, Remaining(mid))
            && o.state.strip == st.strip
    ensures o.text + TextLeft(mid) == TextLeft(pos) && Shape(o.tools) + CallsLeft(mid) == CallsLeft(pos)
    ensures CleanFrom(pos, chunks) <==> CleanFrom(mid, chunks[1..])
    ensures SoberPos(pos) ==> SoberPos(mid)
  {
    hide At, Waits, Plain, Fine, SafePos, CleanFrom, FeedSpec, Moves, Same, TextLeft, CallsLeft, Shape, SoberPos,
         Remaining;
    JoinHead(chunks);
    o := FeedSpec(codec, st, chunks[0]);
    var rest := Join(chunks[1..]);
    FineIsSafe(st, pos, chunks[0], rest);
    mid := FeedFollows(codec, st, pos, chunks[0], rest);
    MovesGives(o, pos, mid, rest, st.strip);
    CleanFirst(pos, chunks);
    CleanLater(pos, mid, chunks[1..]);
  }

  lemma MovesGives(o: Output, pos: Position, later: Position, rest: string, strip: bool)
    requires Moves(o, pos, later, rest, strip)
    ensures At(o.state, later, rest) && Waits(o.state.buffer, later) && o.state.strip == strip
    ensures o.text + TextLeft(later) == TextLeft(pos) && Shape(o.tools) + CallsLeft(later) == CallsLeft(pos)
    ensures Same(pos, later, |rest|) && (SoberPos(pos) ==> SoberPos(later))
  {
    hide At, Waits, TextLeft, CallsLeft, Fine, SoberPos, Shape;
  }

  lemma StaysPut(st: State, pos: Position)
    requires At(st, pos, "") && Waits(st.buffer, pos)
    ensures Moves(Output(st, "", []), pos, pos, "", st.strip)
  {
    hide At, Waits, Same;
    SameNow(pos, 0);
    assert Shape([]) == [];
  }

  lemma JoinHead(chunks: seq<string>)
    requires chunks != []
    ensures Join(chunks) == chunks[0] + Join(chunks[1..])
  {
    JoinConcat(chunks[..1], chunks[1..]);
    assert chunks == chunks[..1] + chunks[1..];
    assert chunks[..1] == [] + [chunks[0]];
    JoinAppend([], chunks[0]);
  }

  /** At the end of the document a waiting parser owes the open call, or the text it has buffered. */
  lemma FlushFollows(st: State, pos: Position)
    requires At(st, pos, "") && Waits(st.buffer, pos) && Plain(st.strip, Remaining(pos))
    ensures FlushSpec(st).text == TextLeft(pos) && Shape(FlushSpec(st).tools) == CallsLeft(pos)
  {
    hide Plain, StripControl, PrintHeader, PrintParam, GoodCalls, GoodParams, Strings2Values, Waits, FindParam;
    var b := st.buffer;
    assert b + "" == b == Remaining(pos);
    assert Cleaned(st, "") == b by { PlainCleaned(st, pos); }
    LastPosition(b, pos);
    match pos
    case InText(t, cs) =>
      assert t + "" == t;
      assert Shape([]) == [];
    case InParams(n, done, ps, cs) =>
      MarkIsNoParam("");
      assert ParamMap(done, []) == done;
      assert FlushSpec(st).tools == [BuildTool(st.(buffer := ""))];
    case InMark(n, done) =>
      MarkIsNoParam(b);
      assert FlushSpec(st).tools == [BuildTool(st.(buffer := ""))];
  }

  lemma PlainCleaned(st: State, pos: Position)
    requires Plain(st.strip, Remaining(pos)) && st.buffer == Remaining(pos)
    ensures Cleaned(st, "") == st.buffer
  {
    hide StripControl;
    assert st.buffer + "" == st.buffer;
    if st.strip { StripLeavesPlain(st.buffer); }
  }

  lemma LastPosition(b: string, pos: Position)
    requires GoodPosition(pos) && b == Remaining(pos) && Waits(b, pos)
    ensures !pos.InHeader? && (pos.InText? || pos.InParams? ==> pos.calls == []) && (pos.InParams? ==> pos.ps == [])
    ensures pos.InMark? || b == TextLeft(pos)
  {
    hide PrintParam, PrintHeader, PrintCalls, PrintParams, GoodCalls, GoodParams, Open;
    match pos
    case InText(t, cs) =>
      CallsPrinted(cs);
      InTail(t, PrintCalls(cs));
    case InHeader(cs) =>
      CallsPrinted(cs);
    case InParams(_, _, ps, cs) =>
      CallsPrinted(cs);
      ParamsPrinted(ps);
    case InMark(_, _) =>
  }

  lemma InTail(t: string, u: string)
    ensures BULLET in u ==> BULLET in t + u
    ensures u == "" ==> t + u == t
  {
    if BULLET in u {
      var i :| 0 <= i < |u| && u[i] == BULLET;
      assert (t + u)[|t| + i] == BULLET;
    }
  }

  lemma CallsPrinted(cs: seq<Call>)
    ensures if cs == [] then PrintCalls(cs) == ""
            else |PrintCalls(cs)| >= |PrintHeader(cs[0].name)| > 0 && PrintCalls(cs)[0] == BULLET
  {
  }

  lemma ParamsPrinted(ps: seq<(string, string)>)
    ensures if ps == [] then PrintParams(ps) == "" else |PrintParams(ps)| >= |PrintParam(ps[0])|
  {
  }

  // ---- the negative half: a chunk that is not safe ----

  /** A closed parameter anywhere makes the first parameter found a closed one. */
  lemma FoundIsClosed(b: string, o: nat)
    requires ParamAt(b, o).Some? && IndexFrom(b, PARAMETER_END, ParamAt(b, o).value.keyEnd + 1) != -1
    ensures FindParam(b, 0).Some? && ParamClosed(b, FindParam(b, 0)) && FindParam(b, 0).value.start <= o
  {
    hide Contains, ParamAt, FindParam;
    FindParamLeast(b, 0, o);
    var m := FindParam(b, 0).value;
    KeyEndsBefore(b, m.start, o);
    ClosedHoldsMark(b, m.start);
  }

  lemma FindParamLeast(b: string, from: nat, o: nat)
    requires from <= o && ParamAt(b, o).Some?
    ensures FindParam(b, from).Some? && FindParam(b, from).value.start <= o
    decreases |b| - from
  {
    hide ParamAt;
  }

  lemma KeyEndsBefore(b: string, i: nat, o: nat)
    requires i <= o && ParamAt(b, i).Some? && ParamAt(b, o).Some?
    requires IndexFrom(b, PARAMETER_END, ParamAt(b, o).value.keyEnd + 1) != -1
    ensures IndexFrom(b, PARAMETER_END, ParamAt(b, i).value.keyEnd + 1) != -1
  {
    var e, f := ParamAt(b, i).value.keyEnd, ParamAt(b, o).value.keyEnd;
    assert b[f] == '>' && e <= f;
    var c := IndexFrom(b, PARAMETER_END, f + 1);
    assert OccursAt(b, PARAMETER_END, c);
  }

  lemma ClosedHoldsMark(b: string, i: nat)
    requires ParamAt(b, i).Some? && IndexFrom(b, PARAMETER_END, ParamAt(b, i).value.keyEnd + 1) != -1
    ensures ParamClosed(b, ParamAt(b, i))
  {
    hide Contains, Index, OccursAt;
    var m := ParamAt(b, i).value;
    assert m.end == m.valueEnd + 12 && OccursAt(b, PARAMETER_END, m.valueEnd);
    SliceHolds(b, m.start, m.valueEnd, m.end);
  }

  lemma SliceHolds(b: string, from: nat, c: nat, end: nat)
    requires from <= c && end == c + 12 <= |b| && OccursAt(b, PARAMETER_END, c)
    ensures Contains(b[from..end], PARAMETER_END)
  {
    hide Contains;
    var w := b[from..end];
    assert w[c - from..c - from + 12] == b[c..end];
    ContainsAt(w, PARAMETER_END, c - from);
  }

  lemma NotAtBullet(b: string)
    requires b != "" && b[0] == BULLET
    ensures FindParam(b, 0).Some? ==> FindParam(b, 0).value.start > 0
  {
    if OccursAt(b, PARAMETER, 0) { OccursChar(b, PARAMETER, 0, 0); }
    assert ParamAt(b, 0) == None;
  }

  /** A closed parameter further on: what is in front of it comes out as text. */
  lemma StealLeaks(st: State)
    requires st.mode == ParsingParameters && ParamClosed(st.buffer, FindParam(st.buffer, 0))
             && FindParam(st.buffer, 0).value.start > 0
    ensures Drive(st).text != ""
  {
    hide TakeParams, EndOfCall, FindParam, Contains;
    TakesInFront(st.buffer, st.params);
    assert TakeParams(st.buffer, st.params).0 <= Drive(st).text;
  }

  lemma TakesInFront(b: string, done: map<string, string>)
    requires ParamClosed(b, FindParam(b, 0)) && FindParam(b, 0).value.start > 0
    ensures TakeParams(b, done).0 != ""
  {
    hide FindParam, Contains, TrimSpace;
    assert b[..FindParam(b, 0).value.start] != "";
  }

  /** A bullet behind something that no closed parameter explains: it comes out as text. */
  lemma BulletLeaks(st: State)
    requires st.mode == ParsingParameters && !ParamClosed(st.buffer, FindParam(st.buffer, 0))
    requires st.buffer != "" && st.buffer[0] != BULLET && BULLET in st.buffer
    ensures Drive(st).text != ""
  {
    hide TakeParams, FindParam, Contains, TrimSpace;
    var b := st.buffer;
    StaysTaken(b, st.params);
    var idx := IndexChar(b, BULLET, 0);
    assert EndOfCall(b) == (b[..idx], b[idx..], true) && b[..idx] != "";
  }

  /**
   * A parameter was taken too early: the call has a wrong parameter, and `left` is what the document has left of it.
   */
  datatype Lost = Lost(name: string, done: map<string, string>, left: string, ps: seq<(string, string)>, cs: seq<Call>)

  predicate Stray(st: State, l: Lost, rest: string)
  {
    && st.mode == ParsingParameters && st.toolID.Some? && st.name == l.name && l.name != "" && st.params == l.done
    && st.buffer + rest == l.left + (PrintParams(l.ps) + PrintCalls(l.cs)) && l.left != ""
    && GoodParams(l.ps) && GoodCalls(l.cs)
  }

  predicate Stuck(b: string)
  {
    BULLET !in b && !ParamClosed(b, FindParam(b, 0))
  }

  /** It cannot be read as anything but text. */
  predicate Loose(left: string)
  {
    left != "" && left[|left| - 1] == '>' && BULLET !in left && !Contains(left, PARAMETER)
  }

  ghost predicate Strays(o: Output, pos: Position, l: Lost, rest: string)
  {
    && Stray(o.state, l, rest) && Stuck(o.state.buffer) && (SoberPos(pos) ==> Loose(l.left))
       && |o.text| >= |TextLeft(pos)|
    && (l.ps == [] && l.cs == [] ==> Shape(o.tools) + [(l.name, Strings2Values(l.done))] != CallsLeft(pos))
  }

  /** Too much text, or a parameter lost. */
  ghost predicate Fails(o: Output, pos: Position, l: Lost, rest: string)
  {
    |o.text| > |TextLeft(pos)| || (Strays(o, pos, l, rest) && rest != "")
  }

  lemma FailsPrefix(text: string, tools: seq<ToolUse>, o: Output, pos: Position, mid: Position, l: Lost, rest: string)
    requires Fails(o, mid, l, rest) && (SoberPos(pos) ==> SoberPos(mid))
    requires text + TextLeft(mid) == TextLeft(pos) && Shape(tools) + CallsLeft(mid) == CallsLeft(pos)
    ensures Fails(Prefix(text, tools, o), pos, l, rest)
  {
    hide Stray, Stuck, SoberPos, Shape, CallsLeft, TextLeft, Loose, Strings2Values;
    ShapeConcat(tools, o.tools);
    var x := [(l.name, Strings2Values(l.done))];
    assert Shape(tools) + Shape(o.tools) + x == Shape(tools) + (Shape(o.tools) + x);
    if Shape(tools) + (Shape(o.tools) + x) == Shape(tools) + CallsLeft(mid) {
      assert Shape(o.tools) + x == (Shape(tools) + CallsLeft(mid))[|Shape(tools)|..] == CallsLeft(mid);
    }
  }

  lemma SameSober(pos: Position, later: Position, n: nat)
    requires Same(pos, later, n)
    ensures SoberPos(pos) ==> SoberPos(later)
  {
    hide Fine, SoberPos;
  }

  lemma {:induction false} DriveFails(st: State, pos: Position, rest: string, a: nat) returns (l: Lost)
    requires At(st, pos, rest) && !SafePos(pos, a, |rest|) && Unread(pos, a) && NoControl(st.strip, st.buffer)
    ensures Fails(Drive(st), pos, l, rest)
    decreases |st.buffer|, Rank(st.mode), 1
  {
    hide SafeCalls, SafeParams, NoControl, Fails, Drive, At, SoberPos, Same, PrintParam, PrintHeader, PrintCalls,
         FindParam, ParamClosed;
    match pos
    case InText(t, cs) =>
      if BULLET !in st.buffer { NothingRead(st, pos, rest, a); assert false; }
      TextStep(st, t, cs, rest);
      var st' := st.(mode := MatchingFunction, buffer := st.buffer[|t|..]);
      l := DriveFails(st', InHeader(cs), rest, a);
      TextEmitted(t, cs, |rest|);
      SameSober(pos, InHeader(cs), |rest|);
      FailsPrefix(t, [], Drive(st'), pos, InHeader(cs), l, rest);
    case InHeader(cs) =>
      HeaderHasCall(st, cs, rest);
      if |st.buffer| < |PrintHeader(cs[0].name)| { NothingRead(st, pos, rest, a); assert false; }
      HeaderStep(st, cs, rest);
      var mid := InParams(cs[0].name, map[], cs[0].params, cs[1..]);
      SafeEntered(cs, a, |rest|);
      l := DriveFails(Entered(st, cs[0].name), mid, rest, a);
      HeaderEmitted(cs, |rest|);
      SameSober(pos, mid, |rest|);
      FailsPrefix("", [], Drive(Entered(st, cs[0].name)), pos, mid, l, rest);
      PrefixNothing(Drive(Entered(st, cs[0].name)));
    case InParams(n, done, ps, cs) =>
      if ps == [] {
        l := CallFails(st, pos, rest, a);
      } else if |PrintParam(ps[0])| <= |st.buffer| {
        var st' := st.(buffer := st.buffer[|PrintParam(ps[0])|..], params := done[ps[0].0 := ps[0].1]);
        var mid := InParams(n, st'.params, ps[1..], cs);
        ParamStep(st, n, done, ps, cs, rest);
        SafeSkip(ps, cs, a, |rest|);
        l := DriveFails(st', mid, rest, a);
        SameSober(pos, mid, |rest|);
        FailsPrefix("", [], Drive(st'), pos, mid, l, rest);
        PrefixNothing(Drive(st'));
      } else {
        l := PartFails(st, n, done, ps, cs, rest, a);
      }
  }

  lemma SafeEntered(cs: seq<Call>, a: nat, r: nat)
    requires cs != []
    ensures SafeCalls(cs, a, r) <==> SafeParams(cs[0].params, cs[1..], a, r)
  {
    hide SafeParams;
  }

  /** Where no bullet of a later call and no end of a parameter has come, there is nothing that could be unsafe. */
  lemma NothingRead(st: State, pos: Position, rest: string, a: nat)
    requires At(st, pos, rest)
    requires match pos
             case InText(_, _) => BULLET !in st.buffer
             case InHeader(cs) => cs != [] && |st.buffer| < |PrintHeader(cs[0].name)|
             case InParams(_, _, ps, _) => ps == [] && st.buffer == ""
             case InMark(_, _) => false
    ensures SafePos(pos, a, |rest|)
  {
    hide GoodCalls, SafeParams, SafeCalls, PrintHeader;
    match pos
    case InText(t, cs) =>
      if cs == [] { NothingPrinted(); } else { TextHolds(st.buffer, rest, t, cs); }
      SafeAhead([], cs, a, |rest|);
    case InHeader(cs) =>
      LaterIsShorter(cs);
      SafeAhead(cs[0].params, cs[1..], a, |rest|);
      SafeEntered(cs, a, |rest|);
    case InParams(_, _, ps, cs) =>
      SafeAhead([], cs, a, |rest|);
  }

  lemma {:induction false} CallFails(st: State, pos: Position, rest: string, a: nat) returns (l: Lost)
    requires pos.InParams? && pos.ps == []
    requires At(st, pos, rest) && !SafePos(pos, a, |rest|) && Unread(pos, a) && NoControl(st.strip, st.buffer)
    ensures Fails(Drive(st), pos, l, rest)
    decreases |st.buffer|, Rank(st.mode), 0
  {
    hide SafeCalls, SafeParams, NoControl, Fails, Drive, At, SoberPos, Same, PrintParam, PrintHeader, PrintCalls,
         FindParam, Contains;
    var n, done, cs := pos.name, pos.done, pos.calls;
    AtCall(st, pos, rest);
    if st.buffer == "" { NothingRead(st, pos, rest, a); assert false; }
    CallSafe(st, n, done, cs, rest, a);
    if ParamClosed(st.buffer, FindParam(st.buffer, 0)) {
      NotAtBullet(st.buffer);
      StealLeaks(st);
      l := Lost("", map[], "", [], []);
      TextFails(Drive(st), pos, l, rest);
    } else {
      CallStep(st, n, done, cs, rest, a);
      var st' := st.(mode := TextMode);
      l := DriveFails(st', InText("", cs), rest, a);
      SameSober(pos, InText("", cs), |rest|);
      FailsPrefix("", [BuildTool(st)], Drive(st'), pos, InText("", cs), l, rest);
    }
  }

  lemma AtCall(st: State, pos: Position, rest: string)
    requires pos.InParams? && pos.ps == [] && At(st, pos, rest)
    ensures st.mode == ParsingParameters && (st.buffer != "" ==> st.buffer[0] == BULLET)
  {
    hide PrintCalls, GoodCalls;
    FirstIsBullet(pos.calls);
    NothingPrinted();
    assert "" + PrintCalls(pos.calls) == PrintCalls(pos.calls);
    assert st.buffer != "" ==> st.buffer[0] == (st.buffer + rest)[0];
  }

  lemma TextFails(o: Output, pos: Position, l: Lost, rest: string)
    requires o.text != "" && !pos.InText?
    ensures Fails(o, pos, l, rest)
  {
    hide Strays;
  }

  /** The chunk ends inside a parameter that is not open. */
  lemma PartFails(st: State, n: string, done: map<string, string>, ps: seq<(string, string)>, cs: seq<Call>,
                  rest: string, a: nat)
      returns (l: Lost)
    requires At(st, InParams(n, done, ps, cs), rest) && ps != [] && |st.buffer| < |PrintParam(ps[0])|
             && !SafeParams(ps, cs, a, |rest|)
    ensures Fails(Drive(st), InParams(n, done, ps, cs), l, rest)
  {
    hide Drive, GoodKey, GoodValue, PrintParam, SafeParams, Fails, EndsWell, Tricky, At, PrintCalls, Contains,
         FindParam, ParamClosed;
    var b, p, pos := st.buffer, ps[0], InParams(n, done, ps, cs);
    PartialIs(st, n, done, ps, cs, rest);
    assert PrintParam(p)[..|b|] == b;
    BadEnd(ps, cs, b, rest, a);
    if Tricky(p.0) && '>' in b {
      l := EarlyFails(st, n, done, ps, cs, rest);
    } else {
      NotClosedYet(p, b);
      ParamStarts(p, b);
      PartMode(st, pos, rest);
      BulletLeaks(st);
      l := Lost("", map[], "", [], []);
      TextFails(Drive(st), pos, l, rest);
    }
  }

  lemma PartMode(st: State, pos: Position, rest: string)
    requires At(st, pos, rest) && pos.InParams?
    ensures st.mode == ParsingParameters
  {
  }

  lemma BadEnd(ps: seq<(string, string)>, cs: seq<Call>, b: string, rest: string, a: nat)
    requires ps != [] && !SafeParams(ps, cs, a, |rest|) && b <= PrintParam(ps[0]) && |b| < |PrintParam(ps[0])|
    requires |b| + |rest| == |PrintParam(ps[0])| + (|PrintParams(ps[1..])| + |PrintCalls(cs)|)
    ensures !Open(ps[0], |b|) && b != ""
    ensures !(|PrintParams(ps[1..])| + |PrintCalls(cs)| == 0 && |rest| == |PARAMETER_END| && Tricky(ps[0].0))
  {
    hide PrintParam, Open, Tricky, PrintCalls, SafeParams;
    SafeAhead(ps[1..], cs, a, |rest|);
    SafeSkippedIf(ps, cs, a, |rest|);
  }

  lemma SafeSkippedIf(ps: seq<(string, string)>, cs: seq<Call>, a: nat, r: nat)
    requires ps != [] && SafeParams(ps[1..], cs, a, r)
    ensures SafeParams(ps, cs, a, r) <==> EndsWell(ps[0], |PrintParams(ps[1..])| + |PrintCalls(cs)|, r)
  {
    hide EndsWell;
  }

  lemma NotClosedYet(p: (string, string), b: string)
    requires GoodKey(p.0) && GoodValue(p.1) && b <= PrintParam(p) && |b| < |PrintParam(p)| && !(Tricky(p.0) && '>' in b)
    ensures !ParamClosed(b, FindParam(b, 0))
  {
    hide GoodKey, GoodValue, PrintParam, FindParam, Contains;
    var q := PrintParam(p);
    forall i | OccursAt(b, PARAMETER_END, i) ensures false {
      OccursChar(b, PARAMETER_END, i, 11);
      assert b[i + 11] == '>';
      assert q == b + q[|b|..];
      OccursWithin(b, q[|b|..], PARAMETER_END, i);
      ParamEndsOnce(p, i);
    }
    assert !Contains(b, PARAMETER_END);
    var m := FindParam(b, 0);
    if ParamClosed(b, m) {
      ContainsInner(b, m.value.start, m.value.end, PARAMETER_END);
    }
  }

  lemma ParamStarts(p: (string, string), b: string)
    requires b <= PrintParam(p) && b != ""
    ensures b[0] == '<'
  {
    assert b[0] == PrintParam(p)[0];
  }

  /** A tricky key closes its parameter too early: its value is wrong, or its mark is left over. */
  lemma EarlyFails(st: State, n: string, done: map<string, string>, ps: seq<(string, string)>, cs: seq<Call>,
                   rest: string) returns (l: Lost)
    requires At(st, InParams(n, done, ps, cs), rest) && ps != [] && |st.buffer| < |PrintParam(ps[0])|
    requires Tricky(ps[0].0) && '>' in st.buffer
    requires !(|PrintParams(ps[1..])| + |PrintCalls(cs)| == 0 && |rest| == |PARAMETER_END|)
    ensures Fails(Drive(st), InParams(n, done, ps, cs), l, rest)
  {
    hide TakeParams, GoodKey, GoodValue, Tricky, Drive, TrimSpace, PrintCalls, PrintParam, Strings2Values, Loose,
         GoodCalls, FindParam, Contains;
    var b, p, pos := st.buffer, ps[0], InParams(n, done, ps, cs);
    PartialIs(st, n, done, ps, cs, rest);
    AngleAfterKey(p, b);
    EarlyTake(p, b, done);
    var w := b[12 + |p.0|..];
    var st' := st.(buffer := "", params := done[p.0 := TrimSpace(w)]);
    NothingTaken(st'.params);
    DriveTakes(st, st');
    CallContinues(st');
    assert st'.(buffer := "", params := st'.params) == st';
    l := Lost(n, st'.params, PrintParam(p)[|b|..], ps[1..], cs);
    assert "" + rest == l.left + (PrintParams(l.ps) + PrintCalls(l.cs));
    assert Stuck("") by { MarkIsNoParam(""); }
    if SoberPos(pos) { RestIsLoose(p, b); }
    assert Shape([]) == [];
    if l.ps == [] && l.cs == [] {
      NothingPrinted();
      WrongValue(p, b);
      WrongMap(n, done, ps, TrimSpace(w));
    }
  }

  lemma AngleAfterKey(p: (string, string), b: string)
    requires GoodKey(p.0) && b <= PrintParam(p) && '>' in b
    ensures 12 + |p.0| <= |b|
  {
    hide TrimSpace;
    var i :| 0 <= i < |b| && b[i] == '>';
    assert b[i] == PrintParam(p)[i];
    assert PrintParam(p) == PARAMETER + p.0 + (">" + p.1 + PARAMETER_END);
    assert '>' !in PARAMETER + p.0;
  }

  lemma RestIsLoose(p: (string, string), b: string)
    requires Sober(p) && Tricky(p.0) && GoodKey(p.0) && b <= PrintParam(p) && 12 + |p.0| <= |b| < |PrintParam(p)|
    ensures Loose(PrintParam(p)[|b|..])
  {
    hide TrimSpace, HasSuffix;
    var q, u := PrintParam(p), PrintParam(p)[|b|..];
    ParamLayout(p, q);
    var j := |b| - (12 + |p.0|);
    assert q[12 + |p.0|..] == p.1 + PARAMETER_END + "";
    assert u == (p.1 + PARAMETER_END)[j..];
    LooseTail(p.1, j);
  }

  lemma LooseTail(v: string, j: nat)
    requires !Contains(v, PARAMETER) && BULLET !in v && j < |v| + |PARAMETER_END|
    ensures Loose((v + PARAMETER_END)[j..])
  {
    hide Contains;
    var s, u := v + PARAMETER_END, (v + PARAMETER_END)[j..];
    forall i: nat | OccursAt(u, PARAMETER, i) ensures false {
      OccursDrop(s, PARAMETER, j, i);
      ParamInValue(v, j + i);
    }
    assert !Contains(u, PARAMETER) by { if Contains(u, PARAMETER) { var i := Index(u, PARAMETER); } }
  }

  lemma ParamInValue(v: string, i: nat)
    requires OccursAt(v + PARAMETER_END, PARAMETER, i)
    ensures Contains(v, PARAMETER)
  {
    hide Contains;
    var s := v + PARAMETER_END;
    assert forall j :: |v| <= j < |s| ==> s[j] == PARAMETER_END[j - |v|];
    assert PARAMETER_END[0] == PARAMETER[0] == '<' && PARAMETER_END[1] == '/' && forall j :: 0 < j < 11 ==>
        PARAMETER[j] != '<' && PARAMETER[j] != '/';
    if i + 11 <= |v| {
      OccursWithin(v, PARAMETER_END, PARAMETER, i);
      ContainsAt(v, PARAMETER, i);
    } else if i < |v| {
      OccursChar(s, PARAMETER, i, |v| - i);
      assert false;
    } else {
      OccursChar(s, PARAMETER, i, 0);
      OccursChar(s, PARAMETER, i, 1);
      assert false;
    }
  }

  lemma WrongValue(p: (string, string), b: string)
    requires GoodKey(p.0) && GoodValue(p.1) && b <= PrintParam(p) && 12 + |p.0| <= |b| < |PrintParam(p)|
             && |b| != |PrintParam(p)| - 12
    ensures TrimSpace(b[12 + |p.0|..]) != p.1
  {
    hide Contains;
    var q, w := PrintParam(p), b[12 + |p.0|..];
    ParamNonEmpty(p);
    ParamLayout(p, q);
    var s := p.1 + PARAMETER_END;
    assert q[12 + |p.0|..] == s + "" && s + "" == s;
    assert w == q[12 + |p.0|..|b|] == s[..|w|];
    TrimIsShorter(w);
    if |p.1| < |w| {
      assert w[..|p.1|] == p.1;
      KeepsEnds(w, p.1);
    }
  }

  lemma TrimIsShorter(w: string)
    ensures |TrimSpace(w)| <= |w|
  {
  }

  /** A value and a part of the closing mark. */
  lemma KeepsEnds(w: string, v: string)
    requires TrimSpace(v) == v && |v| < |w| < |v| + 12 && w == (v + PARAMETER_END)[..|w|]
    ensures TrimSpace(w) == w
  {
    hide IsSpace, TrimSpace;
    assert w[|w| - 1] == PARAMETER_END[|w| - 1 - |v|];
    InkIsNoSpace(w[|w| - 1]);
    if v == "" {
      assert w[0] == '<';
      InkIsNoSpace(w[0]);
    } else {
      TrimmedStart(v);
      assert w[0] == v[0];
    }
    TrimNothing(w);
  }

  lemma InkIsNoSpace(c: char)
    requires '!' <= c <= '~'
    ensures !IsSpace(c)
  {
  }

  lemma TrimmedStart(v: string)
    requires v != "" && TrimSpace(v) == v
    ensures !IsSpace(v[0])
  {
    hide IsSpace, TrimSpace;
    if IsSpace(v[0]) { TrimDrops(v); }
  }

  lemma TrimDrops(v: string)
    requires v != "" && IsSpace(v[0])
    ensures |TrimSpace(v)| < |v|
  {
    hide IsSpace;
    assert TrimLeft(v) == TrimLeft(v[1..]);
    assert |TrimRight(TrimLeft(v))| <= |TrimLeft(v)|;
  }

  lemma WrongMap(n: string, done: map<string, string>, ps: seq<(string, string)>, w: string)
    requires |ps| == 1 && w != ps[0].1
    ensures [] + [(n, Strings2Values(done[ps[0].0 := w]))] != CallsLeft(InParams(n, done, ps, []))
  {
    var k := ps[0].0;
    assert ps[1..] == [];
    assert ParamMap(done, ps) == ParamMap(done[k := ps[0].1], []) == done[k := ps[0].1];
    assert Strings2Values(done[k := w])[k] == Json.Str(w) && Strings2Values(done[k := ps[0].1])[k] == Json.Str(ps[0].1);
    assert CallsLeft(InParams(n, done, ps, []))[0].1 == Strings2Values(done[k := ps[0].1]);
  }

  /** With something loose in front, whatever comes next brings it out, or it waits. */
  lemma LostStep(st: State, l: Lost, rest: string)
    requires Stray(st, l, rest) && Loose(l.left)
    ensures Drive(st).text != "" || (Drive(st) == Output(st, "", []) && Stuck(st.buffer))
  {
    hide Drive, TakeParams, FindParam, Contains, PrintParams, PrintCalls, GoodParams, GoodCalls, TrimSpace;
    var b := st.buffer;
    if b == "" {
      MarkIsNoParam(b);
      StaysTaken(b, st.params);
      CallContinues(st);
      assert st.(buffer := b, params := st.params) == st;
    } else {
      assert b[0] == (b + rest)[0] == l.left[0];
      if ParamClosed(b, FindParam(b, 0)) {
        LooseFront(b, rest, l.left, PrintParams(l.ps) + PrintCalls(l.cs));
        StealLeaks(st);
      } else if BULLET in b {
        BulletLeaks(st);
      } else {
        StaysTaken(b, st.params);
        TailLeaks(st);
      }
    }
  }

  lemma LooseFront(b: string, rest: string, left: string, more: string)
    requires b + rest == left + more && Loose(left)
    ensures FindParam(b, 0).Some? ==> FindParam(b, 0).value.start > 0
  {
    hide Contains, FindParam;
    var m := FindParam(b, 0);
    if m.Some? && m.value.start == 0 {
      assert OccursAt(b, PARAMETER, 0);
      OccursWithin(b, rest, PARAMETER, 0);
      if |left| >= 11 {
        OccursWithin(left, more, PARAMETER, 0);
        ContainsAt(left, PARAMETER, 0);
      } else {
        OccursChar(left + more, PARAMETER, 0, |left| - 1);
      }
      assert false;
    }
  }

  lemma TailLeaks(st: State)
    requires st.mode == ParsingParameters && st.buffer != "" && BULLET !in st.buffer
    requires TakeParams(st.buffer, st.params) == ("", st.buffer, st.params)
    ensures Drive(st).text != "" || Drive(st) == Output(st, "", [])
  {
    hide TakeParams, TrimSpace, Contains;
    var e := EndOfCall(st.buffer);
    assert st.(buffer := st.buffer, params := st.params) == st;
    assert "" + e.0 == e.0;
  }

  /** What is loose comes out, or is dropped at the very end. */
  lemma {:induction false} LostRuns(codec: Json.Codec, st: State, l: Lost, chunks: seq<string>)
    requires Stray(st, l, Join(chunks)) && Stuck(st.buffer) && Loose(l.left)
             && Plain(st.strip, st.buffer + Join(chunks))
    ensures var o := FeedAll(codec, st, chunks);
            o.text != "" || (l.ps == [] && l.cs == [] && o.tools == [] && Stray(o.state, l, "")
                  && o.state.buffer == l.left && Plain(o.state.strip, l.left))
    decreases |chunks|
  {
    hide Stray, Stuck, Loose, Plain, FeedSpec;
    if chunks == [] {
      LostEnd(st, l);
      assert l.left == st.buffer + Join(chunks);
    } else {
      JoinHead(chunks);
      var x, rest := chunks[0], Join(chunks[1..]);
      var st1 := st.(buffer := st.buffer + x);
      assert st.buffer + (x + rest) == st1.buffer + rest;
      PlainPrefix(st.strip, st1.buffer, rest);
      PlainFeed(codec, st, x);
      StrayOn(st, l, x, rest);
      LostStep(st1, l, rest);
      if Drive(st1).text == "" {
        LostRuns(codec, st1, l, chunks[1..]);
      }
    }
  }

  lemma StrayOn(st: State, l: Lost, x: string, rest: string)
    requires Stray(st, l, x + rest)
    ensures Stray(st.(buffer := st.buffer + x), l, rest)
  {
    hide GoodParams, GoodCalls, PrintParams, PrintCalls;
    assert st.buffer + x + rest == st.buffer + (x + rest);
  }

  lemma LostEnd(st: State, l: Lost)
    requires Stray(st, l, "") && Stuck(st.buffer)
    ensures l.ps == [] && l.cs == [] && st.buffer == l.left
  {
    hide GoodCalls, GoodKey, GoodValue, FindParam, Contains, PrintCalls, PrintParams, ParamClosed;
    var b := st.buffer;
    assert b + "" == b;
    if l.ps != [] { ParamHere(l, b); assert false; }
    NothingPrinted();
    if l.cs != [] { BulletHere(l, b); assert false; }
  }

  lemma ParamHere(l: Lost, b: string)
    requires l.ps != [] && GoodParams(l.ps) && b == l.left + (PrintParams(l.ps) + PrintCalls(l.cs))
    ensures ParamClosed(b, FindParam(b, 0))
  {
    hide GoodKey, GoodValue, FindParam, Contains, PrintCalls, ParamClosed, PrintParam;
    var more := PrintParams(l.ps[1..]) + PrintCalls(l.cs);
    ClosedAhead(l.left, l.ps[0], more);
    assert b == l.left + (PrintParam(l.ps[0]) + more);
  }

  lemma BulletHere(l: Lost, b: string)
    requires l.ps == [] && l.cs != [] && b == l.left + (PrintParams(l.ps) + PrintCalls(l.cs))
    ensures BULLET in b
  {
    hide PrintCalls;
    LaterIsShorter(l.cs);
    FirstIsBullet(l.cs);
    NothingPrinted();
    assert b[|l.left|] == PrintCalls(l.cs)[0];
  }

  /** A whole printed parameter somewhere makes the first parameter found a closed one. */
  lemma ClosedAhead(h: string, p: (string, string), more: string)
    requires GoodKey(p.0) && GoodValue(p.1)
    ensures var b := h + (PrintParam(p) + more); ParamClosed(b, FindParam(b, 0)) && FindParam(b, 0).value.start <= |h|
  {
    hide Contains, ParamAt, FindParam, IndexFrom, GoodValue, TrimSpace, PrintParam;
    var b := PrintParam(p) + more;
    ParamMatches(p, b);
    KeyHasNoAngle(p);
    ParamLayout(p, b);
    GoodValueClosed(p);
    ValueClosesAt(b, 12 + |p.0|, p.1, b[|PrintParam(p)|..]);
    ParamShift(h, b, 0);
    FoundIsClosed(h + b, |h|);
  }

  lemma KeyHasNoAngle(p: (string, string))
    requires GoodKey(p.0)
    ensures '>' !in p.0
  {
  }

  lemma GoodValueClosed(p: (string, string))
    requires GoodValue(p.1)
    ensures !Contains(p.1, PARAMETER_END)
  {
  }

  lemma ParamShift(h: string, b: string, o: nat)
    requires ParamAt(b, o).Some? && IndexFrom(b, PARAMETER_END, ParamAt(b, o).value.keyEnd + 1) != -1
    ensures ParamAt(h + b, |h| + o).Some?
    ensures IndexFrom(h + b, PARAMETER_END, ParamAt(h + b, |h| + o).value.keyEnd + 1) != -1
  {
    hide IndexFrom, ParamAt, OccursAt;
    KeyShift(h, b, o);
    MarkShift(h, b, ParamAt(b, o).value.keyEnd + 1);
  }

  lemma KeyShift(h: string, b: string, o: nat)
    requires ParamAt(b, o).Some?
    ensures ParamAt(h + b, |h| + o).Some? && ParamAt(h + b, |h| + o).value.keyEnd == |h| + ParamAt(b, o).value.keyEnd
  {
    hide IndexFrom, IndexChar;
    var s := h + b;
    assert s[|h|..] == b;
    OccursDrop(s, PARAMETER, |h|, o);
    CharShift(h, b, '>', o + |PARAMETER|);
  }

  lemma MarkShift(h: string, b: string, from: nat)
    requires from <= |b| && IndexFrom(b, PARAMETER_END, from) != -1
    ensures IndexFrom(h + b, PARAMETER_END, |h| + from) != -1
  {
    hide IndexFrom;
    var c := IndexFrom(b, PARAMETER_END, from);
    assert (h + b)[|h|..] == b;
    OccursDrop(h + b, PARAMETER_END, |h|, c);
    assert OccursAt(h + b, PARAMETER_END, |h| + c);
  }

  lemma CharShift(h: string, b: string, c: char, from: nat)
    requires IndexChar(b, c, from) != -1
    ensures IndexChar(h + b, c, |h| + from) == |h| + IndexChar(b, c, from)
  {
    var r := IndexChar(b, c, from);
    assert (h + b)[|h| + r] == c;
    forall i | |h| + from <= i < |h| + r ensures (h + b)[i] != c {
      assert b[i - |h|] != c;
    }
  }

  ghost predicate Back(codec: Json.Codec, st: State, pos: Position, chunks: seq<string>)
  {
    var o := FeedAll(codec, st, chunks);
    var f := FlushSpec(o.state);
    o.text + f.text == TextLeft(pos) && Shape(o.tools + f.tools) == CallsLeft(pos)
  }

  lemma ChunkFails(codec: Json.Codec, st: State, pos: Position, x: string, rest: string) returns (l: Lost)
    requires At(st, pos, x + rest) && Waits(st.buffer, pos) && Plain(st.strip, Remaining(pos))
             && !SafePos(pos, |x + rest|, |rest|)
    ensures Fails(FeedSpec(codec, st, x), pos, l, rest)
    ensures Plain(st.strip, FeedSpec(codec, st, x).state.buffer + rest)
            && FeedSpec(codec, st, x).state.strip == st.strip
  {
    hide Drive, SafePos, Unread, Waits, Plain, NoControl, FeedSpec, Remaining, GoodPosition, Fails;
    var b := st.buffer + x;
    var st1 := st.(buffer := b);
    FeedIsDrive(codec, st, pos, x, rest);
    UnreadWhileWaiting(st, pos, x + rest);
    l := DriveFails(st1, pos, rest, |x + rest|);
    var b' := Drive(st1).state.buffer;
    DriveSuffix(st1);
    DriveKeepsStrip(st1);
    assert b' + rest == (b + rest)[|b| - |b'|..];
    PlainSuffix(st.strip, b + rest, |b| - |b'|);
  }

  lemma NotSafe(pos: Position, a: nat, r: nat)
    requires !Fine(pos, a, r)
    ensures !SafePos(pos, a, r)
  {
    hide SafePos, EndsTricky;
  }

  lemma {:induction false} RunFails(codec: Json.Codec, st: State, pos: Position, chunks: seq<string>)
    requires At(st, pos, Join(chunks)) && Waits(st.buffer, pos) && Plain(st.strip, Remaining(pos)) && SoberPos(pos)
    requires !CleanFrom(pos, chunks)
    ensures !Back(codec, st, pos, chunks)
    decreases |chunks|
  {
    hide At, Waits, Plain, Fine, SafePos, CleanFrom, FeedSpec, Fails, Same, Remaining, SoberPos, FlushSpec;
    if chunks == [] { NoChunkIsClean(pos); assert false; }
    CleanFirst(pos, chunks);
    JoinHead(chunks);
    var x, rest := chunks[0], Join(chunks[1..]);
    if Fine(pos, |x + rest|, |rest|) {
      var o, mid := FeedFirst(codec, st, pos, chunks);
      RunFails(codec, o.state, mid, chunks[1..]);
      BackFirst(codec, st, pos, mid, chunks);
    } else {
      NotSafe(pos, |x + rest|, |rest|);
      var l := ChunkFails(codec, st, pos, x, rest);
      FailedRun(codec, st, pos, l, chunks);
    }
  }

  lemma NoChunkIsClean(pos: Position)
    ensures CleanFrom(pos, [])
  {
    hide Fine;
  }

  lemma BackFirst(codec: Json.Codec, st: State, pos: Position, mid: Position, chunks: seq<string>)
    requires chunks != []
    requires var o := FeedSpec(codec, st, chunks[0]);
             o.text + TextLeft(mid) == TextLeft(pos) && Shape(o.tools) + CallsLeft(mid) == CallsLeft(pos)
             && !Back(codec, o.state, mid, chunks[1..])
    ensures !Back(codec, st, pos, chunks)
  {
    hide FeedSpec, FlushSpec, TextLeft, CallsLeft, Shape;
    var o := FeedSpec(codec, st, chunks[0]);
    var o' := FeedAll(codec, o.state, chunks[1..]);
    var f := FlushSpec(o'.state);
    assert o.text + o'.text + f.text == o.text + (o'.text + f.text);
    assert o.tools + o'.tools + f.tools == o.tools + (o'.tools + f.tools);
    ShapeConcat(o.tools, o'.tools + f.tools);
    if o.text + (o'.text + f.text) == o.text + TextLeft(mid) {
      assert o'.text + f.text == (o.text + (o'.text + f.text))[|o.text|..] == TextLeft(mid);
    }
    if Shape(o.tools) + Shape(o'.tools + f.tools) == Shape(o.tools) + CallsLeft(mid) {
      assert Shape(o'.tools + f.tools) == (Shape(o.tools) + Shape(o'.tools + f.tools))[|Shape(o.tools)|..]
          == CallsLeft(mid);
    }
  }

  lemma FailedRun(codec: Json.Codec, st: State, pos: Position, l: Lost, chunks: seq<string>)
    requires chunks != [] && SoberPos(pos) && Fails(FeedSpec(codec, st, chunks[0]), pos, l, Join(chunks[1..]))
    requires Plain(FeedSpec(codec, st, chunks[0]).state.strip,
                   FeedSpec(codec, st, chunks[0]).state.buffer + Join(chunks[1..]))
    ensures !Back(codec, st, pos, chunks)
  {
    hide FeedSpec, FlushSpec, TextLeft, CallsLeft, Shape, SoberPos, Stray, Stuck, Loose, Plain, Strings2Values;
    var o := FeedSpec(codec, st, chunks[0]);
    var o' := FeedAll(codec, o.state, chunks[1..]);
    var f := FlushSpec(o'.state);
    if |o.text| <= |TextLeft(pos)| {
      LostRuns(codec, o.state, l, chunks[1..]);
      if o'.text == "" {
        LostFlush(o'.state, l);
        assert o.tools + [] + f.tools == o.tools + f.tools;
        ShapeConcat(o.tools, f.tools);
      }
    }
  }

  /** What waits at the end and is no parameter is dropped; the call is built as it is. */
  lemma LostFlush(st: State, l: Lost)
    requires Stray(st, l, "") && st.buffer == l.left && Loose(l.left) && Plain(st.strip, l.left)
    ensures Shape(FlushSpec(st).tools) == [(l.name, Strings2Values(l.done))]
  {
    hide StripControl, FindParam, Contains, TrimSpace, Strings2Values, GoodCalls, GoodParams, Plain;
    PlainIsClean(st);
    LooseHasNone(l.left);
    assert FlushSpec(st).tools == [BuildTool(st.(buffer := ""))];
  }

  lemma LooseHasNone(left: string)
    requires Loose(left)
    ensures FindParam(left, 0) == None
  {
    hide Contains, FindParam;
    var m := FindParam(left, 0);
    if m.Some? {
      assert OccursAt(left, PARAMETER, m.value.start);
      ContainsAt(left, PARAMETER, m.value.start);
      assert false;
    }
  }

  // ---- the theorem ----

  /**
   * Text and printed calls come back as themselves when every chunk is safe, and only then, as long as no value
   * under a key that ends in "</parameter" could be read as a parameter or a call itself.
   */
  lemma RoundTrip(codec: Json.Codec, strip: bool, t: string, cs: seq<Call>, chunks: seq<string>)
    requires BULLET !in t && GoodCalls(cs) && Join(chunks) == t + PrintCalls(cs) && Plain(strip, t + PrintCalls(cs))
    ensures CleanCut(cs, chunks) ==> ComesBack(codec, strip, t, cs, chunks)
    ensures SoberCalls(cs) ==> (ComesBack(codec, strip, t, cs, chunks) <==> CleanCut(cs, chunks))
  {
    hide Plain, CleanCut, CleanFrom, GoodCalls, PrintCalls, FeedAll, FlushSpec, Moves, Expected, Shape, SoberCalls,
         Waits;
    var st, pos := Fresh(strip), InText(t, cs);
    assert "" + Join(chunks) == Join(chunks);
    assert Waits("", pos) by { FreshWaits(pos); }
    var o := FeedAll(codec, st, chunks);
    CleanIs(t, cs, chunks);
    if CleanCut(cs, chunks) {
      var later := RunFollows(codec, st, pos, chunks);
      MovesGives(o, pos, later, "", strip);
      FlushFollows(o.state, later);
      ShapeConcat(o.tools, FlushSpec(o.state).tools);
    } else if SoberCalls(cs) {
      RunFails(codec, st, pos, chunks);
    }
  }

  lemma FreshWaits(pos: Position)
    requires pos.InText?
    ensures Waits("", pos)
  {
  }

  lemma CleanIs(t: string, cs: seq<Call>, chunks: seq<string>)
    ensures CleanCut(cs, chunks) <==> CleanFrom(InText(t, cs), chunks)
    ensures SoberCalls(cs) <==> SoberPos(InText(t, cs))
  {
    hide SafeCalls, TrickyEnd, Join, SoberCalls;
    forall i | 0 <= i < |chunks|
      ensures Fine(InText(t, cs), Left(chunks, i), Left(chunks, i + 1)) <==>
              SafeCalls(cs, Left(chunks, i), Left(chunks, i + 1))
                  || (TrickyEnd(cs) && Left(chunks, i) <= |PARAMETER_END|)
    {
    }
  }

  /** Two printed calls in one chunk: as soon as the second has a parameter, it is swallowed. */
  lemma OneChunkSwallows(codec: Json.Codec, strip: bool, t: string, cs: seq<Call>)
    requires BULLET !in t && GoodCalls(cs) && Plain(strip, t + PrintCalls(cs))
    requires |cs| >= 2 && cs[1].params != []
    ensures |RunAll(codec, strip, [t + PrintCalls(cs)]).text| > |t|
  {
    hide Plain, GoodName, GoodParams, PrintHeader, RunAll, PrintParams, SafeCalls, Waits, At, Fails, FeedSpec,
         PrintCalls;
    var doc, pos := t + PrintCalls(cs), InText(t, cs);
    assert At(Fresh(strip), pos, doc + "") by { FreshIsThere(strip, t, cs); }
    FreshWaits(pos);
    SecondIsClosed(cs, |doc|, t);
    var l := ChunkFails(codec, Fresh(strip), pos, doc, "");
    FailsAtEnd(FeedSpec(codec, Fresh(strip), doc), pos, l);
    OneChunkRun(codec, strip, doc);
  }

  lemma FreshIsThere(strip: bool, t: string, cs: seq<Call>)
    requires BULLET !in t && GoodCalls(cs)
    ensures At(Fresh(strip), InText(t, cs), t + PrintCalls(cs) + "")
  {
    hide GoodCalls, PrintCalls;
    assert "" + (t + PrintCalls(cs) + "") == t + PrintCalls(cs);
  }

  lemma FailsAtEnd(o: Output, pos: Position, l: Lost)
    requires Fails(o, pos, l, "")
    ensures |o.text| > |TextLeft(pos)|
  {
    hide Strays;
  }

  lemma OneChunkRun(codec: Json.Codec, strip: bool, doc: string)
    ensures var o := FeedSpec(codec, Fresh(strip), doc);
            var f := FlushSpec(o.state);
            RunAll(codec, strip, [doc]).text == o.text + f.text
                && RunAll(codec, strip, [doc]).tools == o.tools + f.tools
  {
    hide FeedSpec, FlushSpec;
    var o := FeedSpec(codec, Fresh(strip), doc);
    assert [doc][1..] == [] && FeedAll(codec, o.state, []) == Output(o.state, "", []);
    PrefixTwice(o.text, o.tools, "", [], Output(o.state, "", []));
  }

  lemma SecondIsClosed(cs: seq<Call>, a: nat, t: string)
    requires GoodCalls(cs) && |cs| >= 2 && cs[1].params != [] && |PrintCalls(cs)| <= a
    ensures !SafePos(InText(t, cs), a, 0)
  {
    hide Contains, PrintHeader, PrintParam, GoodName, SafeParams, FindParam, ParamClosed, StartsWell, SafeCalls;
    var c, s := cs[1], PrintCalls(cs[1..]);
    var h, p, more := PrintHeader(c.name), c.params[0], PrintParams(c.params[1..]) + PrintCalls(cs[2..]);
    assert cs[1..][0] == c && cs[1..][1..] == cs[2..];
    assert s == h + (PrintParams(c.params) + PrintCalls(cs[2..])) == h + (PrintParam(p) + more);
    assert p in c.params && c in cs;
    ClosedAhead(h, p, more);
    LaterIsShorter(cs);
    LaterIsShorter(cs[1..]);
    ClosedStartsBadly(s, a);
    NotStarted(cs[0].params, cs[1..], a);
    SafeEntered(cs, a, 0);
  }

  lemma ClosedStartsBadly(s: string, a: nat)
    requires 0 < |s| <= a && ParamClosed(s, FindParam(s, 0))
    ensures !StartsWell(s, a, 0)
  {
    hide FindParam, Contains;
    assert s[..|s| - 0] == s;
  }

  lemma {:induction false} NotStarted(ps: seq<(string, string)>, cs: seq<Call>, a: nat)
    requires !StartsWell(PrintCalls(cs), a, 0)
    ensures !SafeParams(ps, cs, a, 0)
    decreases |ps|
  {
    hide StartsWell, EndsWell, SafeCalls;
    if ps != [] { NotStarted(ps[1..], cs, a); }
  }

  /** No bullet, and no key that ends like a closing mark. */
  predicate Quiet(ps: seq<(string, string)>)
  {
    forall p <- ps :: BULLET !in p.0 && BULLET !in p.1 && !Tricky(p.0)
  }

  /** A document with at most one call survives every cut, whatever the call's name. */
  lemma SingleCall(codec: Json.Codec, strip: bool, t: string, cs: seq<Call>, chunks: seq<string>)
    requires BULLET !in t && GoodCalls(cs) && Join(chunks) == t + PrintCalls(cs) && Plain(strip, t + PrintCalls(cs))
    requires |cs| <= 1 && forall c <- cs :: Quiet(c.params)
    ensures ComesBack(codec, strip, t, cs, chunks)
  {
    hide *;
    SingleClean(cs, chunks);
    RoundTrip(codec, strip, t, cs, chunks);
  }

  lemma SingleClean(cs: seq<Call>, chunks: seq<string>)
    requires |cs| <= 1 && forall c <- cs :: Quiet(c.params)
    ensures CleanCut(cs, chunks)
  {
    hide SafeParams, Quiet, Join, TrickyEnd;
    forall i | 0 <= i < |chunks| ensures SafeCalls(cs, Left(chunks, i), Left(chunks, i + 1)) {
      if cs != [] {
        assert cs[1..] == [] && cs[0] in cs;
        QuietIsSafe(cs[0].params, Left(chunks, i), Left(chunks, i + 1));
      }
    }
  }

  lemma {:induction false} QuietIsSafe(ps: seq<(string, string)>, a: nat, r: nat)
    requires Quiet(ps)
    ensures SafeParams(ps, [], a, r)
    decreases |ps|
  {
    hide EndsWell, Tricky;
    if ps != [] {
      QuietIsOpen(ps[0]);
      assert EndsWell(ps[0], |PrintParams(ps[1..])| + |PrintCalls([])|, r) by {
        QuietEnds(ps[0], |PrintParams(ps[1..])| + |PrintCalls([])|, r);
      }
      QuietIsSafe(ps[1..], a, r);
    }
  }

  lemma QuietEnds(p: (string, string), after: nat, r: nat)
    requires forall n: nat :: n <= |PrintParam(p)| ==> Open(p, n)
    ensures EndsWell(p, after, r)
  {
    hide Open, PrintParam;
  }

  lemma QuietIsOpen(p: (string, string))
    requires BULLET !in p.0 && BULLET !in p.1 && !Tricky(p.0)
    ensures forall n: nat :: n <= |PrintParam(p)| ==> Open(p, n)
  {
    hide HasSuffix;
    assert BULLET !in PrintParam(p);
  }

  /**
   * One call with one parameter, cut once inside the parameter: it comes back if and only if the parameter was
   * open there, or nothing but its closing mark was missing and its key had made one.
   */
  lemma OneCut(codec: Json.Codec, strip: bool, n: string, p: (string, string), i: nat)
    requires GoodName(n) && GoodKey(p.0) && GoodValue(p.1) && Sober(p) && 0 < i < |PrintParam(p)|
    requires Plain(strip, PrintHeader(n) + PrintParam(p))
    ensures ComesBack(codec, strip, "", [Call(n, [p])], [PrintHeader(n) + PrintParam(p)[..i], PrintParam(p)[i..]])
            <==> Open(p, i) || (Tricky(p.0) && i == |PrintParam(p)| - |PARAMETER_END|)
  {
    hide GoodName, GoodKey, GoodValue, Sober, Plain, PrintHeader, PrintParam, ComesBack, CleanCut, Open, Tricky;
    var q, h := PrintParam(p), PrintHeader(n);
    var c := Call(n, [p]);
    var x, y := h + q[..i], q[i..];
    OnePrinted(c, p);
    JoinTwo(x, y);
    assert x + y == h + q && "" + (h + q) == h + q;
    RoundTrip(codec, strip, "", [c], [x, y]);
    OneClean(c, p, x, y);
  }

  lemma OnePrinted(c: Call, p: (string, string))
    requires c.params == [p]
    ensures PrintCalls([c]) == PrintHeader(c.name) + PrintParam(p) && PrintParams([p]) == PrintParam(p)
  {
    hide PrintParam, PrintHeader;
    NothingPrinted();
    assert [p][1..] == [] && [c][1..] == [];
    assert PrintParam(p) + "" == PrintParam(p);
  }

  lemma JoinTwo(x: string, y: string)
    ensures Join([x, y]) == x + y && Join([y]) == y && Join([]) == ""
  {
    JoinHead([x, y]);
    JoinHead([y]);
    assert [x, y][1..] == [y] && [y][1..] == [] && y + "" == y;
  }

  lemma OneClean(c: Call, p: (string, string), x: string, y: string)
    requires c.params == [p] && x + y == PrintHeader(c.name) + PrintParam(p) && 0 < |y| < |PrintParam(p)|
    ensures CleanCut([c], [x, y]) <==> Open(p, |PrintParam(p)| - |y|) || (|y| == |PARAMETER_END| && Tricky(p.0))
  {
    hide Open, PrintHeader, PrintParam, Tricky, Join;
    var chunks := [x, y];
    JoinTwo(x, y);
    assert chunks[0..] == chunks && chunks[1..] == [y] && chunks[2..] == [];
    OneSafe(c, p, |x + y|, |y|);
    OneSafe(c, p, |y|, 0);
    LaterIsShorter([c]);
    OnePrinted(c, p);
    ParamNonEmpty(p);
    if CleanCut([c], chunks) { assert SafeCalls([c], Left(chunks, 0), Left(chunks, 0 + 1)); }
  }

  lemma OneSafe(c: Call, p: (string, string), a: nat, r: nat)
    requires c.params == [p]
    ensures SafeCalls([c], a, r) <==> EndsWell(p, 0, r)
  {
    hide EndsWell, PrintParam;
    NothingPrinted();
    assert [c][1..] == [] && [p][1..] == [];
    assert SafeParams([], [], a, r);
  }

  /** A bullet in a key or a value: cut behind it, the parameter does not come back. */
  lemma BulletLost(codec: Json.Codec, strip: bool, n: string, p: (string, string), i: nat)
    requires GoodName(n) && GoodKey(p.0) && GoodValue(p.1) && !Tricky(p.0) && i < |PrintParam(p)|
    requires Plain(strip, PrintHeader(n) + PrintParam(p)) && BULLET in PrintParam(p)[..i]
    ensures !ComesBack(codec, strip, "", [Call(n, [p])], [PrintHeader(n) + PrintParam(p)[..i], PrintParam(p)[i..]])
  {
    hide GoodName, GoodKey, GoodValue, Plain, PrintHeader, PrintParam, ComesBack;
    OneCut(codec, strip, n, p, i);
  }

  /** The parameter of `<parameter=k</parameter>ab</parameter>` is taken for `a` when the chunk ends there. */
  lemma TrickyLost(codec: Json.Codec, strip: bool)
    ensures !ComesBack(codec, strip, "", [Call("f", [("k</parameter", "ab")])],
                       [[BULLET] + " <function=f><parameter=k</parameter>a", "b</parameter>"])
  {
    hide Plain, ComesBack, PrintParam, Dull;
    var h, x, y := [BULLET] + " <function=f>", "<parameter=k</parameter>a", "b</parameter>";
    TrickyPrinted();
    assert PrintHeader("f") == h;
    assert h + x == [BULLET] + " <function=f><parameter=k</parameter>a";
    DullPieces();
    DullConcat(x, y);
    DullConcat(h, x + y);
    QuietText(strip, h + (x + y));
    TrickyCut(codec, strip, ("k</parameter", "ab"), x, y);
  }

  lemma TrickyCut(codec: Json.Codec, strip: bool, p: (string, string), x: string, y: string)
    requires p == ("k</parameter", "ab") && PrintParam(p) == x + y && |x| == 25 && |y| == 13
    requires Plain(strip, PrintHeader("f") + (x + y))
    ensures !ComesBack(codec, strip, "", [Call("f", [p])], [PrintHeader("f") + x, y])
  {
    hide Plain, ComesBack, Open, Contains, GoodName, GoodKey, GoodValue, PrintParam, PrintHeader, Sober, Tricky;
    TrickyIsGood();
    ValueIsGood();
    assert (x + y)[..25] == x && (x + y)[25..] == y;
    OneCut(codec, strip, "f", p, 25);
    AngleThere(p, x);
    NotOpen(p, x);
  }

  lemma DullPieces()
    ensures Dull([BULLET] + " <function=f>") && Dull("<parameter=k</parameter>a") && Dull("b</parameter>")
  {
    hide Dull;
    DullHeader();
    DullTag();
    assert "<parameter=k</parameter>a" == "<parameter=k" + "</parameter>a";
    DullConcat("<parameter=k", "</parameter>a");
  }

  lemma DullHeader()
    ensures Dull([BULLET] + " <function=f>") && Dull("<b>x")
  {
  }

  lemma DullTag()
    ensures Dull("<parameter=k") && Dull("</parameter>a") && Dull("b</parameter>")
  {
  }

  lemma TrickyPrinted()
    ensures PrintParam(("k</parameter", "ab")) == "<parameter=k</parameter>a" + "b</parameter>"
    ensures |"<parameter=k</parameter>a"| == 25 && |"b</parameter>"| == 13
  {
  }

  lemma NotOpen(p: (string, string), b: string)
    requires b <= PrintParam(p) && '>' in b && Tricky(p.0)
    ensures !Open(p, |b|)
  {
    hide PrintParam, Tricky;
    assert PrintParam(p)[..|b|] == b;
  }

  lemma TrickyIsGood()
    ensures GoodName("f") && GoodKey("k</parameter") && Tricky("k</parameter")
  {
    hide TrimSpace, IsSpace;
    InkIsNoSpace('f');
    InkIsNoSpace('k');
    InkIsNoSpace('r');
    TrimNothing("f");
    TrimNothing("k</parameter");
    assert "k</parameter"[1..] == "</parameter";
  }

  lemma ValueIsGood()
    ensures GoodValue("ab") && Sober(("k</parameter", "ab"))
  {
    hide TrimSpace, IsSpace, Contains, HasSuffix;
    InkIsNoSpace('a');
    InkIsNoSpace('b');
    TrimNothing("ab");
    TooShort("ab", PARAMETER_END);
    TooShort("ab", PARAMETER);
  }

  lemma TooShort(s: string, p: string)
    requires |s| < |p|
    ensures !Contains(s, p)
  {
  }

  /**
   * Why the values have to be sober: cut behind the '>' of a tricky key, this call is read as other parameters
   * than were printed, and they make the same record by accident.
   */
  lemma AccidentComesBack(codec: Json.Codec, strip: bool, n: string, k: string, x: string, y: string)
    requires GoodName(n) && GoodKey(k) && Tricky(k) && GoodKey(x) && GoodValue(y) && GoodValue(PrintOpen(x) + y)
    requires Plain(strip, PrintCalls([Accident(n, k, x, y)]))
    ensures var c := Accident(n, k, x, y);
            var chunks := [PrintHeader(n) + PrintOpen(k), PrintParams(AccidentRead(k, x, y))];
            Join(chunks) == PrintCalls([c]) && ComesBack(codec, strip, "", [c], chunks) && !CleanCut([c], chunks)
  {
    hide GoodName, GoodKey, GoodValue, Plain, PrintHeader, ComesBack, CleanCut, Tricky, PrintParams, PrintParam, Join,
         Back, CallsLeft, Expected, At, FeedSpec,
         Accident, AccidentRead, PrintOpen, PrintCalls;
    var h, rest := PrintHeader(n) + PrintOpen(k), PrintParams(AccidentRead(k, x, y));
    AccidentPrinted(n, k, x, y);
    JoinTwo(h, rest);
    AccidentIsDirty(n, k, x, y);
    var st := AccidentStarts(codec, strip, n, k, x, y);
    AccidentEnds(codec, st, n, k, x, y);
    AccidentSame(n, k, x, y);
    AccidentRun(codec, strip, h, rest, st, InParams(n, map[k := ""], AccidentRead(k, x, y), []),
                [Accident(n, k, x, y)]);
  }

  /** The tag that opens a parameter. */
  function PrintOpen(k: string): string
  {
    PARAMETER + k + ">"
  }

  /** The first parameter's value is a parameter without its mark; the others repeat what will have been read. */
  function Accident(n: string, k: string, x: string, y: string): Call
  {
    Call(n, [(k, PrintOpen(x) + y), (k, ""), (x, y)])
  }

  /** What is read behind the first tag. */
  function AccidentRead(k: string, x: string, y: string): seq<(string, string)>
  {
    [(x, y), (k, ""), (x, y)]
  }

  lemma AccidentPrinted(n: string, k: string, x: string, y: string)
    ensures PrintCalls([Accident(n, k, x, y)]) == PrintHeader(n) + PrintOpen(k) + PrintParams(AccidentRead(k, x, y))
    ensures PrintParam((k, PrintOpen(x) + y)) == PrintOpen(k) + PrintParam((x, y))
    ensures PrintParams(AccidentRead(k, x, y)) == PrintParam((x, y)) + PrintParams([(k, ""), (x, y)])
  {
    hide PrintHeader;
    var c, v := Accident(n, k, x, y), PrintOpen(x) + y;
    assert PrintParam((k, v)) == PARAMETER + k + ">" + (PrintOpen(x) + y + PARAMETER_END)
        == PrintOpen(k) + PrintParam((x, y));
    assert c.params[1..] == [(k, ""), (x, y)] == AccidentRead(k, x, y)[1..];
    var more := PrintParams([(k, ""), (x, y)]);
    PrintedParts(c, more);
    assert PrintHeader(n) + (PrintOpen(k) + PrintParam((x, y)) + more) == PrintHeader(n) + PrintOpen(k)
        + (PrintParam((x, y)) + more);
  }

  lemma PrintedParts(c: Call, more: string)
    requires c.params != [] && PrintParams(c.params[1..]) == more
    ensures PrintCalls([c]) == PrintHeader(c.name) + (PrintParam(c.params[0]) + more)
  {
    hide PrintHeader, PrintParam;
    NothingPrinted();
    assert [c][1..] == [];
    assert PrintParams(c.params) + "" == PrintParams(c.params);
  }

  lemma AccidentIsDirty(n: string, k: string, x: string, y: string)
    requires Tricky(k)
    ensures !CleanCut([Accident(n, k, x, y)], [PrintHeader(n) + PrintOpen(k), PrintParams(AccidentRead(k, x, y))])
  {
    hide Tricky, Join, PrintParam, PrintParams, PrintHeader, Open;
    var c := Accident(n, k, x, y);
    var h, rest, p := PrintHeader(n) + PrintOpen(k), PrintParams(AccidentRead(k, x, y)), c.params[0];
    var chunks := [h, rest];
    JoinTwo(h, rest);
    assert chunks[0..] == chunks && chunks[1..] == [rest];
    AccidentPrinted(n, k, x, y);
    assert c.params[1..] == [(k, ""), (x, y)] && [c][1..] == [];
    NothingPrinted();
    assert PrintParams(c.params[1..]) != "" by { NoneLeft(c.params[1..]); }
    ParamNonEmpty(p);
    ParamNonEmpty((x, y));
    AngleThere(p, PrintOpen(k));
    NotOpen(p, PrintOpen(k));
    assert !EndsWell(p, |PrintParams(c.params[1..])| + 0, |rest|);
    assert !SafeCalls([c], |h + rest|, |rest|);
    assert Left(chunks, 0) == |h + rest| && Left(chunks, 0 + 1) == |rest|;
  }

  /** The first chunk: the first parameter is taken with no value at all. */
  lemma AccidentStarts(codec: Json.Codec, strip: bool, n: string, k: string, x: string, y: string) returns (st: State)
    requires GoodName(n) && GoodKey(k) && Tricky(k) && GoodKey(x) && GoodValue(y) && GoodValue(PrintOpen(x) + y)
    requires Plain(strip, PrintCalls([Accident(n, k, x, y)]))
    ensures FeedSpec(codec, Fresh(strip), PrintHeader(n) + PrintOpen(k)) == Output(st, "", []) && st.strip == strip
    ensures At(st, InParams(n, map[k := ""], AccidentRead(k, x, y), []), PrintParams(AccidentRead(k, x, y)))
            && st.buffer == ""
  {
    hide GoodName, GoodKey, GoodValue, Plain, PrintHeader, Tricky, PrintParams, PrintParam, PrintCalls, Drive, FeedSpec,
         GoodCalls, GoodParams, NoControl, At;
    var c, rest := Accident(n, k, x, y), PrintParams(AccidentRead(k, x, y));
    AccidentPrinted(n, k, x, y);
    AccidentIsGood(n, k, x, y);
    var st1 := ReadsHeader(codec, strip, c, PrintOpen(k), rest);
    st := TagTaken(st1, k, PrintOpen(x) + y);
    NameNonEmpty(n);
    assert At(st, InParams(n, map[k := ""], AccidentRead(k, x, y), []), rest) by { ReadThere(st, n, k, x, y); }
  }

  /** The first chunk brings a header and something more. */
  lemma ReadsHeader(codec: Json.Codec, strip: bool, c: Call, more: string, rest: string) returns (st: State)
    requires GoodCalls([c]) && PrintHeader(c.name) + more + rest == PrintCalls([c]) && Plain(strip, PrintCalls([c]))
    ensures FeedSpec(codec, Fresh(strip), PrintHeader(c.name) + more) == Drive(st)
    ensures st.mode == ParsingParameters && st.toolID.Some? && st.name == c.name && st.params == map[]
            && st.buffer == more && st.strip == strip
  {
    hide Plain, PrintHeader, PrintCalls, Drive, FeedSpec, GoodCalls, NoControl, At;
    var b := PrintHeader(c.name) + more;
    var st0 := Fresh(strip).(buffer := b);
    assert "" + b == b && b[0..] == b;
    PlainPrefix(strip, b, rest);
    PlainFeed(codec, Fresh(strip), b);
    AccidentThere(st0, c, rest);
    HeaderThere(c.name, b);
    TextStep(st0, "", [c], rest);
    var st1 := st0.(mode := MatchingFunction, buffer := b[0..]);
    HeaderStep(st1, [c], rest);
    PrefixNothing(Drive(st1));
    st := Entered(st1, c.name);
    assert b[|PrintHeader(c.name)|..] == more;
  }

  lemma AccidentThere(st: State, c: Call, rest: string)
    requires st.mode == TextMode && GoodCalls([c]) && st.buffer + rest == PrintCalls([c]) && Plain(st.strip, st.buffer)
    ensures At(st, InText("", [c]), rest) && NoControl(st.strip, st.buffer)
  {
    hide GoodCalls, PrintCalls, WebNameLength;
    assert "" + PrintCalls([c]) == PrintCalls([c]);
  }

  lemma ReadThere(st: State, n: string, k: string, x: string, y: string)
    requires st.mode == ParsingParameters && st.toolID.Some? && st.name == n && n != "" && st.params == map[k := ""]
             && st.buffer == ""
    requires GoodParams(AccidentRead(k, x, y))
    ensures At(st, InParams(n, map[k := ""], AccidentRead(k, x, y), []), PrintParams(AccidentRead(k, x, y)))
  {
    hide GoodParams, PrintParams, AccidentRead;
    var rest := PrintParams(AccidentRead(k, x, y));
    NothingPrinted();
    assert "" + rest == rest + "";
  }

  /** The first parameter's tag alone is a parameter without a value. */
  lemma TagTaken(st: State, k: string, v: string) returns (st': State)
    requires st.mode == ParsingParameters && st.buffer == PrintOpen(k) && st.params == map[] && GoodKey(k) && Tricky(k)
             && GoodValue(v)
    ensures st' == st.(buffer := "", params := map[k := ""]) && Drive(st) == Output(st', "", [])
  {
    hide GoodKey, GoodValue, Tricky, TakeParams, Drive, TrimSpace, PrintParam, PrintOpen;
    TagOnly(k, v);
    EarlyTake((k, v), PrintOpen(k), map[]);
    st' := st.(buffer := "", params := map[k := ""]);
    NothingTaken(st'.params);
    DriveTakes(st, st');
    CallContinues(st');
    assert st'.(buffer := "", params := st'.params) == st';
  }

  lemma HeaderThere(n: string, b: string)
    requires PrintHeader(n) <= b
    ensures BULLET in b && |PrintHeader(n)| <= |b|
  {
    assert b[0] == PrintHeader(n)[0];
  }

  lemma AccidentIsGood(n: string, k: string, x: string, y: string)
    requires GoodName(n) && GoodKey(k) && GoodKey(x) && GoodValue(y) && GoodValue(PrintOpen(x) + y)
    ensures GoodCalls([Accident(n, k, x, y)]) && GoodParams(AccidentRead(k, x, y))
  {
    hide GoodName, GoodKey, GoodValue;
    assert GoodValue("") by { NothingIsGood(); }
    ThreeGood((k, PrintOpen(x) + y), (k, ""), (x, y));
    ThreeGood((x, y), (k, ""), (x, y));
  }

  lemma ThreeGood(a: (string, string), b: (string, string), c: (string, string))
    requires GoodKey(a.0) && GoodKey(b.0) && GoodKey(c.0) && GoodValue(a.1) && GoodValue(b.1) && GoodValue(c.1)
    ensures GoodParams([a, b, c])
  {
    hide GoodKey, GoodValue;
  }

  lemma NothingIsGood()
    ensures GoodValue("")
  {
    hide Contains;
    TooShort("", PARAMETER_END);
  }

  lemma TagOnly(k: string, v: string)
    ensures PrintOpen(k) <= PrintParam((k, v)) && |PrintOpen(k)| == 12 + |k| < |PrintParam((k, v))|
    ensures TrimSpace(PrintOpen(k)[12 + |k|..]) == ""
  {
    assert PrintParam((k, v)) == PrintOpen(k) + (v + PARAMETER_END);
    assert PrintOpen(k)[12 + |k|..] == "";
  }

  /** The second chunk is a row of printed parameters to the parser. */
  lemma AccidentEnds(codec: Json.Codec, st: State, n: string, k: string, x: string, y: string)
    requires At(st, InParams(n, map[k := ""], AccidentRead(k, x, y), []), PrintParams(AccidentRead(k, x, y)))
             && st.buffer == ""
    requires Plain(st.strip, PrintCalls([Accident(n, k, x, y)]))
    ensures Back(codec, st, InParams(n, map[k := ""], AccidentRead(k, x, y), []), [PrintParams(AccidentRead(k, x, y))])
  {
    hide Plain, PrintParams, PrintParam, At, Waits, CleanFrom, Moves, FeedAll, FlushSpec, Shape, CallsLeft;
    var pos, rest := InParams(n, map[k := ""], AccidentRead(k, x, y), []), PrintParams(AccidentRead(k, x, y));
    AccidentPrinted(n, k, x, y);
    NothingPrinted();
    assert rest + "" == rest == PrintCalls([Accident(n, k, x, y)])[|PrintHeader(n) + PrintOpen(k)|..];
    PlainSuffix(st.strip, PrintCalls([Accident(n, k, x, y)]), |PrintHeader(n) + PrintOpen(k)|);
    JoinTwo("", rest);
    WholeIsClean(pos, rest);
    assert Waits("", pos) by { OpensEmpty(pos); }
    var later := RunFollows(codec, st, pos, [rest]);
    var o := FeedAll(codec, st, [rest]);
    MovesGives(o, pos, later, "", st.strip);
    FlushFollows(o.state, later);
    ShapeConcat(o.tools, FlushSpec(o.state).tools);
  }

  lemma OpensEmpty(pos: Position)
    requires pos.InParams? && pos.ps != []
    ensures Waits("", pos)
  {
    ParamNonEmpty(pos.ps[0]);
    assert PrintParam(pos.ps[0])[..0] == "";
  }

  /** A single call's parameters in one chunk are safe. */
  lemma WholeIsClean(pos: Position, x: string)
    requires pos.InParams? && pos.calls == []
    ensures CleanFrom(pos, [x])
  {
    hide SafeParams, EndsTricky, Join;
    JoinTwo("", x);
    assert [x][1..] == [];
    AllAtOnce(pos.ps, Left([x], 0));
    forall i | 0 <= i < |[x]| ensures Fine(pos, Left([x], i), Left([x], i + 1)) {
      assert i == 0;
    }
  }

  lemma {:induction false} AllAtOnce(ps: seq<(string, string)>, a: nat)
    ensures SafeParams(ps, [], a, 0)
    decreases |ps|
  {
    hide Open, Tricky;
    if ps != [] { AllAtOnce(ps[1..], a); }
  }

  lemma AccidentRun(codec: Json.Codec, strip: bool, h: string, rest: string, st: State, pos: Position, cs: seq<Call>)
    requires FeedSpec(codec, Fresh(strip), h) == Output(st, "", []) && Back(codec, st, pos, [rest])
    requires pos.InParams? && CallsLeft(pos) == Expected(cs)
    ensures ComesBack(codec, strip, "", cs, [h, rest])
  {
    hide FeedSpec, FlushSpec, Shape, CallsLeft, Expected;
    assert [h, rest][1..] == [rest];
    var o := FeedAll(codec, st, [rest]);
    PrefixNothing(o);
    assert FeedAll(codec, Fresh(strip), [h, rest]) == Prefix("", [], o);
  }

  lemma AccidentSame(n: string, k: string, x: string, y: string)
    ensures CallsLeft(InParams(n, map[k := ""], AccidentRead(k, x, y), [])) == Expected([Accident(n, k, x, y)])
  {
    hide Strings2Values;
    var c, v, m := Accident(n, k, x, y), PrintOpen(x) + y, map[k := ""];
    var ps := [(k, ""), (x, y)];
    assert AccidentRead(k, x, y)[1..] == ps == c.params[1..] && ps[1..] == [(x, y)] && [(x, y)][1..] == [];
    TwoMore(m[x := y], k, x, y);
    TwoMore(map[k := v], k, x, y);
    assert ParamMap(m, AccidentRead(k, x, y)) == ParamMap(m[x := y], ps);
    assert ParamMap(map[], c.params) == ParamMap(map[k := v], ps);
    assert m[x := y][k := ""][x := y] == map[k := v][k := ""][x := y];
    assert [c][1..] == [] && Expected([]) == [];
  }

  lemma TwoMore(m: map<string, string>, k: string, x: string, y: string)
    ensures ParamMap(m, [(k, ""), (x, y)]) == m[k := ""][x := y]
  {
    assert [(k, ""), (x, y)][1..] == [(x, y)] && [(x, y)][1..] == [];
    assert ParamMap(m[k := ""], [(x, y)]) == ParamMap(m[k := ""][x := y], []);
  }

  // ---- what is lost behind a header ----

  /** Any header whose name is not empty is entered. */
  lemma EntersAny(codec: Json.Codec, strip: bool, n: string, more: string) returns (st: State)
    requires n != "" && '>' !in n && Plain(strip, PrintHeader(n) + more)
    ensures FeedSpec(codec, Fresh(strip), PrintHeader(n) + more) == Drive(st)
    ensures st == State(ParsingParameters, more, Some(0), TrimSpace(n), map[], strip, 1)
  {
    hide Drive, TrimSpace, HeaderAt, FindHeader, FeedSpec, Plain;
    var b := PrintHeader(n) + more;
    assert "" + b == b;
    PlainFeed(codec, Fresh(strip), b);
    var st1 := BulletFirst(Fresh(strip).(buffer := b));
    st := EnterFirst(st1, n, more);
  }

  lemma BulletFirst(st: State) returns (st': State)
    requires st.mode == TextMode && st.buffer != "" && st.buffer[0] == BULLET
    ensures st' == st.(mode := MatchingFunction) && Drive(st) == Drive(st')
  {
    hide Drive;
    var b := st.buffer;
    assert b[0..] == b && b[..0] == "" && IndexChar(b, BULLET, 0) == 0;
    DriveToBullet(st);
    st' := st.(mode := MatchingFunction);
    PrefixNothing(Drive(st'));
  }

  lemma EnterFirst(st: State, n: string, more: string) returns (st': State)
    requires st.mode == MatchingFunction && st.buffer == PrintHeader(n) + more && n != "" && '>' !in n
    ensures st' == State(ParsingParameters, more, Some(st.serial), TrimSpace(n), map[], st.strip, st.serial + 1)
            && Drive(st) == Drive(st')
  {
    hide Drive, TrimSpace, HeaderAt, FindHeader;
    HeaderMatches(n, st.buffer);
    FindFirstHeader(st.buffer);
    DriveIntoCall(st);
    assert |PrintHeader(n)| == 13 + |n|;
    st' := EnterCall(st, FindHeader(st.buffer, 0).value);
  }

  /** A good name does not help: markup that may still become a parameter is dropped by the flush. */
  lemma FlushDropsMarkup(codec: Json.Codec, strip: bool)
    ensures RunAll(codec, strip, [PrintHeader("f"), "<b>x"]).text == ""
  {
    hide FeedSpec, Drive, FlushSpec, Plain, PrintHeader, RunAll, TakeParams, TrimSpace, Dull;
    var h := PrintHeader("f");
    assert h + "" == h && "" + "<b>x" == "<b>x";
    assert h == [BULLET] + " <function=f>" by { HeaderOfF(); }
    DullHeader();
    QuietText(strip, h);
    QuietText(strip, "<b>x");
    var st := EntersAny(codec, strip, "f", "");
    NothingTaken(map[]);
    CallContinues(st);
    assert st.(buffer := "", params := st.params) == st;
    PlainFeed(codec, st, "<b>x");
    MarkupWaits(st.(buffer := "<b>x"));
    MarkupDropped(codec, strip, st, st.(buffer := "<b>x"));
  }

  lemma HeaderOfF()
    ensures PrintHeader("f") == [BULLET] + " <function=f>"
  {
  }

  lemma MarkupWaits(st: State)
    requires st.mode == ParsingParameters && st.buffer == "<b>x"
    ensures Drive(st) == Output(st, "", [])
  {
    hide Drive, TakeParams, Contains, TrimSpace, FindParam;
    TooShort("<b>x", PARAMETER_END);
    UnclosedStays("<b>x", st.params);
    TrimKeepsAngle("<b>x");
    CallContinues(st);
    assert st.(buffer := "<b>x", params := st.params) == st;
  }

  lemma MarkupDropped(codec: Json.Codec, strip: bool, st: State, st': State)
    requires FeedSpec(codec, Fresh(strip), PrintHeader("f")) == Output(st, "", [])
             && FeedSpec(codec, st, "<b>x") == Output(st', "", [])
    requires st'.mode == ParsingParameters
    ensures RunAll(codec, strip, [PrintHeader("f"), "<b>x"]).text == ""
  {
    hide FeedSpec, StripControl, FindParam, TrimSpace, PrintHeader;
    var chunks := [PrintHeader("f"), "<b>x"];
    assert chunks[1..] == ["<b>x"] && ["<b>x"][1..] == [];
    assert FeedAll(codec, st', []) == Output(st', "", []);
    assert FeedAll(codec, st, ["<b>x"]) == Prefix("", [], Output(st', "", []));
  }

  /** Behind a blank name text still comes back, but no call does. */
  lemma BlankName(codec: Json.Codec, strip: bool)
    ensures RunAll(codec, strip, [[BULLET] + " <function= >x"]).text == "x"
    ensures RunAll(codec, strip, [[BULLET] + " <function= >x " + [BULLET] + " <function=g>"]).tools == []
  {
    hide FeedSpec, Drive, FlushSpec, Plain, PrintHeader, TrimSpace;
    BlankHeader();
    assert TrimSpace(" ") == "" by { BlankTrimmed(); }
    var y := "x " + PrintHeader("g");
    QuietText(strip, PrintHeader(" ") + "x");
    QuietText(strip, PrintHeader(" ") + y);
    var st := EntersAny(codec, strip, " ", "x");
    var st2 := EntersAny(codec, strip, " ", y);
    BlankText(codec, strip, PrintHeader(" ") + "x", st);
    BlankStays(st2);
    BlankRun(codec, strip, PrintHeader(" ") + y, st2);
    assert [BULLET] + " <function= >x " + [BULLET] + " <function=g>" == PrintHeader(" ") + y;
  }

  lemma BlankHeader()
    ensures PrintHeader(" ") == [BULLET] + " <function= >" && PrintHeader("g") == [BULLET] + " <function=g>"
    ensures [BULLET] + " <function= >x" == PrintHeader(" ") + "x"
  {
  }

  lemma BlankTrimmed()
    ensures TrimSpace(" ") == ""
  {
    assert IsSpace(' ');
    assert TrimLeft(" ") == TrimLeft("");
  }

  lemma BlankText(codec: Json.Codec, strip: bool, x: string, st: State)
    requires FeedSpec(codec, Fresh(strip), x) == Drive(st) && st.mode == ParsingParameters && st.name == ""
             && st.buffer == "x"
    ensures RunAll(codec, strip, [x]).text == "x"
  {
    hide FeedSpec, RunAll, StripControl, Drive, FindParam;
    TextDriven(st);
    OneChunkRun(codec, strip, x);
    var o := Output(st.(buffer := ""), "x", []);
    assert FlushSpec(o.state).text == "" && "x" + "" == "x";
  }

  lemma TextDriven(st: State)
    requires st.mode == ParsingParameters && st.name == "" && st.buffer == "x"
    ensures Drive(st) == Output(st.(buffer := ""), "x", [])
  {
    hide TakeParams, Contains, TrimSpace, EndOfCall, Drive;
    TooShort("x", PARAMETER_END);
    UnclosedStays("x", st.params);
    TextEndsCall();
    BlankDriven(st, "x");
  }

  lemma TextEndsCall()
    ensures EndOfCall("x") == ("x", "", true)
  {
    hide Contains, TrimSpace;
    TooShort("x", PARAMETER);
    NotMarkup();
  }

  lemma BlankDriven(st: State, x: string)
    requires st.mode == ParsingParameters && st.name == "" && st.buffer == x
    requires TakeParams(x, st.params) == ("", x, st.params) && EndOfCall(x) == (x, "", true)
    ensures Drive(st) == Output(st.(buffer := ""), x, [])
  {
    hide TakeParams, EndOfCall;
    assert "" + x == x;
  }

  lemma NotMarkup()
    ensures !("<" <= TrimSpace("x"))
  {
    hide IsSpace, TrimSpace;
    InkIsNoSpace('x');
    TrimNothing("x");
  }

  lemma BlankRun(codec: Json.Codec, strip: bool, x: string, st: State)
    requires FeedSpec(codec, Fresh(strip), x) == Drive(st)
    requires Drive(st).tools == [] && Drive(st).state.mode == ParsingParameters && Drive(st).state.name == ""
    ensures RunAll(codec, strip, [x]).tools == []
  {
    hide FeedSpec, Drive, StripControl, FindParam, RunAll;
    OneChunkRun(codec, strip, x);
    assert FlushSpec(Drive(st).state).tools == [];
  }
}
