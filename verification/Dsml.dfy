/** The DSML residue filter (internal/parsers/dsml.go); its patterns as one automaton. */
module Dsml {
  import opened Strings
  import opened HeuristicTool

  /** How far into a marker `< / | DSML | name` a fragment has come. */
  datatype Reach = AfterAngle | AfterSlash | OneBar | TwoBars | Gap | GotD | GotS | GotM | GotL
                 | OneClose | TwoClose | NameGap | Name | Dead

  predicate IsBar(c: char)
  {
    c == '|' || c == '\U{FF5C}'
  }

  /** The class [A-Za-z_] of a case-insensitive pattern, which folds two more characters in. */
  predicate IsNameChar(c: char)
  {
    'A' <= c <= 'Z' || 'a' <= c <= 'z' || c == '_' || c == '\U{17F}' || c == '\U{212A}'
  }

  function Next(q: Reach, c: char): Reach
  {
    var f := Fold(c);
    match q
    case AfterAngle => if IsRegexSpace(c) then AfterAngle else if c == '/' then AfterSlash else if IsBar(c) then OneBar
        else Dead
    case AfterSlash => if IsRegexSpace(c) then AfterSlash else if IsBar(c) then OneBar else Dead
    case OneBar => if IsBar(c) then TwoBars else if IsRegexSpace(c) then Gap else if f == 'd' then GotD else Dead
    case TwoBars => if IsRegexSpace(c) then Gap else if f == 'd' then GotD else Dead
    case Gap => if IsRegexSpace(c) then Gap else if f == 'd' then GotD else Dead
    case GotD => if f == 's' then GotS else Dead
    case GotS => if f == 'm' then GotM else Dead
    case GotM => if f == 'l' then GotL else Dead
    case GotL => if IsRegexSpace(c) then GotL else if IsBar(c) then OneClose else Dead
    case OneClose => if IsBar(c) then TwoClose else if IsRegexSpace(c) then NameGap else if IsNameChar(c) then Name
        else Dead
    case TwoClose => if IsRegexSpace(c) then NameGap else if IsNameChar(c) then Name else Dead
    case NameGap => if IsRegexSpace(c) then NameGap else if IsNameChar(c) then Name else Dead
    case Name => if IsNameChar(c) then Name else Dead
    case Dead => Dead
  }

  function Read(q: Reach, s: string): Reach
    decreases |s|
  {
    if s == "" then q else Read(Next(q, s[0]), s[1..])
  }

  function FragmentReach(s: string): Reach
  {
    if s != "" && s[0] == '<' then Read(AfterAngle, s[1..]) else Dead
  }

  /** A fragment that may still become a marker: a bare "<" or "</" counts. */
  predicate Loose(s: string)
  {
    FragmentReach(s) != Dead
  }

  /** A fragment that is residue at the end of the stream: at least one bar has been seen. */
  predicate Residue(s: string)
  {
    FragmentReach(s) !in {Dead, AfterAngle, AfterSlash}
  }

  /** The length of the complete marker at the front of s, or 0: up to DSML and a bar, then up to '>'. */
  function TagLength(s: string): (n: nat)
    ensures n <= |s|
    ensures n > 0 ==> s[0] == '<'
  {
    if s != "" && s[0] == '<' then TagLengthFrom(AfterAngle, s, 1) else 0
  }

  function TagLengthFrom(q: Reach, s: string, i: nat): (n: nat)
    requires i <= |s|
    ensures n <= |s|
    decreases |s| - i
  {
    if i == |s| then 0
    else if q == OneClose then
      if s[i] == '>' then i + 1 else if s[i] == '<' then 0 else TagLengthFrom(OneClose, s, i + 1)
    else if Next(q, s[i]) == Dead then 0
    else TagLengthFrom(Next(q, s[i]), s, i + 1)
  }

  function StripTags(s: string): string
  {
    if s == "" then ""
    else
      var n := TagLength(s);
      if n > 0 then StripTags(s[n..]) else [s[0]] + StripTags(s[1..])
  }

  predicate TagFree(s: string)
  {
    forall i :: 0 <= i < |s| ==> TagLength(s[i..]) == 0
  }

  /** The trailing fragment that is kept back. */
  function Held(s: string): (h: string)
    ensures |h| <= |s| && h == s[|s| - |h|..]
  {
    var i := LastIndexOf(s, '<');
    if i != -1 && Loose(s[i..]) then s[i..] else ""
  }

  /** A whole text without its unfinished marker, if it ends in one. */
  function WithoutResidue(s: string): string
  {
    var i := LastIndexOf(s, '<');
    if i != -1 && Residue(s[i..]) then s[..i] else s
  }

  /** One piece through the filter: what is passed on, and what is kept back. */
  function FeedStep(buf: string, text: string): (r: (string, string))
    ensures text == "" ==> r == ("", buf)
  {
    var b := buf + text;
    var s := StripTags(b);
    if text == "" then ("", buf)
    else if s != b && TrimSpace(s) == "" then ("", "")
    else (s[..|s| - |Held(s)|], Held(s))
  }

  /** What comes out at the end of the stream. */
  function FlushStep(buf: string): string
  {
    WithoutResidue(StripTags(buf))
  }

  class DSMLFilter {
    var buf: string

    constructor ()
      ensures buf == ""
    {
      buf := "";
    }

    method Feed(text: string) returns (out: string)
      modifies this
      ensures text == "" ==> out == "" && buf == old(buf)
      ensures text != "" ==>
                var b := old(buf) + text;
                var s := StripTags(b);
                if s != b && TrimSpace(s) == "" then out == "" && buf == ""
                else out + buf == s && buf == Held(s)
      ensures (out, buf) == FeedStep(old(buf), text)
    {
      hide StripTags, TrimSpace;
      if text == "" {
        return "";
      }
      buf := buf + text;
      var stripped := StripTags(buf);
      var removed := stripped != buf;
      buf := stripped;
      if removed && TrimSpace(buf) == "" {
        buf := "";
        return "";
      }
      var i := LastIndexOf(buf, '<');
      if i != -1 && !('>' in buf[i..]) && Loose(buf[i..]) {
        out := buf[..i];
        buf := buf[i..];
        return out;
      }
      if i != -1 { LooseHasNoAngles(buf[i..]); }
      out := buf;
      buf := "";
    }

    method Flush() returns (out: string)
      modifies this
      ensures out == FlushStep(old(buf)) && buf == ""
    {
      buf := StripTags(buf);
      var i := LastIndexOf(buf, '<');
      if i != -1 && Residue(buf[i..]) {
        buf := buf[..i];
      }
      out := buf;
      buf := "";
    }
  }

  // ---- fragments ----

  lemma {:induction false} DeadStays(s: string)
    ensures Read(Dead, s) == Dead
  {
    if s != "" { DeadStays(s[1..]); }
  }

  lemma {:induction false} ReadConcat(q: Reach, s: string, t: string)
    ensures Read(q, s + t) == Read(Read(q, s), t)
    decreases |s|
  {
    hide Next;
    if s == "" {
      assert s + t == t;
    } else {
      assert (s + t)[1..] == s[1..] + t;
      ReadConcat(Next(q, s[0]), s[1..], t);
    }
  }

  lemma {:induction false} ReadHasNoAngles(q: Reach, s: string)
    requires Read(q, s) != Dead
    ensures '<' !in s && '>' !in s
    decreases |s|
  {
    if s != "" {
      if Next(q, s[0]) == Dead { DeadStays(s[1..]); }
      ReadHasNoAngles(Next(q, s[0]), s[1..]);
    }
  }

  /** A fragment that may become a marker has its only '<' in front and no '>'. */
  lemma LooseHasNoAngles(s: string)
    requires s != ""
    ensures Loose(s) ==> '<' !in s[1..] && '>' !in s
  {
    if Loose(s) { ReadHasNoAngles(AfterAngle, s[1..]); }
  }

  /** Every non-empty prefix of a possible marker is a possible marker. */
  lemma LoosePrefix(s: string, t: string)
    requires s != "" && Loose(s + t)
    ensures Loose(s)
  {
    hide Read;
    assert (s + t)[1..] == s[1..] + t;
    ReadConcat(AfterAngle, s[1..], t);
    DeadStays(t);
  }

  lemma LastAngle(s: string, i: nat)
    requires i < |s| && s[i] == '<' && '<' !in s[i + 1..]
    ensures LastIndexOf(s, '<') == i
  {
    assert forall j :: i < j < |s| ==> s[j] == s[i + 1..][j - i - 1];
  }

  /** What is kept back depends on the text read so far only through what was kept back before. */
  lemma HeldStep(s: string, x: string)
    ensures Held(s + x) == Held(Held(s) + x)
  {
    hide Loose;
    var h := Held(s);
    var k := LastIndexOf(x, '<');
    if k != -1 {
      HeldFromAngle(s, x, k);
      HeldFromAngle(h, x, k);
    } else {
      HeldStepPlain(s, x);
    }
  }

  lemma HeldFromAngle(s: string, x: string, k: nat)
    requires LastIndexOf(x, '<') == k
    ensures Held(s + x) == if Loose(x[k..]) then x[k..] else ""
  {
    hide Loose;
    assert (s + x)[|s| + k + 1..] == x[k + 1..];
    LastAngle(s + x, |s| + k);
    assert (s + x)[|s| + k..] == x[k..];
  }

  lemma HeldStepPlain(s: string, x: string)
    requires '<' !in x
    ensures Held(s + x) == Held(Held(s) + x)
  {
    hide Loose;
    var h := Held(s);
    var i := LastIndexOf(s, '<');
    if i == -1 {
      NoAngle(s, x);
      assert h + x == x;
      NoAngle("", x);
      assert "" + x == x;
    } else {
      LastAngleKept(s, x, i);
      assert (s + x)[i..] == s[i..] + x;
      if Loose(s[i..]) {
        LooseHasNoAngles(s[i..]);
        LastAngleKept(s[i..], x, 0);
        assert (h + x)[0..] == s[i..] + x;
      } else {
        if Loose(s[i..] + x) { LoosePrefix(s[i..], x); }
        assert h + x == x;
        NoAngle("", x);
        assert "" + x == x;
      }
    }
  }

  lemma NoAngle(s: string, x: string)
    requires '<' !in x && LastIndexOf(s, '<') == -1
    ensures LastIndexOf(s + x, '<') == -1
  {
    assert forall j :: 0 <= j < |s + x| ==> (s + x)[j] != '<';
  }

  lemma LastAngleKept(s: string, x: string, i: nat)
    requires '<' !in x && i < |s| && s[i] == '<' && '<' !in s[i + 1..]
    ensures LastIndexOf(s + x, '<') == i
  {
    assert (s + x)[i + 1..] == s[i + 1..] + x;
    LastAngle(s + x, i);
  }

  // ---- complete markers ----

  lemma {:induction false} TagFreeStrips(s: string)
    requires TagFree(s)
    ensures StripTags(s) == s
  {
    hide TagLength;
    if s != "" {
      assert s[0..] == s;
      assert forall i :: 0 <= i < |s| - 1 ==> s[1..][i..] == s[i + 1..];
      TagFreeStrips(s[1..]);
    }
  }

  lemma {:induction false} TagLengthGrows(q: Reach, s: string, t: string, i: nat)
    requires i <= |s| && TagLengthFrom(q, s, i) > 0
    ensures TagLengthFrom(q, s + t, i) > 0
    decreases |s| - i
  {
    hide Next;
    assert i < |s| && (s + t)[i] == s[i];
    if q == OneClose {
      if s[i] != '>' { TagLengthGrows(OneClose, s, t, i + 1); }
    } else {
      TagLengthGrows(Next(q, s[i]), s, t, i + 1);
    }
  }

  /** Every stretch of a marker-free text is marker-free. */
  lemma TagFreeInner(s: string, a: nat, b: nat)
    requires a <= b <= |s| && TagFree(s)
    ensures TagFree(s[a..b])
  {
    hide TagLengthFrom;
    forall i | 0 <= i < b - a ensures TagLength(s[a..b][i..]) == 0 {
      var w, t := s[a..b][i..], s[b..];
      assert s[a + i..] == w + t;
      if TagLength(w) > 0 { TagLengthGrows(AfterAngle, w, t, 1); }
    }
  }

  /**
   * On text without a complete marker the filter only drops one unfinished marker at the very end,
   * and it does so for every way the text is cut into pieces.
   */
  method FilterPieces(pieces: seq<string>) returns (out: string)
    requires TagFree(Join(pieces))
    ensures out == WithoutResidue(Join(pieces))
  {
    hide *;
    var f := new DSMLFilter();
    out := "";
    var i := 0;
    EmptyHeld();
    assert pieces[..0] == [];
    while i < |pieces|
      invariant 0 <= i <= |pieces| && fresh(f)
      invariant out + f.buf == Join(pieces[..i]) && f.buf == Held(Join(pieces[..i]))
    {
      assert pieces[..i + 1] == pieces[..i] + [pieces[i]];
      JoinAppend(pieces[..i], pieces[i]);
      PrefixOfJoin(pieces, i + 1);
      ghost var s := Join(pieces[..i]);
      TagFreePrefix(Join(pieces), s + pieces[i]);
      FeedPiece(s, out, pieces[i]);
      var piece := f.Feed(pieces[i]);
      out := out + piece;
      i := i + 1;
    }
    assert pieces[..i] == pieces;
    FlushPiece(Join(pieces), out);
    var rest := f.Flush();
    out := out + rest;
  }

  lemma TagFreePrefix(s: string, t: string)
    requires TagFree(s) && t <= s
    ensures TagFree(t)
  {
    hide *;
    assert s[0..|t|] == t;
    TagFreeInner(s, 0, |t|);
  }

  /** With s read, of which `out` was passed on, one more piece of marker-free text. */
  lemma FeedPiece(s: string, out: string, x: string)
    requires TagFree(s + x) && out + Held(s) == s
    ensures var (o, b) := FeedStep(Held(s), x); out + o + b == s + x && b == Held(s + x)
  {
    hide StripTags, TagFree, TrimSpace, Held;
    var b := Held(s) + x;
    assert s + x == out + b;
    RestStrips(s + x, out, b);
    HeldStep(s, x);
    if x == "" {
      assert s + x == s;
      assert out + "" + Held(s) == s;
    } else {
      var h := Held(b);
      assert b[..|b| - |h|] + h == b;
      assert out + b[..|b| - |h|] + h == out + (b[..|b| - |h|] + h);
    }
  }

  lemma FlushPiece(s: string, out: string)
    requires TagFree(s) && out + Held(s) == s
    ensures out + FlushStep(Held(s)) == WithoutResidue(s)
  {
    hide StripTags, TagFree, WithoutResidue, Held;
    RestStrips(s, out, Held(s));
    ResidueOfHeld(s, out);
  }

  lemma RestStrips(s: string, out: string, b: string)
    requires TagFree(s) && out + b <= s
    ensures StripTags(b) == b
  {
    hide *;
    assert s[|out|..|out + b|] == b;
    TagFreeInner(s, |out|, |out + b|);
    TagFreeStrips(b);
  }

  lemma EmptyHeld()
    ensures Held("") == "" && "" + "" == Join([])
  {
  }

  lemma PrefixOfJoin(pieces: seq<string>, n: nat)
    requires n <= |pieces|
    ensures Join(pieces[..n]) <= Join(pieces)
  {
    hide Join;
    JoinConcat(pieces[..n], pieces[n..]);
    assert pieces == pieces[..n] + pieces[n..];
  }

  lemma ResidueOfHeld(s: string, out: string)
    requires s == out + Held(s)
    ensures out + WithoutResidue(Held(s)) == WithoutResidue(s)
  {
    hide Read;
    var h := Held(s);
    var i := LastIndexOf(s, '<');
    if h != "" {
      LooseHasNoAngles(h);
      LastAngle(h, 0);
      assert s[i..] == h && h[0..] == h && s[..i] == out;
    }
  }
}
