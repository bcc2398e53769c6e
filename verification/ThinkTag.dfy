/** The streaming think-tag parser (internal/parsers/thinktag.go) against a one-shot scanner. */
module ThinkTag {
  import opened Strings

  datatype Kind = Text | Thinking

  datatype Chunk = Chunk(kind: Kind, content: string)

  /** One visible character together with the side of the tags it was on. */
  datatype Tagged = Tagged(kind: Kind, ch: char)

  const OPEN_TAG: string := "<think>"
  const CLOSE_TAG: string := "</think>"

  function Paint(kind: Kind, s: string): (r: seq<Tagged>)
    ensures |r| == |s|
    ensures forall i :: 0 <= i < |s| ==> r[i] == Tagged(kind, s[i])
  {
    seq(|s|, i requires 0 <= i < |s| => Tagged(kind, s[i]))
  }

  function Flatten(chunks: seq<Chunk>): seq<Tagged>
  {
    if chunks == [] then []
    else Flatten(chunks[..|chunks| - 1]) + Paint(chunks[|chunks| - 1].kind, chunks[|chunks| - 1].content)
  }

  /** The reference: read the whole text from left to right, one tag or one character at a time. */
  function Scan(inside: bool, s: string): seq<Tagged>
    decreases |s|
  {
    if s == "" then []
    else if !inside && OPEN_TAG <= s then Scan(true, s[|OPEN_TAG|..])
    else if CLOSE_TAG <= s then Scan(false, s[|CLOSE_TAG|..])
    else [Tagged(if inside then Thinking else Text, s[0])] + Scan(inside, s[1..])
  }

  /** No tag that matters in this mode starts inside the first n characters of s. */
  ghost predicate TagFree(inside: bool, s: string, n: nat)
  {
    forall i :: 0 <= i < n ==> !OccursAt(s, CLOSE_TAG, i) && (!inside ==> !OccursAt(s, OPEN_TAG, i))
  }

  function KindOf(inside: bool): Kind
  {
    if inside then Thinking else Text
  }

  lemma TagFreeTail(inside: bool, s: string, n: nat)
    requires 0 < n <= |s| && TagFree(inside, s, n)
    ensures TagFree(inside, s[1..], n - 1) && !OccursAt(s, CLOSE_TAG, 0) && (!inside ==> !OccursAt(s, OPEN_TAG, 0))
  {
    hide OccursAt;
    forall i | 0 <= i < n - 1
      ensures !OccursAt(s[1..], CLOSE_TAG, i) && (!inside ==> !OccursAt(s[1..], OPEN_TAG, i))
    {
      OccursDrop(s, CLOSE_TAG, 1, i);
      OccursDrop(s, OPEN_TAG, 1, i);
      assert !OccursAt(s, CLOSE_TAG, i + 1);
    }
  }

  lemma ScanOne(inside: bool, s: string)
    requires s != "" && !OccursAt(s, CLOSE_TAG, 0) && (!inside ==> !OccursAt(s, OPEN_TAG, 0))
    ensures Scan(inside, s) == [Tagged(KindOf(inside), s[0])] + Scan(inside, s[1..])
  {
  }

  /** A stretch without a tag start is copied character by character. */
  lemma {:induction false} ScanCopies(inside: bool, s: string, n: nat)
    requires n <= |s| && TagFree(inside, s, n)
    ensures Scan(inside, s) == Paint(KindOf(inside), s[..n]) + Scan(inside, s[n..])
  {
    hide OccursAt, Scan, TagFree;
    if n == 0 {
      assert s[0..] == s;
    } else {
      var t, kind := s[1..], KindOf(inside);
      TagFreeTail(inside, s, n);
      ScanOne(inside, s);
      ScanCopies(inside, t, n - 1);
      assert t[n - 1..] == s[n..];
      assert Paint(kind, s[..n]) == [Tagged(kind, s[0])] + Paint(kind, t[..n - 1]);
    }
  }

  /** Having emitted `out`, the state (in1, s1) owes exactly what (in0, s0) still owed. */
  ghost predicate Owes(in0: bool, s0: string, out: seq<Tagged>, in1: bool, s1: string)
  {
    forall more: string :: Scan(in0, s0 + more) == out + Scan(in1, s1 + more)
  }

  lemma OwesNothing(inside: bool, s: string)
    ensures Owes(inside, s, Flatten([]), inside, s)
  {
    hide Scan;
  }

  lemma OwesTransitive(in0: bool, s0: string, o1: seq<Tagged>, in1: bool, s1: string,
                       o2: seq<Tagged>, in2: bool, s2: string)
    requires Owes(in0, s0, o1, in1, s1) && Owes(in1, s1, o2, in2, s2)
    ensures Owes(in0, s0, o1 + o2, in2, s2)
  {
    hide Scan;
    forall more: string ensures Scan(in0, s0 + more) == o1 + o2 + Scan(in2, s2 + more) {
      assert Scan(in0, s0 + more) == o1 + Scan(in1, s1 + more);
      assert Scan(in1, s1 + more) == o2 + Scan(in2, s2 + more);
    }
  }

  predicate IsTag(tag: string)
  {
    tag == OPEN_TAG || tag == CLOSE_TAG
  }

  predicate TagShape(tag: string)
  {
    tag != "" && tag[0] == '<' && forall j :: 0 < j < |tag| ==> tag[j] != '<'
  }

  /** A tag of b + more that starts inside b lies inside b, or its start is the last '<' of b. */
  lemma TagStartsKnown(b: string, more: string, tag: string, i: nat)
    requires i < |b| && TagShape(tag)
    ensures OccursAt(b + more, tag, i) ==>
              OccursAt(b, tag, i) || (i == LastIndexOf(b, '<') && |b| - i < |tag| && b[i..] <= tag)
  {
    var s := b + more;
    OccursPointwise(s, tag, i);
    OccursPointwise(b, tag, i);
    if OccursAt(s, tag, i) && |b| < i + |tag| {
      forall j | i <= j < |b| ensures b[j] == tag[j - i] {
        assert s[i + (j - i)] == tag[j - i];
      }
      assert b[i..] == tag[..|b| - i];
      assert b[i] == '<' && forall j :: i < j < |b| ==> b[j] != '<';
    }
  }

  lemma TagAhead(b: string, more: string, tag: string, k: nat)
    requires OccursAt(b, tag, k)
    ensures OccursAt(b + more, tag, k)
    ensures b[k..] + more == tag + (b[k + |tag|..] + more)
  {
    assert (b + more)[k..k + |tag|] == b[k..k + |tag|];
  }

  /** The fragment may still become a tag that matters in this mode. */
  predicate HeldBack(inside: bool, b: string)
  {
    b != "" && b[0] == '<' &&
    ((|b| < |CLOSE_TAG| && b <= CLOSE_TAG) || (!inside && |b| < |OPEN_TAG| && b <= OPEN_TAG))
  }

  /** Emitting the text in front of position k is right when k is a '<' no relevant tag precedes. */
  lemma EmitBefore(inside: bool, b: string, k: nat)
    requires k < |b| && b[k] == '<' && TagFree(inside, b, k)
    ensures Owes(inside, b, Paint(KindOf(inside), b[..k]), inside, b[k..])
  {
    hide Scan, Paint, TagFree;
    forall more: string ensures Scan(inside, b + more) == Paint(KindOf(inside), b[..k]) + Scan(inside, b[k..] + more) {
      FreeBefore(inside, b, k, more);
      ScanCopies(inside, b + more, k);
      assert (b + more)[..k] == b[..k] && (b + more)[k..] == b[k..] + more;
    }
  }

  lemma FreeBefore(inside: bool, b: string, k: nat, more: string)
    requires k < |b| && b[k] == '<' && TagFree(inside, b, k)
    ensures TagFree(inside, b + more, k)
  {
    hide OccursAt;
    forall i | 0 <= i < k
      ensures !OccursAt(b + more, CLOSE_TAG, i) && (!inside ==> !OccursAt(b + more, OPEN_TAG, i))
    {
      TagStartsKnown(b, more, CLOSE_TAG, i);
      TagStartsKnown(b, more, OPEN_TAG, i);
    }
  }

  /** Emitting the whole buffer is right when it ends in no fragment of a relevant tag. */
  lemma EmitAll(inside: bool, b: string)
    requires TagFree(inside, b, |b|)
    requires LastIndexOf(b, '<') != -1 ==> !HeldBack(inside, b[LastIndexOf(b, '<')..])
    ensures Owes(inside, b, Paint(KindOf(inside), b), inside, "")
  {
    hide Scan, HeldBack, TagFree, LastIndexOf, Paint;
    forall more: string ensures Scan(inside, b + more) == Paint(KindOf(inside), b) + Scan(inside, "" + more) {
      NoTagCompletes(inside, b, more);
      ScanCopies(inside, b + more, |b|);
      assert (b + more)[..|b|] == b && (b + more)[|b|..] == more && "" + more == more;
    }
  }

  lemma NoTagCompletes(inside: bool, b: string, more: string)
    requires TagFree(inside, b, |b|)
    requires LastIndexOf(b, '<') != -1 ==> !HeldBack(inside, b[LastIndexOf(b, '<')..])
    ensures TagFree(inside, b + more, |b|)
  {
    hide OccursAt, HeldBack, LastIndexOf;
    forall i | 0 <= i < |b|
      ensures !OccursAt(b + more, CLOSE_TAG, i) && (!inside ==> !OccursAt(b + more, OPEN_TAG, i))
    {
      TagDoesNotComplete(inside, b, more, CLOSE_TAG, i);
      if !inside { TagDoesNotComplete(inside, b, more, OPEN_TAG, i); }
    }
  }

  lemma TagDoesNotComplete(inside: bool, b: string, more: string, tag: string, i: nat)
    requires i < |b| && IsTag(tag) && (inside ==> tag == CLOSE_TAG)
    requires !OccursAt(b, tag, i)
    requires LastIndexOf(b, '<') != -1 ==> !HeldBack(inside, b[LastIndexOf(b, '<')..])
    ensures !OccursAt(b + more, tag, i)
  {
    hide OccursAt, LastIndexOf;
    TagStartsKnown(b, more, tag, i);
  }

  /** Stepping over a tag at the front of the buffer. */
  lemma StepOverTag(inside: bool, b: string, tag: string, k: nat)
    requires OccursAt(b, tag, k) && IsTag(tag) && (inside ==> tag == CLOSE_TAG)
    requires TagFree(inside, b, k)
    ensures Owes(inside, b, Paint(KindOf(inside), b[..k]), tag == OPEN_TAG, b[k + |tag|..])
  {
    assert b[k] == b[k..k + |tag|][0] == '<';
    EmitBefore(inside, b, k);
    forall more: string ensures Scan(inside, b[k..] + more) == [] + Scan(tag == OPEN_TAG, b[k + |tag|..] + more) {
      TagAhead(b, more, tag, k);
      var s := b[k..] + more;
      assert s[|tag|..] == b[k + |tag|..] + more;
      assert tag <= s;
      assert tag == CLOSE_TAG ==> !(OPEN_TAG <= s) by {
        if tag == CLOSE_TAG { assert s[1] == CLOSE_TAG[1]; }
      }
    }
    OwesTransitive(inside, b, Paint(KindOf(inside), b[..k]), inside, b[k..], [], tag == OPEN_TAG, b[k + |tag|..]);
    assert Paint(KindOf(inside), b[..k]) + [] == Paint(KindOf(inside), b[..k]);
  }

  /** The first tag that matters outside thinking, if any, and what is in front of it. */
  lemma FirstTag(b: string)
    ensures var o, c := Index(b, OPEN_TAG), Index(b, CLOSE_TAG);
            && (c != -1 && (o == -1 || c < o) ==> OccursAt(b, CLOSE_TAG, c) && TagFree(false, b, c))
            && (o != -1 && (c == -1 || o <= c) ==> OccursAt(b, OPEN_TAG, o) && TagFree(false, b, o))
            && (o == -1 && c == -1 ==> forall k :: 0 <= k <= |b| ==> TagFree(false, b, k))
            && (o != -1 ==> 0 <= o <= |b| - |OPEN_TAG|) && (c != -1 ==> 0 <= c <= |b| - |CLOSE_TAG|)
  {
    FoundWithin(b, OPEN_TAG);
    FoundWithin(b, CLOSE_TAG);
    hide OccursAt;
  }

  lemma FoundWithin(b: string, tag: string)
    ensures Index(b, tag) != -1 ==> 0 <= Index(b, tag) <= |b| - |tag|
  {
  }

  // ---- the parser as a function ----

  /** What comes out, and what is left. */
  datatype Parse = Parse(out: seq<Chunk>, inside: bool, rest: string)

  /** One step outside a tag: to an orphan close, to an open tag, or to what may become either. */
  function StepOutside(b: string): (r: Parse)
    ensures |r.rest| < |b| || (r.rest == b && r.out == []) || b == ""
  {
    var open, close := Index(b, OPEN_TAG), Index(b, CLOSE_TAG);
    if close != -1 && (open == -1 || close < open) then Parse(One(Text, b[..close]), false, b[close + |CLOSE_TAG|..])
    else if open != -1 then Parse(One(Text, b[..open]), true, b[open + |OPEN_TAG|..])
    else
      var last := LastIndexOf(b, '<');
      if last != -1 && HeldBack(false, b[last..]) then Parse(One(Text, b[..last]), false, b[last..])
      else Parse(One(Text, b), false, "")
  }

  function StepInside(b: string): (r: Parse)
    ensures |r.rest| < |b| || (r.rest == b && r.out == []) || b == ""
  {
    var close := Index(b, CLOSE_TAG);
    if close != -1 then Parse(One(Thinking, b[..close]), false, b[close + |CLOSE_TAG|..])
    else
      var last := LastIndexOf(b, '<');
      if last != -1 && HeldBack(true, b[last..]) then Parse(One(Thinking, b[..last]), true, b[last..])
      else Parse(One(Thinking, b), true, "")
  }

  function StepOf(inside: bool, b: string): (r: Parse)
    ensures |r.rest| < |b| || (r.rest == b && r.out == []) || b == ""
  {
    if inside then StepInside(b) else StepOutside(b)
  }

  /** Step by step, until the buffer is empty or holds what may become a tag. */
  function Parsed(inside: bool, b: string): Parse
    decreases |b|
  {
    if b == "" then Parse([], inside, "")
    else
      var s := StepOf(inside, b);
      if |s.rest| == |b| then s
      else
        var more := Parsed(s.inside, s.rest);
        Parse(s.out + more.out, more.inside, more.rest)
  }

  /** What a step gives out it owed, and what it keeps may become a tag. */
  lemma StepOwes(inside: bool, b: string)
    requires b != ""
    ensures var s := StepOf(inside, b);
            && Owes(inside, b, Flatten(s.out), s.inside, s.rest) && HasSuffix(b, s.rest)
            && (forall c <- s.out :: c.content != "") && |s.out| <= 1
            && (|s.rest| == |b| ==> s == Parse([], inside, b) && HeldBack(inside, b))
  {
    hide Owes, Scan, Flatten, HasSuffix, TagFree, OccursAt, HeldBack;
    AnySuffix(b);
    if inside {
      InsideOwes(b);
    } else {
      OutsideOwes(b);
    }
  }

  lemma SuffixTwice(s: string, t: string, u: string)
    requires HasSuffix(s, t) && HasSuffix(t, u)
    ensures HasSuffix(s, u)
  {
  }

  lemma OutsideOwes(b: string)
    requires b != ""
    ensures var s := StepOutside(b);
            && Owes(false, b, Flatten(s.out), s.inside, s.rest) && HasSuffix(b, s.rest)
            && (|s.rest| == |b| ==> s == Parse([], false, b) && HeldBack(false, b))
  {
    hide Owes, Scan, Flatten, HasSuffix, TagFree, OccursAt, HeldBack;
    AnySuffix(b);
    FirstTag(b);
    var open, close, last := Index(b, OPEN_TAG), Index(b, CLOSE_TAG), LastIndexOf(b, '<');
    if close != -1 && (open == -1 || close < open) {
      StepOverTag(false, b, CLOSE_TAG, close);
    } else if open != -1 {
      StepOverTag(false, b, OPEN_TAG, open);
    } else if last != -1 && HeldBack(false, b[last..]) {
      EmitBefore(false, b, last);
      assert last == 0 ==> b[last..] == b;
    } else {
      EmitAll(false, b);
    }
  }

  lemma InsideOwes(b: string)
    requires b != ""
    ensures var s := StepInside(b);
            && Owes(true, b, Flatten(s.out), s.inside, s.rest) && HasSuffix(b, s.rest)
            && (|s.rest| == |b| ==> s == Parse([], true, b) && HeldBack(true, b))
  {
    hide Owes, Scan, Flatten, HasSuffix, OccursAt, HeldBack;
    AnySuffix(b);
    FoundWithin(b, CLOSE_TAG);
    var close, last := Index(b, CLOSE_TAG), LastIndexOf(b, '<');
    if close != -1 {
      StepOverTag(true, b, CLOSE_TAG, close);
    } else if last != -1 && HeldBack(true, b[last..]) {
      EmitBefore(true, b, last);
      assert last == 0 ==> b[last..] == b;
    } else {
      EmitAll(true, b);
    }
  }

  /** All of it: what comes out is what the one-shot scan owes, whatever follows, and what is kept may become a tag. */
  lemma {:induction false} ParsedOwes(inside: bool, b: string)
    ensures var p := Parsed(inside, b);
            && Owes(inside, b, Flatten(p.out), p.inside, p.rest) && HasSuffix(b, p.rest)
            && (forall c <- p.out :: c.content != "") && (p.rest == "" || HeldBack(p.inside, p.rest))
    decreases |b|
  {
    hide Owes, Flatten, HeldBack, StepOf, HasSuffix;
    AnySuffix(b);
    if b == "" {
      OwesNothing(inside, b);
    } else {
      var s := StepOf(inside, b);
      StepOwes(inside, b);
      if |s.rest| < |b| {
        ParsedOwes(s.inside, s.rest);
        var more := Parsed(s.inside, s.rest);
        OwesTransitive(inside, b, Flatten(s.out), s.inside, s.rest, Flatten(more.out), more.inside, more.rest);
        FlattenConcat(s.out, more.out);
        SuffixTwice(b, s.rest, more.rest);
      }
    }
  }

  class ThinkTagParser {
    var buffer: string
    var inThinkTag: bool

    constructor ()
      ensures buffer == "" && !inThinkTag
    {
      buffer, inThinkTag := "", false;
    }

    /** What stays between two calls: nothing, or a proper prefix of a tag that could still complete. */
    predicate Settled()
      reads this
    {
      buffer == "" || HeldBack(inThinkTag, buffer)
    }

    method Feed(content: string) returns (chunks: seq<Chunk>)
      modifies this
      ensures Parse(chunks, inThinkTag, buffer) == Parsed(old(inThinkTag), old(buffer) + content)
      ensures Settled()
      ensures Owes(old(inThinkTag), old(buffer) + content, Flatten(chunks), inThinkTag, buffer)
      ensures HasSuffix(old(buffer) + content, buffer)
      ensures forall c <- chunks :: c.content != ""
    {
      hide Owes, Flatten, StepOf, HeldBack, HasSuffix;
      ParsedOwes(inThinkTag, buffer + content);
      buffer := buffer + content;
      chunks := [];
      ghost var whole := Parsed(inThinkTag, buffer);
      Resumes(whole);
      while buffer != ""
        invariant whole == Onward(chunks, Parsed(inThinkTag, buffer))
        decreases |buffer|
      {
        var prevLen := |buffer|;
        ghost var in0, b0 := inThinkTag, buffer;
        StepOwes(inThinkTag, buffer);
        var out: seq<Chunk>;
        if !inThinkTag {
          out := ParseOutsideThink();
        } else {
          out := ParseInsideThink();
        }
        OneStep(chunks, in0, b0);
        if out != [] {
          assert out == [out[0]];
          chunks := chunks + [out[0]];
        } else {
          assert chunks + out == chunks;
          if |buffer| == prevLen {
            break;
          }
        }
      }
    }

    /** The step outside a tag; the result is the chunk produced, if any. */
    method ParseOutsideThink() returns (out: seq<Chunk>)
      requires buffer != "" && !inThinkTag
      modifies this
      ensures Parse(out, inThinkTag, buffer) == StepOf(false, old(buffer))
      ensures |out| <= 1 && (forall c <- out :: c.content != "")
      ensures Owes(false, old(buffer), Flatten(out), inThinkTag, buffer)
      ensures HasSuffix(old(buffer), buffer)
      ensures |buffer| < old(|buffer|) || (out == [] && buffer == old(buffer) && HeldBack(false, buffer) && !inThinkTag)
    {
      hide Owes, Flatten, HasSuffix, OccursAt, HeldBack, Index, One, StepOutside;
      StepOwes(false, buffer);
      OutsideIs(buffer);
      var thinkStart := Index(buffer, OPEN_TAG);
      var orphanClose := Index(buffer, CLOSE_TAG);
      if orphanClose != -1 && (thinkStart == -1 || orphanClose < thinkStart) {
        var preOrphan := buffer[..orphanClose];
        buffer := buffer[orphanClose + |CLOSE_TAG|..];
        out := One(Text, preOrphan);
        return;
      }
      if thinkStart == -1 {
        var lastBracket := LastIndexOf(buffer, '<');
        if lastBracket != -1 {
          var potentialTag := buffer[lastBracket..];
          var tagLen := |potentialTag|;
          if (tagLen < |OPEN_TAG| && potentialTag <= OPEN_TAG) || (tagLen < |CLOSE_TAG| && potentialTag <= CLOSE_TAG) {
            var emit := buffer[..lastBracket];
            buffer := buffer[lastBracket..];
            out := One(Text, emit);
            return;
          }
        }
        var emit := buffer;
        buffer := "";
        out := One(Text, emit);
        return;
      }
      var preThink := buffer[..thinkStart];
      buffer := buffer[thinkStart + |OPEN_TAG|..];
      inThinkTag := true;
      out := One(Text, preThink);
    }

    method ParseInsideThink() returns (out: seq<Chunk>)
      requires buffer != "" && inThinkTag
      modifies this
      ensures Parse(out, inThinkTag, buffer) == StepOf(true, old(buffer))
      ensures |out| <= 1 && (forall c <- out :: c.content != "")
      ensures Owes(true, old(buffer), Flatten(out), inThinkTag, buffer)
      ensures HasSuffix(old(buffer), buffer)
      ensures |buffer| < old(|buffer|) || (out == [] && buffer == old(buffer) && HeldBack(true, buffer) && inThinkTag)
    {
      hide Owes, Flatten, HasSuffix, OccursAt, HeldBack, Index, One, StepInside;
      StepOwes(true, buffer);
      InsideIs(buffer);
      var thinkEnd := Index(buffer, CLOSE_TAG);
      if thinkEnd == -1 {
        var lastBracket := LastIndexOf(buffer, '<');
        if lastBracket != -1 && |buffer| - lastBracket < |CLOSE_TAG| {
          var potentialTag := buffer[lastBracket..];
          if potentialTag <= CLOSE_TAG {
            var emit := buffer[..lastBracket];
            buffer := buffer[lastBracket..];
            out := One(Thinking, emit);
            return;
          }
        }
        var emit := buffer;
        buffer := "";
        out := One(Thinking, emit);
        return;
      }
      var thinkingContent := buffer[..thinkEnd];
      buffer := buffer[thinkEnd + |CLOSE_TAG|..];
      inThinkTag := false;
      out := One(Thinking, thinkingContent);
    }

    /** Whatever is still held is emitted as plain text of the current mode. */
    method Flush() returns (out: seq<Chunk>)
      modifies this
      ensures buffer == "" && inThinkTag == old(inThinkTag)
      ensures |out| <= 1 && (forall c <- out :: c.content != "")
      ensures out == (if old(buffer) == "" then [] else [Chunk(KindOf(inThinkTag), old(buffer))])
      ensures old(Settled()) ==> Flatten(out) == Scan(old(inThinkTag), old(buffer))
    {
      if buffer == "" {
        return [];
      }
      out := [Chunk(KindOf(inThinkTag), buffer)];
      if Settled() {
        HeldScansPlain(inThinkTag, buffer);
        FlattenOne(out[0]);
      }
      buffer := "";
    }
  }

  /** The branches of a step, by the tests that the parser makes. */
  lemma OutsideIs(b: string)
    ensures var open, close, last := Index(b, OPEN_TAG), Index(b, CLOSE_TAG), LastIndexOf(b, '<');
            && (open != -1 ==> 0 <= open && open + |OPEN_TAG| <= |b|)
               && (close != -1 ==> 0 <= close && close + |CLOSE_TAG| <= |b|)
            && StepOutside(b) ==
               if close != -1 && (open == -1 || close < open) then
                   Parse(One(Text, b[..close]), false, b[close + |CLOSE_TAG|..])
               else if open != -1 then Parse(One(Text, b[..open]), true, b[open + |OPEN_TAG|..])
               else if last != -1 && ((|b| - last < |OPEN_TAG| && b[last..] <= OPEN_TAG)
                     || (|b| - last < |CLOSE_TAG| && b[last..] <= CLOSE_TAG)) then
                 Parse(One(Text, b[..last]), false, b[last..])
               else Parse(One(Text, b), false, "")
  {
    hide One;
    FoundWithin(b, OPEN_TAG);
    FoundWithin(b, CLOSE_TAG);
  }

  lemma InsideIs(b: string)
    ensures var close, last := Index(b, CLOSE_TAG), LastIndexOf(b, '<');
            && (close != -1 ==> 0 <= close && close + |CLOSE_TAG| <= |b|)
            && StepInside(b) ==
               if close != -1 then Parse(One(Thinking, b[..close]), false, b[close + |CLOSE_TAG|..])
               else if last != -1 && |b| - last < |CLOSE_TAG| && b[last..] <= CLOSE_TAG then
                   Parse(One(Thinking, b[..last]), true, b[last..])
               else Parse(One(Thinking, b), true, "")
  {
    hide One;
    FoundWithin(b, CLOSE_TAG);
  }

  /** What was parsed before, and what comes now. */
  function Onward(chunks: seq<Chunk>, p: Parse): Parse
  {
    Parse(chunks + p.out, p.inside, p.rest)
  }

  lemma Resumes(p: Parse)
    ensures Onward([], p) == p
  {
    assert [] + p.out == p.out;
  }

  lemma OneStep(chunks: seq<Chunk>, inside: bool, b: string)
    requires b != ""
    ensures var s := StepOf(inside, b);
            Onward(chunks, Parsed(inside, b)) == if |s.rest| == |b| then Onward(chunks, s)
                else Onward(chunks + s.out, Parsed(s.inside, s.rest))
  {
    hide StepOf;
    var s := StepOf(inside, b);
    if |s.rest| != |b| {
      var more := Parsed(s.inside, s.rest);
      assert chunks + s.out + more.out == chunks + (s.out + more.out);
    }
  }

  lemma AnySuffix(s: string)
    ensures HasSuffix(s, "") && HasSuffix(s, s)
    ensures forall k :: 0 <= k <= |s| ==> HasSuffix(s, s[k..])
  {
  }

  function One(kind: Kind, content: string): (r: seq<Chunk>)
    ensures Flatten(r) == Paint(kind, content)
    ensures |r| <= 1 && forall c <- r :: c.content != ""
  {
    if content != "" then FlattenOne(Chunk(kind, content)); [Chunk(kind, content)] else []
  }

  lemma FlattenAppend(chunks: seq<Chunk>, c: Chunk)
    ensures Flatten(chunks + [c]) == Flatten(chunks) + Paint(c.kind, c.content)
  {
    assert (chunks + [c])[..|chunks|] == chunks;
  }

  lemma FlattenOne(c: Chunk)
    ensures Flatten([c]) == Paint(c.kind, c.content)
  {
    FlattenAppend([], c);
    assert [] + [c] == [c];
  }

  lemma {:induction false} FlattenConcat(a: seq<Chunk>, b: seq<Chunk>)
    ensures Flatten(a + b) == Flatten(a) + Flatten(b)
  {
    if b == [] {
      assert a + b == a;
    } else {
      hide Flatten, Paint;
      var b', x := b[..|b| - 1], b[|b| - 1];
      assert a + b == (a + b') + [x] && b == b' + [x];
      FlattenAppend(a + b', x);
      FlattenAppend(b', x);
      FlattenConcat(a, b');
      assert Flatten(a) + Flatten(b') + Paint(x.kind, x.content)
          == Flatten(a) + (Flatten(b') + Paint(x.kind, x.content));
    }
  }

  /** A held fragment contains no tag, so the scanner reads it as plain characters. */
  lemma HeldScansPlain(inside: bool, b: string)
    requires HeldBack(inside, b)
    ensures Scan(inside, b) == Paint(KindOf(inside), b)
  {
    forall i | 0 <= i < |b|
      ensures !OccursAt(b, CLOSE_TAG, i) && (!inside ==> !OccursAt(b, OPEN_TAG, i))
    {
      FragmentTagFree(b, CLOSE_TAG, i);
      FragmentTagFree(b, OPEN_TAG, i);
    }
    ScanCopies(inside, b, |b|);
    assert b[..|b|] == b && b[|b|..] == "";
  }

  lemma FragmentTagFree(b: string, tag: string, i: nat)
    requires i < |b| && IsTag(tag)
    requires (b <= OPEN_TAG && |b| < |OPEN_TAG|) || (b <= CLOSE_TAG && |b| < |CLOSE_TAG|)
    ensures !OccursAt(b, tag, i)
  {
    if i + |tag| <= |b| {
      assert |tag| == |OPEN_TAG| && i == 0 && b <= CLOSE_TAG;
      assert b[1] == CLOSE_TAG[1];
      assert b[i..i + |tag|][1] == b[1];
    }
  }

  /**
   * Split independence: whatever way a text is cut into pieces, feeding the pieces and
   * flushing yields exactly the characters, with their sides, of the one-shot scan.
   */
  method ParsePieces(pieces: seq<string>) returns (chunks: seq<Chunk>)
    ensures Flatten(chunks) == Scan(false, Join(pieces))
  {
    hide Owes, Scan, HeldBack, HasSuffix, Flatten, Join;
    var p := new ThinkTagParser();
    chunks := [];
    var i := 0;
    OwesNothing(false, "");
    JoinsToNothing(pieces);
    while i < |pieces|
      invariant 0 <= i <= |pieces|
      invariant p.Settled()
      invariant Owes(false, Join(pieces[..i]), Flatten(chunks), p.inThinkTag, p.buffer)
      invariant fresh(p)
    {
      ghost var in1, b1 := p.inThinkTag, p.buffer;
      var out := p.Feed(pieces[i]);
      FlattenConcat(chunks, out);
      assert pieces[..i + 1] == pieces[..i] + [pieces[i]];
      JoinAppend(pieces[..i], pieces[i]);
      OwesMore(false, Join(pieces[..i]), Flatten(chunks), in1, b1, pieces[i]);
      OwesTransitive(false, Join(pieces[..i + 1]), Flatten(chunks), in1, b1 + pieces[i], Flatten(out), p.inThinkTag,
                     p.buffer);
      chunks := chunks + out;
      i := i + 1;
    }
    assert pieces[..i] == pieces;
    OwesTheRest(false, Join(pieces), Flatten(chunks), p.inThinkTag, p.buffer);
    var rest := p.Flush();
    FlattenConcat(chunks, rest);
    chunks := chunks + rest;
  }

  lemma JoinsToNothing(pieces: seq<string>)
    ensures Join(pieces[..0]) == ""
  {
  }

  lemma OwesTheRest(in0: bool, s0: string, o: seq<Tagged>, in1: bool, s1: string)
    requires Owes(in0, s0, o, in1, s1)
    ensures Scan(in0, s0) == o + Scan(in1, s1)
  {
    hide Scan;
    assert Scan(in0, s0 + "") == o + Scan(in1, s1 + "");
    assert s0 + "" == s0 && s1 + "" == s1;
  }

  lemma OwesMore(in0: bool, s0: string, o: seq<Tagged>, in1: bool, s1: string, t: string)
    requires Owes(in0, s0, o, in1, s1)
    ensures Owes(in0, s0 + t, o, in1, s1 + t)
  {
    hide Scan;
    forall more: string ensures Scan(in0, s0 + t + more) == o + Scan(in1, s1 + t + more) {
      assert s0 + t + more == s0 + (t + more) && s1 + t + more == s1 + (t + more);
    }
  }
}
