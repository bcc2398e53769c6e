/**
 * Turns that carry nothing but text: what the reader gets is the one-shot scan of the whole text, however the
 * text was cut.
 */
module PlainRun {
  import opened Strings
  import opened TextFlow
  import T = ThinkTag
  import H = HeuristicTool
  import R = HeuristicLaws
  import D = Dsml

  /** The characters of one side of the tags. */
  function Part(kind: T.Kind, s: seq<T.Tagged>): string
  {
    if s == [] then ""
    else Part(kind, s[..|s| - 1]) + (if s[|s| - 1].kind == kind then [s[|s| - 1].ch] else "")
  }

  lemma {:induction false} PartConcat(kind: T.Kind, a: seq<T.Tagged>, b: seq<T.Tagged>)
    ensures Part(kind, a + b) == Part(kind, a) + Part(kind, b)
  {
    if b == [] {
      assert a + b == a;
    } else {
      assert (a + b)[..|a + b| - 1] == a + b[..|b| - 1];
      PartConcat(kind, a, b[..|b| - 1]);
    }
  }

  lemma {:induction false} PartPaint(kind: T.Kind, k: T.Kind, s: string)
    ensures Part(kind, T.Paint(k, s)) == if k == kind then s else ""
  {
    if s != "" {
      var s' := s[..|s| - 1];
      assert T.Paint(k, s)[..|s| - 1] == T.Paint(k, s');
      PartPaint(kind, k, s');
    }
  }

  lemma PartMore(kind: T.Kind, out: seq<T.Tagged>, k: T.Kind, s: string)
    ensures Part(kind, out + T.Paint(k, s)) == Part(kind, out) + (if k == kind then s else "")
  {
    hide Part, T.Paint;
    PartConcat(kind, out, T.Paint(k, s));
    PartPaint(kind, k, s);
  }

  /** Visible text the heuristic parser has no interest in. */
  ghost predicate QuietText(strip: bool, s: string)
  {
    H.BULLET !in s && R.Plain(strip, s)
  }

  /** Neither the heuristic parser nor the marker filters find anything in the two sides. */
  ghost predicate Quiet(defend: bool, text: string, thought: string)
  {
    QuietText(defend, text) && (defend ==> D.TagFree(text) && D.TagFree(thought))
  }

  lemma QuietPrefix(defend: bool, text: string, thought: string, t: string, r: string)
    requires Quiet(defend, text, thought) && t <= text && r <= thought
    ensures Quiet(defend, t, r)
  {
    hide R.Plain, D.TagFree;
    assert text == t + text[|t|..];
    R.PlainPrefix(defend, t, text[|t|..]);
    if defend {
      D.TagFreePrefix(text, t);
      D.TagFreePrefix(thought, r);
    }
  }

  function Buffering(defend: bool, s: string): H.State
  {
    Begin(defend, 0).heuristic.(buffer := s)
  }

  /** Quiet text is buffered, whole and unchanged, until the flush. */
  lemma QuietFeed(codec: H.Json.Codec, defend: bool, s: string, x: string)
    requires QuietText(defend, s + x)
    ensures H.FeedSpec(codec, Buffering(defend, s), x) == H.Output(Buffering(defend, s + x), "", [])
  {
    hide H.FeedSpec, R.Plain, H.IndexChar;
    R.PlainFeed(codec, Buffering(defend, s), x);
    assert H.IndexChar(s + x, H.BULLET, 0) == -1;
    if defend { NoTail(s + x); }
  }

  lemma NoTail(s: string)
    requires R.Plain(true, s)
    ensures H.LastControlStart(s) == -1
  {
  }

  lemma QuietFlush(defend: bool, s: string)
    requires QuietText(defend, s)
    ensures H.FlushSpec(Buffering(defend, s)) == H.Output(Buffering(defend, ""), s, [])
  {
    assert s + "" == s;
    if defend { R.StripLeavesPlain(s); }
  }

  /** Of the reasoning that came in, all has gone out but for what may still become a marker. */
  ghost predicate Pondered(g: Setting, f: Flow, thought: string)
  {
    if g.defend then f.reasoning + f.reasoningBuf == thought && f.reasoningBuf == D.Held(thought)
    else f.reasoning == thought && f.reasoningBuf == ""
  }

  /** The state of a plain turn, when `out` is what the think-tag parser has passed on. */
  ghost predicate Plainly(g: Setting, out: seq<T.Tagged>, f: Flow)
  {
    && f.heuristic == Buffering(g.defend, Part(T.Text, out))
    && f.text == "" && f.contentBuf == "" && f.calls == []
    && Pondered(g, f, Part(T.Thinking, out))
  }

  lemma PonderMore(g: Setting, f: Flow, thought: string, s: string)
    requires g.thinking && Pondered(g, f, thought) && (g.defend ==> D.TagFree(thought + s))
    ensures Pondered(g, Ponder(g, f, s), thought + s)
  {
    hide D.FeedStep, D.Held, D.TagFree;
    if g.defend { D.FeedPiece(thought, f.reasoning, s); }
  }

  /** One part of quiet text: the visible side is buffered, the other side is reasoned. */
  lemma HearsPlainly(g: Setting, out: seq<T.Tagged>, f: Flow, part: T.Chunk)
    requires g.thinking && Plainly(g, out, f)
    requires var o := out + T.Paint(part.kind, part.content); Quiet(g.defend, Part(T.Text, o), Part(T.Thinking, o))
    ensures Plainly(g, out + T.Paint(part.kind, part.content), Hear(g, f, part))
  {
    hide Part, T.Paint, H.FeedSpec, D.FeedStep, D.TagFree, QuietText, Pondered, Buffering;
    PartMore(T.Text, out, part.kind, part.content);
    PartMore(T.Thinking, out, part.kind, part.content);
    if part.kind == T.Thinking {
      PonderMore(g, f, Part(T.Thinking, out), part.content);
      assert Part(T.Text, out) + "" == Part(T.Text, out);
    } else {
      QuietFeed(g.codec, g.defend, Part(T.Text, out), part.content);
      TakesNothing(g, f, H.Output(Buffering(g.defend, Part(T.Text, out) + part.content), "", []));
      assert Part(T.Thinking, out) + "" == Part(T.Thinking, out);
      SamePondered(g, f, Hear(g, f, part), Part(T.Thinking, out));
    }
  }

  lemma TakesNothing(g: Setting, f: Flow, o: H.Output)
    requires o.text == "" && o.tools == []
    ensures Take(g, f, o) == f.(heuristic := o.state)
  {
    hide D.StripTags, D.Held;
    assert f.text + "" == f.text && f.calls + [] == f.calls;
  }

  lemma SamePondered(g: Setting, f: Flow, f': Flow, thought: string)
    requires Pondered(g, f, thought) && f'.reasoning == f.reasoning && f'.reasoningBuf == f.reasoningBuf
    ensures Pondered(g, f', thought)
  {
  }

  lemma {:induction false} HearsAllPlainly(g: Setting, out: seq<T.Tagged>, f: Flow, parts: seq<T.Chunk>)
    requires g.thinking && Plainly(g, out, f)
    requires var o := out + T.Flatten(parts); Quiet(g.defend, Part(T.Text, o), Part(T.Thinking, o))
    ensures Plainly(g, out + T.Flatten(parts), HearAll(g, f, parts))
  {
    hide Part, T.Paint, Hear, Plainly, Quiet;
    if parts == [] {
      assert out + [] == out;
    } else {
      var parts', p := parts[..|parts| - 1], parts[|parts| - 1];
      var o := out + T.Flatten(parts');
      assert out + T.Flatten(parts) == o + T.Paint(p.kind, p.content);
      PartMore(T.Text, o, p.kind, p.content);
      PartMore(T.Thinking, o, p.kind, p.content);
      QuietPrefix(g.defend, Part(T.Text, out + T.Flatten(parts)), Part(T.Thinking, out + T.Flatten(parts)),
                  Part(T.Text, o), Part(T.Thinking, o));
      HearsAllPlainly(g, out, f, parts');
      HearsPlainly(g, o, HearAll(g, f, parts'), p);
    }
  }

  // ---- a whole plain turn ----

  /** Nothing but content came in. */
  predicate AllContent(script: seq<Action>)
  {
    forall a <- script :: a.Content?
  }

  function Contents(script: seq<Action>): string
  {
    if script == [] then ""
    else Contents(script[..|script| - 1]) + (if script[|script| - 1].Content? then script[|script| - 1].text else "")
  }

  /** Of the input, the think-tag parser has passed on `out` and holds a fragment. */
  ghost predicate Owed(input: string, out: seq<T.Tagged>, f: Flow)
  {
    && T.Owes(false, input, out, f.inThink, f.held)
    && HasSuffix(input, f.held) && (f.held == "" || T.HeldBack(f.inThink, f.held))
  }

  lemma OwedNothing(g: Setting)
    ensures Owed("", [], Begin(g.defend, 0)) && Plainly(g, [], Begin(g.defend, 0))
  {
    hide T.Owes;
    T.OwesNothing(false, "");
    assert T.Flatten([]) == [];
    assert D.Held("") == "";
  }

  lemma OwedNext(input: string, out: seq<T.Tagged>, f: Flow, a: Action)
    requires a.Content? && Owed(input, out, f) && Parsed(f, a)
    ensures Owed(input + a.text, out + T.Flatten(a.parts), f.(inThink := a.inThink, held := a.held))
  {
    hide T.Owes, T.HeldBack, T.Flatten, Parsed;
    ParsedOwes(f, a);
    T.OwesMore(false, input, out, f.inThink, f.held, a.text);
    T.OwesTransitive(false, input + a.text, out, f.inThink, f.held + a.text, T.Flatten(a.parts), a.inThink, a.held);
    var m := input + a.text;
    assert m[|input| - |f.held|..] == f.held + a.text;
    assert m[|m| - |a.held|..] == (f.held + a.text)[|f.held + a.text| - |a.held|..];
  }

  lemma HearKeepsTags(g: Setting, f: Flow, part: T.Chunk)
    ensures Hear(g, f, part).inThink == f.inThink && Hear(g, f, part).held == f.held
  {
    hide H.FeedSpec, D.FeedStep;
  }

  lemma {:induction false} HearAllKeepsTags(g: Setting, f: Flow, parts: seq<T.Chunk>)
    ensures HearAll(g, f, parts).inThink == f.inThink && HearAll(g, f, parts).held == f.held
  {
    hide Hear;
    if parts != [] {
      HearAllKeepsTags(g, f, parts[..|parts| - 1]);
      HearKeepsTags(g, HearAll(g, f, parts[..|parts| - 1]), parts[|parts| - 1]);
    }
  }

  /** However the content is cut: as long as it is quiet, its visible side is buffered and its other side reasoned. */
  lemma {:induction false} PlainSteps(g: Setting, script: seq<Action>) returns (out: seq<T.Tagged>)
    requires g.thinking && AllContent(script) && Honest(g, Begin(g.defend, 0), script)
    ensures var f := Play(g, Begin(g.defend, 0), script);
            Owed(Contents(script), out, f) && (Quiet(g.defend, Part(T.Text, out), Part(T.Thinking, out)) ==>
                  Plainly(g, out, f))
  {
    hide Part, T.Flatten, HearAll, Owed, Plainly, Quiet, Parsed, Begin;
    if script == [] {
      OwedNothing(g);
      out := [];
    } else {
      var script', a := script[..|script| - 1], script[|script| - 1];
      assert forall b :: b in script' ==> b in script;
      assert a in script;
      var out' := PlainSteps(g, script');
      var f := Play(g, Begin(g.defend, 0), script');
      out := out' + T.Flatten(a.parts);
      OwedNext(Contents(script'), out', f, a);
      var f' := f.(inThink := a.inThink, held := a.held);
      HearAllKeepsTags(g, f', a.parts);
      SameOwed(Contents(script), out, f', HearAll(g, f', a.parts));
      if Quiet(g.defend, Part(T.Text, out), Part(T.Thinking, out)) {
        PartConcat(T.Text, out', T.Flatten(a.parts));
        PartConcat(T.Thinking, out', T.Flatten(a.parts));
        QuietPrefix(g.defend, Part(T.Text, out), Part(T.Thinking, out), Part(T.Text, out'), Part(T.Thinking, out'));
        SamePlainly(g, out', f, f');
        HearsAllPlainly(g, out', f', a.parts);
      }
    }
  }

  lemma SameOwed(input: string, out: seq<T.Tagged>, f: Flow, f': Flow)
    requires Owed(input, out, f) && f'.inThink == f.inThink && f'.held == f.held
    ensures Owed(input, out, f')
  {
  }

  lemma SamePlainly(g: Setting, out: seq<T.Tagged>, f: Flow, f': Flow)
    requires Plainly(g, out, f) && f' == f.(inThink := f'.inThink, held := f'.held)
    ensures Plainly(g, out, f')
  {
  }

  // ---- the end of a plain turn ----

  /** The text ends in what could be the start of a tag. */
  ghost predicate EndsMidTag(s: string)
  {
    exists k :: 0 <= k < |s| && T.HeldBack(false, s[k..])
  }

  /** With defenses on, an unfinished marker at the very end is dropped. */
  function Whole(defend: bool, s: string): string
  {
    if defend then D.WithoutResidue(s) else s
  }

  /** The two sides of the one-shot scan are quiet. */
  ghost predicate QuietInput(defend: bool, input: string)
  {
    Quiet(defend, Part(T.Text, T.Scan(false, input)), Part(T.Thinking, T.Scan(false, input)))
  }

  /**
   * The text is the visible side of the one-shot scan and the reasoning its other side. Without defenses, a fragment
   * of a tag at the very end of the input comes ahead of the rest of its side.
   */
  ghost predicate ReadsScan(defend: bool, input: string, text: string, reasoning: string)
  {
    var visible, thought := Part(T.Text, T.Scan(false, input)), Part(T.Thinking, T.Scan(false, input));
    && reasoning == Whole(defend, thought)
    && (!EndsMidTag(input) ==> text == Whole(defend, visible))
    && (!defend ==> exists k ::
         0 <= k <= |visible| && (k < |visible| ==> EndsMidTag(visible))
         && text == visible[k..] + visible[..k])
  }

  /** The scan of the input is what was passed on and what is held, in this order. */
  lemma ScanSplits(input: string, out: seq<T.Tagged>, f: Flow)
    requires Owed(input, out, f)
    ensures Part(T.Text, T.Scan(false, input)) == Part(T.Text, out) + (if f.inThink then "" else f.held)
    ensures Part(T.Thinking, T.Scan(false, input)) == Part(T.Thinking, out) + (if f.inThink then f.held else "")
  {
    hide Part, T.Scan, T.Paint;
    var kind := T.KindOf(f.inThink);
    assert input + "" == input && f.held + "" == f.held;
    if f.held != "" {
      T.HeldScansPlain(f.inThink, f.held);
    } else {
      ScanNothing(f.inThink);
    }
    PartMore(T.Text, out, kind, f.held);
    PartMore(T.Thinking, out, kind, f.held);
  }

  lemma ScanNothing(inside: bool)
    ensures T.Scan(inside, "") == T.Paint(T.KindOf(inside), "")
  {
  }

  /** What the end of the turn makes of the reasoning. */
  lemma FinishReasons(g: Setting, f: Flow, thought: string)
    requires g.thinking && Pondered(g, f, thought)
    requires g.defend ==> D.TagFree(thought + (if f.inThink then f.held else ""))
    ensures Act(g, f, Finish).reasoning == Whole(g.defend, thought + (if f.inThink then f.held else ""))
  {
    hide D.FeedStep, D.FlushStep, D.TagFree, D.Held, D.WithoutResidue, H.FlushSpec, Pondered;
    assert thought + "" == thought;
    var f1 := ReleaseHeld(g, f);
    if f.inThink {
      SamePondered(g, f, f.(held := ""), thought);
      PonderMore(g, f.(held := ""), thought, f.held);
    } else {
      SamePondered(g, f, f1, thought);
    }
    FlushPonders(g, f1, thought + (if f.inThink then f.held else ""));
  }

  lemma FlushPonders(g: Setting, f: Flow, thought: string)
    requires Pondered(g, f, thought) && (g.defend ==> D.TagFree(thought))
    ensures FlushReasoning(g, f).reasoning == Whole(g.defend, thought)
  {
    hide D.FlushStep, D.TagFree, D.Held, D.WithoutResidue;
    if g.defend { D.FlushPiece(thought, f.reasoning); }
  }

  /** What the end of the turn makes of the text: the held fragment first, the buffered text after it. */
  lemma FinishSays(g: Setting, f: Flow, text: string)
    requires f.heuristic == Buffering(g.defend, text) && f.text == "" && f.contentBuf == ""
    requires Quiet(g.defend, text, "")
    ensures !g.defend ==> Act(g, f, Finish).text == (if f.inThink then "" else f.held) + text
    ensures f.inThink || f.held == "" ==> Act(g, f, Finish).text == Whole(g.defend, text)
  {
    hide D.FeedStep, D.FlushStep, D.TagFree, D.Held, D.WithoutResidue, H.FlushSpec, Buffering, QuietText;
    QuietFlush(g.defend, text);
    assert "" + text == text && "" + f.held == f.held;
    if g.defend {
      HeldNothing();
      D.FeedPiece("", "", text);
      var (o, b) := D.FeedStep("", text);
      assert "" + o == o;
      D.FlushPiece(text, o);
    }
  }

  lemma HeldNothing()
    ensures D.Held("") == ""
  {
  }

  lemma PlainlyMeans(g: Setting, out: seq<T.Tagged>, f: Flow)
    requires Plainly(g, out, f)
    ensures f.heuristic == Buffering(g.defend, Part(T.Text, out)) && f.text == "" && f.contentBuf == ""
    ensures Pondered(g, f, Part(T.Thinking, out))
  {
  }

  lemma QuietMarks(defend: bool, text: string, thought: string)
    requires Quiet(defend, text, thought)
    ensures defend ==> D.TagFree(thought)
  {
  }

  lemma MidTag(s: string, held: string)
    requires HasSuffix(s, held) && T.HeldBack(false, held)
    ensures EndsMidTag(s)
  {
    assert held == s[|s| - |held|..] && |held| > 0;
  }

  /** Once the turn is finished, what has come out is the scan. */
  lemma PlainTurn(g: Setting, script: seq<Action>)
    requires g.thinking && AllContent(script) && Honest(g, Begin(g.defend, 0), script)
    requires QuietInput(g.defend, Contents(script))
    ensures var f := Play(g, Begin(g.defend, 0), script + [Finish]);
            ReadsScan(g.defend, Contents(script), f.text, f.reasoning)
  {
    hide Part, T.Scan, T.Owes, T.HeldBack, EndsMidTag, Quiet, Act, Plainly, Whole, Play, Honest;
    var input := Contents(script);
    var out := PlainSteps(g, script);
    var f := Play(g, Begin(g.defend, 0), script);
    var f' := Act(g, f, Finish);
    PlaySnoc(g, Begin(g.defend, 0), script, Finish);
    ScanSplits(input, out, f);
    var text, thought := Part(T.Text, T.Scan(false, input)), Part(T.Thinking, T.Scan(false, input));
    var t, r := Part(T.Text, out), Part(T.Thinking, out);
    var held := if f.inThink then "" else f.held;
    QuietPrefix(g.defend, text, thought, t, r);
    QuietPrefix(g.defend, text, thought, t, "");
    QuietMarks(g.defend, text, thought);
    PlainlyMeans(g, out, f);
    FinishReasons(g, f, r);
    FinishSays(g, f, t);
    var k := |t|;
    assert text[k..] == held && text[..k] == t;
    if held != "" {
      MidTag(text, f.held);
      MidTag(input, f.held);
    } else {
      assert t + "" == t && "" + t == t;
    }
  }

  // ---- scripts whose input is plain ----

  lemma {:induction false} InputKeepsContent(script: seq<Action>)
    ensures Contents(Input(script)) == Contents(script)
  {
    if script != [] {
      var before := script[..|script| - 1];
      InputKeepsContent(before);
      assert Input(script)[..|Input(script)| - 1] == Input(before);
    }
  }

  lemma {:induction false} InputIsContent(script: seq<Action>)
    requires AllContent(Input(script))
    ensures AllContent(script)
  {
    hide AllContent;
    if script != [] {
      var before, a := script[..|script| - 1], script[|script| - 1];
      BothContent(Input(before), Bare(a));
      InputIsContent(before);
      BothContent(before, a);
      assert script == before + [a];
    }
  }

  lemma BothContent(script: seq<Action>, a: Action)
    ensures AllContent(script + [a]) <==> AllContent(script) && a.Content?
  {
    assert (script + [a])[|script|] == a;
    assert forall b <- script :: b in script + [a];
  }

  lemma EndsInFinish(script: seq<Action>, actions: seq<Action>)
    requires Input(script) == actions + [Finish]
    ensures script != [] && script[|script| - 1] == Finish && Input(script[..|script| - 1]) == actions
  {
    var before := Input(script[..|script| - 1]);
    assert before + [Bare(script[|script| - 1])] == actions + [Finish];
    assert (before + [Bare(script[|script| - 1])])[..|before|] == before;
  }

  /** However its content was cut: a turn of quiet content reads as the scan. */
  lemma PlainInput(g: Setting, script: seq<Action>, actions: seq<Action>)
    requires g.thinking && Input(script) == actions + [Finish] && Honest(g, Begin(g.defend, 0), script)
    requires AllContent(actions) && QuietInput(g.defend, Contents(actions))
    ensures var f := Play(g, Begin(g.defend, 0), script); ReadsScan(g.defend, Contents(actions), f.text, f.reasoning)
  {
    hide *;
    EndsInFinish(script, actions);
    var before := script[..|script| - 1];
    assert script == before + [Finish];
    InputKeepsContent(before);
    InputIsContent(before);
    PlaySnoc(g, Begin(g.defend, 0), before, Finish);
    PlainTurn(g, before);
  }
}
