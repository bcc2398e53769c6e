/**
 * Turns in which everything comes in: reasoning, refusals, content and native calls. When nothing in the content is a
 * tag or a call, the reader gets the reasoning in order, and the refusals and the content in the order in which the
 * parsers let go of them.
 */
module MixedRun {
  import opened Strings
  import opened TextFlow
  import opened PlainRun
  import T = ThinkTag
  import H = HeuristicTool
  import R = HeuristicLaws
  import D = Dsml

  predicate Simple(a: Action)
  {
    match a
    case Content(text, _, _, _) => '<' !in text
    case Reason(_) => true
    case Refuse(_) => true
    case Calls => true
    case _ => false
  }

  predicate AllSimple(script: seq<Action>)
  {
    forall a <- script :: Simple(a)
  }

  function Thoughts(script: seq<Action>): string
  {
    if script == [] then ""
    else Thoughts(script[..|script| - 1]) + (if script[|script| - 1].Reason? then script[|script| - 1].text else "")
  }

  /** The content that came since the last native calls; it waits for the next ones, or for the end. */
  function Waiting(script: seq<Action>): string
  {
    if script == [] then ""
    else
      var a, before := script[|script| - 1], Waiting(script[..|script| - 1]);
      if a.Calls? then "" else if a.Content? then before + a.text else before
  }

  /** What has been said: refusals at once, content when native calls come. */
  function Told(script: seq<Action>): string
  {
    if script == [] then ""
    else
      var a, before := script[|script| - 1], script[..|script| - 1];
      if a.Refuse? then Told(before) + a.text
      else if a.Calls? then Told(before) + Waiting(before)
      else Told(before)
  }

  /** The heuristic parser has no interest in any of the content. */
  ghost predicate QuietWaits(defend: bool, script: seq<Action>)
  {
    forall n :: 0 <= n <= |script| ==> QuietText(defend, Waiting(script[..n]))
  }

  /** Of what was said, all has gone out but for what may still become a marker. */
  ghost predicate Uttered(g: Setting, f: Flow, said: string)
  {
    if g.defend then f.text + f.contentBuf == said && f.contentBuf == D.Held(said)
    else f.text == said && f.contentBuf == ""
  }

  ghost predicate Mixed(g: Setting, f: Flow, waiting: string, said: string, thought: string)
  {
    && f.heuristic == Buffering(g.defend, waiting) && !f.inThink && f.held == "" && f.calls == []
    && Uttered(g, f, said) && Pondered(g, f, thought)
  }

  lemma SayMore(g: Setting, f: Flow, said: string, s: string)
    requires Uttered(g, f, said) && (g.defend ==> D.TagFree(said + s))
    ensures Uttered(g, Say(g, f, s), said + s)
  {
    hide D.FeedStep, D.Held, D.TagFree;
    if g.defend { D.FeedPiece(said, f.text, s); }
  }

  lemma SayKeeps(g: Setting, f: Flow, s: string)
    ensures var y := Say(g, f, s);
            y == f.(text := y.text, contentBuf := y.contentBuf)
    ensures var y := Ponder(g, f, s);
            y == f.(reasoning := y.reasoning, reasoningBuf := y.reasoningBuf)
  {
    hide D.FeedStep;
  }

  /** Content without '<' is one piece of text. */
  lemma ParsesWhole(text: string)
    requires '<' !in text
    ensures T.Parsed(false, text) == T.Parse(if text == "" then [] else [T.Chunk(T.Text, text)], false, "")
  {
    if text != "" {
      NoTag(text, T.OPEN_TAG);
      NoTag(text, T.CLOSE_TAG);
      assert LastIndexOf(text, '<') == -1;
      assert T.StepOf(false, text) == T.Parse([T.Chunk(T.Text, text)], false, "");
      assert T.Parsed(false, "") == T.Parse([], false, "");
      assert [T.Chunk(T.Text, text)] + [] == [T.Chunk(T.Text, text)];
    }
  }

  lemma NoTag(text: string, tag: string)
    requires '<' !in text && tag != "" && tag[0] == '<'
    ensures Index(text, tag) == -1
  {
  }

  /** One piece of content waits in the heuristic parser. */
  lemma ContentWaits(g: Setting, f: Flow, a: Action, waiting: string, said: string, thought: string)
    requires a.Content? && '<' !in a.text && Parsed(f, a) && Mixed(g, f, waiting, said, thought)
    requires QuietText(g.defend, waiting + a.text)
    ensures Mixed(g, Act(g, f, a), waiting + a.text, said, thought)
  {
    hide H.FeedSpec, D.FeedStep, D.Held, QuietText, Buffering, T.Parsed;
    ParsesWhole(a.text);
    assert "" + a.text == a.text;
    var f' := f.(inThink := a.inThink, held := a.held);
    if a.text == "" {
      assert waiting + "" == waiting;
      assert HearAll(g, f', []) == f';
    } else {
      var c := T.Chunk(T.Text, a.text);
      assert a.parts == [c] && [c][..0] == [];
      assert HearAll(g, f', [c]) == Hear(g, HearAll(g, f', []), c);
      QuietFeed(g.codec, g.defend, waiting, a.text);
      TakesNothing(g, f', H.Output(Buffering(g.defend, waiting + a.text), "", []));
    }
  }

  /** Native calls let the content go that waits. */
  lemma CallsRelease(g: Setting, f: Flow, waiting: string, said: string, thought: string)
    requires Mixed(g, f, waiting, said, thought) && QuietText(g.defend, waiting)
    requires g.defend ==> D.TagFree(said + waiting)
    ensures Mixed(g, Release(g, f), "", said + waiting, thought)
  {
    hide H.FlushSpec, D.FeedStep, D.Held, D.TagFree, QuietText, Buffering;
    QuietFlush(g.defend, waiting);
    var f' := f.(heuristic := Buffering(g.defend, ""), calls := f.calls + []);
    SayMore(g, f', said, waiting);
    SayKeeps(g, f', waiting);
  }

  lemma ReasonPonders(g: Setting, f: Flow, s: string, waiting: string, said: string, thought: string)
    requires g.thinking && Mixed(g, f, waiting, said, thought) && (g.defend ==> D.TagFree(thought + s))
    ensures Mixed(g, Ponder(g, f, s), waiting, said, thought + s)
  {
    hide D.FeedStep, D.Held, D.TagFree, Buffering;
    PonderMore(g, f, thought, s);
    SayKeeps(g, f, s);
  }

  lemma RefusalTells(g: Setting, f: Flow, s: string, waiting: string, said: string, thought: string)
    requires Mixed(g, f, waiting, said, thought) && (g.defend ==> D.TagFree(said + s))
    ensures Mixed(g, Say(g, f, s), waiting, said + s, thought)
  {
    hide D.FeedStep, D.Held, D.TagFree, Buffering;
    SayMore(g, f, said, s);
    SayKeeps(g, f, s);
  }

  /** What is said and thought in the end holds no marker, nor does any beginning of it. */
  ghost predicate Unmarked(defend: bool, said: string, thought: string)
  {
    defend ==> D.TagFree(said) && D.TagFree(thought)
  }

  lemma UnmarkedBefore(defend: bool, said: string, thought: string, s: string, t: string)
    requires Unmarked(defend, said, thought) && s <= said && t <= thought
    ensures Unmarked(defend, s, t)
  {
    hide D.TagFree;
    if defend {
      D.TagFreePrefix(said, s);
      D.TagFreePrefix(thought, t);
    }
  }

  lemma QuietBefore(defend: bool, script: seq<Action>)
    requires QuietWaits(defend, script) && script != []
    ensures QuietWaits(defend, script[..|script| - 1])
    ensures QuietText(defend, Waiting(script)) && QuietText(defend, Waiting(script[..|script| - 1]))
  {
    hide QuietText, Waiting;
    var before := script[..|script| - 1];
    assert script[..|script|] == script;
    forall n | 0 <= n <= |before| ensures QuietText(defend, Waiting(before[..n])) {
      assert before[..n] == script[..n];
    }
  }

  lemma {:induction false} MixedSteps(g: Setting, script: seq<Action>)
    requires g.thinking && AllSimple(script) && Honest(g, Begin(g.defend, 0), script)
    requires QuietWaits(g.defend, script) && Unmarked(g.defend, Told(script), Thoughts(script))
    ensures Mixed(g, Play(g, Begin(g.defend, 0), script), Waiting(script), Told(script), Thoughts(script))
  {
    hide Mixed, QuietText, QuietWaits, Unmarked, Begin, Parsed, Release, Say, Ponder, Buffering, D.TagFree;
    if script == [] {
      assert Mixed(g, Begin(g.defend, 0), "", "", "") by { MixedNothing(g); }
    } else {
      var before, a := script[..|script| - 1], script[|script| - 1];
      var f := Play(g, Begin(g.defend, 0), before);
      assert a in script && forall b <- before :: b in script;
      QuietBefore(g.defend, script);
      UnmarkedBefore(g.defend, Told(script), Thoughts(script), Told(before), Thoughts(before));
      MixedSteps(g, before);
      assert Told(before) + "" == Told(before) && Thoughts(before) + "" == Thoughts(before);
      MixedStep(g, f, a, Waiting(before), Told(before), Thoughts(before));
    }
  }

  lemma MixedNothing(g: Setting)
    ensures Mixed(g, Begin(g.defend, 0), "", "", "")
  {
    hide D.Held;
    HeldNothing();
  }

  lemma MixedStep(g: Setting, f: Flow, a: Action, waiting: string, said: string, thought: string)
    requires g.thinking && Simple(a) && Parsed(f, a) && Mixed(g, f, waiting, said, thought)
    requires QuietText(g.defend, waiting) && (a.Content? ==> QuietText(g.defend, waiting + a.text))
    requires a.Refuse? ==> Unmarked(g.defend, said + a.text, thought)
    requires a.Calls? ==> Unmarked(g.defend, said + waiting, thought)
    requires a.Reason? ==> Unmarked(g.defend, said, thought + a.text)
    ensures Mixed(g, Act(g, f, a), if a.Content? then waiting + a.text else if a.Calls? then "" else waiting,
                  if a.Refuse? then said + a.text else if a.Calls? then said + waiting else said,
                  if a.Reason? then thought + a.text else thought)
  {
    hide Mixed, QuietText, Parsed, Release, Say, Ponder, HearAll, D.TagFree;
    match a
    case Content(_, _, _, _) => ContentWaits(g, f, a, waiting, said, thought);
    case Reason(s) => ReasonPonders(g, f, s, waiting, said, thought);
    case Refuse(s) => RefusalTells(g, f, s, waiting, said, thought);
    case Calls => CallsRelease(g, f, waiting, said, thought);
  }

  /** The end lets everything go, less an unfinished marker where the filters are on. */
  lemma FinishTells(g: Setting, f: Flow, waiting: string, said: string, thought: string)
    requires g.thinking && Mixed(g, f, waiting, said, thought) && QuietText(g.defend, waiting)
    requires Unmarked(g.defend, said + waiting, thought)
    ensures Act(g, f, Finish).text == Whole(g.defend, said + waiting)
    ensures Act(g, f, Finish).reasoning == Whole(g.defend, thought)
  {
    hide D.FeedStep, D.FlushStep, D.TagFree, D.Held, D.WithoutResidue, H.FlushSpec, QuietText, Buffering, Pondered,
         Uttered;
    assert thought + "" == thought;
    FinishReasons(g, f, thought);
    var f1 := ReleaseHeld(g, f);
    SayKeeps(g, f.(held := ""), "");
    assert Uttered(g, f1, said) by { SayNothing(g, f, said); }
    var f2 := FlushReasoning(g, f1);
    assert Uttered(g, f2, said) by { SameUttered(g, f1, f2, said); }
    QuietFlush(g.defend, waiting);
    var f3 := f2.(heuristic := Buffering(g.defend, ""), calls := f2.calls + []);
    SameUttered(g, f2, f3, said);
    SayMore(g, f3, said, waiting);
    FlushTells(g, Say(g, f3, waiting), said + waiting);
  }

  lemma SayNothing(g: Setting, f: Flow, said: string)
    requires Uttered(g, f, said)
    ensures Uttered(g, Say(g, f.(held := ""), ""), said)
  {
    assert f.text + "" == f.text;
  }

  lemma SameUttered(g: Setting, f: Flow, f': Flow, said: string)
    requires Uttered(g, f, said) && f'.text == f.text && f'.contentBuf == f.contentBuf
    ensures Uttered(g, f', said)
  {
  }

  lemma FlushTells(g: Setting, f: Flow, said: string)
    requires Uttered(g, f, said) && (g.defend ==> D.TagFree(said))
    ensures FlushContent(g, f).text == Whole(g.defend, said)
  {
    hide D.FlushStep, D.TagFree, D.Held, D.WithoutResidue;
    if g.defend { D.FlushPiece(said, f.text); }
  }

  /**
   * A whole turn: the reasoning is all that came as reasoning, in order; the text is all refusals and all content, the
   * content of each stretch between native calls behind the refusals that came up to its end.
   */
  lemma MixedTurn(g: Setting, script: seq<Action>)
    requires g.thinking && AllSimple(script) && Honest(g, Begin(g.defend, 0), script) && QuietWaits(g.defend, script)
    requires Unmarked(g.defend, Told(script) + Waiting(script), Thoughts(script))
    ensures var f := Play(g, Begin(g.defend, 0), script + [Finish]);
            && f.text == Whole(g.defend, Told(script) + Waiting(script))
               && f.reasoning == Whole(g.defend, Thoughts(script))
            && f.calls == []
  {
    hide Mixed, QuietText, QuietWaits, Unmarked, Begin, Act, Whole, Honest, Play, Told, Waiting, Thoughts, AllSimple;
    UnmarkedBefore(g.defend, Told(script) + Waiting(script), Thoughts(script), Told(script), Thoughts(script));
    MixedSteps(g, script);
    assert QuietText(g.defend, Waiting(script)) by { QuietNow(g.defend, script); }
    var f := Play(g, Begin(g.defend, 0), script);
    PlaySnoc(g, Begin(g.defend, 0), script, Finish);
    FinishTells(g, f, Waiting(script), Told(script), Thoughts(script));
    FinishCalls(g, f, Waiting(script), Told(script), Thoughts(script));
  }

  lemma QuietNow(defend: bool, script: seq<Action>)
    requires QuietWaits(defend, script)
    ensures QuietText(defend, Waiting(script))
  {
    hide QuietText, Waiting;
    assert script[..|script|] == script;
  }

  lemma FinishCalls(g: Setting, f: Flow, waiting: string, said: string, thought: string)
    requires Mixed(g, f, waiting, said, thought) && QuietText(g.defend, waiting)
    ensures Act(g, f, Finish).calls == []
  {
    hide D.FeedStep, D.FlushStep, D.Held, H.FlushSpec, QuietText, Buffering, Pondered, Uttered;
    QuietFlush(g.defend, waiting);
  }

  // ---- quiet content stays quiet in part ----

  lemma QuietPart(defend: bool, s: string, u: string)
    requires QuietText(defend, s + u)
    ensures QuietText(defend, s) && QuietText(defend, u)
  {
    hide H.WebNameLength;
    R.PlainPrefix(defend, s, u);
    R.PlainSuffix(defend, s + u, |s|);
    assert (s + u)[|s|..] == u;
    assert forall c :: c in s || c in u ==> c in s + u;
  }

  /** What waits is the end of the content so far. */
  lemma {:induction false} WaitingEnds(script: seq<Action>) returns (gone: string)
    ensures Contents(script) == gone + Waiting(script)
  {
    if script == [] {
      gone := "";
    } else {
      var a, before := script[|script| - 1], script[..|script| - 1];
      gone := WaitingEnds(before);
      if a.Calls? { gone := gone + Waiting(before); }
      assert Contents(before) + "" == Contents(before) && gone + "" == gone;
    }
  }

  lemma {:induction false} ContentsGrow(script: seq<Action>, n: nat)
    requires n <= |script|
    ensures Contents(script[..n]) <= Contents(script)
    decreases |script|
  {
    if n < |script| {
      ContentsGrow(script[..|script| - 1], n);
      assert script[..|script| - 1][..n] == script[..n];
    } else {
      assert script[..n] == script;
    }
  }

  lemma QuietAllTheWay(defend: bool, script: seq<Action>)
    requires QuietText(defend, Contents(script))
    ensures QuietWaits(defend, script)
  {
    hide QuietText, Waiting, Contents;
    forall n | 0 <= n <= |script| ensures QuietText(defend, Waiting(script[..n])) {
      ContentsGrow(script, n);
      var part, whole := Contents(script[..n]), Contents(script);
      assert whole == part + whole[|part|..];
      QuietPart(defend, part, whole[|part|..]);
      var gone := WaitingEnds(script[..n]);
      QuietPart(defend, gone, Waiting(script[..n]));
    }
  }

  // ---- the same of the input ----

  lemma {:induction false} SameTexts(script: seq<Action>)
    ensures Told(Input(script)) == Told(script) && Waiting(Input(script)) == Waiting(script)
    ensures Thoughts(Input(script)) == Thoughts(script) && AllSimple(Input(script)) == AllSimple(script)
  {
    hide AllSimple;
    if script != [] {
      var a, before := script[|script| - 1], script[..|script| - 1];
      SameTexts(before);
      assert Input(script) == Input(before) + [Bare(a)] && script == before + [a];
      assert Input(script)[..|Input(script)| - 1] == Input(before);
      BothSimple(Input(before), Bare(a));
      BothSimple(before, a);
    } else {
      assert Input(script) == [];
    }
  }

  lemma BothSimple(script: seq<Action>, a: Action)
    ensures AllSimple(script + [a]) <==> AllSimple(script) && Simple(a)
  {
    hide Simple;
    assert (script + [a])[|script|] == a;
    assert forall b <- script :: b in script + [a];
  }

  /** The same of everything that came in, whatever the parsers made of it on the way. */
  lemma MixedInput(g: Setting, script: seq<Action>, actions: seq<Action>)
    requires g.thinking && Honest(g, Begin(g.defend, 0), script) && Input(script) == actions + [Finish]
    requires AllSimple(actions) && QuietText(g.defend, Contents(actions))
    requires Unmarked(g.defend, Told(actions) + Waiting(actions), Thoughts(actions))
    ensures var f := Play(g, Begin(g.defend, 0), script);
            && f.text == Whole(g.defend, Told(actions) + Waiting(actions))
               && f.reasoning == Whole(g.defend, Thoughts(actions))
            && f.calls == []
  {
    hide *;
    EndsInFinish(script, actions);
    var before := script[..|script| - 1];
    SameTexts(before);
    InputKeepsContent(before);
    QuietAllTheWay(g.defend, before);
    assert script == before + [Finish];
    HonestPrefix(g, Begin(g.defend, 0), script, |before|);
    assert script[..|before|] == before;
    MixedTurn(g, before);
  }
}
