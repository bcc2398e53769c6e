/**
 * What the parsers and filters between an upstream stream and its reader make of the text: a machine over
 * values, driven by one action for each thing that comes in.
 */
module TextFlow {
  import opened Wrappers
  import opened Strings
  import Json
  import T = ThinkTag
  import H = HeuristicTool
  import L = HeuristicLaws
  import D = Dsml

  datatype Setting = Setting(codec: Json.Codec, defend: bool, thinking: bool)

  /** What the parsers and filters hold, and what has come out of them. */
  datatype Flow = Flow(inThink: bool, held: string, heuristic: H.State, contentBuf: string, reasoningBuf: string,
                       text: string, reasoning: string, calls: seq<H.ToolUse>)

  /** What can come in. Content is what the think-tag parser made of it: its parts and the state it was left in. */
  datatype Action =
    | Reason(text: string)
    | Refuse(text: string)
    | Content(text: string, parts: seq<T.Chunk>, inThink: bool, held: string)
    | Calls
    | Finish
    | Restart

  function Begin(defend: bool, serial: nat): Flow
  {
    Flow(false, "", H.State(H.TextMode, "", None, "", map[], defend, serial), "", "", "", "", [])
  }

  function Filtered(g: Setting, buf: string, s: string): (string, string)
  {
    if g.defend then D.FeedStep(buf, s) else (s, buf)
  }

  /** Text for the reader. */
  function Say(g: Setting, f: Flow, s: string): Flow
  {
    var (out, rest) := Filtered(g, f.contentBuf, s);
    f.(text := f.text + out, contentBuf := rest)
  }

  /** Reasoning, for a reader who wants it. */
  function Ponder(g: Setting, f: Flow, s: string): Flow
  {
    if !g.thinking then f
    else
      var (out, rest) := Filtered(g, f.reasoningBuf, s);
      f.(reasoning := f.reasoning + out, reasoningBuf := rest)
  }

  /** What the heuristic parser lets through is text; what it finds are calls. */
  function Take(g: Setting, f: Flow, out: H.Output): Flow
  {
    Say(g, f.(heuristic := out.state, calls := f.calls + out.tools), out.text)
  }

  /** One part that the think-tag parser passed on. */
  function Hear(g: Setting, f: Flow, part: T.Chunk): Flow
  {
    if part.kind == T.Thinking then Ponder(g, f, part.content)
    else Take(g, f, H.FeedSpec(g.codec, f.heuristic, part.content))
  }

  function HearAll(g: Setting, f: Flow, parts: seq<T.Chunk>): Flow
  {
    if parts == [] then f
    else Hear(g, HearAll(g, f, parts[..|parts| - 1]), parts[|parts| - 1])
  }

  /** What the heuristic parser holds goes out. */
  function Release(g: Setting, f: Flow): Flow
  {
    Take(g, f, H.FlushSpec(f.heuristic))
  }

  /** The fragment the think-tag parser holds goes out on the side it is on. */
  function ReleaseHeld(g: Setting, f: Flow): Flow
  {
    var f' := f.(held := "");
    if f.inThink then Ponder(g, f', f.held) else Say(g, f', f.held)
  }

  function FlushReasoning(g: Setting, f: Flow): Flow
  {
    if g.defend then f.(reasoning := f.reasoning + D.FlushStep(f.reasoningBuf), reasoningBuf := "") else f
  }

  function FlushContent(g: Setting, f: Flow): Flow
  {
    if g.defend then f.(text := f.text + D.FlushStep(f.contentBuf), contentBuf := "") else f
  }

  /** The parsers and filters are new; what came out has come out. */
  function Restarted(g: Setting, f: Flow): Flow
  {
    Begin(g.defend, f.heuristic.serial).(text := f.text, reasoning := f.reasoning, calls := f.calls)
  }

  function Act(g: Setting, f: Flow, a: Action): Flow
  {
    match a
    case Reason(s) => Ponder(g, f, s)
    case Refuse(s) => Say(g, f, s)
    case Content(s, parts, inThink, held) => HearAll(g, f.(inThink := inThink, held := held), parts)
    case Calls => Release(g, f)
    case Finish => FlushContent(g, Release(g, FlushReasoning(g, ReleaseHeld(g, f))))
    case Restart => Restarted(g, f)
  }

  function Play(g: Setting, f: Flow, script: seq<Action>): Flow
  {
    if script == [] then f
    else Act(g, Play(g, f, script[..|script| - 1]), script[|script| - 1])
  }

  /** The parts of a content action are what the think-tag parser makes of its text and of what it held. */
  predicate Parsed(f: Flow, a: Action)
  {
    a.Content? ==> T.Parse(a.parts, a.inThink, a.held) == T.Parsed(f.inThink, f.held + a.text)
  }

  /** Then they are what the one-shot scan of the tags owes, but for the fragment held. */
  lemma ParsedOwes(f: Flow, a: Action)
    requires a.Content? && Parsed(f, a)
    ensures T.Owes(f.inThink, f.held + a.text, T.Flatten(a.parts), a.inThink, a.held)
    ensures HasSuffix(f.held + a.text, a.held) && (a.held == "" || T.HeldBack(a.inThink, a.held))
  {
    hide T.Owes, T.Flatten, T.HeldBack, T.Parsed;
    T.ParsedOwes(f.inThink, f.held + a.text);
  }

  predicate Honest(g: Setting, f: Flow, script: seq<Action>)
  {
    script == [] ||
    (var script', a := script[..|script| - 1], script[|script| - 1];
     Honest(g, f, script') && Parsed(Play(g, f, script'), a))
  }

  /** What came in, without what the think-tag parser made of it. */
  function Bare(a: Action): Action
  {
    if a.Content? then Content(a.text, [], false, "") else a
  }

  function Input(script: seq<Action>): seq<Action>
  {
    if script == [] then [] else Input(script[..|script| - 1]) + [Bare(script[|script| - 1])]
  }

  /** Something that comes in, with what the think-tag parser makes of it. */
  function Completed(f: Flow, a: Action): Action
  {
    if a.Content? then
      var p := T.Parsed(f.inThink, f.held + a.text);
      Content(a.text, p.out, p.inside, p.rest)
    else a
  }

  /** The script of what came in. */
  function ScriptOf(g: Setting, f: Flow, input: seq<Action>): seq<Action>
  {
    if input == [] then []
    else
      var script := ScriptOf(g, f, input[..|input| - 1]);
      script + [Completed(Play(g, f, script), input[|input| - 1])]
  }

  /** What came in decides everything: there is one script for it. */
  lemma {:induction false} HonestIsScript(g: Setting, f: Flow, script: seq<Action>)
    requires Honest(g, f, script)
    ensures script == ScriptOf(g, f, Input(script))
  {
    hide Play, Parsed, Completed, Bare;
    if script != [] {
      var script', a := script[..|script| - 1], script[|script| - 1];
      HonestIsScript(g, f, script');
      assert Input(script)[..|Input(script)| - 1] == Input(script');
      BareCompleted(Play(g, f, script'), a);
    }
  }

  lemma BareCompleted(f: Flow, a: Action)
    requires Parsed(f, a)
    ensures Completed(f, Bare(a)) == a
  {
    hide T.Parsed;
  }

  lemma PlaySnoc(g: Setting, f: Flow, script: seq<Action>, a: Action)
    ensures Play(g, f, script + [a]) == Act(g, Play(g, f, script), a)
    ensures Honest(g, f, script + [a]) <==> Honest(g, f, script) && Parsed(Play(g, f, script), a)
    ensures Input(script + [a]) == Input(script) + [Bare(a)]
  {
    hide Act, Parsed;
    assert (script + [a])[..|script|] == script;
  }

  lemma HearNext(g: Setting, f: Flow, parts: seq<T.Chunk>, i: nat)
    requires i < |parts|
    ensures HearAll(g, f, parts[..i + 1]) == Hear(g, HearAll(g, f, parts[..i]), parts[i])
  {
    hide Hear;
    assert parts[..i + 1][..i] == parts[..i];
  }

  /** One more thing comes in. */
  lemma ActNext(g: Setting, script: seq<Action>, f: Flow, a: Action, f': Flow)
    requires f == Play(g, Begin(g.defend, 0), script) && Honest(g, Begin(g.defend, 0), script) && Parsed(f, a)
             && f' == Act(g, f, a)
    ensures f' == Play(g, Begin(g.defend, 0), script + [a]) && Honest(g, Begin(g.defend, 0), script + [a])
    ensures Input(script + [a]) == Input(script) + [Bare(a)]
  {
    hide *;
    PlaySnoc(g, Begin(g.defend, 0), script, a);
  }

  lemma HearNothing(g: Setting, f: Flow, parts: seq<T.Chunk>)
    ensures HearAll(g, f, parts[..0]) == f
  {
    hide Hear;
  }

  lemma ContentAct(g: Setting, f: Flow, a: Action)
    requires a.Content?
    ensures Act(g, f, a) == HearAll(g, f.(inThink := a.inThink, held := a.held), a.parts)
    ensures Bare(a) == Content(a.text, [], false, "")
  {
    hide HearAll;
  }

  lemma CallsAct(g: Setting, f: Flow)
    ensures Act(g, f, Calls) == Release(g, f) && Parsed(f, Calls) && Bare(Calls) == Calls
  {
    hide Release;
  }

  lemma FinishAct(g: Setting, f: Flow)
    ensures Act(g, f, Finish) == FlushContent(g, Release(g, FlushReasoning(g, ReleaseHeld(g, f)))) && Parsed(f, Finish)
            && Bare(Finish) == Finish
  {
    hide FlushContent, Release, FlushReasoning, ReleaseHeld;
  }

  lemma TextActs(g: Setting, f: Flow, s: string)
    ensures Act(g, f, Reason(s)) == Ponder(g, f, s) && Parsed(f, Reason(s)) && Bare(Reason(s)) == Reason(s)
    ensures Act(g, f, Refuse(s)) == Say(g, f, s) && Parsed(f, Refuse(s)) && Bare(Refuse(s)) == Refuse(s)
  {
    hide Ponder, Say;
  }

  lemma {:induction false} InputLength(script: seq<Action>)
    ensures |Input(script)| == |script|
  {
    if script != [] { InputLength(script[..|script| - 1]); }
  }

  lemma {:induction false} HonestPrefix(g: Setting, f: Flow, script: seq<Action>, n: nat)
    requires n <= |script| && Honest(g, f, script)
    ensures Honest(g, f, script[..n])
    decreases |script|
  {
    hide Parsed, Play;
    if n < |script| {
      HonestPrefix(g, f, script[..|script| - 1], n);
      assert script[..|script| - 1][..n] == script[..n];
    } else {
      assert script[..n] == script;
    }
  }

  // ---- the ids of the calls found in the text ----

  lemma {:induction false} HearAllNumbers(g: Setting, f: Flow, parts: seq<T.Chunk>)
    requires L.Numbered(f.calls, f.heuristic)
    ensures L.Numbered(HearAll(g, f, parts).calls, HearAll(g, f, parts).heuristic)
  {
    hide L.Numbered, H.FeedSpec, D.FeedStep;
    if parts != [] {
      var f', part := HearAll(g, f, parts[..|parts| - 1]), parts[|parts| - 1];
      HearAllNumbers(g, f, parts[..|parts| - 1]);
      L.FeedNumbers(g.codec, f'.calls, f'.heuristic, part.content);
    }
  }

  lemma ActNumbers(g: Setting, f: Flow, a: Action)
    requires L.Numbered(f.calls, f.heuristic)
    ensures L.Numbered(Act(g, f, a).calls, Act(g, f, a).heuristic)
  {
    hide L.Numbered, H.FlushSpec, D.FeedStep, D.FlushStep, HearAll;
    match a
    case Content(s, parts, inThink, held) => HearAllNumbers(g, f.(inThink := inThink, held := held), parts);
    case Restart => RestartNumbers(f);
    case _ => L.FlushNumbers(f.calls, f.heuristic);
  }

  lemma RestartNumbers(f: Flow)
    requires L.Numbered(f.calls, f.heuristic)
    ensures forall defend: bool :: L.Numbered(f.calls,
                                              H.State(H.TextMode, "", None, "", map[], defend, f.heuristic.serial))
  {
  }

  /** However a turn goes, retries included, no two calls found in the text have the same number. */
  lemma {:induction false} CallsAreNumbered(g: Setting, script: seq<Action>)
    ensures var f := Play(g, Begin(g.defend, 0), script); L.Numbered(f.calls, f.heuristic) && L.DistinctIDs(f.calls)
  {
    hide Act;
    if script != [] {
      CallsAreNumbered(g, script[..|script| - 1]);
      ActNumbers(g, Play(g, Begin(g.defend, 0), script[..|script| - 1]), script[|script| - 1]);
    }
  }
}
