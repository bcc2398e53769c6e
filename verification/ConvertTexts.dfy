/**
 * What the messages of a converted conversation say
 * (internal/convert/converter.go): the texts of assistant turns, their
 * reasoning, the texts of tool results, and what is scrubbed from them.
 */
module ConvertTexts {
  import opened Wrappers
  import opened Strings
  import opened Sequences
  import opened Chat
  import opened Convert
  import ConvertLaws

  // ---- what is scrubbed ----

  predicate Hex64(h: string)
  {
    |h| == 64 && forall c <- h :: '0' <= c <= '9' || 'a' <= c <= 'f'
  }

  /** A signature comment stands at i. */
  ghost predicate SignatureAt(s: string, i: nat)
  {
    exists h :: Hex64(h) && OccursAt(s, "<!--sig:" + h + "-->", i)
  }

  predicate InterruptAt(s: string, i: nat)
  {
    OccursAt(s, "[Tool use interrupted]", i) || OccursAt(s, "No result from invoke.", i)
  }

  /** No marker of the client's stands in the text. */
  ghost predicate Unmarked(s: string)
  {
    forall i: nat :: !SignatureAt(s, i) && !InterruptAt(s, i)
  }

  /** The condition the scrubber looks at is that a signature comment stands at the front. */
  lemma SignatureIs(s: string)
    ensures SignatureAt(s, 0) <==>
            |s| >= 75 && s[..8] == "<!--sig:" && s[72..75] == "-->" && forall i :: 8 <= i < 72 ==> IsHex(s[i])
  {
    if |s| >= 75 && s[..8] == "<!--sig:" && s[72..75] == "-->" && forall i :: 8 <= i < 72 ==> IsHex(s[i]) {
      var h := s[8..72];
      assert forall c :: c in h ==> exists i :: 8 <= i < 72 && s[i] == c;
      assert s[0..75] == "<!--sig:" + h + "-->";
      assert Hex64(h);
    }
    if h :| Hex64(h) && OccursAt(s, "<!--sig:" + h + "-->", 0) {
      var m := "<!--sig:" + h + "-->";
      assert |m| == 75 && s[0..75] == m;
      assert s[..8] == m[..8] == "<!--sig:" && s[72..75] == m[72..75] == "-->";
      forall i | 8 <= i < 72 ensures IsHex(s[i]) {
        assert s[i] == m[i] == h[i - 8] && h[i - 8] in h;
      }
    }
  }

  lemma SignatureShifts(s: string, k: nat, i: nat)
    requires k <= |s|
    ensures SignatureAt(s[k..], i) <==> SignatureAt(s, k + i)
  {
    if h :| Hex64(h) && OccursAt(s[k..], "<!--sig:" + h + "-->", i) { OccursDrop(s, "<!--sig:" + h + "-->", k, i); }
    if h :| Hex64(h) && OccursAt(s, "<!--sig:" + h + "-->", k + i) { OccursDrop(s, "<!--sig:" + h + "-->", k, i); }
  }

  lemma SignatureStep(s: string)
    ensures SignatureAt(s, 0) ==> 75 <= |s| && ScrubSignatures(s) == ScrubSignatures(s[75..])
    ensures s != "" && !SignatureAt(s, 0) ==> ScrubSignatures(s) == [s[0]] + ScrubSignatures(s[1..])
  {
    hide SignatureAt, IsHex;
    SignatureIs(s);
  }

  /** Up to the first signature comment everything stays; the comment goes. */
  lemma {:induction false} SignaturesGo(s: string, n: nat)
    requires n <= |s| && forall i: nat :: i < n ==> !SignatureAt(s, i)
    ensures ScrubSignatures(s) == s[..n] + ScrubSignatures(s[n..])
    ensures SignatureAt(s, n) ==> n + 75 <= |s| && ScrubSignatures(s[n..]) == ScrubSignatures(s[n + 75..])
    decreases n
  {
    hide SignatureAt, ScrubSignatures;
    SignatureStep(s);
    if n == 0 {
      assert s[0..] == s;
      assert [] + ScrubSignatures(s) == ScrubSignatures(s);
    } else {
      var t := s[1..];
      forall i: nat | i < n - 1 ensures !SignatureAt(t, i) { SignatureShifts(s, 1, i); }
      SignatureShifts(s, 1, n - 1);
      SignaturesGo(t, n - 1);
      assert t[n - 1..] == s[n..] && s[..n] == [s[0]] + t[..n - 1];
      assert [s[0]] + (t[..n - 1] + ScrubSignatures(s[n..])) == [s[0]] + t[..n - 1] + ScrubSignatures(s[n..]);
      if SignatureAt(s, n) { assert t[n - 1 + 75..] == s[n + 75..]; }
    }
  }

  lemma InterruptShifts(s: string, k: nat, i: nat)
    requires k <= |s|
    ensures InterruptAt(s[k..], i) <==> InterruptAt(s, k + i)
  {
    OccursDrop(s, "[Tool use interrupted]", k, i);
    OccursDrop(s, "No result from invoke.", k, i);
  }

  lemma InterruptStep(s: string)
    ensures InterruptAt(s, 0) ==> 22 <= |s| && ScrubInterrupts(s) == ScrubInterrupts(s[22..])
    ensures s != "" && !InterruptAt(s, 0) ==> ScrubInterrupts(s) == [s[0]] + ScrubInterrupts(s[1..])
  {
    assert InterruptAt(s, 0) <==> "[Tool use interrupted]" <= s || "No result from invoke." <= s;
  }

  /** Likewise for the phrases of an interruption, 22 characters each. */
  lemma {:induction false} InterruptsGo(s: string, n: nat)
    requires n <= |s| && forall i: nat :: i < n ==> !InterruptAt(s, i)
    ensures ScrubInterrupts(s) == s[..n] + ScrubInterrupts(s[n..])
    ensures InterruptAt(s, n) ==> n + 22 <= |s| && ScrubInterrupts(s[n..]) == ScrubInterrupts(s[n + 22..])
    decreases n
  {
    hide InterruptAt, ScrubInterrupts;
    InterruptStep(s);
    if n == 0 {
      assert s[0..] == s;
      assert [] + ScrubInterrupts(s) == ScrubInterrupts(s);
    } else {
      var t := s[1..];
      forall i: nat | i < n - 1 ensures !InterruptAt(t, i) { InterruptShifts(s, 1, i); }
      InterruptShifts(s, 1, n - 1);
      InterruptsGo(t, n - 1);
      assert t[n - 1..] == s[n..] && s[..n] == [s[0]] + t[..n - 1];
      assert [s[0]] + (t[..n - 1] + ScrubInterrupts(s[n..])) == [s[0]] + t[..n - 1] + ScrubInterrupts(s[n..]);
      if InterruptAt(s, n) { assert t[n - 1 + 22..] == s[n + 22..]; }
    }
  }

  /** Text without markers is left alone. */
  lemma ScrubKeeps(s: string)
    requires Unmarked(s)
    ensures Scrub(s) == s
  {
    hide SignatureAt, InterruptAt, ScrubSignatures, ScrubInterrupts;
    SignaturesGo(s, |s|);
    InterruptsGo(s, |s|);
    NothingToScrub();
    assert s[|s|..] == "" && s[..|s|] + "" == s;
  }

  lemma NothingToScrub()
    ensures ScrubSignatures("") == "" && ScrubInterrupts("") == ""
  {
  }

  // ---- what an assistant turn says ----

  const BREAK: string := "\n\n"

  /** What a block adds to the text of its turn: its own text, and thinking between tags where that is replayed. */
  function PieceUnder(replay: ReplayMode): Block -> seq<string>
  {
    (b: Block) =>
      if b.typ == "text" then [Scrub(b.text)]
      else if b.typ == "image" then ["[Image]"]
      else if replay == ThinkTags && b.typ == "thinking" then ["<think>\n" + b.thinking + "\n</think>"]
      else if replay == ThinkTags && b.typ == "redacted_thinking" then ["[redacted thinking]"]
      else []
  }

  /** What it adds to the reasoning. */
  function ThinkingPiece(b: Block): seq<string>
  {
    if b.typ == "thinking" then [b.thinking] else if b.typ == "redacted_thinking" then ["[redacted thinking]"] else []
  }

  function CallPiece(b: Block): seq<ToolCall>
  {
    if b.typ == "tool_use" then [ToolCall(b.id, b.name, b.args)] else []
  }

  lemma {:induction false} SaidIs(blocks: seq<Block>, replay: ReplayMode)
    ensures Said(blocks, replay) == Gather(PieceUnder(replay), blocks)
    ensures Thought(blocks) == Gather(ThinkingPiece, blocks)
  {
    hide Scrub;
    if blocks != [] { SaidIs(blocks[..|blocks| - 1], replay); }
  }

  /** The calls of a turn are its tool_use blocks, each with id, name and arguments. */
  lemma {:induction false} CallsAre(blocks: seq<Block>)
    ensures Calls(blocks) == Gather(CallPiece, blocks)
  {
    if blocks != [] { CallsAre(blocks[..|blocks| - 1]); }
  }

  /** The blocks ahead of the first tool call. */
  function Head(blocks: seq<Block>): (n: nat)
    ensures n <= |blocks| && (n < |blocks| ==> blocks[n].typ == "tool_use")
    ensures forall i :: 0 <= i < n ==> blocks[i].typ != "tool_use"
    decreases |blocks|
  {
    if blocks == [] || blocks[0].typ == "tool_use" then 0 else 1 + Head(blocks[1..])
  }

  function OrSpace(s: string): string
  {
    if s == "" then " " else s
  }

  function NoSpace(s: string): string
  {
    if s == " " then "" else s
  }

  /** The text of the message that goes out at once. */
  function FirstText(blocks: seq<Block>, replay: ReplayMode): string
  {
    var n := Head(blocks);
    var said := JoinWith(Gather(PieceUnder(replay), blocks[..n]), BREAK);
    if n == |blocks| then OrSpace(said) else NoSpace(said)
  }

  /** The text of the message that waits for the results, if anything but calls follows the first call. */
  function LaterText(blocks: seq<Block>, replay: ReplayMode): seq<string>
  {
    var n := Head(blocks);
    if forall b <- blocks[n..] :: b.typ == "tool_use" then []
    else [OrSpace(JoinWith(Gather(PieceUnder(replay), blocks[n..]), BREAK))]
  }

  function Given(s: string): Option<string>
  {
    if s == "" then None else Some(s)
  }

  /** The reasoning of a message, from the blocks it is made of, or the turn's own. */
  function ReasoningOf(blocks: seq<Block>, reasoning: Option<string>, replay: ReplayMode): Option<string>
  {
    if replay != ReasoningContent then None
    else if reasoning.Some? then reasoning
    else Given(JoinWith(Gather(ThinkingPiece, blocks), "\n"))
  }

  lemma HeadMember(blocks: seq<Block>)
    ensures Head(blocks) < |blocks| ==> exists b <- blocks :: b.typ == "tool_use"
  {
    hide Head;
    if Head(blocks) < |blocks| { assert blocks[Head(blocks)] in blocks; }
  }

  lemma HeadIs(blocks: seq<Block>)
    ensures IndexFirstToolUse(blocks) == if Head(blocks) == |blocks| then -1 else Head(blocks)
  {
    hide IndexFirstToolUse, Head;
    var i, n := IndexFirstToolUse(blocks), Head(blocks);
    if i == -1 {
      HeadMember(blocks);
    } else if n < |blocks| {
      assert !(i < n) && !(n < i);
    }
  }

  /** Of the blocks behind the first call, those that are no calls say and think the same. */
  lemma {:induction false} NotCallsSay(blocks: seq<Block>, replay: ReplayMode)
    ensures Gather(PieceUnder(replay), NotCalls(blocks)) == Gather(PieceUnder(replay), blocks)
    ensures Gather(ThinkingPiece, NotCalls(blocks)) == Gather(ThinkingPiece, blocks)
    ensures NotCalls(blocks) == [] <==> forall b <- blocks :: b.typ == "tool_use"
  {
    hide Scrub, Gather;
    if blocks != [] {
      var before, b := blocks[..|blocks| - 1], blocks[|blocks| - 1];
      NotCallsSay(before, replay);
      assert blocks == before + [b];
      GatherSnoc(PieceUnder(replay), before, b);
      GatherSnoc(ThinkingPiece, before, b);
      if b.typ != "tool_use" {
        GatherSnoc(PieceUnder(replay), NotCalls(before), b);
        GatherSnoc(ThinkingPiece, NotCalls(before), b);
      } else {
        assert NotCalls(before) + [] == NotCalls(before);
        assert Gather(PieceUnder(replay), before) + [] == Gather(PieceUnder(replay), before);
        assert Gather(ThinkingPiece, before) + [] == Gather(ThinkingPiece, before);
      }
    }
  }

  /** A message made of blocks says the blocks' pieces in order, a blank line between two of them. */
  lemma MessageSays(blocks: seq<Block>, reasoning: Option<string>, replay: ReplayMode)
    requires reasoning != Some("")
    ensures var m, said := AssistantMessage(blocks, reasoning, replay),
            JoinWith(Gather(PieceUnder(replay), blocks), BREAK);
            && m.role == "assistant" && m.content == Text(if Calls(blocks) == [] then OrSpace(said) else said)
            && m.toolCalls == Gather(CallPiece, blocks) && m.reasoning == ReasoningOf(blocks, reasoning, replay)
  {
    hide Scrub, JoinWith, Said, Thought, Calls, Gather;
    SaidIs(blocks, replay);
    CallsAre(blocks);
  }

  /** What goes out at once of a turn. */
  ghost predicate SaysFirst(pre: OutMessage, blocks: seq<Block>, reasoning: Option<string>, replay: ReplayMode)
  {
    && pre.role == "assistant" && pre.content == Text(FirstText(blocks, replay))
    && pre.toolCalls == Gather(CallPiece, blocks)
    && pre.reasoning == ReasoningOf(blocks[..Head(blocks)], reasoning, replay)
  }

  /** And what waits for the results, if anything does. */
  ghost predicate SaysLater(later: Option<Pending>, blocks: seq<Block>, reasoning: Option<string>, replay: ReplayMode)
  {
    var texts := LaterText(blocks, replay);
    if later == None then texts == []
    else
      var m := later.value.message;
      && texts != [] && m.role == "assistant" && m.toolCalls == [] && m.content == Text(texts[0])
      && m.reasoning == ReasoningOf(blocks[Head(blocks)..], reasoning, replay)
  }

  lemma PlainTurn(blocks: seq<Block>, reasoning: Option<string>, replay: ReplayMode)
    requires reasoning != Some("") && Head(blocks) == |blocks|
    ensures SaysFirst(PreMessage(blocks, reasoning, replay), blocks, reasoning, replay)
    ensures SaysLater(PendingAfter(blocks, reasoning, replay), blocks, reasoning, replay)
  {
    hide Scrub, JoinWith, Said, Thought, Calls, Gather, AssistantMessage, Head, IndexFirstToolUse, ResultIDs, NotCalls,
         ReasoningOf;
    HeadIs(blocks);
    CallsAre(blocks);
    assert blocks[..|blocks|] == blocks && blocks[|blocks|..] == [];
    NoCalls(blocks);
    MessageSays(blocks, reasoning, replay);
  }

  lemma ToolTurn(blocks: seq<Block>, reasoning: Option<string>, replay: ReplayMode)
    requires reasoning != Some("") && 0 < Head(blocks) < |blocks|
    ensures SaysFirst(PreMessage(blocks, reasoning, replay), blocks, reasoning, replay)
  {
    hide Scrub, JoinWith, Said, Thought, Calls, Gather, AssistantMessage, Head, IndexFirstToolUse, ReasoningOf,
         PieceUnder;
    var n := Head(blocks);
    HeadIs(blocks);
    CallsAre(blocks);
    NoCalls(blocks[..n]);
    MessageSays(blocks[..n], reasoning, replay);
  }

  lemma CallFirst(blocks: seq<Block>, reasoning: Option<string>, replay: ReplayMode)
    requires reasoning != Some("") && 0 == Head(blocks) < |blocks|
    ensures SaysFirst(PreMessage(blocks, reasoning, replay), blocks, reasoning, replay)
  {
    hide Scrub, JoinWith, Said, Thought, Calls, Gather, AssistantMessage, Head, IndexFirstToolUse, PieceUnder;
    HeadIs(blocks);
    CallsAre(blocks);
    assert blocks[..0] == [];
    NothingSaid(replay);
  }

  lemma ToolTurnRest(blocks: seq<Block>, reasoning: Option<string>, replay: ReplayMode)
    requires reasoning != Some("") && Head(blocks) < |blocks|
    ensures SaysLater(PendingAfter(blocks, reasoning, replay), blocks, reasoning, replay)
  {
    hide Scrub, JoinWith, Calls, Gather, AssistantMessage, Head, IndexFirstToolUse, ResultIDs, NotCalls, ReasoningOf,
         PieceUnder, OrSpace;
    var n := Head(blocks);
    HeadIs(blocks);
    RestSays(blocks, n, reasoning, replay);
    assert Deferred(blocks) == NotCalls(blocks[n + 1..]);
  }

  /**
   * An assistant turn of blocks: everything up to its first call goes out at once, with all its calls; the rest in a
   * message of its own. No text is lost between the two, and none is said twice.
   */
  lemma TurnSays(blocks: seq<Block>, reasoning: Option<string>, replay: ReplayMode)
    requires reasoning != Some("")
    ensures SaysFirst(PreMessage(blocks, reasoning, replay), blocks, reasoning, replay)
    ensures SaysLater(PendingAfter(blocks, reasoning, replay), blocks, reasoning, replay)
    ensures var n, piece := Head(blocks), PieceUnder(replay);
            Gather(piece, blocks[..n]) + Gather(piece, blocks[n..]) == Gather(piece, blocks)
  {
    hide *;
    var n, piece := Head(blocks), PieceUnder(replay);
    assert blocks == blocks[..n] + blocks[n..];
    GatherConcat(piece, blocks[..n], blocks[n..]);
    if n == |blocks| {
      PlainTurn(blocks, reasoning, replay);
    } else {
      if n == 0 { CallFirst(blocks, reasoning, replay); } else { ToolTurn(blocks, reasoning, replay); }
      ToolTurnRest(blocks, reasoning, replay);
    }
  }

  lemma NothingSaid(replay: ReplayMode)
    ensures JoinWith(Gather(PieceUnder(replay), []), BREAK) == "" && JoinWith(Gather(ThinkingPiece, []), "\n") == ""
  {
  }

  lemma {:induction false} NoCalls(blocks: seq<Block>)
    requires forall i :: 0 <= i < |blocks| ==> blocks[i].typ != "tool_use"
    ensures Calls(blocks) == []
  {
    if blocks != [] { NoCalls(blocks[..|blocks| - 1]); }
  }

  /** The deferred blocks are those behind the first call that are no calls. */
  lemma RestSays(blocks: seq<Block>, n: nat, reasoning: Option<string>, replay: ReplayMode)
    requires n < |blocks| && blocks[n].typ == "tool_use" && reasoning != Some("")
    ensures var rest := NotCalls(blocks[n + 1..]);
            && (rest == [] <==> forall b <- blocks[n..] :: b.typ == "tool_use")
            && (rest != [] ==>
                 var m := AssistantMessage(rest, reasoning, replay);
                 && m.role == "assistant" && m.toolCalls == []
                 && m.content == Text(OrSpace(JoinWith(Gather(PieceUnder(replay), blocks[n..]), BREAK)))
                 && m.reasoning == ReasoningOf(blocks[n..], reasoning, replay))
  {
    hide Scrub, JoinWith, Calls, Gather, AssistantMessage, NotCalls;
    var tail := blocks[n + 1..];
    var rest := NotCalls(tail);
    NotCallsSay(tail, replay);
    MessageSays(rest, reasoning, replay);
    ConvertLaws.NoCallsLeft(tail);
    CallsAre(rest);
    assert blocks[n..] == [blocks[n]] + tail;
    assert forall b :: b in blocks[n..] <==> b == blocks[n] || b in tail;
    GatherConcat(PieceUnder(replay), [blocks[n]], tail);
    GatherConcat(ThinkingPiece, [blocks[n]], tail);
    GatherOne(PieceUnder(replay), blocks[n]);
    GatherOne(ThinkingPiece, blocks[n]);
    assert [] + Gather(PieceUnder(replay), tail) == Gather(PieceUnder(replay), tail);
    assert [] + Gather(ThinkingPiece, tail) == Gather(ThinkingPiece, tail);
  }

  /** With replay off and no markers, the pieces are the texts as they are, and "[Image]" in place of images. */
  lemma {:induction false} PlainPieces(blocks: seq<Block>)
    requires forall b <- blocks :: b.typ == "text" ==> Unmarked(b.text)
    ensures Gather(PieceUnder(Disabled), blocks) == Gather(PlainPiece, blocks)
  {
    hide Scrub, Unmarked;
    if blocks != [] {
      var before, b := blocks[..|blocks| - 1], blocks[|blocks| - 1];
      assert b in blocks && forall x <- before :: x in blocks;
      PlainPieces(before);
      if b.typ == "text" { ScrubKeeps(b.text); }
    }
  }

  function PlainPiece(b: Block): seq<string>
  {
    if b.typ == "text" then [b.text] else if b.typ == "image" then ["[Image]"] else []
  }

  // ---- turns that are one string ----

  /** The text of an assistant's string turn; its reasoning goes ahead of it where think tags are replayed. */
  function StringText(m: Message, replay: ReplayMode): string
  {
    var text := if m.content.Str? then m.content.text else "";
    if !m.content.Str? || replay != ThinkTags || m.reasoning == None || m.reasoning == Some("") then text
    else "<think>\n" + m.reasoning.value + "\n</think>" + (if text == "" then "" else BREAK + text)
  }

  /** A turn that is no list of blocks is one message: the user's as it is. */
  lemma StringSays(m: Message, p: Option<Pending>, replay: ReplayMode)
    requires !m.content.Blocks? && Turn(m, p, replay).Success?
    ensures var out, waits := Turn(m, p, replay).value.out, if m.role == "user" then Waiting(p) else [];
            && |out| == |waits| + 1 && out[..|waits|] == waits
            && var said := out[|waits|];
               && said.role == m.role && said.toolCalls == [] && said.toolCallID == None
               && said.content == Text(if m.role == "assistant" then StringText(m, replay)
                                       else if m.content.Str? then m.content.text else "")
               && said.reasoning == (if m.role == "assistant" && m.content.Str? && replay == ReasoningContent
                                        && m.reasoning != Some("") then m.reasoning else None)
  {
    hide Waiting;
    if m.content.Str? && m.reasoning.Some? {
      TwoJoined(ThinkTag(m.reasoning.value), m.content.text);
      assert [ThinkTag(m.reasoning.value)] + [] == [ThinkTag(m.reasoning.value)];
      assert ThinkTag(m.reasoning.value) + "" == ThinkTag(m.reasoning.value);
    }
  }

  lemma TwoJoined(a: string, b: string)
    ensures JoinWith([a], BREAK) == a && JoinWith([a] + [b], BREAK) == a + (BREAK + b)
  {
    assert ([a] + [b])[..1] == [a];
    assert JoinWith([a] + [b], BREAK) == JoinWith([a], BREAK) + BREAK + b;
    assert a + BREAK + b == a + (BREAK + b);
  }

  // ---- the texts of a whole conversation ----

  function TextsOwed(replay: ReplayMode): Message -> seq<string>
  {
    (m: Message) =>
      if m.role == "assistant" && m.content.Blocks? then
        [FirstText(m.content.blocks, replay)] + LaterText(m.content.blocks, replay)
      else []
  }

  function TextsSpoken(replay: ReplayMode): Message -> seq<string>
  {
    (m: Message) => if m.role == "assistant" && !m.content.Blocks? then [StringText(m, replay)] else []
  }

  /** The text of an assistant message. */
  function TextIn(m: OutMessage): seq<string>
  {
    if m.role == "assistant" && m.content.Text? then [m.content.text] else []
  }

  lemma OwedTexts(m: Message, replay: ReplayMode)
    ensures Gather(TextIn, ConvertLaws.Owed(m, replay)) == TextsOwed(replay)(m)
    ensures forall x <- ConvertLaws.Owed(m, replay) :: TextIn(x) != []
  {
    hide PreMessage, PendingAfter, FirstText, LaterText, ReasoningOf, Gather;
    NoText();
    if m.role == "assistant" && m.content.Blocks? {
      var blocks, reasoning := m.content.blocks, CleanReasoning(m.reasoning);
      var pre, later := PreMessage(blocks, reasoning, replay), PendingAfter(blocks, reasoning, replay);
      TurnSays(blocks, reasoning, replay);
      assert LaterText(blocks, replay) != [] ==> LaterText(blocks, replay) == [LaterText(blocks, replay)[0]] by {
        OneLater(blocks, replay);
      }
      GatherConcat(TextIn, [pre], Waiting(later));
      GatherOne(TextIn, pre);
      if later.Some? { GatherOne(TextIn, later.value.message); }
    }
  }

  lemma OneLater(blocks: seq<Block>, replay: ReplayMode)
    ensures |LaterText(blocks, replay)| <= 1
  {
    hide JoinWith, Gather, Head;
  }

  lemma NoText()
    ensures Gather(TextIn, []) == []
  {
  }

  lemma SpokenTexts(m: Message, replay: ReplayMode)
    ensures Gather(TextIn, ConvertLaws.Spoken(m, replay)) == TextsSpoken(replay)(m)
    ensures forall x <- ConvertLaws.Spoken(m, replay) :: TextIn(x) != []
  {
    hide Gather, JoinWith, StringText, StringMessage;
    NoText();
    var spoken := ConvertLaws.Spoken(m, replay);
    if spoken != [] {
      GatherOne(TextIn, spoken[0]);
      StringSays(m, None, replay);
      SpokenIs(m, replay);
    }
  }

  lemma SpokenIs(m: Message, replay: ReplayMode)
    requires m.role == "assistant" && !m.content.Blocks?
    ensures Turn(m, None, replay) == Success(Turned(ConvertLaws.Spoken(m, replay), None))
            && |ConvertLaws.Spoken(m, replay)| == 1
  {
    hide StringMessage;
  }

  lemma {:induction false} AllOwedTexts(ms: seq<Message>, replay: ReplayMode)
    ensures Gather(TextIn, Gather(ConvertLaws.OwedUnder(replay), ms)) == Gather(TextsOwed(replay), ms)
    ensures Gather(TextIn, Gather(ConvertLaws.SpokenUnder(replay), ms)) == Gather(TextsSpoken(replay), ms)
    ensures forall x <- Gather(ConvertLaws.OwedUnder(replay), ms) :: TextIn(x) != []
    ensures forall x <- Gather(ConvertLaws.SpokenUnder(replay), ms) :: TextIn(x) != []
  {
    hide ConvertLaws.Owed, ConvertLaws.Spoken, TextIn;
    if ms == [] {
      NoText();
    } else {
      var before, m := ms[..|ms| - 1], ms[|ms| - 1];
      AllOwedTexts(before, replay);
      OwedTexts(m, replay);
      SpokenTexts(m, replay);
      GatherConcat(TextIn, Gather(ConvertLaws.OwedUnder(replay), before), ConvertLaws.Owed(m, replay));
      GatherConcat(TextIn, Gather(ConvertLaws.SpokenUnder(replay), before), ConvertLaws.Spoken(m, replay));
    }
  }

  /** Backfilling changes no text. */
  lemma {:induction false} BackfilledTexts(ms: seq<OutMessage>, replay: ReplayMode)
    ensures Gather(TextIn, BackfilledAll(ms, replay)) == Gather(TextIn, ms)
    ensures (forall x <- ms :: TextIn(x) != []) ==> forall x <- BackfilledAll(ms, replay) :: TextIn(x) != []
  {
    forall i | 0 <= i < |ms| ensures TextIn(BackfilledAll(ms, replay)[i]) == TextIn(ms[i]) { }
    GatherSame(TextIn, BackfilledAll(ms, replay), ms);
  }

  lemma {:induction false} InterleavedTexts(a: seq<OutMessage>, b: seq<OutMessage>, c: seq<OutMessage>)
    requires ConvertLaws.Interleaved(a, b, c)
    requires (forall x <- a :: TextIn(x) != []) && (forall x <- b :: TextIn(x) != [])
    ensures ConvertLaws.Interleaved(Gather(TextIn, a), Gather(TextIn, b), Gather(TextIn, c))
    decreases |c|
  {
    if c != [] {
      var c', x := c[..|c| - 1], c[|c| - 1];
      if a != [] && a[|a| - 1] == x && ConvertLaws.Interleaved(a[..|a| - 1], b, c') {
        assert x in a && forall y <- a[..|a| - 1] :: y in a;
        InterleavedTexts(a[..|a| - 1], b, c');
        ConvertLaws.InterleavedMore(Gather(TextIn, a[..|a| - 1]), Gather(TextIn, b), Gather(TextIn, c'), TextIn(x));
      } else {
        assert x in b && forall y <- b[..|b| - 1] :: y in b;
        InterleavedTexts(a, b[..|b| - 1], c');
        ConvertLaws.InterleavedMore(Gather(TextIn, a), Gather(TextIn, b[..|b| - 1]), Gather(TextIn, c'), TextIn(x));
      }
    }
  }

  /** The assistant messages of the whole conversation, by the texts they have. */
  lemma {:induction false} AssistantTexts(ms: seq<OutMessage>)
    ensures Gather(TextIn, Gather(ConvertLaws.AssistantOf, ms)) == Gather(TextIn, ms)
  {
    if ms != [] {
      var before, m := ms[..|ms| - 1], ms[|ms| - 1];
      AssistantTexts(before);
      GatherConcat(TextIn, Gather(ConvertLaws.AssistantOf, before), ConvertLaws.AssistantOf(m));
      if m.role == "assistant" { GatherOne(TextIn, m); } else { NoText(); }
    }
  }

  /**
   * For every conversation that converts: the texts its assistant messages have are those of its assistant turns, each
   * once. Turns of blocks give one text, or two when something has to wait for results, and keep their order; turns
   * that are strings keep theirs.
   */
  lemma ConversationSays(ms: seq<Message>, replay: ReplayMode)
    requires Converted(ms, replay).Success?
    ensures ConvertLaws.Interleaved(Gather(TextsOwed(replay), ms), Gather(TextsSpoken(replay), ms),
                                    Gather(TextIn, Converted(ms, replay).value))
  {
    hide *;
    ConvertLaws.ConvertedKeeps(ms, replay);
    KeptSays(ms, replay, Converted(ms, replay).value);
  }

  lemma KeptSays(ms: seq<Message>, replay: ReplayMode, out: seq<OutMessage>)
    requires ConvertLaws.ConversationKept(ms, replay, out)
    ensures ConvertLaws.Interleaved(Gather(TextsOwed(replay), ms), Gather(TextsSpoken(replay), ms), Gather(TextIn, out))
  {
    hide Gather, ConvertLaws.Interleaved, TextIn, BackfilledAll;
    var owed, spoken := Gather(ConvertLaws.OwedUnder(replay), ms), Gather(ConvertLaws.SpokenUnder(replay), ms);
    AllOwedTexts(ms, replay);
    BackfilledTexts(owed, replay);
    BackfilledTexts(spoken, replay);
    InterleavedTexts(BackfilledAll(owed, replay), BackfilledAll(spoken, replay), Gather(ConvertLaws.AssistantOf, out));
    AssistantTexts(out);
  }

  // ---- tool results ----

  /** What an element of a result's content says; an image says nothing, anything else but text is given as JSON. */
  function EntryPiece(e: Entry): seq<string>
  {
    match e
    case Bare(text) => [text]
    case Object(typ, text, _, _, json) => if typ == "image" then [] else if typ == "text" then [text] else [json]
  }

  /** The images among the elements. */
  function EntryPicture(e: Entry): seq<Part>
  {
    if e.Bare? || e.typ != "image" then [] else Picture(e.source, e.detail)
  }

  /** A picture is inline data of an image type, or a link. */
  function Picture(source: Option<Source>, detail: string): seq<Part>
  {
    match source
    case None => []
    case Some(src) =>
      if src.typ == "url" && src.url != "" then [ImagePart(src.url, detail)]
      else if src.typ == "base64" && src.data != "" then
        var typ := if src.mediaType != "" then src.mediaType else if src.mimeType != "" then src.mimeType
            else "image/png";
        if !("image/" <= Lower(typ)) then []
        else [ImagePart(if "data:" <= src.data then src.data else "data:" + typ + ";base64," + src.data, detail)]
      else []
  }

  lemma PictureIs(source: Option<Source>, detail: string)
    ensures Picture(source, detail) == var part := ImagePartOf(source, detail); if part.Some? then [part.value] else []
  {
    hide Lower;
  }

  lemma {:induction false} EntriesSay(es: seq<Entry>)
    ensures EntryTexts(es) == Gather(EntryPiece, es) && EntryImages(es) == Gather(EntryPicture, es)
  {
    hide ImagePartOf, Picture;
    if es != [] {
      EntriesSay(es[..|es| - 1]);
      var e := es[|es| - 1];
      if e.Object? { PictureIs(e.source, e.detail); }
    }
  }

  function ResultBody(c: ToolContent): string
  {
    match c
    case NoContent => ""
    case Whole(text) => text
    case Entries(es) => JoinWith(Gather(EntryPiece, es), "\n")
  }

  function ResultPictures(c: ToolContent): seq<Part>
  {
    if c.Entries? then Gather(EntryPicture, c.entries) else []
  }

  lemma SerializedIs(c: ToolContent)
    ensures SerializeToolResult(c) == Serialized(ResultBody(c), ResultPictures(c))
  {
    hide JoinWith, Gather;
    if c.Entries? { EntriesSay(c.entries); }
  }

  /**
   * The tool message of a result: its text line by line, a note when images follow elsewhere, and a mark on an error.
   */
  lemma ResultSays(b: Block)
    ensures var m, body := ResultMessage(b), ResultBody(b.content);
            && m.role == "tool" && m.toolCallID == Some(b.toolUseID) && m.toolCalls == [] && m.reasoning == None
            && ResultImages(b) == ResultPictures(b.content)
            && m.content == Text((if b.isError then "[TOOL_ERROR] " else "") + body
                                 + (if ResultPictures(b.content) == [] then ""
                                    else (if body == "" then "" else "\n")
                                         + "[tool result media moved to the following user message]"))
  {
    hide ResultBody, ResultPictures, SerializeToolResult;
    SerializedIs(b.content);
    var body, pictures := ResultBody(b.content), ResultPictures(b.content);
    var note := if pictures == [] then "" else (if body == "" then "" else "\n") + MEDIA_MARKER;
    Marked(body, pictures != []);
    assert "" + body == body && "" + body + note == body + note;
    assert "[TOOL_ERROR] " + (body + note) == "[TOOL_ERROR] " + body + note;
  }

  lemma Marked(body: string, noted: bool)
    ensures body + (if body != "" then "\n" else "") + MEDIA_MARKER
            == body + ((if body == "" then "" else "\n") + MEDIA_MARKER)
    ensures body + "" == body
  {
  }

  // ---- everything that is not the assistant's ----

  function OtherOf(m: OutMessage): seq<OutMessage>
  {
    if m.role == "assistant" then [] else [m]
  }

  /** What a turn sends of its own besides assistant messages, when p waits. */
  function OthersIn(m: Message, p: Option<Pending>): seq<OutMessage>
  {
    if m.content.Blocks? then
      (if m.role != "user" then []
       else if p == None || p.value.remaining == {} then UserMessages(m.content.blocks)
       else Gather(OtherOf, InjectedMessages(m.content.blocks, p.value.message, p.value.remaining)))
    else if m.role == "assistant" then []
    else [OutMessage(m.role, Text(if m.content.Str? then m.content.text else ""), [], None, None)]
  }

  /** Turn by turn, with what waits at each. */
  function Others(ms: seq<Message>, replay: ReplayMode): seq<OutMessage>
  {
    if ms == [] then []
    else
      var r := Turns(ms[..|ms| - 1], replay);
      Others(ms[..|ms| - 1], replay) + (if r.Success? then OthersIn(ms[|ms| - 1], r.value.pending) else [])
  }

  lemma WaitingIsHis(p: Option<Pending>)
    requires ConvertLaws.Quiet(p)
    ensures Gather(OtherOf, Waiting(p)) == []
  {
    if p.Some? { GatherOne(OtherOf, p.value.message); }
  }

  lemma {:induction false} AllOthers(ms: seq<OutMessage>)
    requires forall i :: 0 <= i < |ms| ==> ms[i].role != "assistant"
    ensures Gather(OtherOf, ms) == ms
  {
    if ms != [] {
      AllOthers(ms[..|ms| - 1]);
      assert ms == ms[..|ms| - 1] + [ms[|ms| - 1]];
    }
  }

  lemma UserOnly(ms: seq<OutMessage>)
    requires ConvertLaws.FromUser(ms)
    ensures forall i :: 0 <= i < |ms| ==> ms[i].role != "assistant"
  {
    forall i | 0 <= i < |ms| ensures ms[i].role != "assistant" { assert ms[i] in ms; }
  }

  lemma TurnOthers(m: Message, p: Option<Pending>, replay: ReplayMode)
    requires ConvertLaws.Quiet(p) && Turn(m, p, replay).Success?
    ensures Gather(OtherOf, Turn(m, p, replay).value.out) == OthersIn(m, p)
  {
    hide Gather, UserMessages, InjectBlocks, InjectedMessages, HasImage, PreMessage, PendingAfter, Waiting,
         StringMessage,
         ConvertLaws.FromUser;
    WaitingIsHis(p);
    if m.content.Blocks? {
      var blocks := m.content.blocks;
      if m.role == "assistant" {
        var pre := PreMessage(blocks, CleanReasoning(m.reasoning), replay);
        ConvertLaws.PreCalls(blocks, CleanReasoning(m.reasoning), replay);
        GatherSnoc(OtherOf, Waiting(p), pre);
      } else if m.role == "user" {
        ConvertLaws.UserResults(blocks);
        UserOnly(UserMessages(blocks));
        AllOthers(UserMessages(blocks));
        GatherConcat(OtherOf, Waiting(p), UserMessages(blocks));
        assert [] + UserMessages(blocks) == UserMessages(blocks);
      } else {
        NoOthers();
      }
    } else {
      StringOthers(m, p, replay);
    }
  }

  lemma NoOthers()
    ensures Gather(OtherOf, []) == []
  {
  }

  lemma StringOthers(m: Message, p: Option<Pending>, replay: ReplayMode)
    requires ConvertLaws.Quiet(p) && !m.content.Blocks? && Turn(m, p, replay).Success?
    ensures Gather(OtherOf, Turn(m, p, replay).value.out) == OthersIn(m, p)
  {
    hide Gather, JoinWith, Waiting, StringText, StringMessage;
    WaitingIsHis(p);
    StringSays(m, p, replay);
    var out, waits := Turn(m, p, replay).value.out, if m.role == "user" then Waiting(p) else [];
    var said := out[|waits|];
    assert out == waits + [said];
    NoOthers();
    GatherSnoc(OtherOf, waits, said);
    assert m.role != "assistant" ==> said == OthersIn(m, p)[0];
  }

  lemma {:induction false} TurnsOthers(ms: seq<Message>, replay: ReplayMode)
    requires Turns(ms, replay).Success?
    ensures Gather(OtherOf, Turns(ms, replay).value.out) == Others(ms, replay)
            && ConvertLaws.Quiet(Turns(ms, replay).value.pending)
  {
    hide Turn, OthersIn, ConvertLaws.Quiet, OtherOf, ConvertLaws.Settles;
    if ms == [] {
      NoOthers();
      assert ConvertLaws.Quiet(None) by { NobodyWaits(); }
    } else {
      var before, m := ms[..|ms| - 1], ms[|ms| - 1];
      var t := Turns(before, replay).value;
      TurnsOthers(before, replay);
      TurnOthers(m, t.pending, replay);
      ConvertLaws.TurnSettles(m, t.pending, replay);
      StillQuiet(m, t.pending, replay, Turn(m, t.pending, replay).value);
      GatherConcat(OtherOf, t.out, Turn(m, t.pending, replay).value.out);
    }
  }

  lemma NobodyWaits()
    ensures ConvertLaws.Quiet(None)
  {
  }

  lemma StillQuiet(m: Message, p: Option<Pending>, replay: ReplayMode, t: Turned)
    requires ConvertLaws.Settles(m, p, replay, t)
    ensures ConvertLaws.Quiet(t.pending)
  {
    hide Gather, ConvertLaws.Quiet;
  }

  lemma {:induction false} BackfilledOthers(ms: seq<OutMessage>, replay: ReplayMode)
    ensures Gather(OtherOf, BackfilledAll(ms, replay)) == Gather(OtherOf, ms)
  {
    forall i | 0 <= i < |ms| ensures OtherOf(BackfilledAll(ms, replay)[i]) == OtherOf(ms[i]) { }
    GatherSame(OtherOf, BackfilledAll(ms, replay), ms);
  }

  /** A converted conversation keeps what is not the assistant's, turn by turn and in order; a string is one message. */
  lemma OthersKept(ms: seq<Message>, replay: ReplayMode)
    requires Converted(ms, replay).Success?
    ensures Gather(OtherOf, Converted(ms, replay).value) == Others(ms, replay)
  {
    hide Gather, Turns, BackfilledAll, Waiting, Others, ConvertLaws.Quiet;
    ConvertLaws.ConvertedIs(ms, replay);
    var t := Turns(ms, replay).value;
    TurnsOthers(ms, replay);
    WaitingIsHis(t.pending);
    GatherConcat(OtherOf, t.out, Waiting(t.pending));
    assert Gather(OtherOf, t.out) + [] == Gather(OtherOf, t.out);
    BackfilledOthers(t.out + Waiting(t.pending), replay);
  }

  // ---- a waiting user turn ----

  function UserPiece(b: Block): seq<string>
  {
    if b.typ == "text" then [b.text] else []
  }

  /** Each stretch of text between two results is one message, its blocks line by line. */
  function Stretches(blocks: seq<Block>): seq<string>
  {
    if blocks == [] then []
    else
      var before, b := blocks[..|blocks| - 1], blocks[|blocks| - 1];
      Stretches(before) + (if IsToolResult(b.typ) then Stretch(LastStretch(before)) else [])
  }

  function LastStretch(blocks: seq<Block>): seq<string>
  {
    if blocks == [] || IsToolResult(blocks[|blocks| - 1].typ) then []
    else LastStretch(blocks[..|blocks| - 1]) + UserPiece(blocks[|blocks| - 1])
  }

  function Stretch(texts: seq<string>): seq<string>
  {
    if texts == [] then [] else [JoinWith(texts, "\n")]
  }

  /** The text of a text-only message of the user's. */
  function UserTextIn(m: OutMessage): seq<string>
  {
    if m.role == "user" && m.content.Text? then [m.content.text] else []
  }

  lemma InjectTextSays(s: InjectState)
    ensures Gather(UserTextIn, InjectText(s).result) == Gather(UserTextIn, s.result) + Stretch(s.text)
  {
    hide Gather, JoinWith;
    GatherSnoc(UserTextIn, s.result, UserText(JoinWith(s.text, "\n")));
    assert Gather(UserTextIn, s.result) + [] == Gather(UserTextIn, s.result);
  }

  lemma InjectBlockSays(s: InjectState, b: Block, deferred: OutMessage)
    requires deferred.role == "assistant"
    ensures var t := InjectBlock(s, b, deferred);
            && Gather(UserTextIn, t.result) == Gather(UserTextIn, s.result) + (if IsToolResult(b.typ) then
                 Stretch(s.text) else [])
            && t.text == if IsToolResult(b.typ) then [] else s.text + UserPiece(b)
  {
    hide Gather, JoinWith, ResultMessage, ResultImages, Stretch;
    InjectTextSays(s);
    var ms, r := InjectText(s).result, ResultMessage(b);
    ResultIsTool(b);
    GatherSnoc(UserTextIn, ms, r);
    GatherSnoc(UserTextIn, ms + [r], deferred);
    assert ms + [r] + [] == ms + [r];
    assert Gather(UserTextIn, ms) + [] == Gather(UserTextIn, ms);
    assert Gather(UserTextIn, s.result) + [] == Gather(UserTextIn, s.result) && s.text + [] == s.text;
  }

  lemma ResultIsTool(b: Block)
    ensures ResultMessage(b).role == "tool"
  {
  }

  lemma {:induction false} InjectSays(blocks: seq<Block>, deferred: OutMessage, remaining: set<string>)
    requires deferred.role == "assistant"
    ensures var s := InjectBlocks(blocks, deferred, remaining);
            Gather(UserTextIn, s.result) == Stretches(blocks) && s.text == LastStretch(blocks)
  {
    hide InjectBlock, Stretch, UserTextIn, UserPiece;
    if blocks != [] {
      var before, b := blocks[..|blocks| - 1], blocks[|blocks| - 1];
      InjectSays(before, deferred, remaining);
      InjectBlockSays(InjectBlocks(before, deferred, remaining), b, deferred);
      assert Stretches(before) + [] == Stretches(before);
    }
  }

  /** The texts of a user turn that answers waited-for calls: every stretch once, in order, and nothing moves. */
  lemma InjectedSay(blocks: seq<Block>, deferred: OutMessage, remaining: set<string>)
    requires deferred.role == "assistant"
    ensures Gather(UserTextIn, InjectedMessages(blocks, deferred, remaining)) == Stretches(blocks)
            + Stretch(LastStretch(blocks))
  {
    hide Gather, InjectBlocks, InjectText, Stretches, LastStretch, Stretch;
    InjectSays(blocks, deferred, remaining);
    var s := InjectBlocks(blocks, deferred, remaining);
    InjectTextSays(s);
    var t := InjectText(s);
    GatherSnoc(UserTextIn, t.result, UserParts([TextPart(MEDIA_MARKER)] + t.media));
    assert Gather(UserTextIn, t.result) + [] == Gather(UserTextIn, t.result);
  }

  // ---- the client's own turns ----

  const NO_OUTPUT: string :=
    "[your previous response had no visible output. please continue and produce a user-visible response.]"

  const INTERRUPTIONS: set<string> :=
    {"(no content)", "[request interrupted by user]", "[request interrupted by user for tool use]"}

  /** The whole text of a turn of nothing but text. */
  function WholeText(c: Content): Option<string>
  {
    match c
    case Str(text) => Some(text)
    case Blocks(bs) => if bs != [] && forall b <- bs :: b.typ == "text" then Some(JoinWith(Texts(bs), "\n")) else None
    case Absent => None
  }

  lemma ReplacementIs(text: string)
    ensures var r, marker := UserMetaTurnReplacement(text), Lower(TrimSpace(text));
            && (r == None <==> marker != NO_OUTPUT && marker !in INTERRUPTIONS)
            && (marker == NO_OUTPUT ==> r == Some(CONTINUE_VISIBLE))
            && (marker in INTERRUPTIONS && marker != NO_OUTPUT ==> r == Some("Continue."))
  {
    hide Lower, TrimSpace;
  }

  lemma NotBoth()
    ensures NO_OUTPUT !in INTERRUPTIONS
  {
    assert |NO_OUTPUT| > 80;
  }

  /**
   * A user turn is replaced if and only if its whole text, trimmed and in lower case, is one of the client's markers.
   */
  lemma MetaTurns(m: Message, sanitize: bool)
    ensures var text := WholeText(m.content);
            var marker := if text == None then "" else Lower(TrimSpace(text.value));
            var meta := sanitize && m.role == "user" && text.Some?;
            && (meta && marker == NO_OUTPUT ==> SanitizedTurn(m, sanitize) == m.(content := Str(CONTINUE_VISIBLE)))
            && (meta && marker in INTERRUPTIONS ==> SanitizedTurn(m, sanitize) == m.(content := Str("Continue.")))
            && (!meta || (marker != NO_OUTPUT && marker !in INTERRUPTIONS) ==> SanitizedTurn(m, sanitize) == m)
  {
    hide Lower, TrimSpace, JoinWith, Texts, UserMetaTurnReplacement;
    NotBoth();
    if WholeText(m.content).Some? { ReplacementIs(WholeText(m.content).value); }
  }
}
