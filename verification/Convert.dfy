/** From Anthropic messages to OpenAI chat messages (internal/convert/converter.go). */
module Convert {
  import opened Wrappers
  import opened Strings
  import opened Chat

  datatype ReplayMode = Disabled | ThinkTags | ReasoningContent

  const CONTINUE_VISIBLE: string :=
    "Your previous turn ended without any visible output. Continue your task now: reply with text and/or the needed tool calls."

  const MEDIA_MARKER: string := "[tool result media moved to the following user message]"

  const MISSING_REASONING: string := "(reasoning unavailable)"

  // ---- client markers ----

  /** What a synthetic user turn of the client is replaced by. */
  function UserMetaTurnReplacement(text: string): Option<string>
  {
    var t := Lower(TrimSpace(text));
    if t == "[your previous response had no visible output. please continue and produce a user-visible response.]" then
      Some(CONTINUE_VISIBLE)
    else if t in {"(no content)", "[request interrupted by user]", "[request interrupted by user for tool use]"} then
      Some("Continue.")
    else None
  }

  function Texts(blocks: seq<Block>): (r: seq<string>)
    ensures |r| == |blocks|
  {
    if blocks == [] then [] else Texts(blocks[..|blocks| - 1]) + [blocks[|blocks| - 1].text]
  }

  function SanitizeUserMetaTurn(content: Content): Content
  {
    match content
    case Str(text) =>
      var r := UserMetaTurnReplacement(text);
      if r.Some? then Str(r.value) else content
    case Blocks(blocks) =>
      if blocks == [] || exists b <- blocks :: b.typ != "text" then content
      else
        var r := UserMetaTurnReplacement(JoinWith(Texts(blocks), "\n"));
        if r.Some? then Str(r.value) else content
    case Absent => content
  }

  predicate IsHex(c: char)
  {
    '0' <= c <= '9' || 'a' <= c <= 'f'
  }

  /** Signature comments are dropped from assistant text. */
  function ScrubSignatures(s: string): string
  {
    if s == "" then ""
    else if |s| >= 75 && s[..8] == "<!--sig:" && s[72..75] == "-->" && (forall i :: 8 <= i < 72 ==> IsHex(s[i])) then
        ScrubSignatures(s[75..])
    else [s[0]] + ScrubSignatures(s[1..])
  }

  function ScrubInterrupts(s: string): string
  {
    if s == "" then ""
    else if "[Tool use interrupted]" <= s then ScrubInterrupts(s[22..])
    else if "No result from invoke." <= s then ScrubInterrupts(s[22..])
    else [s[0]] + ScrubInterrupts(s[1..])
  }

  function Scrub(s: string): string
  {
    ScrubInterrupts(ScrubSignatures(s))
  }

  // ---- assistant turns ----

  function ThinkTag(reasoning: string): string
  {
    "<think>\n" + reasoning + "\n</think>"
  }

  function CallOf(b: Block): seq<ToolCall>
  {
    if b.typ == "tool_use" then [ToolCall(b.id, b.name, b.args)] else []
  }

  /** The tool calls of a turn, in order. */
  function Calls(blocks: seq<Block>): seq<ToolCall>
  {
    if blocks == [] then [] else Calls(blocks[..|blocks| - 1]) + CallOf(blocks[|blocks| - 1])
  }

  /** What a block adds to the turn's text. */
  function SaidBy(b: Block, replay: ReplayMode): seq<string>
  {
    if b.typ == "text" then [Scrub(b.text)]
    else if b.typ == "thinking" && replay == ThinkTags then [ThinkTag(b.thinking)]
    else if b.typ == "redacted_thinking" && replay == ThinkTags then ["[redacted thinking]"]
    else if b.typ == "image" then ["[Image]"]
    else []
  }

  function Said(blocks: seq<Block>, replay: ReplayMode): seq<string>
  {
    if blocks == [] then [] else Said(blocks[..|blocks| - 1], replay) + SaidBy(blocks[|blocks| - 1], replay)
  }

  /** What a block adds to the replayed reasoning. */
  function ThoughtBy(b: Block): seq<string>
  {
    if b.typ == "thinking" then [b.thinking]
    else if b.typ == "redacted_thinking" then ["[redacted thinking]"]
    else []
  }

  function Thought(blocks: seq<Block>): seq<string>
  {
    if blocks == [] then [] else Thought(blocks[..|blocks| - 1]) + ThoughtBy(blocks[|blocks| - 1])
  }

  /** An absent reasoning and an empty one are the same. */
  function CleanReasoning(r: Option<string>): Option<string>
  {
    if r == Some("") then None else r
  }

  function Replayed(blocks: seq<Block>, reasoning: Option<string>, replay: ReplayMode): Option<string>
  {
    if replay != ReasoningContent then None
    else CleanReasoning(if reasoning.Some? then reasoning else Some(JoinWith(Thought(blocks), "\n")))
  }

  /** One assistant turn as one message. */
  function AssistantMessage(blocks: seq<Block>, reasoning: Option<string>, replay: ReplayMode): OutMessage
  {
    var said := JoinWith(Said(blocks, replay), "\n\n");
    OutMessage("assistant", Text(if said == "" && Calls(blocks) == [] then " " else said), Calls(blocks),
               Replayed(blocks, reasoning, replay), None)
  }

  /** The text, thinking and calls of a turn are collected block by block. */
  method ConvertAssistantMessage(blocks: seq<Block>, reasoning: Option<string>, replay: ReplayMode)
      returns (msg: OutMessage)
    ensures msg == AssistantMessage(blocks, reasoning, replay)
  {
    hide JoinWith, Scrub, ThinkTag;
    var contentParts: seq<string>, thinkingParts: seq<string>, toolCalls: seq<ToolCall> := [], [], [];
    var i := 0;
    while i < |blocks|
      invariant 0 <= i <= |blocks|
      invariant contentParts == Said(blocks[..i], replay) && toolCalls == Calls(blocks[..i])
      invariant replay == ReasoningContent && reasoning == None ==> thinkingParts == Thought(blocks[..i])
    {
      var block := blocks[i];
      assert blocks[..i + 1][..i] == blocks[..i];
      if block.typ == "text" {
        contentParts := contentParts + [Scrub(block.text)];
      } else if block.typ == "thinking" {
        if replay == ThinkTags {
          contentParts := contentParts + [ThinkTag(block.thinking)];
        } else if replay == ReasoningContent && reasoning == None {
          thinkingParts := thinkingParts + [block.thinking];
        }
      } else if block.typ == "redacted_thinking" {
        if replay == ThinkTags {
          contentParts := contentParts + ["[redacted thinking]"];
        } else if replay == ReasoningContent && reasoning == None {
          thinkingParts := thinkingParts + ["[redacted thinking]"];
        }
      } else if block.typ == "tool_use" {
        toolCalls := toolCalls + [ToolCall(block.id, block.name, block.args)];
      } else if block.typ == "image" {
        contentParts := contentParts + ["[Image]"];
      }
      i := i + 1;
    }
    assert blocks[..i] == blocks;
    var contentStr := JoinWith(contentParts, "\n\n");
    if contentStr == "" && toolCalls == [] {
      contentStr := " ";
    }
    var replayed: Option<string> := None;
    if replay == ReasoningContent {
      var s := JoinWith(thinkingParts, "\n");
      if reasoning.Some? {
        s := reasoning.value;
      }
      if s != "" {
        replayed := Some(s);
      }
    }
    msg := OutMessage("assistant", Text(contentStr), toolCalls, replayed, None);
  }

  function IndexFirstToolUse(blocks: seq<Block>): (r: int)
    ensures -1 <= r < |blocks|
    ensures r != -1 ==> blocks[r].typ == "tool_use" && forall i :: 0 <= i < r ==> blocks[i].typ != "tool_use"
    ensures r == -1 ==> forall b <- blocks :: b.typ != "tool_use"
  {
    if blocks == [] then -1
    else
      var r := IndexFirstToolUse(blocks[..|blocks| - 1]);
      if r != -1 then r
      else if blocks[|blocks| - 1].typ == "tool_use" then |blocks| - 1
      else -1
  }

  /** The blocks that are no tool use. */
  function NotCalls(blocks: seq<Block>): seq<Block>
  {
    if blocks == [] then []
    else NotCalls(blocks[..|blocks| - 1]) + (if blocks[|blocks| - 1].typ == "tool_use" then []
          else [blocks[|blocks| - 1]])
  }

  /** The blocks of a tool turn that have to wait for its results. */
  function Deferred(blocks: seq<Block>): seq<Block>
  {
    var first := IndexFirstToolUse(blocks);
    if first == -1 then [] else NotCalls(blocks[first + 1..])
  }

  function ResultIDs(calls: seq<ToolCall>): set<string>
  {
    set c | c in calls && TrimSpace(c.id) != "" :: c.id
  }

  /** What a tool turn sends at once: what precedes its first call, and all its calls. */
  function PreMessage(blocks: seq<Block>, reasoning: Option<string>, replay: ReplayMode): OutMessage
  {
    var first := IndexFirstToolUse(blocks);
    if first == -1 then AssistantMessage(blocks, reasoning, replay)
    else if first == 0 then OutMessage("assistant", Text(""), Calls(blocks), if replay == ReasoningContent then
          reasoning else None, None)
    else
      var m := AssistantMessage(blocks[..first], reasoning, replay);
      m.(toolCalls := Calls(blocks), content := if m.content == Text(" ") then Text("") else m.content)
  }

  /** What waits for the results of a tool turn. */
  class PendingAfterTools {
    var remainingToolIds: set<string>
    const deferredBlocks: seq<Block>
    const topLevelReasoning: Option<string>
    const reasoningReplay: ReplayMode
    var deferredEmitted: bool

    constructor (ids: set<string>, blocks: seq<Block>, reasoning: Option<string>, replay: ReplayMode)
      ensures remainingToolIds == ids && deferredBlocks == blocks && topLevelReasoning == reasoning
              && reasoningReplay == replay
      ensures !deferredEmitted
    {
      remainingToolIds, deferredBlocks, topLevelReasoning, reasoningReplay, deferredEmitted := ids, blocks, reasoning,
          replay, false;
    }

    predicate NeedsDeferred()
      reads this
    {
      deferredBlocks != [] && !deferredEmitted
    }

    /** The message of the deferred blocks. */
    function DeferredMessage(): OutMessage
    {
      AssistantMessage(deferredBlocks, topLevelReasoning, reasoningReplay)
    }
  }

  method DeferredPostToolToMessages(pending: PendingAfterTools) returns (out: seq<OutMessage>)
    ensures out == if pending.deferredBlocks == [] then [] else [pending.DeferredMessage()]
  {
    if pending.deferredBlocks == [] {
      return [];
    }
    var m := ConvertAssistantMessage(pending.deferredBlocks, pending.topLevelReasoning, pending.reasoningReplay);
    out := [m];
  }

  method ConvertAssistantMessageWithSplit(blocks: seq<Block>, reasoning: Option<string>, replay: ReplayMode)
      returns (msg: OutMessage, pending: PendingAfterTools?)
    requires IndexFirstToolUse(blocks) != -1
    ensures msg == PreMessage(blocks, reasoning, replay)
    ensures pending == null <==> Deferred(blocks) == []
    ensures pending != null ==> fresh(pending) && !pending.deferredEmitted
    ensures pending != null ==>
            pending.remainingToolIds == ResultIDs(Calls(blocks))
            && pending.deferredBlocks == Deferred(blocks)
    ensures pending != null ==> pending.topLevelReasoning == reasoning && pending.reasoningReplay == replay
  {
    hide AssistantMessage, ResultIDs, Calls, NotCalls;
    var first := IndexFirstToolUse(blocks);
    var toolCalls := Calls(blocks);
    var deferred := NotCalls(blocks[first + 1..]);
    if first == 0 {
      msg := OutMessage("assistant", Text(""), [], if replay == ReasoningContent then reasoning else None, None);
    } else {
      msg := ConvertAssistantMessage(blocks[..first], reasoning, replay);
    }
    msg := msg.(toolCalls := toolCalls);
    if msg.content == Text(" ") {
      msg := msg.(content := Text(""));
    }
    pending := null;
    if deferred != [] {
      pending := new PendingAfterTools(ResultIDs(toolCalls), deferred, reasoning, replay);
    }
  }

  // ---- tool results ----

  datatype Serialized = Serialized(text: string, images: seq<Part>)

  function EntryText(e: Entry): seq<string>
  {
    match e
    case Bare(text) => [text]
    case Object(typ, text, _, _, json) => if typ == "text" then [text] else if typ == "image" then [] else [json]
  }

  /** Only an image entry is moved out of the result. */
  function EntryImage(e: Entry): seq<Part>
  {
    if e.Object? && e.typ == "image" then
      var part := ImagePartOf(e.source, e.detail);
      if part.Some? then [part.value] else []
    else []
  }

  function EntryTexts(es: seq<Entry>): seq<string>
  {
    if es == [] then [] else EntryTexts(es[..|es| - 1]) + EntryText(es[|es| - 1])
  }

  function EntryImages(es: seq<Entry>): seq<Part>
  {
    if es == [] then [] else EntryImages(es[..|es| - 1]) + EntryImage(es[|es| - 1])
  }

  function SerializeToolResult(c: ToolContent): Serialized
  {
    match c
    case NoContent => Serialized("", [])
    case Whole(text) => Serialized(text, [])
    case Entries(es) => Serialized(JoinWith(EntryTexts(es), "\n"), EntryImages(es))
  }

  /** The images a tool result hands to the following user message. */
  function ResultImages(b: Block): seq<Part>
  {
    SerializeToolResult(b.content).images
  }

  /** The tool message of a result block; the images it had are announced in its text. */
  function ResultMessage(b: Block): OutMessage
  {
    var serial := SerializeToolResult(b.content);
    var marked := if serial.images == [] then serial.text
                  else serial.text + (if serial.text != "" then "\n" else "") + MEDIA_MARKER;
    OutMessage("tool", Text(if b.isError then "[TOOL_ERROR] " + marked else marked), [], None, Some(b.toolUseID))
  }

  method SerializeToolResultContent(c: ToolContent) returns (r: Serialized)
    ensures r == SerializeToolResult(c)
  {
    hide ImagePartOf, JoinWith;
    match c {
      case NoContent => r := Serialized("", []);
      case Whole(text) => r := Serialized(text, []);
      case Entries(es) =>
        var textParts: seq<string>, images: seq<Part> := [], [];
        for i := 0 to |es|
          invariant textParts == EntryTexts(es[..i]) && images == EntryImages(es[..i])
        {
          assert es[..i + 1][..i] == es[..i];
          match es[i] {
            case Bare(text) => textParts := textParts + [text];
            case Object(typ, text, source, detail, json) =>
              if typ == "text" {
                textParts := textParts + [text];
              } else if typ == "image" {
                var part := ImagePartOf(source, detail);
                if part.Some? {
                  images := images + [part.value];
                }
              } else {
                textParts := textParts + [json];
              }
          }
        }
        assert es[..|es|] == es;
        r := Serialized(JoinWith(textParts, "\n"), images);
    }
  }

  method ConvertToolResult(b: Block) returns (msg: OutMessage, images: seq<Part>)
    ensures msg == ResultMessage(b) && images == ResultImages(b)
  {
    hide SerializeToolResult;
    var serial := SerializeToolResultContent(b.content);
    var toolText := serial.text;
    if serial.images != [] {
      if toolText != "" {
        toolText := toolText + "\n";
      }
      toolText := toolText + MEDIA_MARKER;
    }
    assert serial.text + "" == serial.text;
    if b.isError {
      toolText := "[TOOL_ERROR] " + toolText;
    }
    msg := OutMessage("tool", Text(toolText), [], None, Some(b.toolUseID));
    images := serial.images;
  }

  // ---- user turns ----

  /** A user turn halfway: the messages so far, and the text, images and tool media still to go out. */
  datatype UserState = UserState(result: seq<OutMessage>, text: seq<string>, images: seq<Part>, media: seq<Part>)

  const NO_USER: UserState := UserState([], [], [], [])

  function FlushText(s: UserState): UserState
  {
    if s.text == [] then s else s.(result := s.result + [UserText(JoinWith(s.text, "\n"))], text := [])
  }

  predicate IsUserText(m: OutMessage)
  {
    m.role == "user" && m.content.Text?
  }

  /** The position of the last text-only user message, or -1. */
  function LastUserText(ms: seq<OutMessage>): (r: int)
    ensures -1 <= r < |ms| && (r != -1 ==> IsUserText(ms[r]))
    ensures forall i :: r < i < |ms| ==> !IsUserText(ms[i])
  {
    if ms == [] then -1
    else if IsUserText(ms[|ms| - 1]) then |ms| - 1
    else LastUserText(ms[..|ms| - 1])
  }

  /** Images go out with the last text-only user message, which is pulled to the end, whatever lies in between. */
  function WithImages(ms: seq<OutMessage>, images: seq<Part>): seq<OutMessage>
  {
    var i := LastUserText(ms);
    if i == -1 then ms + [UserParts(images)]
    else ms[..i] + ms[i + 1..] + [UserParts([TextPart(ms[i].content.text)] + images)]
  }

  function FlushImages(s: UserState): UserState
  {
    if s.images == [] then s
    else
      var t := FlushText(s);
      t.(result := WithImages(t.result, s.images), images := [])
  }

  function DocumentRef(desc: string, context: string): string
  {
    if context != "" then "[Document: " + desc + "]\n" + context else "[Document: " + desc + "]"
  }

  function AddDocument(s: UserState, b: Block): UserState
  {
    if b.source == None then s
    else
      var src := b.source.value;
      var mediaType := MediaType(src);
      var name := if b.title != "" then b.title else "document";
      if src.typ == "base64" && IsImageMime(mediaType) then
        if src.data == "" then s
        else
          var t := FlushText(s);
          t.(images := t.images + [ImagePart(DataURL(mediaType, src.data), "")])
      else if src.typ == "base64" then
        var dataURL := if src.data != "" then "data:" + mediaType + ";base64," + src.data else mediaType;
        s.(text := s.text + [DocumentRef(name + " (" + dataURL + ")", b.context)])
      else
        var filename := if b.title == "" && src.typ == "url" then src.url else name;
        var desc := if mediaType != "" then filename + " (" + mediaType + ")" else filename;
        s.(text := s.text + [DocumentRef(desc, b.context)])
  }

  function AddResult(s: UserState, b: Block): UserState
  {
    var t := FlushText(FlushImages(s));
    t.(result := t.result + [ResultMessage(b)], media := t.media + ResultImages(b))
  }

  function AddBlock(s: UserState, b: Block): UserState
  {
    if b.typ == "text" then s.(text := s.text + [b.text])
    else if b.typ == "image" then
      var part := ImagePartOf(b.source, b.detail);
      if part.Some? then s.(images := s.images + [part.value]) else s
    else if b.typ == "document" then AddDocument(s, b)
    else if IsToolResult(b.typ) then AddResult(s, b)
    else s
  }

  function AddBlocks(blocks: seq<Block>): UserState
  {
    if blocks == [] then NO_USER else AddBlock(AddBlocks(blocks[..|blocks| - 1]), blocks[|blocks| - 1])
  }

  function WithMedia(ms: seq<OutMessage>, media: seq<Part>): seq<OutMessage>
  {
    if media == [] then ms else ms + [UserParts([TextPart(MEDIA_MARKER)] + media)]
  }

  function UserMessages(blocks: seq<Block>): seq<OutMessage>
  {
    var s := FlushText(FlushImages(AddBlocks(blocks)));
    WithMedia(s.result, s.media)
  }

  method FlushUserText(s: UserState) returns (t: UserState)
    ensures t == FlushText(s)
  {
    t := s;
    if t.text != [] {
      t := t.(result := t.result + [UserText(JoinWith(t.text, "\n"))], text := []);
    }
  }

  method FlushUserImages(s: UserState) returns (t: UserState)
    ensures t == FlushImages(s)
  {
    hide FlushText;
    if s.images == [] {
      return s;
    }
    t := FlushUserText(s);
    var contentParts: seq<Part> := [];
    var i := |t.result| - 1;
    ghost var ms := t.result;
    assert ms[..i + 1] == ms;
    while i >= 0
      invariant -1 <= i < |ms| && t.result == ms && contentParts == []
      invariant LastUserText(ms[..i + 1]) == LastUserText(ms)
      decreases i
    {
      var msg := t.result[i];
      assert ms[..i + 1][..i] == ms[..i];
      if msg.role == "user" && msg.content.Text? {
        contentParts := [TextPart(msg.content.text)];
        t := t.(result := t.result[..i] + t.result[i + 1..]);
        break;
      }
      i := i - 1;
    }
    assert [] + s.images == s.images;
    contentParts := contentParts + s.images;
    t := t.(result := t.result + [UserParts(contentParts)], images := []);
  }

  method AddUserDocument(s: UserState, block: Block) returns (t: UserState)
    ensures t == AddDocument(s, block)
  {
    hide FlushText, DataURL, DocumentRef;
    t := s;
    if block.source == None {
      return;
    }
    var src := block.source.value;
    var mediaType := MediaType(src);
    if src.typ == "base64" && IsImageMime(mediaType) {
      if src.data != "" {
        t := FlushUserText(t);
        t := t.(images := t.images + [ImagePart(DataURL(mediaType, src.data), "")]);
      }
    } else if src.typ == "base64" {
      var filename := block.title;
      if filename == "" {
        filename := "document";
      }
      var dataURL := mediaType;
      if src.data != "" {
        dataURL := "data:" + mediaType + ";base64," + src.data;
      }
      t := t.(text := t.text + [DocumentRef(filename + " (" + dataURL + ")", block.context)]);
    } else {
      var filename := block.title;
      if filename == "" {
        filename := if src.typ == "url" then src.url else "document";
      }
      var desc := filename;
      if mediaType != "" {
        desc := filename + " (" + mediaType + ")";
      }
      t := t.(text := t.text + [DocumentRef(desc, block.context)]);
    }
  }

  method ConvertUserMessage(content: seq<Block>) returns (result: seq<OutMessage>)
    ensures result == UserMessages(content)
  {
    hide FlushText, FlushImages, AddDocument, ImagePartOf, ResultMessage, ResultImages, WithMedia, IsToolResult;
    var s := NO_USER;
    var i := 0;
    while i < |content|
      invariant 0 <= i <= |content| && s == AddBlocks(content[..i])
    {
      var block := content[i];
      assert content[..i + 1][..i] == content[..i];
      if block.typ == "text" {
        s := s.(text := s.text + [block.text]);
      } else if block.typ == "image" {
        var part := ImagePartOf(block.source, block.detail);
        if part.Some? {
          s := s.(images := s.images + [part.value]);
        }
      } else if block.typ == "document" {
        s := AddUserDocument(s, block);
      } else if IsToolResult(block.typ) {
        s := FlushUserImages(s);
        s := FlushUserText(s);
        var msg, images := ConvertToolResult(block);
        s := s.(result := s.result + [msg], media := s.media + images);
      }
      i := i + 1;
    }
    assert content[..i] == content;
    s := FlushUserImages(s);
    s := FlushUserText(s);
    result := EmitMedia(s.result, s.media);
  }

  method EmitMedia(ms: seq<OutMessage>, media: seq<Part>) returns (result: seq<OutMessage>)
    ensures result == WithMedia(ms, media)
  {
    result := ms;
    if media != [] {
      result := result + [UserParts([TextPart(MEDIA_MARKER)] + media)];
    }
  }

  // ---- user turns that answer tool calls somebody waits for ----

  datatype ConversionError = ImageNotSupported

  /** A waiting user turn halfway. */
  datatype InjectState = InjectState(result: seq<OutMessage>, text: seq<string>, media: seq<Part>,
                                     remaining: set<string>, cleared: bool)

  function InjectText(s: InjectState): InjectState
  {
    if s.text == [] then s else s.(result := s.result + [UserText(JoinWith(s.text, "\n"))], text := [])
  }

  /** A result that is waited for is crossed off; after the last one the deferred message goes out. */
  function InjectResult(s: InjectState, b: Block, deferred: OutMessage): InjectState
  {
    var t := InjectText(s);
    var left := s.remaining - {b.toolUseID};
    var done := b.toolUseID in s.remaining && left == {};
    InjectState(t.result + [ResultMessage(b)] + (if done then [deferred] else []), [], s.media + ResultImages(b), left,
                s.cleared || done)
  }

  /** Blocks that are neither text nor results are dropped here. */
  function InjectBlock(s: InjectState, b: Block, deferred: OutMessage): InjectState
  {
    if b.typ == "text" then s.(text := s.text + [b.text])
    else if IsToolResult(b.typ) then InjectResult(s, b, deferred)
    else s
  }

  function InjectBlocks(blocks: seq<Block>, deferred: OutMessage, remaining: set<string>): InjectState
  {
    if blocks == [] then InjectState([], [], [], remaining, false)
    else InjectBlock(InjectBlocks(blocks[..|blocks| - 1], deferred, remaining), blocks[|blocks| - 1], deferred)
  }

  function InjectedMessages(blocks: seq<Block>, deferred: OutMessage, remaining: set<string>): seq<OutMessage>
  {
    var s := InjectText(InjectBlocks(blocks, deferred, remaining));
    WithMedia(s.result, s.media)
  }

  predicate HasImage(blocks: seq<Block>)
  {
    exists b <- blocks :: b.typ == "image"
  }

  method ConvertUserMessageWithInjection(content: seq<Block>, pending: PendingAfterTools)
      returns (r: Result<seq<OutMessage>, ConversionError>, cleared: bool)
    modifies pending`remainingToolIds, pending`deferredEmitted
    ensures !old(pending.NeedsDeferred()) || old(pending.remainingToolIds) == {} ==>
              r == Success(UserMessages(content)) && !cleared && unchanged(pending)
    ensures old(pending.NeedsDeferred()) && old(pending.remainingToolIds) != {} ==>
              if HasImage(content) then r == Failure(ImageNotSupported)
              else
                var s := InjectBlocks(content, pending.DeferredMessage(), old(pending.remainingToolIds));
                && r == Success(InjectedMessages(content, pending.DeferredMessage(), old(pending.remainingToolIds)))
                && cleared == pending.deferredEmitted == s.cleared && pending.remainingToolIds == s.remaining
  {
    hide UserMessages, AssistantMessage, ResultMessage, ResultImages, WithMedia, IsToolResult, JoinWith;
    cleared := false;
    if !pending.NeedsDeferred() || pending.remainingToolIds == {} {
      var msgs := ConvertUserMessage(content);
      return Success(msgs), false;
    }
    ghost var s := InjectState([], [], [], pending.remainingToolIds, false);
    var result: seq<OutMessage>, textParts: seq<string>, toolMedia: seq<Part> := [], [], [];
    var i := 0;
    while i < |content|
      invariant 0 <= i <= |content| && !HasImage(content[..i])
      invariant s == InjectBlocks(content[..i], pending.DeferredMessage(), old(pending.remainingToolIds))
      invariant s == InjectState(result, textParts, toolMedia, pending.remainingToolIds, cleared)
                && cleared == pending.deferredEmitted
    {
      var block := content[i];
      assert content[..i + 1][..i] == content[..i];
      if block.typ == "text" {
        textParts := textParts + [block.text];
      } else if block.typ == "image" {
        return Failure(ImageNotSupported), false;
      } else if IsToolResult(block.typ) {
        if textParts != [] {
          result, textParts := result + [UserText(JoinWith(textParts, "\n"))], [];
        }
        var msg, images := ConvertToolResult(block);
        result, toolMedia := result + [msg], toolMedia + images;
        if block.toolUseID in pending.remainingToolIds {
          pending.remainingToolIds := pending.remainingToolIds - {block.toolUseID};
          if pending.remainingToolIds == {} {
            var deferred := DeferredPostToolToMessages(pending);
            result := result + deferred;
            pending.deferredEmitted, cleared := true, true;
          }
        }
      }
      s := InjectBlock(s, block, pending.DeferredMessage());
      i := i + 1;
    }
    assert content[..i] == content;
    if textParts != [] {
      result := result + [UserText(JoinWith(textParts, "\n"))];
    }
    result := EmitMedia(result, toolMedia);
    r := Success(result);
  }

  // ---- the conversation ----

  /** What waits: the ids without a result, and the message to send after the last of them. */
  datatype Pending = Pending(remaining: set<string>, message: OutMessage)

  datatype Turned = Turned(out: seq<OutMessage>, pending: Option<Pending>)

  function Waiting(p: Option<Pending>): seq<OutMessage>
  {
    if p.Some? then [p.value.message] else []
  }

  function PendingAfter(blocks: seq<Block>, reasoning: Option<string>, replay: ReplayMode): Option<Pending>
  {
    if Deferred(blocks) == [] then None
    else Some(Pending(ResultIDs(Calls(blocks)), AssistantMessage(Deferred(blocks), reasoning, replay)))
  }

  /** A turn with string content. */
  function StringMessage(role: string, text: string, reasoning: Option<string>, replay: ReplayMode): OutMessage
  {
    var said := if role == "assistant" && reasoning.Some? && replay == ThinkTags then
                  JoinWith([ThinkTag(reasoning.value)] + (if text != "" then [text] else []), "\n\n")
                else text;
    OutMessage(role, Text(said), [], if role == "assistant" && replay == ReasoningContent then reasoning
          else None, None)
  }

  /** A user turn of blocks, with or without something waiting. */
  function UserTurn(blocks: seq<Block>, p: Option<Pending>): Result<Turned, ConversionError>
  {
    if p == None || p.value.remaining == {} then Success(Turned(Waiting(p) + UserMessages(blocks), None))
    else if HasImage(blocks) then Failure(ImageNotSupported)
    else
      var s := InjectBlocks(blocks, p.value.message, p.value.remaining);
      Success(Turned(InjectedMessages(blocks, p.value.message, p.value.remaining),
                     if s.cleared then None else Some(p.value.(remaining := s.remaining))))
  }

  function Turn(m: Message, p: Option<Pending>, replay: ReplayMode): Result<Turned, ConversionError>
  {
    var reasoning := CleanReasoning(m.reasoning);
    if m.role == "assistant" && m.content.Blocks? then
      var blocks := m.content.blocks;
      Success(Turned(Waiting(p) + [PreMessage(blocks, reasoning, replay)], PendingAfter(blocks, reasoning, replay)))
    else if m.content.Blocks? then
      (if m.role == "user" then UserTurn(m.content.blocks, p) else Success(Turned([], p)))
    else
      var msg := if m.content.Str? then StringMessage(m.role, m.content.text, reasoning, replay)
                 else OutMessage(m.role, Text(""), [], None, None);
      if m.role == "user" then Success(Turned(Waiting(p) + [msg], None)) else Success(Turned([msg], p))
  }

  /** All turns, in order. */
  function Turns(ms: seq<Message>, replay: ReplayMode): Result<Turned, ConversionError>
  {
    if ms == [] then Success(Turned([], None))
    else
      var r := Turns(ms[..|ms| - 1], replay);
      if r.Failure? then r
      else
        var t := Turn(ms[|ms| - 1], r.value.pending, replay);
        if t.Failure? then t else Success(Turned(r.value.out + t.value.out, t.value.pending))
  }

  function SanitizedTurn(m: Message, sanitize: bool): Message
  {
    if sanitize && m.role == "user" then m.(content := SanitizeUserMetaTurn(m.content)) else m
  }

  function Sanitized(ms: seq<Message>, sanitize: bool): (r: seq<Message>)
    ensures |r| == |ms| && forall i :: 0 <= i < |ms| ==> r[i] == SanitizedTurn(ms[i], sanitize)
  {
    seq(|ms|, i requires 0 <= i < |ms| => SanitizedTurn(ms[i], sanitize))
  }

  /** Under reasoning_content replay every tool turn carries some reasoning. */
  function Backfilled(m: OutMessage, replay: ReplayMode): OutMessage
  {
    if replay == ReasoningContent && m.role == "assistant" && m.toolCalls != []
        && CleanReasoning(m.reasoning) == None then
      m.(reasoning := Some(MISSING_REASONING))
    else m
  }

  function BackfilledAll(ms: seq<OutMessage>, replay: ReplayMode): (r: seq<OutMessage>)
    ensures |r| == |ms| && forall i :: 0 <= i < |ms| ==> r[i] == Backfilled(ms[i], replay)
  {
    seq(|ms|, i requires 0 <= i < |ms| => Backfilled(ms[i], replay))
  }

  function Converted(ms: seq<Message>, replay: ReplayMode): Result<seq<OutMessage>, ConversionError>
  {
    var r := Turns(ms, replay);
    if r.Failure? then Failure(r.error)
    else Success(BackfilledAll(r.value.out + Waiting(r.value.pending), replay))
  }

  method BackfillReplayReasoning(messages: seq<OutMessage>) returns (r: seq<OutMessage>)
    ensures r == BackfilledAll(messages, ReasoningContent)
  {
    r := messages;
    for i := 0 to |messages|
      invariant |r| == |messages|
      invariant forall j :: 0 <= j < i ==> r[j] == Backfilled(messages[j], ReasoningContent)
      invariant forall j :: i <= j < |messages| ==> r[j] == messages[j]
    {
      var msg := r[i];
      if msg.role == "assistant" && msg.toolCalls != [] {
        if msg.reasoning == None || msg.reasoning.value == "" {
          r := r[i := msg.(reasoning := Some(MISSING_REASONING))];
        }
      }
    }
  }

  /** The value of what is pending; nil, and what has been emitted, are nothing. */
  function PendingValue(p: PendingAfterTools?): Option<Pending>
    reads p
  {
    if p == null || !p.NeedsDeferred() then None else Some(Pending(p.remainingToolIds, p.DeferredMessage()))
  }

  /** One turn of blocks by the assistant. */
  method ConvertAssistantTurn(blocks: seq<Block>, reasoning: Option<string>, replay: ReplayMode,
                              pending: PendingAfterTools?)
      returns (out: seq<OutMessage>, pending': PendingAfterTools?)
    modifies pending
    ensures out == Waiting(old(PendingValue(pending))) + [PreMessage(blocks, reasoning, replay)]
    ensures PendingValue(pending') == PendingAfter(blocks, reasoning, replay)
    ensures pending' == null || pending' == pending || fresh(pending')
  {
    hide AssistantMessage, Calls, Deferred, ResultIDs;
    out, pending' := [], pending;
    if pending' != null && pending'.NeedsDeferred() {
      var deferred := DeferredPostToolToMessages(pending');
      out := out + deferred;
      pending'.deferredEmitted := true;
      pending' := null;
    }
    if IndexFirstToolUse(blocks) >= 0 {
      var msg, newPending := ConvertAssistantMessageWithSplit(blocks, reasoning, replay);
      out := out + [msg];
      if newPending != null {
        pending' := newPending;
      }
    } else {
      var msg := ConvertAssistantMessage(blocks, reasoning, replay);
      out := out + [msg];
      assert Deferred(blocks) == [] by { NothingDeferred(blocks); }
    }
  }

  lemma NothingDeferred(blocks: seq<Block>)
    ensures IndexFirstToolUse(blocks) == -1 ==> Deferred(blocks) == []
  {
  }

  /** One user turn of blocks. */
  method ConvertUserTurn(blocks: seq<Block>, pending: PendingAfterTools?)
      returns (r: Result<seq<OutMessage>, ConversionError>, pending': PendingAfterTools?)
    modifies pending
    ensures var t := UserTurn(blocks, old(PendingValue(pending)));
            if t.Failure? then r == Failure(t.error)
            else r == Success(t.value.out) && PendingValue(pending') == t.value.pending
    ensures pending' == null || pending' == pending
  {
    hide AssistantMessage, InjectBlocks, UserMessages, HasImage, InjectedMessages;
    pending' := pending;
    var out: seq<OutMessage> := [];
    if pending' != null && pending'.NeedsDeferred() {
      if pending'.remainingToolIds == {} {
        out := DeferredPostToolToMessages(pending');
        pending'.deferredEmitted := true;
        pending' := null;
      }
      if pending' != null {
        var pieces, cleared := ConvertUserMessageWithInjection(blocks, pending');
        if pieces.Failure? {
          return Failure(pieces.error), pending';
        }
        assert [] + pieces.value == pieces.value;
        out := out + pieces.value;
        if cleared {
          pending' := null;
        }
        return Success(out), pending';
      }
    }
    var msgs := ConvertUserMessage(blocks);
    assert [] + msgs == msgs;
    r := Success(out + msgs);
  }

  method ConvertTurn(message: Message, replay: ReplayMode, sanitizeMetaTurns: bool, pending: PendingAfterTools?)
      returns (r: Result<seq<OutMessage>, ConversionError>, pending': PendingAfterTools?)
    modifies pending
    ensures var t := Turn(SanitizedTurn(message, sanitizeMetaTurns), old(PendingValue(pending)), replay);
            if t.Failure? then r == Failure(t.error)
            else r == Success(t.value.out) && PendingValue(pending') == t.value.pending
    ensures pending' == null || pending' == pending || fresh(pending')
  {
    hide UserTurn, PendingAfter, PreMessage, StringMessage, SanitizeUserMetaTurn, AssistantMessage;
    var msg := message;
    if sanitizeMetaTurns && msg.role == "user" {
      msg := msg.(content := SanitizeUserMetaTurn(msg.content));
    }
    var reasoning := CleanReasoning(msg.reasoning);
    if msg.role == "assistant" && msg.content.Blocks? {
      var out;
      out, pending' := ConvertAssistantTurn(msg.content.blocks, reasoning, replay, pending);
      return Success(out), pending';
    }
    if msg.content.Blocks? {
      if msg.role == "user" {
        r, pending' := ConvertUserTurn(msg.content.blocks, pending);
        return;
      }
      return Success([]), pending;
    }
    var out: seq<OutMessage> := [];
    pending' := pending;
    if msg.role == "user" && pending' != null && pending'.NeedsDeferred() {
      out := DeferredPostToolToMessages(pending');
      pending'.deferredEmitted := true;
      pending' := null;
    }
    var converted := OutMessage(msg.role, Text(""), [], None, None);
    if msg.content.Str? {
      converted := ConvertString(msg.role, msg.content.text, reasoning, replay);
    }
    assert [] + [converted] == [converted];
    r := Success(out + [converted]);
  }

  method ConvertString(role: string, text: string, reasoning: Option<string>, replay: ReplayMode)
      returns (msg: OutMessage)
    ensures msg == StringMessage(role, text, reasoning, replay)
  {
    msg := OutMessage(role, Text(text), [], None, None);
    if role == "assistant" && reasoning.Some? {
      if replay == ReasoningContent {
        msg := msg.(reasoning := reasoning);
      } else if replay == ThinkTags {
        var contentParts := [ThinkTag(reasoning.value)];
        if text != "" {
          contentParts := contentParts + [text];
        }
        msg := msg.(content := Text(JoinWith(contentParts, "\n\n")));
      }
    }
  }

  /** A failure ends the conversion. */
  lemma {:induction false} TurnsFail(ms: seq<Message>, k: nat, replay: ReplayMode)
    requires k <= |ms|
    ensures Turns(ms[..k], replay).Failure? ==> Turns(ms, replay) == Turns(ms[..k], replay)
    decreases |ms|
  {
    hide Turn;
    if k < |ms| {
      TurnsFail(ms[..|ms| - 1], k, replay);
      assert ms[..|ms| - 1][..k] == ms[..k];
    } else {
      assert ms[..k] == ms;
    }
  }

  lemma NothingPending()
    ensures PendingValue(null) == None
  {
  }

  lemma WaitingIs(p: PendingAfterTools?)
    ensures Waiting(PendingValue(p)) == if p != null && p.NeedsDeferred() then [p.DeferredMessage()] else []
    ensures p != null && p.NeedsDeferred() ==> p.deferredBlocks != []
  {
    hide AssistantMessage;
  }

  lemma NoBackfill(ms: seq<OutMessage>, replay: ReplayMode)
    ensures replay != ReasoningContent ==> BackfilledAll(ms, replay) == ms
  {
  }

  method ConvertMessages(messages: seq<Message>, replay: ReplayMode, sanitizeMetaTurns: bool)
      returns (r: Result<seq<OutMessage>, ConversionError>)
    ensures r == Converted(Sanitized(messages, sanitizeMetaTurns), replay)
  {
    hide UserTurn, PendingAfter, PreMessage, StringMessage, SanitizeUserMetaTurn, PendingValue, BackfilledAll;
    ghost var ms := Sanitized(messages, sanitizeMetaTurns);
    var result: seq<OutMessage> := [];
    var pending: PendingAfterTools? := null;
    assert PendingValue(null) == None by { NothingPending(); }
    var i := 0;
    while i < |messages|
      invariant 0 <= i <= |messages|
      invariant pending == null || fresh(pending)
      invariant Turns(ms[..i], replay) == Success(Turned(result, PendingValue(pending)))
    {
      assert ms[..i + 1][..i] == ms[..i];
      TurnsFail(ms, i + 1, replay);
      var out;
      out, pending := ConvertTurn(messages[i], replay, sanitizeMetaTurns, pending);
      if out.Failure? {
        return Failure(out.error);
      }
      result := result + out.value;
      i := i + 1;
    }
    assert ms[..i] == ms;
    WaitingIs(pending);
    assert result + [] == result;
    if pending != null && pending.NeedsDeferred() {
      var deferred := DeferredPostToolToMessages(pending);
      result := result + deferred;
    }
    if replay == ReasoningContent {
      result := BackfillReplayReasoning(result);
    } else {
      NoBackfill(result, replay);
    }
    r := Success(result);
  }
}
