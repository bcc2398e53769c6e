/** From the items of a Responses conversation to chat messages (internal/responses/convert.go). */
module ChatBody {
  import opened Wrappers
  import opened Strings
  import opened Sequences
  import opened Chat
  import Convert
  import Items

  datatype InPart = InPart(typ: string, text: string, refusal: string, imageURL: string, fileID: string, detail: string,
                           filename: string, fileData: string)

  /** A string or a list of parts. */
  datatype Value = Str(text: string) | List(parts: seq<InPart>)

  /** One item of the history; all item types share one record, as in the source. */
  datatype Item = Item(typ: string, id: string, role: string, content: Value, callID: string, name: string,
                       arguments: string,
                       output: Value, summary: seq<string>, encrypted: string)

  datatype Request = Request(background: bool, toolTypes: seq<string>, instructions: Option<string>,
                             input: Option<string>)

  datatype RequestError = RequestError(param: string)

  // ---- messages of the user and the system ----

  predicate IsTextType(typ: string)
  {
    typ == "input_text" || typ == "output_text" || typ == "text"
  }

  /** What one part becomes; unknown and empty parts are skipped. */
  function PartOf(p: InPart): Result<seq<Part>, RequestError>
  {
    if IsTextType(p.typ) then Success([TextPart(p.text)])
    else if p.typ == "input_image" then
      (if p.imageURL != "" then Success([ImagePart(p.imageURL, p.detail)])
       else if p.fileID != "" then Failure(RequestError("input"))
       else Success([]))
    else if p.typ == "input_file" then
      (if p.fileData != "" then Success([FilePart(p.filename, p.fileData)])
       else if p.fileID != "" then Failure(RequestError("input"))
       else Success([]))
    else if p.typ == "input_audio" then Failure(RequestError("input"))
    else Success([])
  }

  function PartsOf(ps: seq<InPart>): Result<seq<Part>, RequestError>
  {
    if ps == [] then Success([])
    else
      var r := PartsOf(ps[..|ps| - 1]);
      if r.Failure? then r
      else
        var p := PartOf(ps[|ps| - 1]);
        if p.Failure? then p else Success(r.value + p.value)
  }

  function TextOfPart(p: Part): seq<string>
  {
    if p.TextPart? then [p.text] else []
  }

  /** A message of nothing but text is sent as one string. */
  function ContentOf(parts: seq<Part>): OutContent
  {
    var texts := Gather(TextOfPart, parts);
    if |parts| == |texts| then Text(JoinWith(texts, "\n")) else Parts(parts)
  }

  function InboundRole(role: string): string
  {
    if role == "" then "user" else if role == "developer" then "system" else role
  }

  function Inbound(it: Item): Result<OutMessage, RequestError>
  {
    match it.content
    case Str(text) => Success(OutMessage(InboundRole(it.role), Text(text), [], None, None))
    case List(ps) =>
      var parts := PartsOf(ps);
      if parts.Failure? then Failure(parts.error)
      else Success(OutMessage(InboundRole(it.role), ContentOf(parts.value), [], None, None))
  }

  method ConvertInboundMessage(it: Item) returns (r: Result<OutMessage, RequestError>)
    ensures r == Inbound(it)
  {
    hide Gather, JoinWith;
    if it.content.Str? {
      return Success(OutMessage(InboundRole(it.role), Text(it.content.text), [], None, None));
    }
    var ps := it.content.parts;
    var parts: seq<Part>, textOnly: seq<string> := [], [];
    var i := 0;
    NothingGathered();
    while i < |ps|
      invariant 0 <= i <= |ps|
      invariant PartsOf(ps[..i]) == Success(parts) && textOnly == Gather(TextOfPart, parts)
    {
      var p := ps[i];
      assert ps[..i + 1][..i] == ps[..i];
      PartsFail(ps, i + 1);
      assert parts + [] == parts && textOnly + [] == textOnly;
      if IsTextType(p.typ) {
        GatherSnoc(TextOfPart, parts, TextPart(p.text));
        textOnly := textOnly + [p.text];
        parts := parts + [TextPart(p.text)];
      } else if p.typ == "input_image" {
        if p.imageURL == "" {
          if p.fileID != "" {
            return Failure(RequestError("input"));
          }
        } else {
          GatherSnoc(TextOfPart, parts, ImagePart(p.imageURL, p.detail));
          parts := parts + [ImagePart(p.imageURL, p.detail)];
        }
      } else if p.typ == "input_file" {
        if p.fileData == "" {
          if p.fileID != "" {
            return Failure(RequestError("input"));
          }
        } else {
          GatherSnoc(TextOfPart, parts, FilePart(p.filename, p.fileData));
          parts := parts + [FilePart(p.filename, p.fileData)];
        }
      } else if p.typ == "input_audio" {
        return Failure(RequestError("input"));
      }
      i := i + 1;
    }
    assert ps[..i] == ps;
    var content := if |parts| == |textOnly| then Text(JoinWith(textOnly, "\n")) else Parts(parts);
    r := Success(OutMessage(InboundRole(it.role), content, [], None, None));
  }

  lemma NothingGathered()
    ensures Gather(TextOfPart, []) == []
  {
  }

  lemma {:induction false} PartsFail(ps: seq<InPart>, n: nat)
    requires n <= |ps|
    ensures PartsOf(ps[..n]).Failure? ==> PartsOf(ps) == PartsOf(ps[..n])
    decreases |ps|
  {
    hide PartOf;
    if n < |ps| {
      PartsFail(ps[..|ps| - 1], n);
      assert ps[..|ps| - 1][..n] == ps[..n];
    } else {
      assert ps[..n] == ps;
    }
  }

  // ---- the assistant's side ----

  function NonEmpty(s: string): seq<string>
  {
    if s == "" then [] else [s]
  }

  function AssistantPart(p: InPart): seq<string>
  {
    if p.typ == "output_text" || p.typ == "text" then NonEmpty(p.text)
    else if p.typ == "refusal" then NonEmpty(p.refusal)
    else []
  }

  /** The visible text of an assistant item. */
  function AssistantTexts(it: Item): seq<string>
  {
    match it.content
    case Str(text) => NonEmpty(text)
    case List(ps) => Gather(AssistantPart, ps)
  }

  function OutputPart(p: InPart): seq<string>
  {
    if IsTextType(p.typ) then [p.text] else ["[" + p.typ + "]"]
  }

  function ToolOutputText(v: Value): string
  {
    match v
    case Str(text) => text
    case List(ps) => JoinWith(Gather(OutputPart, ps), "\n")
  }

  /** The summary, or what the encrypted content holds. */
  function ReasoningText(it: Item, decrypt: string -> Option<string>): string
  {
    var parts := Gather(NonEmpty, it.summary);
    if parts != [] then JoinWith(parts, "\n")
    else if it.encrypted != "" && decrypt(it.encrypted).Some? then decrypt(it.encrypted).value
    else ""
  }

  /** What has been gathered of the assistant turn under way. */
  datatype Pending = Pending(text: seq<string>, calls: seq<ToolCall>, reasoning: seq<string>)

  const NOTHING: Pending := Pending([], [], [])

  /** The one message of an assistant turn. */
  function AssistantTurn(p: Pending, mode: Convert.ReplayMode): OutMessage
  {
    var content := JoinWith(p.text, "\n\n");
    var thought := JoinWith(p.reasoning, "\n");
    var said := if mode == Convert.ThinkTags && thought != "" then
                  Convert.ThinkTag(thought) + (if content != "" then "\n\n" + content else "")
                else content;
    var reasoning := if mode != Convert.ReasoningContent then None
                     else if thought != "" then Some(thought)
                     else if p.calls != [] then Some(Convert.MISSING_REASONING)
                     else None;
    OutMessage("assistant", Text(if said == "" && p.calls == [] && p.reasoning == [] then " " else said), p.calls,
               reasoning, None)
  }

  /** The messages so far, the turn under way, and how many ids were minted. */
  datatype State = State(messages: seq<OutMessage>, pending: Pending, minted: nat)

  function Flush(s: State, mode: Convert.ReplayMode): State
  {
    if s.pending == NOTHING then s else s.(messages := s.messages + [AssistantTurn(s.pending, mode)],
                                           pending := NOTHING)
  }

  /** Is this a message that ends the assistant's turn? */
  predicate IsInbound(it: Item)
  {
    it.typ == "message" && (it.role == "user" || it.role == "" || it.role == "developer" || it.role == "system")
  }

  function CallOf(it: Item, minted: nat, uuid: nat -> string): ToolCall
  {
    ToolCall(if it.callID != "" then it.callID else "call_" + uuid(minted), it.name, it.arguments)
  }

  function ToolMessage(it: Item): OutMessage
  {
    OutMessage("tool", Text(ToolOutputText(it.output)), [], None, Some(it.callID))
  }

  function Take(s: State, it: Item, mode: Convert.ReplayMode, uuid: nat -> string,
                decrypt: string -> Option<string>): Result<State, RequestError>
  {
    if IsInbound(it) then
      var msg := Inbound(it);
      if msg.Failure? then Failure(msg.error)
      else
        var t := Flush(s, mode);
        Success(t.(messages := t.messages + [msg.value]))
    else if it.typ == "message" then Success(s.(pending := s.pending.(text := s.pending.text + AssistantTexts(it))))
    else if it.typ == "function_call" then
      Success(s.(pending := s.pending.(calls := s.pending.calls + [CallOf(it, s.minted, uuid)]),
                 minted := if it.callID != "" then s.minted else s.minted + 1))
    else if it.typ == "function_call_output" then
      var t := Flush(s, mode);
      Success(t.(messages := t.messages + [ToolMessage(it)]))
    else if it.typ == "reasoning" then
      Success(s.(pending := s.pending.(reasoning := s.pending.reasoning + NonEmpty(ReasoningText(it, decrypt)))))
    else if it.typ == "" && it.id != "" then Failure(RequestError("input"))
    else Success(s)
  }

  function TakeAll(s: State, items: seq<Item>, mode: Convert.ReplayMode, uuid: nat -> string,
                   decrypt: string -> Option<string>): Result<State, RequestError>
    decreases |items|
  {
    if items == [] then Success(s)
    else
      var r := TakeAll(s, items[..|items| - 1], mode, uuid, decrypt);
      if r.Failure? then r else Take(r.value, items[|items| - 1], mode, uuid, decrypt)
  }

  function Start(req: Request): State
  {
    State(if req.instructions.Some? && req.instructions.value != "" then
          [OutMessage("system", Text(req.instructions.value), [], None, None)] else [],
          NOTHING, 0)
  }

  function Ending(req: Request): seq<OutMessage>
  {
    if req.input.Some? && TrimSpace(req.input.value) != "" then [UserText(req.input.value)] else []
  }

  function Messages(req: Request, history: seq<Item>, mode: Convert.ReplayMode, uuid: nat -> string,
                    decrypt: string -> Option<string>)
    : Result<seq<OutMessage>, RequestError>
  {
    if req.background then Failure(RequestError("background"))
    else if exists t <- req.toolTypes :: t != "function" then Failure(RequestError("tools"))
    else
      var r := TakeAll(Start(req), history, mode, uuid, decrypt);
      if r.Failure? then Failure(r.error)
      else
        var messages := Flush(r.value, mode).messages + Ending(req);
        if messages == [] then Failure(RequestError("input")) else Success(messages)
  }

  method FlushTurn(s: State, mode: Convert.ReplayMode) returns (t: State)
    ensures t == Flush(s, mode)
  {
    hide JoinWith, Convert.ThinkTag;
    if s.pending.text == [] && s.pending.calls == [] && s.pending.reasoning == [] {
      return s;
    }
    var content := JoinWith(s.pending.text, "\n\n");
    var r := JoinWith(s.pending.reasoning, "\n");
    var reasoning: Option<string> := None;
    if mode == Convert.ThinkTags {
      if r != "" {
        if content != "" {
          content := Convert.ThinkTag(r) + ("\n\n" + content);
        } else {
          content := Convert.ThinkTag(r) + "";
        }
      }
    } else if mode == Convert.ReasoningContent {
      if r != "" {
        reasoning := Some(r);
      } else if s.pending.calls != [] {
        reasoning := Some(Convert.MISSING_REASONING);
      }
    }
    if content == "" && s.pending.calls == [] && s.pending.reasoning == [] {
      content := " ";
    }
    t := State(s.messages + [OutMessage("assistant", Text(content), s.pending.calls, reasoning, None)], NOTHING,
               s.minted);
  }

  method TakeItem(s: State, it: Item, mode: Convert.ReplayMode, uuid: nat -> string, decrypt: string -> Option<string>)
      returns (r: Result<State, RequestError>)
    ensures r == Take(s, it, mode, uuid, decrypt)
  {
    hide Flush, Inbound, AssistantTexts, ReasoningText, ToolOutputText;
    var t := s;
    if it.typ == "message" {
      if it.role == "user" || it.role == "" || it.role == "developer" || it.role == "system" {
        t := FlushTurn(t, mode);
        var msg := ConvertInboundMessage(it);
        if msg.Failure? {
          return Failure(msg.error);
        }
        t := t.(messages := t.messages + [msg.value]);
      } else {
        t := t.(pending := t.pending.(text := t.pending.text + AssistantTexts(it)));
      }
    } else if it.typ == "function_call" {
      var callID := it.callID;
      if callID == "" {
        callID := "call_" + uuid(t.minted);
        t := t.(minted := t.minted + 1);
      }
      t := t.(pending := t.pending.(calls := t.pending.calls + [ToolCall(callID, it.name, it.arguments)]));
    } else if it.typ == "function_call_output" {
      t := FlushTurn(t, mode);
      t := t.(messages := t.messages + [OutMessage("tool", Text(ToolOutputText(it.output)), [], None,
            Some(it.callID))]);
    } else if it.typ == "reasoning" {
      var text := ReasoningText(it, decrypt);
      if text != "" {
        t := t.(pending := t.pending.(reasoning := t.pending.reasoning + [text]));
      } else {
        assert t.pending.reasoning + [] == t.pending.reasoning;
      }
    } else if it.typ == "" {
      if it.id != "" {
        return Failure(RequestError("input"));
      }
    }
    r := Success(t);
  }

  method BuildChatBody(req: Request, history: seq<Item>, mode: Convert.ReplayMode, uuid: nat -> string,
                       decrypt: string -> Option<string>)
      returns (r: Result<seq<OutMessage>, RequestError>)
    ensures r == Messages(req, history, mode, uuid, decrypt)
  {
    hide Take, TakeAll, Flush, Start, Ending;
    if req.background {
      return Failure(RequestError("background"));
    }
    var bad := CheckTools(req.toolTypes);
    if bad {
      return Failure(RequestError("tools"));
    }
    var s := Start(req);
    var i := 0;
    TakeNothing(s, history, mode, uuid, decrypt);
    while i < |history|
      invariant 0 <= i <= |history|
      invariant TakeAll(Start(req), history[..i], mode, uuid, decrypt) == Success(s)
    {
      TakeNext(Start(req), history, i, mode, uuid, decrypt);
      TakeFails(Start(req), history, i + 1, mode, uuid, decrypt);
      var t := TakeItem(s, history[i], mode, uuid, decrypt);
      if t.Failure? {
        return Failure(t.error);
      }
      s := t.value;
      i := i + 1;
    }
    assert history[..i] == history;
    s := FlushTurn(s, mode);
    var messages := s.messages + Ending(req);
    if messages == [] {
      return Failure(RequestError("input"));
    }
    r := Success(messages);
  }

  method CheckTools(types: seq<string>) returns (bad: bool)
    ensures bad <==> exists t <- types :: t != "function"
  {
    bad := false;
    for i := 0 to |types|
      invariant bad <==> exists j :: 0 <= j < i && types[j] != "function"
    {
      if types[i] != "function" {
        bad := true;
      }
    }
    SomeOther(types);
  }

  lemma SomeOther(types: seq<string>)
    ensures (exists j :: 0 <= j < |types| && types[j] != "function") <==> exists t <- types :: t != "function"
  {
    if j :| 0 <= j < |types| && types[j] != "function" {
      assert types[j] in types;
    }
  }

  lemma TakeNothing(s: State, items: seq<Item>, mode: Convert.ReplayMode, uuid: nat -> string,
                    decrypt: string -> Option<string>)
    ensures TakeAll(s, items[..0], mode, uuid, decrypt) == Success(s)
  {
  }

  lemma TakeNext(s: State, items: seq<Item>, i: nat, mode: Convert.ReplayMode, uuid: nat -> string,
                 decrypt: string -> Option<string>)
    requires i < |items| && TakeAll(s, items[..i], mode, uuid, decrypt).Success?
    ensures TakeAll(s, items[..i + 1], mode, uuid, decrypt) == Take(TakeAll(s, items[..i], mode, uuid, decrypt).value,
              items[i], mode, uuid, decrypt)
  {
    hide Take;
    assert items[..i + 1][..i] == items[..i];
  }

  lemma {:induction false} TakeFails(s: State, items: seq<Item>, n: nat, mode: Convert.ReplayMode, uuid: nat -> string,
                                     decrypt: string -> Option<string>)
    requires n <= |items|
    ensures TakeAll(s, items[..n], mode, uuid, decrypt).Failure? ==>
              TakeAll(s, items, mode, uuid, decrypt) == TakeAll(s, items[..n], mode, uuid, decrypt)
    decreases |items|
  {
    hide Take;
    if n < |items| {
      TakeFails(s, items[..|items| - 1], n, mode, uuid, decrypt);
      assert items[..|items| - 1][..n] == items[..n];
    } else {
      assert items[..n] == items;
    }
  }

  // ---- the normal form ----

  /** No two assistant messages are neighbours. */
  predicate Alternates(ms: seq<OutMessage>)
  {
    forall i :: 0 <= i < |ms| - 1 && ms[i].role == "assistant" ==> ms[i + 1].role != "assistant"
  }

  /** Not at the end of an assistant's turn. */
  predicate EndsElsewhere(ms: seq<OutMessage>)
  {
    ms != [] ==> ms[|ms| - 1].role != "assistant"
  }

  function CallsOf(m: OutMessage): seq<ToolCall> { m.toolCalls }

  /** The message, if it answers a call. */
  function ResultOf(m: OutMessage): seq<OutMessage>
  {
    if m.role == "tool" && m.toolCallID.Some? then [m] else []
  }

  function OutputOf(it: Item): seq<OutMessage>
  {
    if it.typ == "function_call_output" then [ToolMessage(it)] else []
  }

  /** The calls of some items: an item without an id gets a fresh one. */
  function CallsIn(items: seq<Item>, uuid: nat -> string): seq<ToolCall>
  {
    if items == [] then []
    else
      var items', it := items[..|items| - 1], items[|items| - 1];
      CallsIn(items', uuid) + (if it.typ == "function_call" then [CallOf(it, Unnamed(items'), uuid)] else [])
  }

  /** How many calls came without an id. */
  function Unnamed(items: seq<Item>): nat
  {
    if items == [] then 0
    else Unnamed(items[..|items| - 1]) + (if items[|items| - 1].typ == "function_call"
          && items[|items| - 1].callID == "" then 1 else 0)
  }

  /** Only an assistant's message carries calls, and under reasoning_content it then has reasoning. */
  predicate WellSpoken(m: OutMessage, mode: Convert.ReplayMode)
  {
    m.toolCalls != [] ==>
        m.role == "assistant"
        && (mode == Convert.ReasoningContent ==> m.reasoning.Some? && m.reasoning.value != "")
  }

  /** What the fold keeps from item to item. */
  ghost predicate Normal(s: State, items: seq<Item>, mode: Convert.ReplayMode, uuid: nat -> string)
  {
    && Alternates(s.messages) && EndsElsewhere(s.messages)
    && (forall m <- s.messages :: WellSpoken(m, mode))
    && Gather(CallsOf, s.messages) + s.pending.calls == CallsIn(items, uuid)
    && Gather(ResultOf, s.messages) == Gather(OutputOf, items)
    && s.minted == Unnamed(items)
  }

  lemma TurnSpeaksWell(p: Pending, mode: Convert.ReplayMode)
    ensures WellSpoken(AssistantTurn(p, mode), mode) && AssistantTurn(p, mode).role == "assistant"
            && AssistantTurn(p, mode).toolCalls == p.calls
  {
    hide JoinWith;
  }

  /** One more message, that is not the assistant's, behind the flushed turn. */
  lemma BoundaryKeeps(s: State, m: OutMessage, mode: Convert.ReplayMode)
    requires Alternates(s.messages) && EndsElsewhere(s.messages) && (forall x <- s.messages :: WellSpoken(x, mode))
    requires m.role != "assistant" && m.toolCalls == []
    ensures var ms := Flush(s, mode).messages + [m];
            && Alternates(ms) && EndsElsewhere(ms) && (forall x <- ms :: WellSpoken(x, mode))
            && Gather(CallsOf, ms) == Gather(CallsOf, s.messages) + s.pending.calls
            && Gather(ResultOf, ms) == Gather(ResultOf, s.messages) + ResultOf(m)
  {
    hide Gather, AssistantTurn, WellSpoken;
    FlushKeeps(s, mode);
    var fs := Flush(s, mode).messages;
    GatherSnoc(CallsOf, fs, m);
    GatherSnoc(ResultOf, fs, m);
    assert WellSpoken(m, mode) by { NoCallsWellSpoken(m, mode); }
  }

  lemma NoCallsWellSpoken(m: OutMessage, mode: Convert.ReplayMode)
    requires m.toolCalls == []
    ensures WellSpoken(m, mode)
  {
  }

  lemma FlushKeeps(s: State, mode: Convert.ReplayMode)
    requires Alternates(s.messages) && EndsElsewhere(s.messages) && (forall x <- s.messages :: WellSpoken(x, mode))
    ensures var ms := Flush(s, mode).messages;
            && Alternates(ms) && (forall x <- ms :: WellSpoken(x, mode))
            && Gather(CallsOf, ms) == Gather(CallsOf, s.messages) + s.pending.calls
            && Gather(ResultOf, ms) == Gather(ResultOf, s.messages)
  {
    hide Gather, AssistantTurn, WellSpoken;
    var turn := AssistantTurn(s.pending, mode);
    TurnSpeaksWell(s.pending, mode);
    GatherSnoc(CallsOf, s.messages, turn);
    GatherSnoc(ResultOf, s.messages, turn);
    assert Gather(CallsOf, s.messages) + [] == Gather(CallsOf, s.messages);
    assert Gather(ResultOf, s.messages) + [] == Gather(ResultOf, s.messages);
  }

  lemma InboundIsElsewhere(it: Item)
    requires IsInbound(it) && Inbound(it).Success?
    ensures var m := Inbound(it).value; (m.role == "user" || m.role == "system") && m.toolCalls == []
  {
    hide PartsOf, ContentOf;
  }

  lemma NormalNext(s: State, items: seq<Item>, it: Item, mode: Convert.ReplayMode, uuid: nat -> string,
                   decrypt: string -> Option<string>)
    requires Normal(s, items, mode, uuid) && Take(s, it, mode, uuid, decrypt).Success?
    ensures Normal(Take(s, it, mode, uuid, decrypt).value, items + [it], mode, uuid)
  {
    hide Gather, Flush, Inbound, AssistantTexts, ReasoningText, ToolOutputText, WellSpoken, CallOf, Alternates,
         EndsElsewhere;
    assert (items + [it])[..|items|] == items;
    GatherSnoc(OutputOf, items, it);
    var calls, results := Gather(CallsOf, s.messages), Gather(ResultOf, s.messages);
    assert CallsIn(items, uuid) + [] == CallsIn(items, uuid) && results + [] == results;
    assert Flush(s, mode).pending == NOTHING && Flush(s, mode).minted == s.minted by { FlushEmpties(s, mode); }
    if IsInbound(it) {
      InboundIsElsewhere(it);
      BoundaryKeeps(s, Inbound(it).value, mode);
    } else if it.typ == "function_call_output" {
      BoundaryKeeps(s, ToolMessage(it), mode);
    } else if it.typ == "function_call" {
      assert calls + (s.pending.calls + [CallOf(it, s.minted, uuid)]) == calls + s.pending.calls
          + [CallOf(it, s.minted, uuid)];
    }
    assert calls + s.pending.calls + [] == calls + s.pending.calls;
  }

  lemma FlushEmpties(s: State, mode: Convert.ReplayMode)
    ensures Flush(s, mode).pending == NOTHING && Flush(s, mode).minted == s.minted
  {
    hide AssistantTurn;
  }

  lemma {:induction false} NormalAll(req: Request, items: seq<Item>, mode: Convert.ReplayMode, uuid: nat -> string,
                                     decrypt: string -> Option<string>)
    requires TakeAll(Start(req), items, mode, uuid, decrypt).Success?
    ensures Normal(TakeAll(Start(req), items, mode, uuid, decrypt).value, items, mode, uuid)
  {
    hide Take, Normal, Start;
    if items == [] {
      NormalStart(req, mode, uuid);
    } else {
      NormalAll(req, items[..|items| - 1], mode, uuid, decrypt);
      NormalNext(TakeAll(Start(req), items[..|items| - 1], mode, uuid, decrypt).value, items[..|items| - 1],
                 items[|items| - 1], mode, uuid, decrypt);
      assert items == items[..|items| - 1] + [items[|items| - 1]];
    }
  }

  lemma NormalStart(req: Request, mode: Convert.ReplayMode, uuid: nat -> string)
    ensures Normal(Start(req), [], mode, uuid)
  {
    var ms := Start(req).messages;
    if ms != [] {
      GatherOne(CallsOf, ms[0]);
      GatherOne(ResultOf, ms[0]);
    }
  }

  /**
   * The messages alternate, keep every call and every result once and in order, and no tool turn lacks its reasoning.
   */
  ghost predicate NormalForm(ms: seq<OutMessage>, items: seq<Item>, mode: Convert.ReplayMode, uuid: nat -> string)
  {
    && Alternates(ms)
    && Gather(CallsOf, ms) == CallsIn(items, uuid)
    && Gather(ResultOf, ms) == Gather(OutputOf, items)
    && (forall m <- ms :: WellSpoken(m, mode))
  }

  lemma EndingKeeps(ms: seq<OutMessage>, req: Request, mode: Convert.ReplayMode)
    requires Alternates(ms) && forall m <- ms :: WellSpoken(m, mode)
    ensures var r := ms + Ending(req);
            && Alternates(r) && (forall m <- r :: WellSpoken(m, mode))
            && Gather(CallsOf, r) == Gather(CallsOf, ms) && Gather(ResultOf, r) == Gather(ResultOf, ms)
  {
    hide Gather, WellSpoken, TrimSpace;
    if Ending(req) != [] {
      var m := Ending(req)[0];
      assert Ending(req) == [m];
      GatherSnoc(CallsOf, ms, m);
      GatherSnoc(ResultOf, ms, m);
      NoCallsWellSpoken(m, mode);
    } else {
      assert ms + Ending(req) == ms;
    }
    assert Gather(CallsOf, ms) + [] == Gather(CallsOf, ms) && Gather(ResultOf, ms) + [] == Gather(ResultOf, ms);
  }

  lemma MessagesAreNormal(req: Request, items: seq<Item>, mode: Convert.ReplayMode, uuid: nat -> string,
                          decrypt: string -> Option<string>)
    requires Messages(req, items, mode, uuid, decrypt).Success?
    ensures NormalForm(Messages(req, items, mode, uuid, decrypt).value, items, mode, uuid)
  {
    hide Gather, Flush, TakeAll, Start, WellSpoken, CallsIn, Unnamed, Alternates, Ending;
    NormalAll(req, items, mode, uuid, decrypt);
    var s := TakeAll(Start(req), items, mode, uuid, decrypt).value;
    FlushKeeps(s, mode);
    EndingKeeps(Flush(s, mode).messages, req, mode);
  }

  // ---- the order of things ----

  /** What has a place of its own in a conversation: a call, and any message that is not the assistant's. */
  datatype Mark = Called(call: ToolCall) | Sent(message: OutMessage)

  function MarkOfCall(c: ToolCall): seq<Mark>
  {
    [Called(c)]
  }

  function MarksOf(m: OutMessage): seq<Mark>
  {
    if m.role == "assistant" then Gather(MarkOfCall, m.toolCalls) else [Sent(m)]
  }

  function MarkIn(it: Item, minted: nat, uuid: nat -> string): seq<Mark>
  {
    if IsInbound(it) then (if Inbound(it).Success? then [Sent(Inbound(it).value)] else [])
    else if it.typ == "function_call_output" then [Sent(ToolMessage(it))]
    else if it.typ == "function_call" then [Called(CallOf(it, minted, uuid))]
    else []
  }

  function MarksIn(items: seq<Item>, uuid: nat -> string): seq<Mark>
  {
    if items == [] then []
    else
      var items', it := items[..|items| - 1], items[|items| - 1];
      MarksIn(items', uuid) + MarkIn(it, Unnamed(items'), uuid)
  }

  /** What is gathered comes after what is sent. */
  function MarksSoFar(s: State): seq<Mark>
  {
    Gather(MarksOf, s.messages) + Gather(MarkOfCall, s.pending.calls)
  }

  lemma FlushMarks(s: State, mode: Convert.ReplayMode)
    ensures Gather(MarksOf, Flush(s, mode).messages) == MarksSoFar(s)
  {
    hide Gather, AssistantTurn;
    var turn := AssistantTurn(s.pending, mode);
    TurnSpeaksWell(s.pending, mode);
    GatherSnoc(MarksOf, s.messages, turn);
    if s.pending == NOTHING {
      NoMarks();
      assert Gather(MarksOf, s.messages) + [] == Gather(MarksOf, s.messages);
    }
  }

  lemma NoMarks()
    ensures Gather(MarkOfCall, []) == [] && Gather(MarksOf, []) == []
  {
  }

  lemma BoundaryMarks(s: State, m: OutMessage, mode: Convert.ReplayMode)
    requires m.role != "assistant"
    ensures MarksSoFar(Flush(s, mode).(messages := Flush(s, mode).messages + [m])) == MarksSoFar(s) + [Sent(m)]
  {
    hide Gather, Flush;
    FlushMarks(s, mode);
    FlushEmpties(s, mode);
    NoMarks();
    GatherSnoc(MarksOf, Flush(s, mode).messages, m);
    assert MarksSoFar(s) + [Sent(m)] + [] == MarksSoFar(s) + [Sent(m)];
  }

  lemma TakeMarks(s: State, it: Item, mode: Convert.ReplayMode, uuid: nat -> string, decrypt: string -> Option<string>)
    requires Take(s, it, mode, uuid, decrypt).Success?
    ensures MarksSoFar(Take(s, it, mode, uuid, decrypt).value) == MarksSoFar(s) + MarkIn(it, s.minted, uuid)
  {
    hide Gather, Flush, Inbound, AssistantTexts, ReasoningText, ToolOutputText, CallOf;
    assert MarksSoFar(s) + [] == MarksSoFar(s);
    if IsInbound(it) {
      InboundIsElsewhere(it);
      BoundaryMarks(s, Inbound(it).value, mode);
    } else if it.typ == "function_call_output" {
      BoundaryMarks(s, ToolMessage(it), mode);
    } else if it.typ == "function_call" {
      var c := CallOf(it, s.minted, uuid);
      GatherSnoc(MarkOfCall, s.pending.calls, c);
      assert Gather(MarksOf, s.messages) + (Gather(MarkOfCall, s.pending.calls) + [Called(c)])
          == MarksSoFar(s) + [Called(c)];
    }
  }

  lemma {:induction false} TakeAllMarks(req: Request, items: seq<Item>, mode: Convert.ReplayMode, uuid: nat -> string,
                                        decrypt: string -> Option<string>)
    requires TakeAll(Start(req), items, mode, uuid, decrypt).Success?
    ensures MarksSoFar(TakeAll(Start(req), items, mode, uuid, decrypt).value) == Gather(MarksOf, Start(req).messages)
            + MarksIn(items, uuid)
  {
    hide Take, Gather, MarkIn, Normal;
    if items == [] {
      NoMarks();
    } else {
      var items', it := items[..|items| - 1], items[|items| - 1];
      var s := TakeAll(Start(req), items', mode, uuid, decrypt).value;
      TakeAllMarks(req, items', mode, uuid, decrypt);
      NormalAll(req, items', mode, uuid, decrypt);
      assert s.minted == Unnamed(items') by { MintedIs(s, items', mode, uuid); }
      TakeMarks(s, it, mode, uuid, decrypt);
    }
  }

  lemma MintedIs(s: State, items: seq<Item>, mode: Convert.ReplayMode, uuid: nat -> string)
    requires Normal(s, items, mode, uuid)
    ensures s.minted == Unnamed(items)
  {
  }

  /**
   * Calls, their outputs and everything that was said to the assistant stand in the messages in the order of the
   * items, each once: whatever the assistant's turns are joined from, no output overtakes its call and no call
   * a message of the user's.
   */
  lemma OrderKept(req: Request, items: seq<Item>, mode: Convert.ReplayMode, uuid: nat -> string,
                  decrypt: string -> Option<string>)
    requires Messages(req, items, mode, uuid, decrypt).Success?
    ensures Gather(MarksOf, Messages(req, items, mode, uuid, decrypt).value)
            == Gather(MarksOf, Start(req).messages) + MarksIn(items, uuid) + Gather(MarksOf, Ending(req))
  {
    hide Gather, Flush, TakeAll, Start, MarksIn, Ending;
    TakeAllMarks(req, items, mode, uuid, decrypt);
    var s := TakeAll(Start(req), items, mode, uuid, decrypt).value;
    FlushMarks(s, mode);
    GatherConcat(MarksOf, Flush(s, mode).messages, Ending(req));
  }

  // ---- a finished response, fed back ----

  /** An output item as an item of the next request's history. */
  function Replayed(it: Items.Item): Item
  {
    var blank := Item("", "", "", Value.Str(""), "", "", "", Value.Str(""), [], "");
    match it.kind
    case Reasoning => blank.(typ := "reasoning", summary := [it.text])
    case Message => blank.(typ := "message", role := "assistant",
                           content := List([InPart("output_text", it.text, "", "", "", "", "", "")]))
    case Call => blank.(typ := "function_call", callID := it.callID, name := it.name, arguments := it.text)
  }

  function ReplayedAll(items: seq<Items.Item>): (r: seq<Item>)
    ensures |r| == |items| && forall i :: 0 <= i < |items| ==> r[i] == Replayed(items[i])
  {
    seq(|items|, i requires 0 <= i < |items| => Replayed(items[i]))
  }

  function SaidIn(it: Items.Item): seq<string>
  {
    if it.kind == Items.Message then NonEmpty(it.text) else []
  }

  function ThoughtIn(it: Items.Item): seq<string>
  {
    if it.kind == Items.Reasoning then NonEmpty(it.text) else []
  }

  function CallIn(it: Items.Item): seq<ToolCall>
  {
    if it.kind == Items.Call then [ToolCall(it.callID, it.name, it.text)] else []
  }

  function TurnOf(items: seq<Items.Item>): Pending
  {
    Pending(Gather(SaidIn, items), Gather(CallIn, items), Gather(ThoughtIn, items))
  }

  lemma ReplayedTexts(it: Items.Item, decrypt: string -> Option<string>)
    ensures it.kind == Items.Message ==> AssistantTexts(Replayed(it)) == SaidIn(it)
    ensures it.kind == Items.Reasoning ==> NonEmpty(ReasoningText(Replayed(it), decrypt)) == ThoughtIn(it)
  {
    if it.kind == Items.Message {
      GatherOne(AssistantPart, InPart("output_text", it.text, "", "", "", "", "", ""));
    } else if it.kind == Items.Reasoning {
      GatherOne(NonEmpty, it.text);
    }
  }

  lemma TakeReplayed(s: State, it: Items.Item, mode: Convert.ReplayMode, uuid: nat -> string,
                     decrypt: string -> Option<string>)
    requires Items.Identified(it)
    ensures var p := s.pending;
            Take(s, Replayed(it), mode, uuid, decrypt)
              == Success(s.(pending := Pending(p.text + SaidIn(it), p.calls + CallIn(it), p.reasoning + ThoughtIn(it))))
  {
    hide AssistantTexts, ReasoningText, Flush, Inbound;
    ReplayedTexts(it, decrypt);
    assert s.pending.text + [] == s.pending.text && s.pending.calls + [] == s.pending.calls
        && s.pending.reasoning + [] == s.pending.reasoning;
  }

  lemma {:induction false} TakeAllReplayed(s: State, items: seq<Items.Item>, mode: Convert.ReplayMode,
                                           uuid: nat -> string, decrypt: string -> Option<string>)
    requires s.pending == NOTHING && forall it <- items :: Items.Identified(it)
    ensures TakeAll(s, ReplayedAll(items), mode, uuid, decrypt) == Success(s.(pending := TurnOf(items)))
    decreases |items|
  {
    hide Take, SaidIn, CallIn, ThoughtIn, Replayed, Items.Identified;
    if items != [] {
      var items', it := items[..|items| - 1], items[|items| - 1];
      TakeAllReplayed(s, items', mode, uuid, decrypt);
      assert ReplayedAll(items)[..|items| - 1] == ReplayedAll(items');
      TakeReplayed(s.(pending := TurnOf(items')), it, mode, uuid, decrypt);
    }
  }

  /**
   * A finished response that is fed back becomes one assistant message, with exactly its calls, its texts and
   * its reasoning.
   */
  lemma ResponseFedBack(items: seq<Items.Item>, req: Request, mode: Convert.ReplayMode, uuid: nat -> string,
                        decrypt: string -> Option<string>)
    requires (forall it <- items :: Items.Identified(it)) && TurnOf(items) != NOTHING
    requires !req.background && forall t <- req.toolTypes :: t == "function"
    ensures Messages(req, ReplayedAll(items), mode, uuid, decrypt)
            == Success(Start(req).messages + [AssistantTurn(TurnOf(items), mode)] + Ending(req))
    ensures AssistantTurn(TurnOf(items), mode).toolCalls == Gather(CallIn, items)
  {
    hide AssistantTurn, TurnOf, TakeAll, Ending;
    TakeAllReplayed(Start(req), items, mode, uuid, decrypt);
    assert AssistantTurn(TurnOf(items), mode).toolCalls == Gather(CallIn, items) by { TurnCalls(items, mode); }
  }

  lemma TurnCalls(items: seq<Items.Item>, mode: Convert.ReplayMode)
    ensures AssistantTurn(TurnOf(items), mode).toolCalls == Gather(CallIn, items)
  {
    hide JoinWith, Gather;
  }
}
