/**
 * What the chat messages made of Responses items say
 * (internal/responses/convert.go): the text and the reasoning of each
 * assistant message, from the items between two boundaries, and the other messages' contents.
 */
module ChatTexts {
  import opened Wrappers
  import opened Strings
  import opened Sequences
  import opened Chat
  import opened ChatBody
  import Convert
  import Items

  // ---- what the items say ----

  /** An item behind which the assistant's next message begins: anything said to it, and the output of a call. */
  predicate Boundary(it: Item)
  {
    it.typ == "function_call_output" || (it.typ == "message" && it.role in {"user", "", "developer", "system"})
  }

  function Filled(s: string): seq<string>
  {
    if |s| == 0 then [] else [s]
  }

  function VisiblePart(p: InPart): seq<string>
  {
    if p.typ in {"output_text", "text"} then Filled(p.text) else if p.typ == "refusal" then Filled(p.refusal) else []
  }

  /** The texts of an assistant's message, without the empty ones. */
  function TextsOf(it: Item): seq<string>
  {
    if it.typ != "message" || Boundary(it) then []
    else match it.content
      case Str(text) => Filled(text)
      case List(ps) => Gather(VisiblePart, ps)
  }

  /** The text of a reasoning item: its summary line by line, or what was encrypted. */
  function ThoughtOf(decrypt: string -> Option<string>): Item -> seq<string>
  {
    (it: Item) =>
      if it.typ != "reasoning" then []
      else if Gather(Filled, it.summary) != [] then Filled(JoinWith(Gather(Filled, it.summary), "\n"))
      else if it.encrypted == "" || decrypt(it.encrypted) == None then []
      else Filled(decrypt(it.encrypted).value)
  }

  /** The items behind the last boundary. */
  function Stretch(items: seq<Item>): seq<Item>
  {
    if items == [] || Boundary(items[|items| - 1]) then [] else Stretch(items[..|items| - 1]) + [items[|items| - 1]]
  }

  /** The stretches that a boundary has ended. */
  function Ended(items: seq<Item>): seq<seq<Item>>
  {
    if items == [] then []
    else
      var before, it := items[..|items| - 1], items[|items| - 1];
      Ended(before) + (if Boundary(it) then [Stretch(before)] else [])
  }

  function CallCount(items: seq<Item>): nat
  {
    if items == [] then 0
    else CallCount(items[..|items| - 1]) + (if items[|items| - 1].typ == "function_call" then 1 else 0)
  }

  /** Something of the assistant's is in the items. */
  predicate Speaks(items: seq<Item>, decrypt: string -> Option<string>)
  {
    Gather(TextsOf, items) != [] || CallCount(items) != 0 || Gather(ThoughtOf(decrypt), items) != []
  }

  /** The stretches a message is made of. */
  function Spoken(ss: seq<seq<Item>>, decrypt: string -> Option<string>): seq<seq<Item>>
  {
    if ss == [] then []
    else Spoken(ss[..|ss| - 1], decrypt) + (if Speaks(ss[|ss| - 1], decrypt) then [ss[|ss| - 1]] else [])
  }

  /**
   * The message of a stretch: its texts with a blank line between two of them, and its reasoning as the mode has it:
   * left out, in front of the text between tags, or in a field of its own, where tool turns never lack it.
   */
  ghost predicate Tells(m: OutMessage, items: seq<Item>, mode: Convert.ReplayMode, decrypt: string -> Option<string>)
  {
    var texts, thoughts := Gather(TextsOf, items), Gather(ThoughtOf(decrypt), items);
    var said, thought := JoinWith(texts, "\n\n"), JoinWith(thoughts, "\n");
    && m.role == "assistant" && |m.toolCalls| == CallCount(items) && m.toolCallID == None
    && (mode == Convert.ThinkTags && thought != "" ==>
          m.content == Text(if said == "" then "<think>\n" + thought + "\n</think>"
                            else "<think>\n" + thought + "\n</think>" + ("\n\n" + said)))
    && (mode != Convert.ThinkTags || thought == "" ==>
          m.content == Text(if said == "" && CallCount(items) == 0 && thoughts == [] then " " else said))
    && (mode == Convert.ReasoningContent && thought != "" ==> m.reasoning == Some(thought))
    && (mode == Convert.ReasoningContent && thought == "" && CallCount(items) != 0 ==>
          m.reasoning == Some("(reasoning unavailable)"))
    && (mode != Convert.ReasoningContent || (thought == "" && CallCount(items) == 0) ==> m.reasoning == None)
  }

  ghost predicate AllTell(ms: seq<OutMessage>, ss: seq<seq<Item>>, mode: Convert.ReplayMode,
                          decrypt: string -> Option<string>)
  {
    |ms| == |ss| && forall i :: 0 <= i < |ms| ==> Tells(ms[i], ss[i], mode, decrypt)
  }

  function AssistantOf(m: OutMessage): seq<OutMessage>
  {
    if m.role == "assistant" then [m] else []
  }

  // ---- the fold ----

  /** What is pending is what the items since the last boundary say. */
  ghost predicate Holds(p: Pending, items: seq<Item>, decrypt: string -> Option<string>)
  {
    && p.text == Gather(TextsOf, items) && |p.calls| == CallCount(items)
    && p.reasoning == Gather(ThoughtOf(decrypt), items)
  }

  lemma TurnTells(p: Pending, items: seq<Item>, mode: Convert.ReplayMode, decrypt: string -> Option<string>)
    requires Holds(p, items, decrypt)
    ensures Tells(AssistantTurn(p, mode), items, mode, decrypt)
    ensures p == ChatBody.NOTHING <==> !Speaks(items, decrypt)
  {
    hide JoinWith, Gather, CallCount;
    var thought := JoinWith(p.reasoning, "\n");
    assert Convert.ThinkTag(thought) + "" == Convert.ThinkTag(thought);
  }

  lemma NothingFilled()
    ensures NonEmpty("") == []
  {
  }

  lemma FilledIs(s: string)
    ensures Filled(s) == NonEmpty(s)
  {
  }

  lemma {:induction false} PartsVisible(ps: seq<InPart>)
    ensures Gather(VisiblePart, ps) == Gather(AssistantPart, ps)
  {
    if ps != [] { PartsVisible(ps[..|ps| - 1]); }
  }

  lemma {:induction false} AllFilled(ss: seq<string>)
    ensures Gather(Filled, ss) == Gather(NonEmpty, ss)
  {
    if ss != [] { AllFilled(ss[..|ss| - 1]); }
  }

  lemma BoundaryIs(it: Item)
    ensures Boundary(it) <==> IsInbound(it) || it.typ == "function_call_output"
  {
  }

  lemma TextsAre(it: Item)
    requires it.typ == "message" && !IsInbound(it)
    ensures TextsOf(it) == AssistantTexts(it)
  {
    hide Gather;
    if it.content.List? { PartsVisible(it.content.parts); }
  }

  lemma ThoughtIs(it: Item, decrypt: string -> Option<string>)
    requires it.typ == "reasoning"
    ensures ThoughtOf(decrypt)(it) == NonEmpty(ReasoningText(it, decrypt))
  {
    hide Gather, JoinWith, Filled, NonEmpty;
    AllFilled(it.summary);
    FilledIs(JoinWith(Gather(NonEmpty, it.summary), "\n"));
    FilledIs("");
    assert NonEmpty("") == [] by { NothingFilled(); }
    if decrypt(it.encrypted).Some? { FilledIs(decrypt(it.encrypted).value); }
  }

  /** One more item in the stretch. */
  lemma StretchHolds(p: Pending, items: seq<Item>, it: Item, decrypt: string -> Option<string>, p': Pending)
    requires Holds(p, items, decrypt) && !Boundary(it)
    requires p'.text == p.text + TextsOf(it) && p'.reasoning == p.reasoning + ThoughtOf(decrypt)(it)
    requires |p'.calls| == |p.calls| + (if it.typ == "function_call" then 1 else 0)
    ensures Holds(p', items + [it], decrypt)
  {
    hide Gather;
    GatherSnoc(TextsOf, items, it);
    GatherSnoc(ThoughtOf(decrypt), items, it);
    assert (items + [it])[..|items|] == items;
  }

  lemma PendingNext(s: State, items: seq<Item>, it: Item, mode: Convert.ReplayMode, uuid: nat -> string,
                    decrypt: string -> Option<string>)
    requires Holds(s.pending, items, decrypt) && !Boundary(it) && Take(s, it, mode, uuid, decrypt).Success?
    ensures var t := Take(s, it, mode, uuid, decrypt).value;
            Holds(t.pending, items + [it], decrypt) && t.messages == s.messages
  {
    hide Holds, Gather, AssistantTexts, ReasoningText, Flush, Inbound, CallOf, Boundary, TextsOf;
    BoundaryIs(it);
    var t, p := Take(s, it, mode, uuid, decrypt).value, s.pending;
    assert p.text + [] == p.text && p.reasoning + [] == p.reasoning;
    OtherItem(it, decrypt);
    if it.typ == "message" { TextsAre(it); }
    if it.typ == "reasoning" { ThoughtIs(it, decrypt); }
    StretchHolds(p, items, it, decrypt, t.pending);
  }

  lemma OtherItem(it: Item, decrypt: string -> Option<string>)
    ensures it.typ != "message" ==> TextsOf(it) == []
    ensures it.typ != "reasoning" ==> ThoughtOf(decrypt)(it) == []
  {
    hide Gather, JoinWith;
  }

  /** The messages so far are those of the stretches that have ended. */
  ghost predicate Told(s: State, items: seq<Item>, mode: Convert.ReplayMode, decrypt: string -> Option<string>)
  {
    && AllTell(Gather(AssistantOf, s.messages), Spoken(Ended(items), decrypt), mode, decrypt)
    && Holds(s.pending, Stretch(items), decrypt)
  }

  lemma AllTellMore(ms: seq<OutMessage>, ss: seq<seq<Item>>, m: OutMessage, items: seq<Item>, mode: Convert.ReplayMode,
                    decrypt: string -> Option<string>)
    requires AllTell(ms, ss, mode, decrypt) && Tells(m, items, mode, decrypt)
    ensures AllTell(ms + [m], ss + [items], mode, decrypt)
  {
    hide Tells;
  }

  /** The end of a stretch sends its message, if there is anything to send. */
  lemma FlushTells(s: State, ss: seq<seq<Item>>, items: seq<Item>, mode: Convert.ReplayMode,
                   decrypt: string -> Option<string>)
    requires AllTell(Gather(AssistantOf, s.messages), Spoken(ss, decrypt), mode, decrypt)
             && Holds(s.pending, items, decrypt)
    ensures AllTell(Gather(AssistantOf, Flush(s, mode).messages), Spoken(ss + [items], decrypt), mode, decrypt)
    ensures Flush(s, mode).pending == ChatBody.NOTHING
  {
    hide AllTell, Tells, Holds, Speaks, AssistantTurn, Gather;
    var turn := AssistantTurn(s.pending, mode);
    TurnTells(s.pending, items, mode, decrypt);
    TellsAsAssistant(turn, items, mode, decrypt);
    GatherSnoc(AssistantOf, s.messages, turn);
    assert (ss + [items])[..|ss|] == ss;
    if s.pending != ChatBody.NOTHING {
      AllTellMore(Gather(AssistantOf, s.messages), Spoken(ss, decrypt), turn, items, mode, decrypt);
    } else {
      assert Spoken(ss, decrypt) + [] == Spoken(ss, decrypt);
    }
  }

  lemma TellsAsAssistant(m: OutMessage, items: seq<Item>, mode: Convert.ReplayMode, decrypt: string -> Option<string>)
    requires Tells(m, items, mode, decrypt)
    ensures AssistantOf(m) == [m]
  {
    hide Gather, JoinWith, CallCount;
  }

  lemma NothingHeld(decrypt: string -> Option<string>)
    ensures Holds(ChatBody.NOTHING, [], decrypt)
  {
  }

  lemma BoundaryNext(s: State, items: seq<Item>, it: Item, mode: Convert.ReplayMode, uuid: nat -> string,
                     decrypt: string -> Option<string>)
    requires Told(s, items, mode, decrypt) && Boundary(it) && Take(s, it, mode, uuid, decrypt).Success?
    ensures Told(Take(s, it, mode, uuid, decrypt).value, items + [it], mode, decrypt)
  {
    hide AllTell, Holds, Spoken, Flush, Inbound, Gather, ToolOutputText, Boundary;
    BoundaryIs(it);
    var t := Flush(s, mode);
    FlushTells(s, Ended(items), Stretch(items), mode, decrypt);
    NothingHeld(decrypt);
    var m := if IsInbound(it) then Inbound(it).value else ToolMessage(it);
    if IsInbound(it) { InboundIsElsewhere(it); }
    GatherSnoc(AssistantOf, t.messages, m);
    assert Gather(AssistantOf, t.messages) + [] == Gather(AssistantOf, t.messages);
    assert (items + [it])[..|items|] == items;
  }

  lemma {:induction false} TakeAllTells(req: Request, items: seq<Item>, mode: Convert.ReplayMode, uuid: nat -> string,
                                        decrypt: string -> Option<string>)
    requires TakeAll(Start(req), items, mode, uuid, decrypt).Success?
    ensures Told(TakeAll(Start(req), items, mode, uuid, decrypt).value, items, mode, decrypt)
  {
    hide Take, Told, Start, Boundary;
    if items == [] {
      assert Told(Start(req), [], mode, decrypt) by { StartTells(req, mode, decrypt); }
    } else {
      var before, it := items[..|items| - 1], items[|items| - 1];
      var s := TakeAll(Start(req), before, mode, uuid, decrypt).value;
      TakeAllTells(req, before, mode, uuid, decrypt);
      assert items == before + [it];
      if Boundary(it) {
        BoundaryNext(s, before, it, mode, uuid, decrypt);
      } else {
        PendingTold(s, before, it, mode, uuid, decrypt);
      }
    }
  }

  lemma PendingTold(s: State, items: seq<Item>, it: Item, mode: Convert.ReplayMode, uuid: nat -> string,
                    decrypt: string -> Option<string>)
    requires Told(s, items, mode, decrypt) && !Boundary(it) && Take(s, it, mode, uuid, decrypt).Success?
    ensures Told(Take(s, it, mode, uuid, decrypt).value, items + [it], mode, decrypt)
  {
    hide AllTell, Holds, Spoken, Take, Gather, Boundary;
    PendingNext(s, Stretch(items), it, mode, uuid, decrypt);
    assert (items + [it])[..|items|] == items;
    assert Ended(items) + [] == Ended(items);
  }

  lemma StartTells(req: Request, mode: Convert.ReplayMode, decrypt: string -> Option<string>)
    ensures Told(Start(req), [], mode, decrypt)
  {
    NothingHeld(decrypt);
    if Start(req).messages != [] { GatherOne(AssistantOf, Start(req).messages[0]); }
  }

  /**
   * For every history that converts: the assistant messages are those of the stretches between two boundaries that
   * say anything, one each and in order, and each tells what its stretch says.
   */
  lemma AssistantTells(req: Request, items: seq<Item>, mode: Convert.ReplayMode, uuid: nat -> string,
                       decrypt: string -> Option<string>)
    requires Messages(req, items, mode, uuid, decrypt).Success?
    ensures AllTell(Gather(AssistantOf, Messages(req, items, mode, uuid, decrypt).value),
                    Spoken(Ended(items) + [Stretch(items)], decrypt), mode, decrypt)
  {
    hide AllTell, Holds, Spoken, Flush, TakeAll, Start, Gather;
    TakeAllTells(req, items, mode, uuid, decrypt);
    var s := TakeAll(Start(req), items, mode, uuid, decrypt).value;
    FlushTells(s, Ended(items), Stretch(items), mode, decrypt);
    GatherConcat(AssistantOf, Flush(s, mode).messages, Ending(req));
    EndingIsUsers(req);
    assert Gather(AssistantOf, Flush(s, mode).messages) + [] == Gather(AssistantOf, Flush(s, mode).messages);
  }

  lemma EndingIsUsers(req: Request)
    ensures Gather(AssistantOf, Ending(req)) == []
  {
    hide TrimSpace;
    if Ending(req) != [] { GatherOne(AssistantOf, Ending(req)[0]); }
  }

  // ---- a finished response, fed back ----

  /** Its items say what they hold, and none of them ends a stretch. */
  lemma {:induction false} ReplayedSay(items: seq<Items.Item>, decrypt: string -> Option<string>)
    ensures Gather(TextsOf, ReplayedAll(items)) == Gather(SaidIn, items)
    ensures Gather(ThoughtOf(decrypt), ReplayedAll(items)) == Gather(ThoughtIn, items)
    ensures CallCount(ReplayedAll(items)) == |Gather(CallIn, items)|
  {
    if items != [] {
      var before, it := items[..|items| - 1], items[|items| - 1];
      ReplayedSay(before, decrypt);
      assert ReplayedAll(items)[..|items| - 1] == ReplayedAll(before);
      ReplayedSays(it, decrypt);
    }
  }

  lemma ReplayedSays(it: Items.Item, decrypt: string -> Option<string>)
    ensures TextsOf(Replayed(it)) == SaidIn(it) && ThoughtOf(decrypt)(Replayed(it)) == ThoughtIn(it)
  {
    if it.kind == Items.Message {
      GatherOne(VisiblePart, InPart("output_text", it.text, "", "", "", "", "", ""));
    } else if it.kind == Items.Reasoning {
      GatherOne(Filled, it.text);
      assert JoinWith([it.text], "\n") == it.text;
    }
  }

  /** A finished response that is fed back is one assistant message that tells all its texts and all its reasoning. */
  lemma FedBackTells(items: seq<Items.Item>, req: Request, mode: Convert.ReplayMode, uuid: nat -> string,
                     decrypt: string -> Option<string>)
    requires (forall it <- items :: Items.Identified(it)) && TurnOf(items) != ChatBody.NOTHING
    requires !req.background && forall t <- req.toolTypes :: t == "function"
    ensures var r := Messages(req, ReplayedAll(items), mode, uuid, decrypt);
            r.Success? && exists m ::
              && r.value == Start(req).messages + [m] + Ending(req) && m.toolCalls == Gather(CallIn, items)
              && Tells(m, ReplayedAll(items), mode, decrypt)
    ensures Gather(TextsOf, ReplayedAll(items)) == Gather(SaidIn, items)
            && Gather(ThoughtOf(decrypt), ReplayedAll(items)) == Gather(ThoughtIn, items)
  {
    hide AssistantTurn, Tells, Start, Ending, Gather, CallCount, ReplayedAll, Messages;
    ResponseFedBack(items, req, mode, uuid, decrypt);
    ReplayedSay(items, decrypt);
    var p := TurnOf(items);
    TurnTells(p, ReplayedAll(items), mode, decrypt);
    var m := AssistantTurn(p, mode);
    assert Messages(req, ReplayedAll(items), mode, uuid, decrypt).value == Start(req).messages + [m] + Ending(req);
  }

  // ---- the other messages ----

  /** What a part of a message to the assistant becomes; a part that has nothing to show is left out. */
  function ShownPart(p: InPart): seq<Part>
  {
    if p.typ in {"input_text", "output_text", "text"} then [TextPart(p.text)]
    else if p.typ == "input_image" && p.imageURL != "" then [ImagePart(p.imageURL, p.detail)]
    else if p.typ == "input_file" && p.fileData != "" then [FilePart(p.filename, p.fileData)]
    else []
  }

  /** A part that is not supported: sound, and images and files that are only referred to. */
  predicate Unsupported(p: InPart)
  {
    || p.typ == "input_audio"
    || (p.fileID != "" && ((p.typ == "input_image" && p.imageURL == "") || (p.typ == "input_file" && p.fileData == "")))
  }

  lemma {:induction false} PartsShown(ps: seq<InPart>)
    ensures PartsOf(ps).Failure? <==> exists p <- ps :: Unsupported(p)
    ensures PartsOf(ps).Success? ==> PartsOf(ps).value == Gather(ShownPart, ps)
    ensures PartsOf(ps).Failure? ==> PartsOf(ps).error == RequestError("input")
  {
    if ps != [] {
      var before, p := ps[..|ps| - 1], ps[|ps| - 1];
      PartsShown(before);
      assert ps == before + [p];
      PartShown(p);
    }
  }

  lemma PartShown(p: InPart)
    ensures PartOf(p).Failure? <==> Unsupported(p)
    ensures PartOf(p).Success? ==> PartOf(p).value == ShownPart(p)
    ensures PartOf(p).Failure? ==> PartOf(p).error == RequestError("input")
  {
  }

  lemma {:induction false} OnlyTexts(parts: seq<Part>)
    ensures |Gather(TextOfPart, parts)| <= |parts|
    ensures |Gather(TextOfPart, parts)| == |parts| <==> forall p <- parts :: p.TextPart?
  {
    if parts != [] {
      OnlyTexts(parts[..|parts| - 1]);
      assert parts == parts[..|parts| - 1] + [parts[|parts| - 1]];
    }
  }

  /**
   * A message to the assistant: a string as it is, parts as parts, and text parts alone as one string, line by line.
   */
  lemma InboundSays(it: Item)
    ensures Inbound(it).Failure? <==> it.content.List? && exists p <- it.content.parts :: Unsupported(p)
    ensures Inbound(it).Success? ==>
            var m := Inbound(it).value;
            && m.role == (match it.role case "" => "user" case "developer" => "system" case r => r)
            && m.toolCalls == [] && m.reasoning == None && m.toolCallID == None
            && (it.content.Str? ==> m.content == Text(it.content.text))
            && (it.content.List? ==>
                  var parts := Gather(ShownPart, it.content.parts);
                  m.content == if forall p <- parts :: p.TextPart? then Text(JoinWith(Gather(TextOfPart, parts), "\n"))
                               else Parts(parts))
  {
    hide Gather, JoinWith, PartsOf, Unsupported;
    if it.content.List? {
      PartsShown(it.content.parts);
      OnlyTexts(Gather(ShownPart, it.content.parts));
    }
  }

  function OutputLine(p: InPart): seq<string>
  {
    [if p.typ in {"input_text", "output_text", "text"} then p.text else "[" + p.typ + "]"]
  }

  lemma {:induction false} OutputLines(ps: seq<InPart>)
    ensures Gather(OutputLine, ps) == Gather(OutputPart, ps)
  {
    if ps != [] { OutputLines(ps[..|ps| - 1]); }
  }

  /** The output of a call: a string as it is, parts line by line, what is no text by its type. */
  lemma OutputSays(it: Item)
    ensures var m := ToolMessage(it);
            && m.role == "tool" && m.toolCallID == Some(it.callID) && m.toolCalls == [] && m.reasoning == None
            && m.content == Text(match it.output case Str(text) => text
                                 case List(ps) => JoinWith(Gather(OutputLine, ps), "\n"))
  {
    hide Gather, JoinWith;
    if it.output.List? { OutputLines(it.output.parts); }
  }

  /** Instructions come first, and a string of input last; blank ones do not come at all. */
  lemma FirstAndLast(req: Request)
    ensures Start(req).messages == (if req.instructions == None || req.instructions == Some("") then []
                                    else [OutMessage("system", Text(req.instructions.value), [], None, None)])
    ensures Ending(req) == (if req.input == None || TrimSpace(req.input.value) == "" then []
                            else [OutMessage("user", Text(req.input.value), [], None, None)])
  {
    hide TrimSpace;
  }

  // ---- what is refused ----

  /** An item that cannot be converted: unsupported parts in a message to the assistant, and a bare reference. */
  predicate Refused(it: Item)
  {
    || (it.typ == "message" && it.role in {"user", "", "developer", "system"} && it.content.List?
        && exists p <- it.content.parts :: Unsupported(p))
    || (it.typ == "" && it.id != "")
  }

  lemma TakeRefuses(s: State, it: Item, mode: Convert.ReplayMode, uuid: nat -> string,
                    decrypt: string -> Option<string>)
    ensures Take(s, it, mode, uuid, decrypt).Failure? <==> Refused(it)
    ensures Take(s, it, mode, uuid, decrypt).Failure? ==>
            Take(s, it, mode, uuid, decrypt).error == RequestError("input")
  {
    hide Flush, Inbound, AssistantTexts, ReasoningText, ToolOutputText, Unsupported, CallOf;
    if IsInbound(it) {
      InboundSays(it);
      InboundError(it);
    }
  }

  lemma InboundError(it: Item)
    ensures Inbound(it).Failure? ==> Inbound(it).error == RequestError("input")
  {
    hide PartsOf, ContentOf;
    if it.content.List? { PartsShown(it.content.parts); }
  }

  lemma {:induction false} TakeAllRefuses(s: State, items: seq<Item>, mode: Convert.ReplayMode, uuid: nat -> string,
                                          decrypt: string -> Option<string>)
    ensures TakeAll(s, items, mode, uuid, decrypt).Failure? <==> exists it <- items :: Refused(it)
    ensures TakeAll(s, items, mode, uuid, decrypt).Failure? ==>
              TakeAll(s, items, mode, uuid, decrypt).error == RequestError("input")
    decreases |items|
  {
    hide Take, Refused;
    if items != [] {
      var before, it := items[..|items| - 1], items[|items| - 1];
      TakeAllRefuses(s, before, mode, uuid, decrypt);
      assert items == before + [it];
      var r := TakeAll(s, before, mode, uuid, decrypt);
      if r.Success? { TakeRefuses(r.value, it, mode, uuid, decrypt); }
    }
  }

  /** Exactly these requests are refused, and this is the parameter the error names. */
  lemma RefusedExactly(req: Request, items: seq<Item>, mode: Convert.ReplayMode, uuid: nat -> string,
                       decrypt: string -> Option<string>)
    ensures var r, alien := Messages(req, items, mode, uuid, decrypt), exists t <- req.toolTypes :: t != "function";
            var bad := exists it <- items :: Refused(it);
            && (r == Failure(RequestError("background")) <==> req.background)
            && (r == Failure(RequestError("tools")) <==> !req.background && alien)
            && (!req.background && !alien && bad ==> r == Failure(RequestError("input")))
            && (!req.background && !alien && !bad ==>
                  (r.Success? || r == Failure(RequestError("input")))
                  && (r.Failure? ==>
                        Start(req).messages == [] && Ending(req) == [] && !Speaks(Stretch(items), decrypt)))
  {
    hide TakeAll, Refused, Speaks, Flush, Start, Ending, Stretch;
    TakeAllRefuses(Start(req), items, mode, uuid, decrypt);
    var t := TakeAll(Start(req), items, mode, uuid, decrypt);
    if t.Success? {
      TakeAllTells(req, items, mode, uuid, decrypt);
      StillThere(req, items, mode, uuid, decrypt, t.value);
    }
  }

  lemma StillThere(req: Request, items: seq<Item>, mode: Convert.ReplayMode, uuid: nat -> string,
                   decrypt: string -> Option<string>, s: State)
    requires TakeAll(Start(req), items, mode, uuid, decrypt) == Success(s) && Told(s, items, mode, decrypt)
    ensures Flush(s, mode).messages == [] ==> Start(req).messages == [] && !Speaks(Stretch(items), decrypt)
  {
    hide AssistantTurn, Start, Speaks, Holds, AllTell, TakeAll;
    TurnTells(s.pending, Stretch(items), mode, decrypt);
    MessagesGrow(Start(req), items, mode, uuid, decrypt);
  }

  lemma {:induction false} MessagesGrow(s: State, items: seq<Item>, mode: Convert.ReplayMode, uuid: nat -> string,
                                        decrypt: string -> Option<string>)
    requires TakeAll(s, items, mode, uuid, decrypt).Success?
    ensures s.messages <= TakeAll(s, items, mode, uuid, decrypt).value.messages
    decreases |items|
  {
    hide Inbound, AssistantTexts, ReasoningText, ToolOutputText, CallOf, AssistantTurn;
    if items != [] { MessagesGrow(s, items[..|items| - 1], mode, uuid, decrypt); }
  }
}
