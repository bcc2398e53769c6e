/** From an upstream chat stream to the events of a Responses stream (internal/responses/stream.go). */
module Translator {
  import opened Wrappers
  import opened Strings
  import opened Sequences
  import opened Items
  import opened Shelf
  import opened Fragments
  import ToolLog
  import opened TextFlow
  import U = Upstream
  import I = TakenIn
  import L = Heard
  import M = MixedRun
  import P = PlainRun
  import T = ThinkTag
  import H = HeuristicTool
  import D = Dsml
  import Json

  class Translator {
    const codec: Json.Codec
    const uuid: nat -> string
    const defend: bool

    var started: bool
    var terminal: bool
    var output: seq<Item>
    var reasoningID: nat
    var reasoningOpen: bool
    var reasoningSummary: string
    var messageID: nat
    var messageOpen: bool
    var messageText: string
    var tools: map<nat, ToolState>
    var toolOrder: seq<nat>
    var openTool: Option<nat>
    const thinkParser: T.ThinkTagParser
    const heuristicParser: H.HeuristicToolParser
    const contentDSML: D.DSMLFilter
    const reasoningDSML: D.DSMLFilter
    var finishReason: string
    var sawDone: bool
    var failure: Option<StreamFailure>
    var minted: nat

    var events: seq<Event>   // every event so far
    ghost var ledger: Ledger
    ghost var stored: map<nat, Item>           // the items of the calls that are finished
    ghost var progress: Progress               // the tool call fragments so far, and what became of them
    ghost var script: seq<Action>              // what has come in for the parsers
    ghost var found: seq<H.ToolUse>            // the calls found in the text

    ghost function Here(): Desk
      reads this`output, this`reasoningOpen, this`reasoningID, this`reasoningSummary, this`messageOpen, this`messageID,
          this`messageText, this`openTool
      reads this`tools, this`toolOrder, this`stored, this`found, this`minted
    {
      Desk(Stock(tools, stored, output, found, minted), toolOrder, reasoningOpen, reasoningID, reasoningSummary,
           messageOpen, messageID, messageText, openTool)
    }

    function Ours(): Terms
    {
      Terms(codec, uuid, defend)
    }

    ghost predicate Valid()
      reads this`output, this`reasoningOpen, this`reasoningID, this`reasoningSummary, this`messageOpen, this`messageID,
          this`messageText, this`openTool
      reads this`events, this`ledger, this`started, this`terminal, this`tools, this`stored, this`toolOrder, this`minted,
          this`found
    {
      && Replay(BLANK, events) == Some(ledger)
      && ledger.phase == (if terminal then Over else if started then Running else Unborn)
      && (terminal ==> started)
      && Sound(Ours(), ledger, Here())
      && contentDSML != reasoningDSML
      && heuristicParser.codec == codec
    }

    function Set(): Setting
    {
      Setting(codec, defend, true)
    }

    /** What the parsers and filters hold, and what has come out of them. */
    ghost function View(): Flow
      reads this`messageText, this`reasoningSummary, this`found, thinkParser, heuristicParser, contentDSML,
          reasoningDSML
    {
      Flow(thinkParser.inThinkTag, thinkParser.buffer, heuristicParser.Now(), contentDSML.buf, reasoningDSML.buf,
           messageText, reasoningSummary, found)
    }

    /** The parsers, filters and texts are where what has come in has brought them. */
    ghost predicate Told()
      reads this`messageText, this`reasoningSummary, this`found, this`script, thinkParser, heuristicParser, contentDSML,
          reasoningDSML
    {
      View() == Play(Set(), Begin(defend, 0), script) && Honest(Set(), Begin(defend, 0), script)
    }

    /** The calls, and how much has come out for the reader. */
    ghost function At(): Scene
      reads this`tools, this`stored, this`openTool, this`messageText, this`reasoningSummary, this`found
    {
      Scene(tools, stored, openTool, |messageText| + |reasoningSummary| + |found|)
    }

    /** The calls are what their fragments made of them. */
    ghost predicate Accounted()
      reads this`tools, this`stored, this`openTool, this`messageText, this`reasoningSummary, this`found, this`ledger,
          this`progress
    {
      Accounts(At(), ledger.strays, defend, progress)
    }

    constructor (codec: Json.Codec, uuid: nat -> string, defend: bool)
      ensures Valid() && !started && !terminal && events == [] && output == [] && tools == map[]
      ensures this.codec == codec && this.uuid == uuid && this.defend == defend
      ensures fresh(thinkParser) && fresh(heuristicParser) && fresh(contentDSML) && fresh(reasoningDSML)
      ensures View() == Begin(defend, 0) && progress == NOTHING && stored == map[] && openTool == None
              && messageText == "" && reasoningSummary == "" && script == [] && found == [] && finishReason == ""
              && failure == None && !sawDone
    {
      this.codec, this.uuid, this.defend := codec, uuid, defend;
      started, terminal, output := false, false, [];
      reasoningID, reasoningOpen, reasoningSummary := 0, false, "";
      messageID, messageOpen, messageText := 0, false, "";
      tools, toolOrder, openTool := map[], [], None;
      thinkParser := new T.ThinkTagParser();
      heuristicParser := new H.HeuristicToolParser(codec, defend, 0);
      contentDSML := new D.DSMLFilter();
      reasoningDSML := new D.DSMLFilter();
      finishReason, sawDone, failure, minted := "", false, None, 0;
      events, ledger, script, found := [], BLANK, [], [];
      stored, progress := map[], NOTHING;
    }

    ghost predicate Live()
      reads this`output, this`reasoningOpen, this`reasoningID, this`reasoningSummary, this`messageOpen, this`messageID,
          this`messageText, this`openTool
      reads this`events, this`ledger, this`started, this`terminal, this`tools, this`stored, this`toolOrder, this`minted,
          this`found
    {
      Valid() && started && !terminal
    }

    ghost predicate Parts()
      reads this`output, this`reasoningOpen, this`reasoningID, this`reasoningSummary, this`messageOpen, this`messageID,
          this`messageText, this`openTool
      reads this`ledger, this`started, this`terminal, this`tools, this`stored, this`toolOrder, this`minted, this`found
    {
      ledger.phase == Running && started && !terminal && Sound(Ours(), ledger, Here()) && contentDSML != reasoningDSML
          && heuristicParser.codec == codec
    }

    lemma LiveNow()
      requires Replay(BLANK, events) == Some(ledger) && Parts()
      ensures Live()
    {
      hide Replay, Sound;
    }

    lemma ToParts()
      requires Live()
      ensures Replay(BLANK, events) == Some(ledger) && Parts()
    {
      hide Replay, Sound;
    }

    /** What is under way, and what is finished. */
    lemma LiveIs()
      requires Live()
      ensures ledger.phase == Running && Consistent(At())
      ensures !(reasoningOpen && messageOpen)
              && (openTool.Some? ==> !reasoningOpen && !messageOpen && openTool.value in tools)
      ensures forall t :: t in tools ==>
              (tools[t].begun && !tools[t].closed <==> openTool == Some(t))
              && (!tools[t].begun ==> !tools[t].closed)
      ensures contentDSML != reasoningDSML && heuristicParser.codec == codec
    {
      hide Replay, Sound, FreshIDs, TextCalls, Written, NativeIDs, CallIDs, Ordered;
      SoundIs(Ours(), ledger, Here());
    }

    /** Send an event the ledger takes. */
    method Emit(e: Event)
      requires Replay(BLANK, events) == Some(ledger) && Step(ledger, e).Some?
      modifies this`events, this`ledger
      ensures events == old(events) + [e] && ledger == Step(old(ledger), e).value
              && Replay(BLANK, events) == Some(ledger)
    {
      hide Step;
      ReplaySnoc(BLANK, events, e);
      events := events + [e];
      ledger := Step(ledger, e).value;
    }

    method NewID() returns (id: nat)
      modifies this`minted
      ensures id == old(minted) && minted == old(minted) + 1
    {
      id := minted;
      minted := minted + 1;
    }

    method EnsureStarted()
      requires Valid() && !terminal
      modifies this`started, this`events, this`ledger
      ensures Live() && ledger.strays == old(ledger.strays)
      ensures events == old(events) + (if old(started) then [] else [Created, InProgress])
    {
      hide Replay, Sound;
      if started {
        return;
      }
      PhaseChanges(Ours(), ledger, Here(), Running);
      started := true;
      Emit(Created);
      Emit(InProgress);
    }

    method CloseReasoning()
      requires Live()
      modifies this`reasoningOpen, this`output, this`events, this`ledger
      ensures Live() && !reasoningOpen && old(events) <= events && ledger.strays == old(ledger.strays)
      ensures output == old(output) + (if old(reasoningOpen) then
                [Item(Reasoning, reasoningID, "", "", reasoningSummary)] else [])
    {
      hide Live, Valid, Replay, Step, Sound;
      ToParts();
      if !reasoningOpen {
        return;
      }
      ReasoningCloses(Ours(), ledger, Here());
      reasoningOpen := false;
      var full, at := reasoningSummary, |output|;
      Emit(TextDone(Reasoning, reasoningID, at, full));
      Emit(PartDone(Reasoning, reasoningID, at, full));
      var item := Item(Reasoning, reasoningID, "", "", full);
      output := output + [item];
      Emit(ItemDone(|output| - 1, item));
      LiveNow();
    }

    method CloseMessage()
      requires Live()
      modifies this`messageOpen, this`output, this`events, this`ledger
      ensures Live() && !messageOpen && old(events) <= events && ledger.strays == old(ledger.strays)
      ensures output == old(output) + (if old(messageOpen) then [Item(Message, messageID, "", "", messageText)] else [])
    {
      hide Live, Valid, Replay, Step, Sound;
      ToParts();
      if !messageOpen {
        return;
      }
      MessageCloses(Ours(), ledger, Here());
      messageOpen := false;
      var full, at := messageText, |output|;
      Emit(TextDone(Message, messageID, at, full));
      Emit(PartDone(Message, messageID, at, full));
      var item := Item(Message, messageID, "", "", full);
      output := output + [item];
      Emit(ItemDone(|output| - 1, item));
      LiveNow();
    }

    /** A call whose item was never added, or is finished already, has nothing to close. */
    method CloseToolItem(t: nat)
      requires Live() && t in tools
      modifies this`tools, this`openTool, this`stored, this`output, this`events, this`ledger
      ensures Live() && old(events) <= events && ledger.strays == old(ledger.strays)
      ensures old(openTool) == Some(t) ==>
                openTool == None && tools == old(tools)[t := old(tools)[t].(closed := true)]
                    && output == old(output) + [ItemOf(old(tools)[t])]
      ensures old(openTool) != Some(t) ==>
              openTool == old(openTool) && tools == old(tools) && output == old(output)
              && stored == old(stored)
      ensures Kept(old(At()), At())
    {
      hide Live, Valid, Replay, Step, Sound, Kept;
      var st := tools[t];
      MayClose(t);
      if !st.begun || st.closed {
        return;
      }
      ToParts();
      ToolCloses(Ours(), ledger, Here(), t);
      tools := tools[t := st.(closed := true)];
      stored := stored[t := ItemOf(st)];
      openTool := None;
      var full, at := st.args, |output|;
      Emit(TextDone(Call, st.itemID, at, full));
      var item := Item(Call, st.itemID, st.callID, st.name, full);
      output := output + [item];
      Emit(ItemDone(|output| - 1, item));
      LiveNow();
    }

    /** Only the call under way can be finished. */
    lemma MayClose(t: nat)
      requires Live() && t in tools
      ensures tools[t].begun && !tools[t].closed <==> openTool == Some(t)
      ensures Kept(At(), At())
      ensures openTool == Some(t) ==>
                Kept(At(), Scene(tools[t := tools[t].(closed := true)], stored[t := ItemOf(tools[t])], None,
                                 At().heard))
    {
      hide Live, Kept;
      LiveIs();
      NothingCarried(At());
      OneClosed(At(), t);
    }

    /** Whatever is under way is finished first. */
    method CloseOpenItem()
      requires Live()
      modifies this`reasoningOpen, this`messageOpen, this`tools, this`openTool, this`stored, this`output, this`events,
          this`ledger
      ensures Live() && !reasoningOpen && !messageOpen && openTool == None && old(events) <= events
              && ledger.strays == old(ledger.strays)
      ensures output == old(output) + Pending(old(Here()))
      ensures Kept(old(At()), At())
    {
      hide Live, SameCalls, KeptItems;
      LiveIs();
      NothingCarried(At());
      if openTool.Some? {
        CloseToolItem(openTool.value);
      }
      if reasoningOpen {
        CloseReasoning();
      }
      if messageOpen {
        CloseMessage();
      }
    }

    method OpenReasoning()
      requires Live() && !reasoningOpen && !messageOpen && openTool == None
      modifies this`reasoningID, this`reasoningOpen, this`minted, this`events, this`ledger
      ensures Live() && reasoningOpen && old(events) <= events && ledger.strays == old(ledger.strays)
    {
      hide Live, Valid, Replay, Step, Sound;
      ToParts();
      ReasoningOpens(Ours(), ledger, Here());
      reasoningID := NewID();
      reasoningOpen := true;
      Emit(ItemAdded(|output|, Item(Reasoning, reasoningID, "", "", "")));
      Emit(PartAdded(Reasoning, reasoningID, |output|));
      LiveNow();
    }

    method EmitReasoningRaw(text: string)
      requires Live()
      modifies this`reasoningID, this`reasoningOpen, this`reasoningSummary, this`messageOpen, this`tools, this`openTool,
          this`stored, this`output,
               this`minted, this`events, this`ledger
      ensures Live() && reasoningOpen && openTool == None && old(events) <= events && Kept(old(At()), At())
              && ledger.strays == old(ledger.strays)
      ensures reasoningSummary == old(reasoningSummary) + text
      ensures output == old(output) + (if old(reasoningOpen) then [] else Pending(old(Here())))
    {
      hide Live, SameCalls, KeptItems, Pending;
      LiveIs();
      NothingCarried(At());
      if !reasoningOpen {
        CloseOpenItem();
        OpenReasoning();
      }
      SendReasoning(text);
    }

    method SendReasoning(text: string)
      requires Live() && reasoningOpen
      modifies this`reasoningSummary, this`events, this`ledger
      ensures Live() && old(events) <= events && ledger.strays == old(ledger.strays)
              && reasoningSummary == old(reasoningSummary) + text
    {
      hide Replay, Step, Sound;
      Says(Ours(), ledger, Here(), Reasoning, text);
      reasoningSummary := reasoningSummary + text;
      Emit(Delta(Reasoning, reasoningID, |output|, text));
    }

    method OpenMessage()
      requires Live() && !reasoningOpen && !messageOpen && openTool == None
      modifies this`messageID, this`messageOpen, this`minted, this`events, this`ledger
      ensures Live() && messageOpen && old(events) <= events && ledger.strays == old(ledger.strays)
    {
      hide Live, Valid, Replay, Step, Sound;
      ToParts();
      MessageOpens(Ours(), ledger, Here());
      messageID := NewID();
      messageOpen := true;
      Emit(ItemAdded(|output|, Item(Message, messageID, "", "", "")));
      Emit(PartAdded(Message, messageID, |output|));
      LiveNow();
    }

    method EmitTextRaw(text: string)
      requires Live()
      modifies this`messageID, this`messageOpen, this`messageText, this`reasoningOpen, this`tools, this`openTool,
          this`stored, this`output,
               this`minted, this`events, this`ledger
      ensures Live() && messageOpen && openTool == None && old(events) <= events && Kept(old(At()), At())
              && ledger.strays == old(ledger.strays)
      ensures messageText == old(messageText) + text
      ensures output == old(output) + (if old(messageOpen) then [] else Pending(old(Here())))
    {
      hide Live, SameCalls, KeptItems;
      LiveIs();
      NothingCarried(At());
      if openTool.Some? {
        CloseToolItem(openTool.value);
      }
      if reasoningOpen {
        CloseReasoning();
      }
      if !messageOpen {
        OpenMessage();
      }
      SendText(text);
    }

    method SendText(text: string)
      requires Live() && messageOpen
      modifies this`messageText, this`events, this`ledger
      ensures Live() && old(events) <= events && ledger.strays == old(ledger.strays)
              && messageText == old(messageText) + text
    {
      hide Replay, Step, Sound;
      Says(Ours(), ledger, Here(), Message, text);
      messageText := messageText + text;
      Emit(Delta(Message, messageID, |output|, text));
    }

    method EmitReasoningDelta(text: string)
      requires Live()
      modifies this`reasoningID, this`reasoningOpen, this`reasoningSummary, this`messageOpen, this`tools, this`openTool,
          this`stored, this`output,
               this`minted, this`events, this`ledger, reasoningDSML
      ensures Live() && old(events) <= events && Carried(old(At()), At()) && ledger.strays == old(ledger.strays)
      ensures View() == Ponder(Set(), old(View()), text)
    {
      hide Valid, D.FeedStep, D.StripTags, D.Held, SameCalls, KeptItems, Pending;
      NothingCarried(At());
      LiveIs();
      assert reasoningSummary + "" == reasoningSummary;
      var visible := text;
      if defend {
        visible := reasoningDSML.Feed(text);
      }
      if visible == "" {
        return;
      }
      EmitReasoningRaw(visible);
    }

    method EmitTextDelta(text: string)
      requires Live()
      modifies this`messageID, this`messageOpen, this`messageText, this`reasoningOpen, this`tools, this`openTool,
          this`stored, this`output,
               this`minted, this`events, this`ledger, contentDSML
      ensures Live() && old(events) <= events && Carried(old(At()), At()) && ledger.strays == old(ledger.strays)
      ensures View() == Say(Set(), old(View()), text)
    {
      hide Valid, D.FeedStep, D.StripTags, D.Held, SameCalls, KeptItems, Pending;
      NothingCarried(At());
      LiveIs();
      assert messageText + "" == messageText;
      var visible := text;
      if defend {
        visible := contentDSML.Feed(text);
      }
      if visible == "" {
        return;
      }
      EmitTextRaw(visible);
    }

    // ---- tool calls ----

    /**
     * The state of an upstream index; a new one gets a call id of its
     * own, which only an undefended upstream id can replace.
     */
    method Tool(index: nat, upstreamID: Option<string>)
      requires Live()
      modifies this`tools, this`toolOrder, this`minted
      ensures Live() && tools == old(tools)[index := Called(old(tools), index, upstreamID, defend, uuid(old(minted)))]
    {
      hide Live;
      if index !in tools {
        NewTool(index, upstreamID);
        return;
      }
      var st := tools[index];
      if !defend && !st.begun && upstreamID.Some? && upstreamID.value != "" {
        AdoptID(index, upstreamID.value);
      }
    }

    method AdoptID(index: nat, upstreamID: string)
      requires Live() && index in tools && !tools[index].begun && upstreamID != "" && !defend
      modifies this`tools
      ensures Live() && tools == old(tools)[index := old(tools)[index].(callID := upstreamID)]
    {
      hide Replay, Step, Sound;
      ToolChanges(Ours(), ledger, Here(), index, tools[index].name, upstreamID);
      tools := tools[index := tools[index].(callID := upstreamID)];
    }

    method NewTool(index: nat, upstreamID: Option<string>)
      requires Live() && index !in tools
      modifies this`tools, this`toolOrder, this`minted
      ensures Live() && tools == old(tools)[index := Called(old(tools), index, upstreamID, defend, uuid(old(minted)))]
    {
      hide Replay, Step, Sound;
      var serial := NewID();
      var callID := "call_" + uuid(serial);
      if !defend && upstreamID.Some? && upstreamID.value != "" {
        callID := upstreamID.value;
      }
      ToolIsNew(Ours(), ledger, old(Here()), index, callID);
      tools := tools[index := ToolState(0, callID, "", "", "", false, false)];
      toolOrder := toolOrder + [index];
    }

    method SetToolName(t: nat, name: string)
      requires Live() && t in tools
      modifies this`tools
      ensures Live() && tools == old(tools)[t := old(tools)[t].(name := name)]
    {
      hide Replay, Step, Sound;
      HasID(t);
      ToolChanges(Ours(), ledger, Here(), t, name, tools[t].callID);
      tools := tools[t := tools[t].(name := name)];
    }

    lemma HasID(t: nat)
      requires Live() && t in tools
      ensures tools[t].callID != ""
    {
      hide Replay, FreshIDs, Stored, Ordered;
    }

    method OpenToolItem(t: nat)
      requires Live() && t in tools && !tools[t].begun
      modifies this`reasoningOpen, this`messageOpen, this`tools, this`openTool, this`stored, this`output, this`minted,
          this`events, this`ledger
      ensures Live() && old(events) <= events && ledger.strays == old(ledger.strays) && openTool == Some(t)
      ensures output == old(output) + Pending(old(Here()))
      ensures t in tools && tools[t] == Begun(old(tools)[t], tools[t].itemID) && !tools[t].closed
      ensures SameCalls(old(tools), tools[t := old(tools)[t]]) && KeptItems(old(tools), old(stored), stored)
    {
      hide Live, Pending, SameCalls, KeptItems;
      LiveIs();
      CloseOpenItem();
      Unclosed(old(tools), tools, t);
      LiveIs();
      ghost var before := tools;
      AddToolItem(t);
      assert tools[t := old(tools)[t]] == before;
    }

    method AddToolItem(t: nat)
      requires Live() && t in tools && !tools[t].begun && !reasoningOpen && !messageOpen && openTool == None
      modifies this`tools, this`openTool, this`minted, this`events, this`ledger
      ensures Live() && old(events) <= events && ledger.strays == old(ledger.strays) && openTool == Some(t)
      ensures tools == old(tools)[t := Begun(old(tools)[t], old(minted))]
    {
      hide Live, Valid, Replay, Step, Sound;
      ToParts();
      var st := tools[t];
      ToolOpens(Ours(), ledger, Here(), t);
      var id := NewID();
      tools := tools[t := st.(begun := true, itemID := id, buffered := "")];
      openTool := Some(t);
      Emit(ItemAdded(|output|, Item(Call, id, st.callID, st.name, "")));
      if st.buffered != "" {
        Emit(Delta(Call, id, |output|, st.buffered));
      }
      LiveNow();
    }

    lemma AtIs()
      ensures At() == Scene(tools, stored, openTool, |messageText| + |reasoningSummary| + |found|)
    {
    }

    /** One fragment of a native call. */
    method ProcessToolCall(tc: ToolLog.ToolCallDelta)
      requires Live()
      modifies this`reasoningOpen, this`messageOpen, this`tools, this`toolOrder, this`openTool, this`stored,
          this`output, this`minted, this`events, this`ledger
      ensures Live() && old(events) <= events
      ensures ledger.strays == old(ledger.strays) + (if Late(old(tools), tc) then 1 else 0)
      ensures Advances(old(At()), At(), tc, defend, uuid(old(minted)))
    {
      hide *;
      var t := tc.index;
      ghost var st := Called(tools, t, tc.id, defend, uuid(minted));
      CalledCloses(tools, t, tc.id, defend, uuid(minted));
      AtIs();
      LiveIs();
      NameCall(tc);
      ghost var named := tools;
      OpenNamed(t);
      ghost var begun := tools;
      if U.Presence(tc.args) {
        GiveArgs(t, ToolLog.Text(tc.args));
      }
      FragmentIs(old(tools), named, begun, tools, st, tc);
      LiveIs();
      AtIs();
      AdvancesNow(old(At()), At(), named, begun, tc, defend, uuid(old(minted)));
    }

    /** A call with a name has its item added. */
    method OpenNamed(t: nat)
      requires Live() && t in tools
      modifies this`reasoningOpen, this`messageOpen, this`tools, this`openTool, this`stored, this`output, this`minted,
          this`events, this`ledger
      ensures Live() && old(events) <= events && ledger.strays == old(ledger.strays) && t in tools
      ensures var st := old(tools)[t];
              && tools[t].closed == st.closed
              && (if st.name != "" && !st.begun then tools[t] == Begun(st, tools[t].itemID) else tools == old(tools))
              && openTool == (if st.name != "" && !st.begun then Some(t) else old(openTool))
      ensures SameCalls(old(tools), tools[t := old(tools)[t]]) && KeptItems(old(tools), old(stored), stored)
    {
      hide Live, SameCalls, KeptItems, Pending;
      NothingCarried(At());
      LiveIs();
      assert tools[t := tools[t]] == tools;
      if tools[t].name != "" && !tools[t].begun {
        OpenToolItem(t);
      }
    }

    /** The id and the name a fragment carries. */
    method NameCall(tc: ToolLog.ToolCallDelta)
      requires Live()
      modifies this`tools, this`toolOrder, this`minted
      ensures Live()
      ensures var st := Called(old(tools), tc.index, tc.id, defend, uuid(old(minted)));
              tools == old(tools)[tc.index := if U.Presence(tc.name) then st.(name := tc.name.value) else st]
    {
      hide Live, Called;
      Tool(tc.index, tc.id);
      if U.Presence(tc.name) {
        SetToolName(tc.index, tc.name.value);
      }
    }

    method GiveArgs(t: nat, args: string)
      requires Live() && t in tools
      modifies this`tools, this`events, this`ledger
      ensures Live() && old(events) <= events
      ensures ledger.strays == old(ledger.strays) + (if old(tools)[t].begun && old(tools)[t].closed then 1 else 0)
      ensures tools == old(tools)[t := WithArgs(old(tools)[t], args)]
    {
      hide Replay, Step, Sound;
      var st := tools[t];
      ArgsArrive(Ours(), ledger, Here(), t, args);
      if st.begun {
        tools := tools[t := st.(args := st.args + args)];
        Emit(Delta(Call, st.itemID, |output|, args));
      } else {
        tools := tools[t := st.(args := st.args + args, buffered := st.buffered + args)];
      }
    }

    /** A call found in the text is sent as one whole item. */
    method EmitHeuristicToolCall(toolUse: H.ToolUse)
      requires Live()
      modifies this`reasoningOpen, this`messageOpen, this`tools, this`openTool, this`stored, this`output, this`minted,
          this`events, this`ledger, this`found
      ensures Live() && old(events) <= events && ledger.strays == old(ledger.strays) && Carried(old(At()), At())
      ensures found == old(found) + [toolUse]
      ensures output == old(output) + Pending(old(Here()))
                        + [Item(Call, old(minted), "call_" + uuid(old(minted) + 1), toolUse.name,
                                codec.canonical(toolUse.input))]
    {
      hide Live, Pending, SameCalls, KeptItems, Sound;
      CloseOpenItem();
      ToParts();
      ghost var d := Here();
      var args := codec.canonical(toolUse.input);
      var itemID := NewID();
      var callID := NewID();
      SendWholeCall(Item(Call, itemID, "call_" + uuid(callID), toolUse.name, args), toolUse, d);
    }

    method SendWholeCall(item: Item, ghost toolUse: H.ToolUse, ghost d: Desk)
      requires Replay(BLANK, events) == Some(ledger) && ledger.phase == Running && started && !terminal
      requires contentDSML != reasoningDSML && heuristicParser.codec == codec
      requires Sound(Ours(), ledger, d) && Idle(d) && Here() == Drew(d, 2) && item == Whole(Ours(), d, toolUse)
      modifies this`output, this`events, this`ledger, this`found
      ensures Live() && old(events) <= events && ledger.strays == old(ledger.strays)
      ensures output == old(output) + [item] && found == old(found) + [toolUse]
    {
      hide Live, Valid, Replay, Step, Sound, Whole;
      WholeCall(Ours(), ledger, d, toolUse);
      var at := |output|;
      Emit(ItemAdded(at, item.(text := "")));
      Emit(Delta(Call, item.id, at, item.text));
      Emit(TextDone(Call, item.id, at, item.text));
      output := output + [item];
      found := found + [toolUse];
      Emit(ItemDone(at, item));
      LiveNow();
    }

    method EmitHeuristicToolCalls(toolUses: seq<H.ToolUse>)
      requires Live()
      modifies this`reasoningOpen, this`messageOpen, this`tools, this`openTool, this`stored, this`output, this`minted,
          this`events, this`ledger, this`found
      ensures Live() && old(events) <= events && ledger.strays == old(ledger.strays) && Carried(old(At()), At())
      ensures found == old(found) + toolUses
    {
      hide *;
      NothingCarried(At());
      var i := 0;
      while i < |toolUses|
        invariant 0 <= i <= |toolUses|
        invariant Live() && old(events) <= events && ledger.strays == old(ledger.strays) && Carried(old(At()), At())
        invariant found == old(found) + toolUses[..i]
      {
        ghost var mid := At();
        EmitHeuristicToolCall(toolUses[i]);
        CarriedTwice(old(At()), mid, At());
        assert toolUses[..i + 1] == toolUses[..i] + [toolUses[i]];
        i := i + 1;
      }
      assert toolUses[..i] == toolUses;
    }

    // ---- one chunk ----

    method ProcessPart(part: T.Chunk)
      requires Live()
      modifies this`messageID, this`messageOpen, this`messageText, this`reasoningID, this`reasoningOpen,
          this`reasoningSummary
      modifies this`tools, this`openTool, this`stored, this`output, this`minted, this`events, this`ledger, this`found
      modifies contentDSML, reasoningDSML
      modifies heuristicParser`mode, heuristicParser`buffer, heuristicParser`currentToolID,
          heuristicParser`currentFunctionName,
               heuristicParser`currentParameters, heuristicParser`serial
      ensures Live() && old(events) <= events && ledger.strays == old(ledger.strays) && Carried(old(At()), At())
      ensures View() == Hear(Set(), old(View()), part)
    {
      hide Live, Carried, H.FeedSpec, D.FeedStep;
      LiveIs();
      if part.kind == T.Thinking {
        EmitReasoningDelta(part.content);
        return;
      }
      NothingCarried(At());
      var filtered, toolUses := heuristicParser.Feed(part.content);
      if filtered != "" {
        EmitTextDelta(filtered);
      }
      ghost var mid := At();
      EmitHeuristicToolCalls(toolUses);
      CarriedTwice(old(At()), mid, At());
    }

    method ProcessContent(content: string)
      requires Live() && Told()
      modifies this`messageID, this`messageOpen, this`messageText, this`reasoningID, this`reasoningOpen,
          this`reasoningSummary
      modifies this`tools, this`openTool, this`stored, this`output, this`minted, this`events, this`ledger, this`found
      modifies this`script, thinkParser, contentDSML, reasoningDSML
      modifies heuristicParser`mode, heuristicParser`buffer, heuristicParser`currentToolID,
          heuristicParser`currentFunctionName,
               heuristicParser`currentParameters, heuristicParser`serial
      ensures Live() && Told() && old(events) <= events && ledger.strays == old(ledger.strays)
              && Carried(old(At()), At())
      ensures old(script) <= script && Input(script) == Input(old(script)) + [Content(content, [], false, "")]
    {
      hide *;
      ghost var f, a := View(), Action.Finish;
      ToldIs();
      NothingCarried(At());
      var parts;
      parts, a := FeedTags(content);
      ghost var f' := f.(inThink := a.inThink, held := a.held);
      HearNothing(Set(), f', parts);
      var i := 0;
      while i < |parts|
        invariant 0 <= i <= |parts|
        invariant Live() && old(events) <= events && ledger.strays == old(ledger.strays) && Carried(old(At()), At())
        invariant script == old(script) && View() == HearAll(Set(), f', parts[..i])
      {
        ghost var mid := At();
        HearNext(Set(), f', parts, i);
        ProcessPart(parts[i]);
        CarriedTwice(old(At()), mid, At());
        i := i + 1;
      }
      assert parts[..i] == parts;
      ContentAct(Set(), f, a);
      ActNext(Set(), script, f, a, View());
      script := script + [a];
      ToldNow();
    }

    lemma ToldIs()
      requires Told()
      ensures View() == Play(Set(), Begin(defend, 0), script) && Honest(Set(), Begin(defend, 0), script)
              && Set().defend == defend
    {
      hide Play, Honest, View;
    }

    lemma ToldNow()
      requires View() == Play(Set(), Begin(defend, 0), script) && Honest(Set(), Begin(defend, 0), script)
      ensures Told()
    {
      hide Play, Honest, View;
    }

    method FeedTags(content: string) returns (parts: seq<T.Chunk>, ghost a: Action)
      modifies thinkParser
      ensures a.Content? && a.text == content && a.parts == parts
      ensures View() == old(View()).(inThink := a.inThink, held := a.held) && Parsed(old(View()), a)
    {
      hide T.Owes, T.Flatten, HasSuffix, T.HeldBack, T.Parsed;
      parts := thinkParser.Feed(content);
      a := Content(content, parts, thinkParser.inThinkTag, thinkParser.buffer);
    }

    method TakeReasoning(text: string)
      requires Live() && Told()
      modifies this`reasoningID, this`reasoningOpen, this`reasoningSummary, this`messageOpen, this`tools, this`openTool,
          this`stored, this`output,
               this`minted, this`events, this`ledger, this`script, reasoningDSML
      ensures Live() && Told() && old(events) <= events && Carried(old(At()), At())
              && ledger.strays == old(ledger.strays)
      ensures old(script) <= script && Input(script) == Input(old(script)) + [Reason(text)]
    {
      hide *;
      ghost var f := View();
      ToldIs();
      EmitReasoningDelta(text);
      TextActs(Set(), f, text);
      ActNext(Set(), script, f, Reason(text), View());
      script := script + [Reason(text)];
      ToldNow();
    }

    method TakeRefusal(text: string)
      requires Live() && Told()
      modifies this`messageID, this`messageOpen, this`messageText, this`reasoningOpen, this`tools, this`openTool,
          this`stored, this`output,
               this`minted, this`events, this`ledger, this`script, contentDSML
      ensures Live() && Told() && old(events) <= events && Carried(old(At()), At())
              && ledger.strays == old(ledger.strays)
      ensures old(script) <= script && Input(script) == Input(old(script)) + [Refuse(text)]
    {
      hide *;
      ghost var f := View();
      ToldIs();
      EmitTextDelta(text);
      TextActs(Set(), f, text);
      ActNext(Set(), script, f, Refuse(text), View());
      script := script + [Refuse(text)];
      ToldNow();
    }

    method ProcessDelta(delta: U.Delta)
      requires Live() && Told() && Accounted()
      modifies this`messageID, this`messageOpen, this`messageText, this`reasoningID, this`reasoningOpen,
          this`reasoningSummary
      modifies this`tools, this`openTool, this`stored, this`output, this`minted, this`events, this`ledger, this`found
      modifies this`toolOrder, this`progress, this`script, thinkParser, contentDSML, reasoningDSML
      modifies heuristicParser`mode, heuristicParser`buffer, heuristicParser`currentToolID,
          heuristicParser`currentFunctionName,
               heuristicParser`currentParameters, heuristicParser`serial
      ensures Live() && Told() && Accounted() && old(events) <= events
      ensures progress == ArriveAll(Leave(old(progress), old(At().heard), At().heard), delta.toolCalls)
      ensures old(script) <= script && Input(script) == Input(old(script)) + DeltaActions(delta)
    {
      hide *;
      DeltaIs(delta, Input(script));
      NothingCarried(At());
      AccountedIs(this);
      AtIs();
      ghost var mid := At();
      if U.Presence(delta.reasoning) {
        TakeReasoning(ToolLog.Text(delta.reasoning));
      }
      mid := At();
      if U.Presence(delta.refusal) {
        TakeRefusal(ToolLog.Text(delta.refusal));
        CarriedTwice(old(At()), mid, At());
      }
      mid := At();
      if U.Presence(delta.content) {
        ProcessContent(ToolLog.Text(delta.content));
        CarriedTwice(old(At()), mid, At());
      }
      AtIs();
      CarryOn(old(At()), old(ledger.strays));
      ProcessToolCalls(delta.toolCalls);
      AtIs();
    }

    /** The call under way may have been ended. */
    ghost method CarryOn(was: Scene, strays: nat)
      requires Accounts(was, strays, defend, progress) && Carried(was, At()) && strays == ledger.strays
      modifies this`progress
      ensures Accounted() && progress == Leave(old(progress), was.heard, At().heard)
    {
      hide Accounts, Carried, Leave, At;
      AccountsText(was, At(), strays, defend, progress);
      progress := Leave(progress, was.heard, At().heard);
    }

    method ProcessToolCalls(calls: seq<ToolLog.ToolCallDelta>)
      requires Live() && Accounted()
      modifies this`reasoningOpen, this`messageOpen, this`tools, this`toolOrder, this`openTool, this`stored,
          this`output, this`minted, this`events, this`ledger
      modifies this`progress
      ensures Live() && Accounted() && old(events) <= events && progress == ArriveAll(old(progress), calls)
    {
      hide *;
      NoCalls(progress);
      var i := 0;
      assert calls[..0] == [];
      while i < |calls|
        invariant 0 <= i <= |calls| && Live() && Accounted() && old(events) <= events
                  && progress == ArriveAll(old(progress), calls[..i])
      {
        ghost var was, strays, serial := At(), ledger.strays, uuid(minted);
        AtIs();
        AccountedIs(this);
        LiveIs();
        ProcessToolCall(calls[i]);
        LiveIs();
        ArriveNow(was, strays, serial, calls[i]);
        NextCall(old(progress), calls, i);
        i := i + 1;
      }
      assert calls[..i] == calls;
    }

    /** A fragment has arrived. */
    ghost method ArriveNow(was: Scene, strays: nat, serial: string, tc: ToolLog.ToolCallDelta)
      requires Accounts(was, strays, defend, progress) && Consistent(was) && Consistent(At())
               && Advances(was, At(), tc, defend, serial)
      requires ledger.strays == strays + (if Late(was.tools, tc) then 1 else 0)
      modifies this`progress
      ensures Accounted() && progress == Arrive(old(progress), tc)
    {
      hide Accounts, Consistent, Advances, Arrive, At, Late;
      AccountsFragment(was, At(), strays, ledger.strays, defend, serial, progress, tc);
      progress := Arrive(progress, tc);
    }

    /** What has been taken in so far. */
    ghost function Taken(): Intake
      reads this`progress, this`script, this`finishReason, this`failure
    {
      Intake(progress.log, Input(script), finishReason, failure)
    }

    /** Consume one upstream chunk; the result is the events it produced. */
    method Process(c: U.Chunk) returns (produced: seq<Event>)
      requires Valid() && (!terminal ==> Told() && Accounted())
      modifies this`started, this`sawDone, this`failure, this`finishReason
      modifies this`messageID, this`messageOpen, this`messageText, this`reasoningID, this`reasoningOpen,
          this`reasoningSummary
      modifies this`tools, this`openTool, this`stored, this`output, this`minted, this`events, this`ledger, this`found
      modifies this`toolOrder, this`progress, this`script, thinkParser, contentDSML, reasoningDSML
      modifies heuristicParser`mode, heuristicParser`buffer, heuristicParser`currentToolID,
          heuristicParser`currentFunctionName,
               heuristicParser`currentParameters, heuristicParser`serial
      ensures Valid() && (!terminal ==> Told() && Accounted()) && events == old(events) + produced
              && (terminal ==> produced == []) && (!terminal ==> started)
      ensures old(script) <= script && Taken() == if terminal then old(Taken()) else TakeChunk(old(Taken()), c)
      ensures !terminal ==> sawDone == (old(sawDone) || (c.done && !c.readError))
      ensures progress == if terminal then old(progress)
              else ArriveAll(Leave(old(progress), old(At().heard), At().heard), CallsIn(c))
    {
      hide *;
      if terminal {
        return [];
      }
      var n := |events|;
      AccountedIs(this);
      EnsureStarted();
      StillAccounted(At(), old(ledger.strays));
      Consume(c);
      LiveValid();
      produced := events[n..];
    }

    lemma StillAccounted(x: Scene, strays: nat)
      requires Accounts(x, strays, defend, progress) && x == At() && strays == ledger.strays
      ensures Accounted()
    {
      hide Accounts, At;
    }

    /** The chunk's own part of Process. */
    method Consume(c: U.Chunk)
      requires Live() && Told() && Accounted()
      modifies this`sawDone, this`failure, this`finishReason
      modifies this`messageID, this`messageOpen, this`messageText, this`reasoningID, this`reasoningOpen,
          this`reasoningSummary
      modifies this`tools, this`openTool, this`stored, this`output, this`minted, this`events, this`ledger, this`found
      modifies this`toolOrder, this`progress, this`script, thinkParser, contentDSML, reasoningDSML
      modifies heuristicParser`mode, heuristicParser`buffer, heuristicParser`currentToolID,
          heuristicParser`currentFunctionName,
               heuristicParser`currentParameters, heuristicParser`serial
      ensures Live() && Told() && Accounted() && old(events) <= events
      ensures old(script) <= script && Taken() == TakeChunk(old(Taken()), c)
              && sawDone == (old(sawDone) || (c.done && !c.readError))
      ensures progress == ArriveAll(Leave(old(progress), old(At().heard), At().heard), CallsIn(c))
    {
      hide Live, Told, Accounts, DeltaActions, Input, Arrive, At;
      NoCalls(progress);
      if c.readError {
        failure := Some(StreamFailure("server_error",
                                      "Connection closed mid-response. The response above may be incomplete."));
        return;
      }
      if c.done {
        sawDone := true;
        return;
      }
      if c.error.Some? {
        var msg := c.error.value.message;
        if msg == "" {
          msg := "upstream error";
        }
        failure := Some(StreamFailure("server_error",
                                      "Server error mid-response. The response above may be incomplete. (upstream: "
            + msg + ")"));
        return;
      }
      if c.choices == [] {
        return;
      }
      var choice := c.choices[0];
      if U.Presence(choice.finishReason) {
        finishReason := choice.finishReason.value;
      }
      if choice.delta.Some? {
        ProcessDelta(choice.delta.value);
        TakenCalls(Leave(old(progress), old(At().heard), At().heard), choice.delta.value.toolCalls);
      }
    }

    lemma LiveValid()
      requires Live()
      ensures Valid() && started && !terminal
    {
    }

    method FlushParsers()
      requires Live() && Told()
      modifies this`messageID, this`messageOpen, this`messageText, this`reasoningID, this`reasoningOpen,
          this`reasoningSummary
      modifies this`tools, this`openTool, this`stored, this`output, this`minted, this`events, this`ledger, this`found
      modifies this`script, thinkParser, contentDSML, reasoningDSML
      modifies heuristicParser`mode, heuristicParser`buffer, heuristicParser`currentToolID,
          heuristicParser`currentFunctionName,
               heuristicParser`currentParameters, heuristicParser`serial
      ensures Live() && Told() && old(events) <= events && ledger.strays == old(ledger.strays)
              && Carried(old(At()), At())
      ensures old(script) <= script && Input(script) == Input(old(script)) + [Action.Finish]
    {
      hide *;
      ghost var f := View();
      ToldIs();
      FlushThinkTag();
      ghost var mid := At();
      FlushReasoning();
      CarriedTwice(old(At()), mid, At());
      mid := At();
      FlushHeuristic();
      CarriedTwice(old(At()), mid, At());
      FinishAct(Set(), f);
      ActNext(Set(), script, f, Action.Finish, View());
      script := script + [Action.Finish];
      ToldNow();
    }

    method FlushThinkTag()
      requires Live()
      modifies this`messageID, this`messageOpen, this`messageText, this`reasoningID, this`reasoningOpen,
          this`reasoningSummary
      modifies this`tools, this`openTool, this`stored, this`output, this`minted, this`events, this`ledger, this`found
      modifies thinkParser, contentDSML, reasoningDSML
      ensures Live() && old(events) <= events && ledger.strays == old(ledger.strays) && Carried(old(At()), At())
      ensures View() == ReleaseHeld(Set(), old(View())) && found == old(found)
    {
      hide Live, Carried, D.FeedStep;
      NothingCarried(At());
      assert reasoningSummary + "" == reasoningSummary;
      var remaining := thinkParser.Flush();
      if remaining != [] {
        if remaining[0].kind == T.Thinking {
          EmitReasoningDelta(remaining[0].content);
        } else {
          EmitTextDelta(remaining[0].content);
        }
      }
    }

    method FlushReasoning()
      requires Live()
      modifies this`reasoningID, this`reasoningOpen, this`reasoningSummary, this`messageOpen, this`tools, this`openTool,
          this`stored, this`output,
               this`minted, this`events, this`ledger, reasoningDSML
      ensures Live() && old(events) <= events && ledger.strays == old(ledger.strays) && Carried(old(At()), At())
      ensures View() == TextFlow.FlushReasoning(Set(), old(View()))
    {
      hide Live, SameCalls, KeptItems, D.FlushStep, Pending;
      NothingCarried(At());
      LiveIs();
      assert reasoningSummary + "" == reasoningSummary;
      if defend {
        var rest := reasoningDSML.Flush();
        if rest != "" {
          EmitReasoningRaw(rest);
        }
      }
    }

    method FlushHeuristic()
      requires Live()
      modifies this`messageID, this`messageOpen, this`messageText, this`reasoningID, this`reasoningOpen,
          this`reasoningSummary
      modifies this`tools, this`openTool, this`stored, this`output, this`minted, this`events, this`ledger, this`found
      modifies contentDSML
      modifies heuristicParser`mode, heuristicParser`buffer, heuristicParser`currentToolID,
          heuristicParser`currentFunctionName,
               heuristicParser`currentParameters, heuristicParser`serial
      ensures Live() && old(events) <= events && ledger.strays == old(ledger.strays) && Carried(old(At()), At())
      ensures View() == FlushContent(Set(), Release(Set(), old(View())))
    {
      hide *;
      ReleaseHeuristic();
      ghost var mid := At();
      FlushText();
      CarriedTwice(old(At()), mid, At());
    }

    method ReleaseHeuristic()
      requires Live()
      modifies this`messageID, this`messageOpen, this`messageText, this`reasoningID, this`reasoningOpen,
          this`reasoningSummary
      modifies this`tools, this`openTool, this`stored, this`output, this`minted, this`events, this`ledger, this`found
      modifies contentDSML
      modifies heuristicParser`mode, heuristicParser`buffer, heuristicParser`currentToolID,
          heuristicParser`currentFunctionName,
               heuristicParser`currentParameters, heuristicParser`serial
      ensures Live() && old(events) <= events && ledger.strays == old(ledger.strays) && Carried(old(At()), At())
      ensures View() == Release(Set(), old(View()))
    {
      hide Live, Carried, H.FlushSpec, D.FeedStep;
      NothingCarried(At());
      LiveIs();
      var filtered, toolUses := heuristicParser.Flush();
      if filtered != "" {
        EmitTextDelta(filtered);
      }
      ghost var mid := At();
      EmitHeuristicToolCalls(toolUses);
      CarriedTwice(old(At()), mid, At());
    }

    method FlushText()
      requires Live()
      modifies this`messageID, this`messageOpen, this`messageText, this`reasoningOpen, this`tools, this`openTool,
          this`stored, this`output,
               this`minted, this`events, this`ledger, contentDSML
      ensures Live() && old(events) <= events && ledger.strays == old(ledger.strays) && Carried(old(At()), At())
      ensures View() == FlushContent(Set(), old(View()))
    {
      hide Live, SameCalls, KeptItems, D.FlushStep, Pending;
      NothingCarried(At());
      LiveIs();
      assert messageText + "" == messageText;
      if defend {
        var rest := contentDSML.Flush();
        if rest != "" {
          EmitTextRaw(rest);
        }
      }
    }

    function TerminalStatus(): Status
      reads this`failure, this`finishReason
    {
      if failure.Some? then Failed
      else if finishReason == "length" then Incomplete("max_output_tokens")
      else if finishReason == "content_filter" then Incomplete("content_filter")
      else Completed
    }

    method ProcessAll(chunks: seq<U.Chunk>)
      requires Valid() && !terminal && Told() && Accounted() && Taken() == TakeAll([]) && progress == NOTHING
               && script == []
      modifies this`started, this`sawDone, this`failure, this`finishReason
      modifies this`messageID, this`messageOpen, this`messageText, this`reasoningID, this`reasoningOpen,
          this`reasoningSummary
      modifies this`tools, this`openTool, this`stored, this`output, this`minted, this`events, this`ledger, this`found
      modifies this`toolOrder, this`progress, this`script, thinkParser, contentDSML, reasoningDSML
      modifies heuristicParser`mode, heuristicParser`buffer, heuristicParser`currentToolID,
          heuristicParser`currentFunctionName,
               heuristicParser`currentParameters, heuristicParser`serial
      ensures Valid() && !terminal && Told() && Accounted() && Taken() == TakeAll(chunks)
              && progress == Watch(Set(), chunks)
    {
      hide *;
      var i := 0;
      assert chunks[..0] == [];
      NoChunks(Set());
      while i < |chunks|
        invariant 0 <= i <= |chunks| && Valid() && !terminal && Told() && Accounted()
        invariant Taken() == TakeAll(chunks[..i]) && progress == Watch(Set(), chunks[..i])
      {
        ghost var was := script;
        TakenIs(this);
        HeardIs(this);
        ToldIs();
        var produced := Process(chunks[i]);
        TakenIs(this);
        HeardIs(this);
        ToldIs();
        assert chunks[..i + 1] == chunks[..i] + [chunks[i]];
        TakeAllSnoc(chunks[..i], chunks[i]);
        WatchNext(Set(), was, script, chunks, i);
        i := i + 1;
      }
      assert chunks[..i] == chunks;
    }

    /** Flush, finish what is under way, and send the terminal event. */
    method Finish() returns (produced: seq<Event>)
      requires Valid() && (!terminal ==> Told())
      modifies this`started, this`terminal
      modifies this`messageID, this`messageOpen, this`messageText, this`reasoningID, this`reasoningOpen,
          this`reasoningSummary
      modifies this`tools, this`openTool, this`stored, this`output, this`minted, this`events, this`ledger, this`found
      modifies this`script, thinkParser, contentDSML, reasoningDSML
      modifies heuristicParser`mode, heuristicParser`buffer, heuristicParser`currentToolID,
          heuristicParser`currentFunctionName,
               heuristicParser`currentParameters, heuristicParser`serial
      ensures Valid() && terminal && events == old(events) + produced
      ensures old(terminal) ==> produced == []
      ensures !old(terminal) ==> produced != [] && produced[|produced| - 1] == Terminal(TerminalStatus(), output)
      ensures !old(terminal) ==>
              !reasoningOpen && !messageOpen && openTool == None
              && ledger.strays == old(ledger.strays)
      ensures !old(terminal) ==>
              Told() && old(script) <= script
              && Input(script) == Input(old(script)) + [Action.Finish] && Kept(old(At()), At())
    {
      hide *;
      if terminal {
        return [];
      }
      var n := |events|;
      EnsureStarted();
      FlushParsers();
      ghost var mid := At();
      CloseItems();
      CarriedIs(old(At()), mid);
      KeptTwice(old(At()), mid, At());
      EndStream();
      produced := events[n..];
      assert events[|events| - 1] == produced[|produced| - 1];
    }

    lemma OpenIsOrdered()
      requires Live()
      ensures openTool.Some? ==> openTool.value in toolOrder
      ensures forall t :: t in toolOrder ==> t in tools
    {
      hide Replay, Sound, FreshIDs, Stored;
      SoundIs(Ours(), ledger, Here());
    }

    /** What is still under way is finished: reasoning, message, then the calls. */
    method CloseItems()
      requires Live()
      modifies this`reasoningOpen, this`messageOpen, this`tools, this`openTool, this`stored, this`output, this`events,
          this`ledger
      ensures Live() && old(events) <= events && ledger.strays == old(ledger.strays)
      ensures !reasoningOpen && !messageOpen && openTool == None && Kept(old(At()), At())
    {
      hide Live, SameCalls, KeptItems;
      NothingCarried(At());
      CloseReasoning();
      CloseMessage();
      OpenIsOrdered();
      var i := 0;
      while i < |toolOrder|
        invariant 0 <= i <= |toolOrder|
        invariant Live() && old(events) <= events && !reasoningOpen && !messageOpen
                  && ledger.strays == old(ledger.strays)
        invariant openTool.Some? ==> openTool.value in toolOrder[i..]
        invariant forall t :: t in toolOrder ==> t in tools
        invariant Kept(old(At()), At())
      {
        ghost var mid := At();
        CloseToolItem(toolOrder[i]);
        KeptTwice(old(At()), mid, At());
        assert toolOrder[i..] == [toolOrder[i]] + toolOrder[i + 1..];
        i := i + 1;
      }
    }

    lemma MayEnd()
      requires Live() && !reasoningOpen && !messageOpen && openTool == None
      ensures Step(ledger, Terminal(TerminalStatus(), output)) == Some(ledger.(phase := Over))
              && Sound(Ours(), ledger.(phase := Over), Here())
    {
      hide Replay, Sound, FreshIDs, Stored, Ordered;
      SoundIs(Ours(), ledger, Here());
      PhaseChanges(Ours(), ledger, Here(), Over);
    }

    /** In the original the flag is raised first; nothing reads it in between. */
    method EndStream()
      requires Live() && !reasoningOpen && !messageOpen && openTool == None
      modifies this`terminal, this`events, this`ledger
      ensures Valid() && terminal && events == old(events) + [Terminal(TerminalStatus(), output)]
              && ledger.strays == old(ledger.strays)
    {
      hide Replay, Sound, Idle;
      MayEnd();
      terminal := true;
      Emit(Terminal(TerminalStatus(), output));
    }
  }

  /**
   * What a client of the stream is sent, from the first chunk to the end, and the items that are stored: `stored`
   * holds the item of each native call. No delta of arguments reaches a finished item if and only if every item
   * holds all the arguments of its call.
   */
  method Respond(codec: Json.Codec, uuid: nat -> string, defend: bool, chunks: seq<U.Chunk>)
      returns (events: seq<Event>, output: seq<Item>, failure: Option<StreamFailure>, ghost stored: map<nat, Item>)
    // The item protocol.
    ensures Replay(BLANK, events).Some?
    ensures var l := Replay(BLANK, events).value; l.phase == Over && l.open == None
    ensures events != [] && events[|events| - 1].Terminal? && events[|events| - 1].output == output == DoneItems(events)
    ensures Distinct(output) && forall item <- output :: Identified(item)
    // How it ends.
    ensures events[|events| - 1].status == StatusOf(TakeAll(chunks)) && failure == TakeAll(chunks).failure
    // Text and reasoning are what the parsers and filters make of what came in.
    ensures var l, f := Replay(BLANK, events).value, FlowAtEnd(Setting(codec, defend, true), chunks);
            l.said == f.text && l.thought == f.reasoning
    // The calls stored are the native ones, and those found in the text in their order.
    ensures Watch(Setting(codec, defend, true), chunks).log == Gather(I.FragmentsIn, I.Taken(chunks))
    ensures CallsStored(defend, stored, output, Watch(Setting(codec, defend, true), chunks))
    ensures TextCalls(output, IDsOf(stored)) == Written(codec, FlowAtEnd(Setting(codec, defend, true), chunks).calls)
    ensures defend ==> OwnCallIDs(uuid, output) && (ToolLog.Random(uuid) ==> DistinctCalls(output))
    // What comes late.
    ensures Replay(BLANK, events).value.strays == Strays(Watch(Setting(codec, defend, true), chunks).late)
    ensures Replay(BLANK, events).value.strays == 0 <==> forall t :: t in stored ==>
            stored[t].text == ToolLog.ArgsFor(Gather(I.FragmentsIn, I.Taken(chunks)), t)
    ensures StrictlyByIndex(chunks) ==> Watch(Setting(codec, defend, true), chunks).late == []
    // What was taken in is what the chunks hold, field by field and in order.
    ensures I.Takes(TakeAll(chunks), I.Taken(chunks))
    // A response of quiet text, however it was cut.
    ensures I.PlainChunks(defend, I.Taken(chunks)) ==>
              var l := Replay(BLANK, events).value;
              P.ReadsScan(defend, Join(Gather(I.ContentIn, I.Taken(chunks))), l.said, l.thought)
    // A response of anything at all, when nothing in its content is a tag or a call.
    ensures I.SimpleChunks(defend, I.Taken(chunks)) ==>
              var l, ds := Replay(BLANK, events).value, I.Taken(chunks);
              l.said == P.Whole(defend, I.Spoken(ds)) && l.thought == P.Whole(defend, Join(Gather(L.ReasoningIn, ds)))
  {
    hide *;
    ghost var g := Setting(codec, defend, true);
    var t := new Translator(codec, uuid, defend);
    assert t.Told() && t.Taken() == TakeAll([]) && t.Accounted() by { Starts(t); }
    ViewIs(t);
    t.ProcessAll(chunks);
    ghost var x, strays, p := t.At(), t.ledger.strays, t.progress;
    AccountedIs(t);
    TakenIs(t);
    var last := t.Finish();
    events, output, failure, stored := t.events, t.output, t.failure, t.stored;
    assert events[|events| - 1] == last[|last| - 1];
    IsOver(t);
    DoneIsDone(events);
    DoneAreDistinct(events);
    DoneAreIdentified(events);
    StatusIs(t, TakeAll(chunks));
    t.ToldIs();
    ViewIs(t);
    EndIs(g, t.script, chunks);
    WatchLog(g, chunks);
    AllStored(Terms(codec, uuid, defend), x, t.At(), strays, p, t.Here());
    AllArguments(defend, stored, output, p);
    if StrictlyByIndex(chunks) { StrictIsNeverLate(g, chunks); }
    I.AllTaken(chunks);
    assert TakeAll(chunks).calls == Gather(I.FragmentsIn, I.Taken(chunks)) by { I.CallsTaken(chunks); }
    if I.PlainChunks(defend, I.Taken(chunks)) {
      I.PlainTaken(defend, chunks);
      P.PlainInput(g, t.script, TakeAll(chunks).actions);
    }
    if I.SimpleChunks(defend, I.Taken(chunks)) {
      I.SimpleTaken(defend, chunks);
      M.MixedInput(g, t.script, TakeAll(chunks).actions);
    }
  }

  lemma Starts(t: Translator)
    requires t.Valid() && t.events == [] && t.tools == map[] && t.stored == map[] && t.openTool == None
             && t.messageText == "" && t.reasoningSummary == ""
    requires t.View() == Begin(t.defend, 0) && t.script == [] && t.found == [] && t.progress == NOTHING
             && t.finishReason == "" && t.failure == None
    ensures t.Told() && t.Taken() == TakeAll([]) && t.Accounted()
  {
    NothingAccounted();
  }

  lemma TakenIs(t: Translator)
    ensures t.Taken() == Intake(t.progress.log, Input(t.script), t.finishReason, t.failure)
  {
  }

  lemma AccountedIs(t: Translator)
    requires t.Accounted()
    ensures Accounts(t.At(), t.ledger.strays, t.defend, t.progress)
  {
    hide Accounts;
  }

  lemma HeardIs(t: Translator)
    ensures t.At().heard == Volume(t.View())
  {
  }

  lemma IsOver(t: Translator)
    requires t.Valid() && t.terminal && !t.reasoningOpen && !t.messageOpen && t.openTool == None
    ensures Replay(BLANK, t.events) == Some(t.ledger) && t.ledger.phase == Over && t.ledger.open == None
            && t.ledger.done == t.output
    ensures t.ledger.said == t.messageText && t.ledger.thought == t.reasoningSummary
    ensures Stored(t.Ours(), t.Here().stock) && FreshIDs(t.Here()) && Consistent(t.At()) && t.At().open == None
    ensures t.Here().stock == Stock(t.tools, t.stored, t.output, t.found, t.minted) && t.At().tools == t.tools
            && t.At().stored == t.stored
    ensures t.Ours() == Terms(t.codec, t.uuid, t.defend)
  {
    hide Replay, Sound, FreshIDs, TextCalls, Written, NativeIDs, CallIDs, Ordered;
    SoundIs(t.Ours(), t.ledger, t.Here());
  }

  lemma ViewIs(t: Translator)
    ensures t.View().text == t.messageText && t.View().reasoning == t.reasoningSummary && t.View().calls == t.found
    ensures t.Set() == Setting(t.codec, t.defend, true)
  {
  }

  lemma StatusIs(t: Translator, k: Intake)
    requires k.failure == t.failure && k.reason == t.finishReason
    ensures t.TerminalStatus() == StatusOf(k)
  {
  }
}
