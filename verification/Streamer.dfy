/**
 * The streaming converter (internal/stream/stream.go): upstream chat chunks in, the events of one
 * Anthropic message out, with two kinds of bounded upstream retry.
 */
module Streamer {
  import opened Wrappers
  import opened Strings
  import opened Sequences
  import opened Events
  import opened TextFlow
  import opened ToolLog
  import opened Upstream
  import opened PlainRun
  import opened Turn
  import B = Builder
  import T = ThinkTag
  import H = HeuristicTool
  import D = Dsml
  import Json
  import L = Heard
  import M = MixedRun

  class Streamer {
    const codec: Json.Codec
    const uuid: nat -> string
    const takes: nat -> bool  // does the consumer go on after this many events?
    const req: Request
    const o: Options

    var chunks: seq<Chunk>
    var builder: B.Builder
    var thinkParser: T.ThinkTagParser
    var heuristicParser: H.HeuristicToolParser
    var contentDSML: D.DSMLFilter
    var reasoningDSML: D.DSMLFilter
    var finishReason: string
    var seenDone: bool
    var err: Option<StreamError>
    var minted: nat

    // The events the consumer has taken, and whether it has stopped taking them.
    var out: seq<Event>
    var stop: bool

    ghost var issued: seq<Event>         // every event emitted, taken or not
    ghost var seen: seq<ToolCallDelta>   // the fragments behind the tool states that are kept
    ghost var script: seq<Action>        // what has come in for the parsers
    ghost var found: seq<H.ToolUse>      // the calls found in the text
    ghost var serials: map<nat, nat>     // the random number behind the id of a call

    /**
     * The consumer has a prefix of what was emitted, and all of it
     * unless it stopped; calls found in the text were emitted whole.
     */
    ghost predicate Delivering()
      reads this`out, this`stop, this`issued, this`found
    {
      && out <= issued && (forall n :: 0 < n < |out| ==> takes(n))
      && (if stop then |out| > 0 && !takes(|out|) else out == issued && (out != [] ==> takes(|out|)))
      && Sent(codec, uuid, issued, found)
    }

    ghost predicate Base()
      reads this`out, this`stop, this`issued, this`found, this`builder, this`heuristicParser, this`contentDSML,
          this`reasoningDSML
      reads builder, heuristicParser`stripControlTokens
    {
      && Delivering() && contentDSML != reasoningDSML
      && builder.Valid() && builder.trace == issued && builder.codec == codec
      && builder.ledger.phase == Streaming && builder.origin == Origin(o.startingBlockIndex, o.skipLifecycle)
      && heuristicParser.codec == codec && heuristicParser.stripControlTokens == o.defend
    }

    function Set(): Setting
    {
      Setting(codec, o.defend, o.thinkingEnabled)
    }

    /** What the parsers and filters hold, and what has come out of them. */
    ghost function View(): Flow
      reads this`builder, this`thinkParser, this`heuristicParser, this`contentDSML, this`reasoningDSML, this`found
      reads builder`accumulatedText, builder`accumulatedReasoning, thinkParser, heuristicParser, contentDSML,
          reasoningDSML
    {
      Flow(thinkParser.inThinkTag, thinkParser.buffer, heuristicParser.Now(), contentDSML.buf, reasoningDSML.buf,
           Join(builder.accumulatedText), Join(builder.accumulatedReasoning), found)
    }

    /** The parsers, filters and accumulators are where what has come in has brought them. */
    ghost predicate Told()
      reads this`builder, this`thinkParser, this`heuristicParser, this`contentDSML, this`reasoningDSML, this`found,
          this`script
      reads builder`accumulatedText, builder`accumulatedReasoning, thinkParser, heuristicParser, contentDSML,
          reasoningDSML
    {
      View() == Play(Set(), Begin(o.defend, 0), script) && Honest(Set(), Begin(o.defend, 0), script)
    }

    /** The states of the calls agree with their fragments, and their blocks have their names. */
    ghost predicate Tracking()
      reads this`builder, this`seen, this`minted, this`serials, builder`toolStates, builder`names
    {
      AllTrack(codec, builder.toolStates, seen) && AllNamed(builder.toolStates, builder.names, req.toolNames, seen)
          && Minting()
    }

    /** While defending, the ids of the calls are the proxy's own. */
    ghost predicate Minting()
      reads this`builder, this`minted, this`serials, builder`toolStates
    {
      o.defend ==> AllMinted(uuid, builder.toolStates, serials, minted)
    }

    /** The start of the original's run is part of making the streamer. */
    constructor (codec: Json.Codec, sign: string -> string, uuid: nat -> string, takes: nat -> bool,
                 chunks: seq<Chunk>, req: Request, o: Options)
      ensures this.codec == codec && this.uuid == uuid && this.takes == takes && this.o == o && this.req == req
              && this.chunks == chunks
      ensures fresh(builder) && fresh(thinkParser) && fresh(heuristicParser) && fresh(contentDSML)
              && fresh(reasoningDSML)
      ensures builder.Valid() && builder.trace == [] && builder.origin == Origin(o.startingBlockIndex, o.skipLifecycle)
      ensures builder.ledger == builder.origin && builder.codec == codec && builder.sign == sign
      ensures heuristicParser.codec == codec && heuristicParser.stripControlTokens == o.defend
      ensures contentDSML != reasoningDSML
      ensures issued == out == [] && !stop && seen == [] && script == [] && found == [] && serials == map[]
              && builder.toolStates == map[] && err == None
      ensures View() == Begin(o.defend, 0) && finishReason == "" && !seenDone && !builder.thinkingStarted
              && !builder.textStarted
    {
      this.codec, this.uuid, this.takes, this.chunks, this.req, this.o := codec, uuid, takes, chunks, req, o;
      builder := new B.Builder(codec, sign, o.skipLifecycle);
      thinkParser := new T.ThinkTagParser();
      heuristicParser := new H.HeuristicToolParser(codec, o.defend, 0);
      contentDSML := new D.DSMLFilter();
      reasoningDSML := new D.DSMLFilter();
      finishReason, seenDone, err, minted := "", false, None, 0;
      out, stop, issued, seen, script, found, serials := [], false, [], [], [], [], map[];
      new;
      builder.SetNextIndex(o.startingBlockIndex);
    }

    method Emit(e: Event)
      requires Delivering()
      modifies this`out, this`stop, this`issued
      ensures Delivering() && issued == old(issued) + [e] && (old(stop) ==> stop)
    {
      hide Sent;
      SentMore(codec, uuid, issued, [e], found);
      issued := issued + [e];
      if stop {
        return;
      }
      out := out + [e];
      if !takes(|out|) {
        stop := true;
      }
    }

    method EmitAll(events: seq<Event>)
      requires Delivering()
      modifies this`out, this`stop, this`issued
      ensures Delivering() && issued == old(issued) + events && (old(stop) ==> stop)
    {
      hide Delivering;
      var i := 0;
      while i < |events|
        invariant 0 <= i <= |events|
        invariant Delivering() && issued == old(issued) + events[..i] && (old(stop) ==> stop)
      {
        Emit(events[i]);
        assert events[..i + 1] == events[..i] + [events[i]];
        i := i + 1;
      }
      assert events[..i] == events;
    }

    // ---- text and reasoning ----

    method EmitVisibleText(text: string)
      requires Base()
      modifies this`out, this`stop, this`issued, contentDSML
      modifies builder`nextIndex, builder`textIndex, builder`thinkingStarted, builder`textStarted
      modifies builder`accumulatedText, builder`trace, builder`ledger
      ensures Base() && (old(stop) ==> stop)
      ensures View() == Say(Set(), old(View()), text)
    {
      hide B.Builder.Valid, Join, D.FeedStep, D.StripTags, D.Held, TrimSpace, Delivering;
      assert Join(builder.accumulatedText) + "" == Join(builder.accumulatedText);
      if text == "" {
        return;
      }
      var visible := text;
      if o.defend {
        visible := contentDSML.Feed(text);
      }
      if visible == "" {
        return;
      }
      EnsureTextBlock();
      JoinAppend(builder.accumulatedText, visible);
      var e := builder.TextDelta(visible);
      Emit(e);
    }

    method EnsureTextBlock()
      requires Base()
      modifies this`out, this`stop, this`issued
      modifies builder`nextIndex, builder`textIndex, builder`thinkingStarted, builder`textStarted, builder`trace,
          builder`ledger
      ensures Base() && builder.textStarted && (old(stop) ==> stop)
    {
      hide B.Builder.Valid, Delivering;
      var events := builder.EnsureTextBlock();
      EmitAll(events);
    }

    method EmitReasoningDelta(text: string)
      requires Base()
      modifies this`out, this`stop, this`issued, reasoningDSML
      modifies builder`nextIndex, builder`thinkingIndex, builder`thinkingStarted, builder`textStarted,
          builder`thinkingAccum
      modifies builder`accumulatedReasoning, builder`trace, builder`ledger
      ensures Base() && (old(stop) ==> stop)
      ensures View() == Ponder(Set(), old(View()), text)
    {
      hide B.Builder.Valid, Join, D.FeedStep, D.StripTags, D.Held, TrimSpace, Delivering;
      assert Join(builder.accumulatedReasoning) + "" == Join(builder.accumulatedReasoning);
      if text == "" || !o.thinkingEnabled {
        return;
      }
      var thought := text;
      if o.defend {
        thought := reasoningDSML.Feed(text);
      }
      if thought == "" {
        return;
      }
      EmitThought(thought);
    }

    method EmitThought(thought: string)
      requires Base()
      modifies this`out, this`stop, this`issued
      modifies builder`nextIndex, builder`thinkingIndex, builder`thinkingStarted, builder`textStarted,
          builder`thinkingAccum
      modifies builder`accumulatedReasoning, builder`trace, builder`ledger
      ensures Base() && (old(stop) ==> stop)
      ensures Join(builder.accumulatedReasoning) == Join(old(builder.accumulatedReasoning)) + thought
    {
      hide B.Builder.Valid, Delivering, Join;
      var events := builder.EnsureThinkingBlock();
      EmitAll(events);
      JoinAppend(builder.accumulatedReasoning, thought);
      var e := builder.EmitThinkingDelta(thought);
      Emit(e);
    }

    method FlushReasoningDSML()
      requires Base()
      modifies this`out, this`stop, this`issued, reasoningDSML
      modifies builder`nextIndex, builder`thinkingIndex, builder`thinkingStarted, builder`textStarted,
          builder`thinkingAccum
      modifies builder`accumulatedReasoning, builder`trace, builder`ledger
      ensures Base() && (old(stop) ==> stop)
      ensures View() == FlushReasoning(Set(), old(View()))
    {
      hide B.Builder.Valid, D.FlushStep, Delivering, Join;
      if !o.defend {
        return;
      }
      assert Join(builder.accumulatedReasoning) + "" == Join(builder.accumulatedReasoning);
      var rest := reasoningDSML.Flush();
      if rest != "" {
        EmitThought(rest);
      }
    }

    method FlushContentDSML()
      requires Base()
      modifies this`out, this`stop, this`issued, contentDSML
      modifies builder`nextIndex, builder`textIndex, builder`thinkingStarted, builder`textStarted
      modifies builder`accumulatedText, builder`trace, builder`ledger
      ensures Base() && (old(stop) ==> stop)
      ensures View() == FlushContent(Set(), old(View()))
    {
      hide B.Builder.Valid, D.FlushStep, Delivering, Join;
      if !o.defend {
        return;
      }
      assert Join(builder.accumulatedText) + "" == Join(builder.accumulatedText);
      var rest := contentDSML.Flush();
      if rest != "" {
        EnsureTextBlock();
        JoinAppend(builder.accumulatedText, rest);
        var e := builder.TextDelta(rest);
        Emit(e);
      }
    }

    method CloseContentBlocks()
      requires Base()
      modifies this`out, this`stop, this`issued
      modifies builder`thinkingStarted, builder`textStarted, builder`trace, builder`ledger
      ensures Base() && (old(stop) ==> stop) && !builder.thinkingStarted && !builder.textStarted
      ensures issued == old(issued) + old(Closers())
    {
      hide B.Builder.Valid, Delivering;
      var events := builder.CloseContentBlocks();
      EmitAll(events);
    }

    /** What stops the text or thinking block that is open, if any. */
    ghost function Closers(): seq<Event>
      reads this`builder, builder
    {
      B.ContentClosers(builder.thinkingStarted, builder.thinkingIndex, builder.sign(builder.thinkingAccum),
                       builder.textStarted, builder.textIndex)
    }

    // ---- tool calls ----

    /** A call found in the text is sent as one whole block. */
    method IterHeuristicToolUseSse(toolUse: H.ToolUse)
      requires Base()
      modifies this`out, this`stop, this`issued, this`found
      modifies builder`nextIndex, builder`thinkingStarted, builder`textStarted, builder`trace, builder`ledger
      ensures Base() && (old(stop) ==> stop)
      ensures found == old(found) + [toolUse]
      ensures issued == old(issued) + old(Closers()) + CallBlock(codec, uuid, toolUse, old(builder.nextIndex))
    {
      hide *;
      var input := if toolUse.name == TASK then B.Foreground(toolUse.input) else toolUse.input;
      CloseContentBlocks();
      ForegroundIs(toolUse);
      SendWholeCall(toolUse, "toolu_heuristic_" + uuid(toolUse.id), codec.canonical(input));
    }

    lemma ForegroundIs(u: H.ToolUse)
      ensures ForegroundInput(u) == if u.name == TASK then B.Foreground(u.input) else u.input
    {
    }

    method SendWholeCall(toolUse: H.ToolUse, id: string, json: string)
      requires Base() && !builder.thinkingStarted && !builder.textStarted && id == "toolu_heuristic_" + uuid(toolUse.id)
               && json == codec.canonical(ForegroundInput(toolUse))
      modifies this`out, this`stop, this`issued, this`found, builder`nextIndex, builder`trace, builder`ledger
      ensures Base() && (old(stop) ==> stop) && found == old(found) + [toolUse]
      ensures issued == old(issued) + CallBlock(codec, uuid, toolUse, old(builder.nextIndex))
    {
      hide B.Builder.Valid, B.Builder.Reserved, Sent, CallBlock, ForegroundInput;
      SentNow(codec, uuid, issued, found, toolUse, builder.nextIndex);
      CallBlockIs(codec, uuid, issued, toolUse, builder.nextIndex);
      var blockIdx := builder.AllocateIndex();
      LedgerNext();
      builder.SettleWholeTool(id, toolUse.name, json);
      Emit(BlockStart(blockIdx, ToolBlock, id, toolUse.name));
      Emit(InputJsonDelta(blockIdx, json));
      Emit(BlockStop(blockIdx));
      found := found + [toolUse];
    }

    lemma LedgerNext()
      requires builder.Reserved()
      ensures builder.ledger.next + 1 == builder.nextIndex
    {
    }

    method EmitHeuristicTools(tools: seq<H.ToolUse>)
      requires Base()
      modifies this`out, this`stop, this`issued, this`found
      modifies builder`nextIndex, builder`thinkingStarted, builder`textStarted, builder`trace, builder`ledger
      ensures Base() && (old(stop) ==> stop) && found == old(found) + tools
    {
      hide *;
      var i := 0;
      while i < |tools|
        invariant 0 <= i <= |tools|
        invariant Base() && (old(stop) ==> stop) && found == old(found) + tools[..i]
      {
        IterHeuristicToolUseSse(tools[i]);
        assert tools[..i + 1] == tools[..i] + [tools[i]];
        i := i + 1;
      }
      assert tools[..i] == tools;
    }

    /** A random id. */
    method MintId(prefix: string) returns (id: string)
      modifies this`minted
      ensures id == prefix + uuid(old(minted)) && minted == old(minted) + 1
    {
      id := prefix + uuid(minted);
      minted := minted + 1;
    }

    /** One call's Task arguments: buffered, and sent once they parse. */
    method GiveTaskArgs(index: nat, args: string)
      requires Base() && index in builder.toolStates && builder.toolStates[index].started
      modifies this`out, this`stop, this`issued, builder`toolStates, builder`trace, builder`ledger
      ensures Base() && (old(stop) ==> stop)
      ensures builder.toolStates == old(builder.toolStates)[index := TakeTask(codec, old(builder.toolStates)[index],
                args)]
    {
      hide B.Builder.Valid, Delivering;
      var argsJSON := builder.BufferTaskArgs(index, args);
      if argsJSON.Some? {
        var e := builder.EmitToolDelta(index, codec.canonical(argsJSON.value));
        Emit(e);
      }
    }

    method GiveArgs(index: nat, resolved: string, args: string)
      requires Base() && index in builder.toolStates && builder.toolStates[index].started
      modifies this`out, this`stop, this`issued, builder`toolStates, builder`trace, builder`ledger
      ensures Base() && (old(stop) ==> stop)
      ensures builder.toolStates == old(builder.toolStates)[index :=
                Give(codec, old(builder.toolStates)[index], resolved, args)]
    {
      hide B.Builder.Valid, Delivering;
      if args == "" {
        return;
      }
      if resolved == TASK {
        GiveTaskArgs(index, args);
        return;
      }
      var e := builder.EmitToolDelta(index, args);
      Emit(e);
    }

    /** Start the block of a call whose name is known and send what was held back for it. */
    method BeginTool(index: nat, id: string, resolved: string)
      requires Base() && index in builder.toolStates && !builder.toolStates[index].started && id != ""
      requires !builder.thinkingStarted && !builder.textStarted
      requires resolved == TrimSpace(builder.toolStates[index].name)
      modifies this`out, this`stop, this`issued
      modifies builder`nextIndex, builder`toolStates, builder`toolOrder, builder`trace, builder`ledger, builder`owner,
          builder`names
      ensures Base() && (old(stop) ==> stop)
      ensures builder.toolStates == old(builder.toolStates)[index :=
                Begun(codec, old(builder.toolStates)[index], old(builder.nextIndex), id)]
      ensures builder.toolStates[index].started && builder.names == old(builder.names)[index := resolved]
    {
      hide B.Builder.Valid, TrimSpace, Delivering;
      var e := builder.StartToolBlock(index, id, resolved);
      Emit(e);
      var pre := builder.toolStates[index].preStartArgs;
      if pre != "" {
        builder.SetToolPreStartArgs(index, "");
        GiveArgs(index, resolved, pre);
      }
    }

    method ProcessToolCall(tc: ToolCallDelta)
      requires Base() && Tracking() && !builder.thinkingStarted && !builder.textStarted
      modifies this`out, this`stop, this`issued, this`minted, this`serials, this`seen
      modifies builder`nextIndex, builder`toolStates, builder`toolOrder, builder`trace, builder`ledger, builder`owner,
          builder`names
      ensures Base() && (old(stop) ==> stop)
      ensures seen == old(seen) + [tc] && Tracking()
      ensures var st := B.ToolAt(old(builder.toolStates), tc.index);
              var id := CallID(st, tc, o.defend, uuid(old(minted)));
              B.ToolAt(builder.toolStates, tc.index) ==
                Advance(codec, Named(st, tc, id), old(builder.nextIndex), if id != "" then id
                      else "tool_" + uuid(old(minted)), ToolLog.Text(tc.args))
    {
      hide B.Builder.Valid, Delivering, TrimSpace, AllTrack, AllNamed, Tracks, Advance;
      var t, args := tc.index, ToolLog.Text(tc.args);
      RegisterCall(tc);
      ghost var named, block := B.ToolAt(builder.toolStates, t), builder.nextIndex;
      var resolvedID := B.ToolAt(builder.toolStates, t).toolID;
      if resolvedID == "" {
        resolvedID := ToolLog.Text(tc.id);
      }
      if resolvedID == "" {
        resolvedID := MintId("tool_");
      }
      AdvanceCall(t, resolvedID, args);
      seen := seen + [tc];
      AllTrackNext(codec, old(builder.toolStates), old(seen), builder.toolStates, tc, named.toolID, block, resolvedID);
      NamedNext(codec, old(builder.toolStates), old(builder.names), req.toolNames, old(seen), builder.toolStates,
                builder.names, tc);
      AdvancedID(codec, named, block, resolvedID, args);
      Remint(old(builder.toolStates), old(minted), t);
    }

    /** A call may have got an id from the next random number. */
    ghost method Remint(states: map<nat, B.ToolCallState>, before: nat, t: nat)
      requires before <= minted && OnlyAt(states, builder.toolStates, t)
               && (o.defend ==> AllMinted(uuid, states, serials, before))
      requires var id := B.ToolAt(builder.toolStates, t).toolID;
               o.defend ==>
                   id == "" || id == B.ToolAt(states, t).toolID
                   || (MintedAs(uuid, id, before) && before < minted)
      modifies this`serials
      ensures Minting()
    {
      hide AllMinted, MintedAs;
      if o.defend {
        MintedNext(uuid, states, serials, before, builder.toolStates, t, minted);
        serials := NextSerials(serials, B.ToolAt(states, t).toolID, B.ToolAt(builder.toolStates, t).toolID, t, before);
      }
    }

    /** Start the block once the name is known, then hold the arguments back or send them. */
    method AdvanceCall(t: nat, resolvedID: string, args: string)
      requires Base() && resolvedID != "" && !builder.thinkingStarted && !builder.textStarted
      modifies this`out, this`stop, this`issued
      modifies builder`nextIndex, builder`toolStates, builder`toolOrder, builder`trace, builder`ledger, builder`owner,
          builder`names
      ensures Base() && (old(stop) ==> stop)
      ensures B.ToolAt(builder.toolStates, t) == Advance(codec, B.ToolAt(old(builder.toolStates), t),
                old(builder.nextIndex), resolvedID, args)
      ensures OnlyAt(old(builder.toolStates), builder.toolStates, t)
      ensures var now := B.ToolAt(builder.toolStates, t);
              builder.names == if !B.ToolAt(old(builder.toolStates), t).started && now.started then
                  old(builder.names)[t := TrimSpace(now.name)]
                               else old(builder.names)
    {
      hide B.Builder.Valid, TrimSpace, Give, Delivering;
      var resolvedName := TrimSpace(B.ToolAt(builder.toolStates, t).name);
      BlankHasNoName();
      GiveNothing(codec);
      GiveKeepsAll(codec);
      if !B.ToolAt(builder.toolStates, t).started && resolvedName != "" {
        BeginTool(t, resolvedID, resolvedName);
      }
      if args == "" {
        return;
      }
      if !B.ToolAt(builder.toolStates, t).started {
        if resolvedName == "" {
          builder.SetToolPreStartArgs(t, B.ToolAt(builder.toolStates, t).preStartArgs + args);
          return;
        }
      }
      GiveArgs(t, resolvedName, args);
    }

    /** The id and the name a fragment carries; an upstream id is replaced by a fresh one while defending. */
    method RegisterCall(tc: ToolCallDelta)
      requires Base()
      modifies this`minted, builder`toolStates, builder`toolOrder
      ensures Base()
      ensures var t, st := tc.index, B.ToolAt(old(builder.toolStates), tc.index);
              && B.ToolAt(builder.toolStates, t) == Named(st, tc, CallID(st, tc, o.defend, uuid(old(minted))))
              && OnlyAt(old(builder.toolStates), builder.toolStates, t)
      ensures B.ToolAt(builder.toolStates, tc.index).toolID == "" ==> minted == old(minted)
      ensures old(minted) <= minted
      ensures o.defend
              && B.ToolAt(builder.toolStates, tc.index).toolID != B.ToolAt(old(builder.toolStates), tc.index).toolID
              ==> old(minted) < minted
    {
      hide B.Builder.Valid, Delivering;
      var t, tcID := tc.index, ToolLog.Text(tc.id);
      StartedHasID(t);
      if tcID != "" && B.ToolAt(builder.toolStates, t).toolID == "" {
        if o.defend {
          tcID := MintId("toolu_");
        }
        builder.SetStreamToolID(t, tcID);
      }
      if tc.name.Some? {
        builder.RegisterToolName(t, tc.name.value);
      }
    }

    lemma StartedHasID(t: nat)
      requires Base()
      ensures B.ToolAt(builder.toolStates, t).started ==> B.ToolAt(builder.toolStates, t).toolID != ""
    {
      hide B.Builder.Accepted, B.Builder.Accumulates, B.ContentOpen, B.ToolsOpen, B.Ordered, Delivering;
      if t in builder.toolStates {
        assert B.ToolContent(builder.toolStates[t], B.NameAt(builder.names, t), builder.trace, builder.nextIndex);
      }
    }

    // ---- one chunk ----

    /** Reasoning comes in; a reader who does not want it gets none. */
    method TakeReasoning(text: string)
      requires Base() && Told()
      modifies this`out, this`stop, this`issued, this`script, reasoningDSML
      modifies builder`nextIndex, builder`thinkingIndex, builder`thinkingStarted, builder`textStarted,
          builder`thinkingAccum
      modifies builder`accumulatedReasoning, builder`trace, builder`ledger
      ensures Base() && Told() && (old(stop) ==> stop) && Input(script) == Input(old(script)) + [Reason(text)]
              && old(script) <= script
    {
      hide Base, View, Ponder, Play, Honest, Input;
      ghost var f := View();
      ActNext(Set(), script, f, Reason(text), Ponder(Set(), f, text));
      if o.thinkingEnabled {
        EmitReasoningDelta(text);
      } else {
        NotPondered(f, text);
      }
      script := script + [Reason(text)];
    }

    lemma NotPondered(f: Flow, text: string)
      requires !o.thinkingEnabled
      ensures Ponder(Set(), f, text) == f
    {
    }

    method TakeRefusal(text: string)
      requires Base() && Told()
      modifies this`out, this`stop, this`issued, this`script, contentDSML
      modifies builder`nextIndex, builder`textIndex, builder`thinkingStarted, builder`textStarted
      modifies builder`accumulatedText, builder`trace, builder`ledger
      ensures Base() && Told() && (old(stop) ==> stop) && Input(script) == Input(old(script)) + [Refuse(text)]
              && old(script) <= script
    {
      hide Base, View, Say, Play, Honest, Input;
      ActNext(Set(), script, View(), Refuse(text), Say(Set(), View(), text));
      EmitVisibleText(text);
      script := script + [Refuse(text)];
    }

    lemma ParserSettings()
      requires Base()
      ensures heuristicParser.codec == codec
    {
      hide B.Builder.Valid, Delivering;
    }

    /** One piece the think-tag parser passed on. */
    method ProcessPart(part: T.Chunk)
      requires Base()
      modifies this`out, this`stop, this`issued, this`found, contentDSML, reasoningDSML
      modifies heuristicParser`mode, heuristicParser`buffer, heuristicParser`currentToolID,
          heuristicParser`currentFunctionName,
               heuristicParser`currentParameters, heuristicParser`serial
      modifies builder`nextIndex, builder`textIndex, builder`thinkingIndex, builder`thinkingStarted, builder`textStarted
      modifies builder`thinkingAccum, builder`accumulatedText, builder`accumulatedReasoning, builder`trace,
          builder`ledger
      ensures Base() && (old(stop) ==> stop)
      ensures View() == Hear(Set(), old(View()), part)
    {
      hide Base, Join, H.FeedSpec, D.FeedStep;
      ParserSettings();
      if part.kind == T.Thinking {
        EmitReasoningDelta(part.content);
      } else {
        var filteredText, detectedTools := heuristicParser.Feed(part.content);
        EmitVisibleText(filteredText);
        EmitHeuristicTools(detectedTools);
      }
    }

    /** Text content: think tags split it, the heuristic parser filters the visible side. */
    method ProcessContent(content: string)
      requires Base() && Told()
      modifies this`out, this`stop, this`issued, this`found, this`script, thinkParser, contentDSML, reasoningDSML
      modifies heuristicParser`mode, heuristicParser`buffer, heuristicParser`currentToolID,
          heuristicParser`currentFunctionName,
               heuristicParser`currentParameters, heuristicParser`serial
      modifies builder`nextIndex, builder`textIndex, builder`thinkingIndex, builder`thinkingStarted, builder`textStarted
      modifies builder`thinkingAccum, builder`accumulatedText, builder`accumulatedReasoning, builder`trace,
          builder`ledger
      ensures Base() && Told() && (old(stop) ==> stop)
              && Input(script) == Input(old(script)) + [Content(content, [], false, "")] && old(script) <= script
    {
      hide *;
      ghost var f, a := View(), Finish;
      ToldIs();
      var parts;
      parts, a := FeedTags(content);
      ghost var f' := f.(inThink := a.inThink, held := a.held);
      HearNothing(Set(), f', parts);
      var i := 0;
      while i < |parts|
        invariant 0 <= i <= |parts|
        invariant Base() && (old(stop) ==> stop)
        invariant script == old(script) && View() == HearAll(Set(), f', parts[..i])
      {
        HearNext(Set(), f', parts, i);
        ProcessPart(parts[i]);
        i := i + 1;
      }
      assert parts[..i] == parts;
      ContentAct(Set(), f, a);
      ActNext(Set(), script, f, a, View());
      script := script + [a];
      ToldNow();
    }

    lemma ToldIs()
      requires Told()
      ensures View() == Play(Set(), Begin(o.defend, 0), script) && Honest(Set(), Begin(o.defend, 0), script)
              && Set().defend == o.defend
    {
      hide Play, Honest, View;
    }

    lemma ToldNow()
      requires View() == Play(Set(), Begin(o.defend, 0), script) && Honest(Set(), Begin(o.defend, 0), script)
      ensures Told()
    {
      hide Play, Honest, View;
    }

    method FeedTags(content: string) returns (parts: seq<T.Chunk>, ghost a: Action)
      requires Base()
      modifies thinkParser
      ensures Base() && a.Content? && a.text == content && a.parts == parts
      ensures View() == old(View()).(inThink := a.inThink, held := a.held) && Parsed(old(View()), a)
    {
      hide Base, Join, T.Owes, T.Flatten, HasSuffix, T.HeldBack, T.Parsed;
      parts := thinkParser.Feed(content);
      a := Content(content, parts, thinkParser.inThinkTag, thinkParser.buffer);
    }

    /** Native tool calls: what the heuristic parser holds goes out first, content blocks close. */
    method ProcessToolCalls(calls: seq<ToolCallDelta>)
      requires Base() && Tracking() && Told()
      modifies this`out, this`stop, this`issued, this`minted, this`serials, this`seen, this`found, this`script, builder,
          contentDSML
      modifies heuristicParser`mode, heuristicParser`buffer, heuristicParser`currentToolID,
          heuristicParser`currentFunctionName,
               heuristicParser`currentParameters, heuristicParser`serial
      ensures Base() && Tracking() && Told() && (old(stop) ==> stop)
      ensures seen == old(seen) + calls && Input(script) == Input(old(script)) + [Calls] && old(script) <= script
    {
      hide *;
      FlushForCalls();
      CloseContentBlocks();
      var i := 0;
      while i < |calls|
        invariant 0 <= i <= |calls|
        invariant Base() && Tracking() && Told() && (old(stop) ==> stop) && !builder.thinkingStarted
                  && !builder.textStarted
        invariant seen == old(seen) + calls[..i] && Input(script) == Input(old(script)) + [Calls]
                  && old(script) <= script
      {
        ProcessToolCall(calls[i]);
        assert calls[..i + 1] == calls[..i] + [calls[i]];
        i := i + 1;
      }
      assert calls[..i] == calls;
    }

    method FlushForCalls()
      requires Base() && Told()
      modifies this`out, this`stop, this`issued, this`found, this`script, contentDSML
      modifies heuristicParser`mode, heuristicParser`buffer, heuristicParser`currentToolID,
          heuristicParser`currentFunctionName,
               heuristicParser`currentParameters, heuristicParser`serial
      modifies builder`nextIndex, builder`textIndex, builder`thinkingStarted, builder`textStarted
      modifies builder`accumulatedText, builder`trace, builder`ledger
      ensures Base() && Told() && (old(stop) ==> stop) && Input(script) == Input(old(script)) + [Calls]
              && old(script) <= script
    {
      hide *;
      ghost var f := View();
      ToldIs();
      ReleaseHeuristic();
      CallsAct(Set(), f);
      ActNext(Set(), script, f, Calls, View());
      script := script + [Calls];
      ToldNow();
    }

    method ReleaseHeuristic()
      requires Base()
      modifies this`out, this`stop, this`issued, this`found, contentDSML
      modifies heuristicParser`mode, heuristicParser`buffer, heuristicParser`currentToolID,
          heuristicParser`currentFunctionName,
               heuristicParser`currentParameters, heuristicParser`serial
      modifies builder`nextIndex, builder`textIndex, builder`thinkingStarted, builder`textStarted
      modifies builder`accumulatedText, builder`trace, builder`ledger
      ensures Base() && (old(stop) ==> stop)
      ensures View() == Release(Set(), old(View()))
    {
      hide Base, Join, H.FlushSpec, D.FeedStep;
      var heuristicText, heuristicTools := heuristicParser.Flush();
      EmitVisibleText(heuristicText);
      EmitHeuristicTools(heuristicTools);
    }

    method ProcessDelta(delta: Delta)
      requires Base() && Tracking() && Told()
      modifies this`out, this`stop, this`issued, this`minted, this`serials, this`seen, this`found, this`script, builder,
          thinkParser, contentDSML, reasoningDSML
      modifies heuristicParser`mode, heuristicParser`buffer, heuristicParser`currentToolID,
          heuristicParser`currentFunctionName,
               heuristicParser`currentParameters, heuristicParser`serial
      ensures Base() && Tracking() && Told() && (old(stop) ==> stop)
      ensures seen == old(seen) + DeltaTools(delta) && Input(script) == Input(old(script)) + DeltaActions(delta)
              && old(script) <= script
    {
      hide *;
      DeltaIs(delta, Input(script), seen);
      if Presence(delta.reasoning) {
        TakeReasoning(ToolLog.Text(delta.reasoning));
      }
      // A refusal supersedes the other fields of its chunk.
      if Presence(delta.refusal) {
        TakeRefusal(ToolLog.Text(delta.refusal));
        return;
      }
      if Presence(delta.content) {
        ProcessContent(ToolLog.Text(delta.content));
      }
      if delta.toolCalls != [] {
        ProcessToolCalls(delta.toolCalls);
      }
    }

    method ProcessChunk(chunk: Chunk) returns (done: bool, e: Option<StreamError>)
      requires Base() && Tracking() && Told()
      modifies this`out, this`stop, this`issued, this`minted, this`serials, this`seen, this`finishReason, this`seenDone,
          this`found, this`script
      modifies builder, thinkParser, contentDSML, reasoningDSML
      modifies heuristicParser`mode, heuristicParser`buffer, heuristicParser`currentToolID,
          heuristicParser`currentFunctionName,
               heuristicParser`currentParameters, heuristicParser`serial
      ensures Base() && Tracking() && Told() && (old(stop) ==> stop)
      ensures Heard(e) == ReadChunk(old(Heard(None)), chunk)
      ensures old(seen) <= seen && Input(old(script)) <= Input(script) && old(script) <= script
      ensures done || e.Some? <==> Over(chunk)
    {
      hide Base, Tracking, Told, DeltaActions, DeltaTools, Input;
      if chunk.readError {
        return false, Some(ConnectionClosed);
      }
      if chunk.done {
        seenDone := true;
        return true, None;
      }
      if chunk.error.Some? {
        var code := if chunk.error.value.code.Some? then chunk.error.value.code.value else 500;
        return false, Some(Upstream(code, chunk.error.value.message));
      }
      if chunk.choices == [] {
        return false, None;
      }
      var choice := chunk.choices[0];
      if choice.delta == None {
        return false, None;
      }
      if Presence(choice.finishReason) {
        finishReason := choice.finishReason.value;
      }
      ProcessDelta(choice.delta.value);
      return false, None;
    }

    /** What has been read so far, when reading has ended with the error e or not at all. */
    ghost function Heard(e: Option<StreamError>): Reading
      reads this`seen, this`script, this`finishReason, this`seenDone
    {
      Reading(seen, Input(script), finishReason, seenDone, e)
    }

    /**
     * Feed one upstream sequence through, up to its end marker, its first
     * failure or the consumer's leaving. It starts with no content block open.
     */
    method ConsumeSequence(cs: seq<Chunk>) returns (e: Option<StreamError>)
      requires Base() && Tracking() && Told() && !builder.thinkingStarted && !builder.textStarted
      modifies this`out, this`stop, this`issued, this`minted, this`serials, this`seen, this`finishReason, this`seenDone,
          this`found, this`script
      modifies builder, thinkParser, contentDSML, reasoningDSML
      modifies heuristicParser`mode, heuristicParser`buffer, heuristicParser`currentToolID,
          heuristicParser`currentFunctionName,
               heuristicParser`currentParameters, heuristicParser`serial
      ensures Base() && Tracking() && Told() && (old(stop) ==> stop)
      ensures !stop ==> Heard(e) == Read(old(Heard(None)), cs)
      ensures old(seen) <= seen && Input(old(script)) <= Input(script) && old(script) <= script
    {
      hide *;
      ReadNothing(Heard(None), cs);
      var i := 0;
      while i < |cs|
        invariant 0 <= i <= |cs|
        invariant Base() && Tracking() && Told() && (old(stop) ==> stop)
        invariant Read(Heard(None), cs[i..]) == Read(old(Heard(None)), cs)
        invariant old(seen) <= seen && Input(old(script)) <= Input(script) && old(script) <= script
      {
        if stop {
          return None;
        }
        ReadNext(Heard(None), cs, i);
        var done, err := ProcessChunk(cs[i]);
        if err.Some? || done {
          return err;
        }
        i := i + 1;
      }
      ReadAll(Heard(None), cs);
      return None;
    }

    /** One upstream stream; ending without a finish reason and without [DONE] means it stalled. */
    method Iterate() returns (e: Option<StreamError>)
      requires Base() && Tracking() && Told() && !builder.thinkingStarted && !builder.textStarted
      modifies this`out, this`stop, this`issued, this`minted, this`serials, this`seen, this`finishReason, this`seenDone,
          this`found, this`script
      modifies builder, thinkParser, contentDSML, reasoningDSML
      modifies heuristicParser`mode, heuristicParser`buffer, heuristicParser`currentToolID,
          heuristicParser`currentFunctionName,
               heuristicParser`currentParameters, heuristicParser`serial
      ensures Base() && Tracking() && Told() && (old(stop) ==> stop)
      ensures !stop ==> Heard(e) == Verdict(Read(old(Heard(None)), chunks))
      ensures old(seen) <= seen && Input(old(script)) <= Input(script)
      ensures e == None ==> finishReason != ""
    {
      hide Base, Tracking, Told, Read, Input;
      e := ConsumeSequence(chunks);
      if e.Some? {
        return;
      }
      if finishReason == "" {
        if seenDone {
          finishReason := "stop";
        } else {
          e := Some(ResponseStalled);
        }
      }
    }

    /** What the parsers still hold goes out: the think-tag fragment ahead of the heuristic buffer. */
    method FlushParsers()
      requires Base() && Told()
      modifies this`out, this`stop, this`issued, this`found, this`script, thinkParser, contentDSML, reasoningDSML
      modifies heuristicParser`mode, heuristicParser`buffer, heuristicParser`currentToolID,
          heuristicParser`currentFunctionName,
               heuristicParser`currentParameters, heuristicParser`serial
      modifies builder`nextIndex, builder`textIndex, builder`thinkingIndex, builder`thinkingStarted, builder`textStarted
      modifies builder`thinkingAccum, builder`accumulatedText, builder`accumulatedReasoning, builder`trace,
          builder`ledger
      ensures Base() && Told() && (old(stop) ==> stop) && Input(script) == Input(old(script)) + [Finish]
      ensures script == old(script) + [Finish] && View() == Act(Set(), old(View()), Finish)
    {
      hide *;
      ghost var f := View();
      ToldIs();
      FlushThinkTag();
      FlushReasoningDSML();
      FlushHeuristic();
      FinishAct(Set(), f);
      ActNext(Set(), script, f, Finish, View());
      script := script + [Finish];
      ToldNow();
    }

    method FlushThinkTag()
      requires Base()
      modifies this`out, this`stop, this`issued, thinkParser, contentDSML, reasoningDSML
      modifies builder`nextIndex, builder`textIndex, builder`thinkingIndex, builder`thinkingStarted, builder`textStarted
      modifies builder`thinkingAccum, builder`accumulatedText, builder`accumulatedReasoning, builder`trace,
          builder`ledger
      ensures Base() && (old(stop) ==> stop)
      ensures View() == ReleaseHeld(Set(), old(View()))
    {
      hide Base, Join, D.FeedStep;
      assert View().text + "" == View().text && View().reasoning + "" == View().reasoning;
      var remaining := thinkParser.Flush();
      if remaining != [] {
        if remaining[0].kind == T.Thinking {
          EmitReasoningDelta(remaining[0].content);
        } else {
          EmitVisibleText(remaining[0].content);
        }
      }
    }

    method FlushHeuristic()
      requires Base()
      modifies this`out, this`stop, this`issued, this`found, contentDSML
      modifies heuristicParser`mode, heuristicParser`buffer, heuristicParser`currentToolID,
          heuristicParser`currentFunctionName,
               heuristicParser`currentParameters, heuristicParser`serial
      modifies builder`nextIndex, builder`textIndex, builder`thinkingStarted, builder`textStarted
      modifies builder`accumulatedText, builder`trace, builder`ledger
      ensures Base() && (old(stop) ==> stop)
      ensures View() == FlushContent(Set(), Release(Set(), old(View())))
    {
      hide Base, Join, H.FlushSpec, D.FeedStep, D.FlushStep;
      var heuristicText, heuristicTools := heuristicParser.Flush();
      EmitVisibleText(heuristicText);
      FlushContentDSML();
      EmitHeuristicTools(heuristicTools);
    }

    // ---- retries ----

    /** What the old parsers hold has not reached the consumer and never will. */
    method ResetParsers()
      requires Base() && Told()
      modifies this`thinkParser, this`heuristicParser, this`contentDSML, this`reasoningDSML, this`script
      ensures Base() && Told() && Input(script) == Input(old(script)) + [Restart]
      ensures fresh(thinkParser) && fresh(heuristicParser) && fresh(contentDSML) && fresh(reasoningDSML)
    {
      hide *;
      ghost var f := View();
      ToldIs();
      RenewParsers();
      RestartAct(f);
      ActNext(Set(), script, f, Restart, View());
      script := script + [Restart];
      ToldNow();
    }

    method RenewParsers()
      requires Base()
      modifies this`thinkParser, this`heuristicParser, this`contentDSML, this`reasoningDSML
      ensures Base() && View() == Restarted(Set(), old(View()))
      ensures fresh(thinkParser) && fresh(heuristicParser) && fresh(contentDSML) && fresh(reasoningDSML)
    {
      hide B.Builder.Valid, Delivering, Join;
      thinkParser := new T.ThinkTagParser();
      heuristicParser := new H.HeuristicToolParser(codec, o.defend, heuristicParser.serial);
      contentDSML := new D.DSMLFilter();
      reasoningDSML := new D.DSMLFilter();
    }

    lemma RestartAct(f: Flow)
      ensures Act(Set(), f, Restart) == Restarted(Set(), f) && Parsed(f, Restart) && Bare(Restart) == Restart
    {
    }

    /**
     * The upstream connection died: as long as no tool block has started and the hook grants one, stream
     * another attempt into the same message.
     */
    method MidStreamAbortGuard(loopErr: Option<StreamError>) returns (e: Option<StreamError>)
      requires Base() && Tracking() && Told() && Budgeted(o)
      requires loopErr == None ==> finishReason != ""
      modifies this, builder, thinkParser, heuristicParser, contentDSML, reasoningDSML
      ensures builder == old(builder) && Base() && Tracking() && Told() && (old(stop) ==> stop)
      ensures thinkParser == old(thinkParser) || fresh(thinkParser)
      ensures heuristicParser == old(heuristicParser) || fresh(heuristicParser)
      ensures contentDSML == old(contentDSML) || fresh(contentDSML)
      ensures reasoningDSML == old(reasoningDSML) || fresh(reasoningDSML)
      ensures e == None ==> finishReason != ""
      ensures err == old(err)
      ensures !stop ==> Heard(e) == Resumed(o, old(Heard(loopErr)), 1)
    {
      hide *;
      e := loopErr;
      var attempt := 1;
      while true
        invariant 1 <= attempt <= o.midBudget + 1
        invariant builder == old(builder) && Base() && Tracking() && Told() && (old(stop) ==> stop)
        invariant thinkParser == old(thinkParser) || fresh(thinkParser)
        invariant heuristicParser == old(heuristicParser) || fresh(heuristicParser)
        invariant contentDSML == old(contentDSML) || fresh(contentDSML)
        invariant reasoningDSML == old(reasoningDSML) || fresh(reasoningDSML)
        invariant (e == None ==> finishReason != "") && err == old(err)
        invariant !stop ==> Resumed(o, Heard(e), attempt) == Resumed(o, old(Heard(loopErr)), 1)
        decreases o.midBudget + 1 - attempt
      {
        ghost var r := Heard(e);
        HeardParts(r, e);
        EmittedIsNamed();
        if !Aborted(e) {
          ResumedStops(o, r, attempt);
          return;
        }
        if stop {
          return;
        }
        if builder.HasEmittedToolBlock() {
          ResumedStops(o, r, attempt);
          return;
        }
        AbortedSome(e);
        var cs := o.midRetry(attempt, e.value);
        MidBudget(attempt, e.value);
        if cs == None {
          ResumedStops(o, r, attempt);
          return;
        }
        ResumedGoes(o, r, attempt, cs.value);
        e := ContinueWith(cs.value, r);
        attempt := attempt + 1;
      }
    }

    lemma EmittedIsNamed()
      requires Tracking()
      ensures builder.HasEmittedToolBlock() <==> AnyNamed(seen)
    {
      hide AllTrack, AllNamed, AnyNamed;
      TrackedStarts(codec, builder.toolStates, seen);
    }

    /** Close what is open, drop what the parsers hold and stream the next attempt. */
    method ContinueWith(cs: seq<Chunk>, ghost r: Reading) returns (e: Option<StreamError>)
      requires Base() && Tracking() && Told() && r == Reading(seen, Input(script), finishReason, seenDone, r.error)
      modifies this, builder
      ensures builder == old(builder) && Base() && Tracking() && Told() && (old(stop) ==> stop)
      ensures fresh(thinkParser) && fresh(heuristicParser) && fresh(contentDSML) && fresh(reasoningDSML)
      ensures e == None ==> finishReason != ""
      ensures err == old(err)
      ensures !stop ==> Heard(e) == ReadOn(r, cs)
    {
      hide *;
      CloseContentBlocks();
      ResetParsers();
      HeardParts(Heard(None), None);
      ReadOnIs(r, cs);
      chunks := cs;
      e := Iterate();
    }

    lemma MidBudget(attempt: nat, e: StreamError)
      requires Budgeted(o)
      ensures attempt > o.midBudget ==> o.midRetry(attempt, e) == None
    {
    }

    lemma InvisibleBudget(attempt: nat, r: string, v: string)
      requires Budgeted(o)
      ensures attempt > o.invisibleBudget ==> o.invisibleRetry(attempt, r, v) == None
    {
    }

    /** A cleanly finished turn with reasoning but no visible text and no native tool call. */
    predicate IsInvisibleStopTurn()
      reads this`finishReason, this`builder, builder
    {
      && (finishReason == "" || finishReason == "stop")
      && !builder.HasEmittedToolBlock()
      && TrimSpace(builder.AccumulatedText()) == ""
      && TrimSpace(builder.AccumulatedReasoning()) != ""
    }

    /**
     * The turn is invisible: as long as the hook grants one, stream another attempt into the same message. The calls
     * before the first attempt came to nothing (`log` says of each what it came to) and are forgotten.
     */
    method EmptyTurnGuard(ghost log: seq<ToolCallDelta>) returns (ghost last: Reading)
      requires Base() && Minting() && Told() && Budgeted(o)
               && forall t: nat :: !B.ToolAt(builder.toolStates, t).started ==> Unused(B.ToolAt(builder.toolStates, t))
      modifies this`out, this`stop, this`issued, this`minted, this`serials, this`seen, this`finishReason, this`seenDone,
          this`found, this`script
      modifies builder, thinkParser, contentDSML, reasoningDSML
      modifies heuristicParser`mode, heuristicParser`buffer, heuristicParser`currentToolID,
          heuristicParser`currentFunctionName,
               heuristicParser`currentParameters, heuristicParser`serial
      ensures Base() && Minting() && Told() && (old(stop) ==> stop) && old(script) <= script
      ensures last.actions == Input(script) && last.reason == finishReason
      ensures var granted := o.invisibleRetry(1, old(builder.AccumulatedReasoning()), old(builder.AccumulatedText()));
              if old(IsInvisibleStopTurn()) && granted.Some? then
                && Tracking() && last.tools == seen
                && (!stop ==> last == Retried(o, Set(),
                                              Read(Reading([], Input(old(script)), old(finishReason), old(seenDone),
                     None), granted.value), 2))
              else
                && script == old(script) && last == Reading(log, Input(script), old(finishReason), old(seenDone), None)
                && builder.toolStates == old(builder.toolStates) && builder.names == old(builder.names)
    {
      hide *;
      last := Reading(log, Input(script), finishReason, seenDone, None);
      if !IsInvisibleStopTurn() {
        return;
      }
      var cs := o.invisibleRetry(1, builder.AccumulatedReasoning(), builder.AccumulatedText());
      InvisibleBudget(1, builder.AccumulatedReasoning(), builder.AccumulatedText());
      if cs == None {
        return;
      }
      seen := [];
      assert Tracking() by { InvisibleTracks(); }
      ghost var first := Reading([], Input(script), finishReason, seenDone, None);
      HeardParts(Heard(None), None);
      CloseContentBlocks();
      var e := ConsumeSequence(cs.value);
      last := Heard(e);
      HeardParts(last, e);
      TrackingIs();
      if e.Some? || stop {
        FailureIsLast(o, Set(), last, 2);
        return;
      }
      last := RetryOn(last);
      TrackingIs();
    }

    /** The second attempt and the later ones. */
    method RetryOn(ghost first: Reading) returns (ghost last: Reading)
      requires Base() && Tracking() && Told() && Budgeted(o) && first == Heard(None) && o.invisibleBudget >= 1
      modifies this`out, this`stop, this`issued, this`minted, this`serials, this`seen, this`finishReason, this`seenDone,
          this`found, this`script
      modifies builder, thinkParser, contentDSML, reasoningDSML
      modifies heuristicParser`mode, heuristicParser`buffer, heuristicParser`currentToolID,
          heuristicParser`currentFunctionName,
               heuristicParser`currentParameters, heuristicParser`serial
      ensures Base() && Tracking() && Told() && (old(stop) ==> stop) && old(script) <= script
      ensures last == Reading(seen, Input(script), finishReason, last.done, last.error)
      ensures !stop ==> last == Retried(o, Set(), first, 2)
    {
      hide *;
      var attempt := 2;
      while true
        invariant 2 <= attempt <= o.invisibleBudget + 1
        invariant Base() && Tracking() && Told() && (old(stop) ==> stop) && old(script) <= script
        invariant Retried(o, Set(), first, 2) == Retried(o, Set(), Heard(None), attempt)
        decreases o.invisibleBudget + 1 - attempt
      {
        ghost var cur, f := Heard(None), View();
        last := cur;
        HeardParts(cur, None);
        ToldIs();
        FlowIs(Set(), script, cur);
        SpeechlessIs(cur, f);
        InvisibleBudget(attempt, builder.AccumulatedReasoning(), builder.AccumulatedText());
        if !IsInvisibleStopTurn() {
          RetriedStops(o, Set(), cur, attempt);
          return;
        }
        var cs := o.invisibleRetry(attempt, builder.AccumulatedReasoning(), builder.AccumulatedText());
        if cs == None {
          RetriedStops(o, Set(), cur, attempt);
          return;
        }
        CloseContentBlocks();
        var e := ConsumeSequence(cs.value);
        last := Heard(e);
        HeardParts(last, e);
        if !stop {
          RetriedGoes(o, Set(), cur, attempt, cs.value);
        }
        if e.Some? || stop {
          if !stop {
            FailureIsLast(o, Set(), last, attempt + 1);
          }
          return;
        }
        attempt := attempt + 1;
      }
    }

    lemma InvisibleTracks()
      requires Minting() && IsInvisibleStopTurn() && seen == []
      requires forall t: nat :: !B.ToolAt(builder.toolStates, t).started ==> Unused(B.ToolAt(builder.toolStates, t))
      ensures Tracking()
    {
      hide AllTrack, TrimSpace, StartName, Unused, AllMinted;
      forall t: nat ensures !B.ToolAt(builder.toolStates, t).started {
      }
      UnusedTracks(codec, builder.toolStates);
    }

    /** Whether the turn is invisible shows in what was read and what the parsers made of it. */
    lemma SpeechlessIs(r: Reading, f: Flow)
      requires Tracking() && r == Reading(seen, r.actions, finishReason, r.done, None) && View() == f
      ensures IsInvisibleStopTurn() <==> Speechless(r, f) && !AnyNamed(r.tools)
      ensures f.text == builder.AccumulatedText() && f.reasoning == builder.AccumulatedReasoning()
    {
      hide AllTrack, AllNamed, AnyNamed, TrimSpace, Join;
      EmittedIsNamed();
    }

    // ---- the end of the turn ----

    /** A call whose name never came: named after the request's tool of the same index, or dropped. */
    method ResolveOrphan(t: nat, ghost log: seq<ToolCallDelta>) returns (dropped: bool)
      requires Base() && Minting() && Tracks(codec, B.ToolAt(builder.toolStates, t), log, t)
      modifies this`out, this`stop, this`issued, this`minted, this`serials, builder`thinkingStarted, builder`textStarted
      modifies builder`nextIndex, builder`toolStates, builder`toolOrder, builder`trace, builder`ledger, builder`owner,
          builder`names
      ensures Base() && Minting() && (old(stop) ==> stop)
      ensures OnlyAt(old(builder.toolStates), builder.toolStates, t)
      ensures Dealt(codec, o.defend, req.toolNames, B.ToolAt(builder.toolStates, t), log, t)
      ensures dropped <==> Dropped(req.toolNames, log, t)
      ensures !Adopted(req.toolNames, log, t) && !dropped ==> builder.toolStates == old(builder.toolStates)
      ensures builder.names == if Adopted(req.toolNames, log, t) then
              old(builder.names)[t := InferToolNameByIndex(req.toolNames, t)] else old(builder.names)
    {
      hide B.Builder.Valid, Delivering, TrimSpace, Answered, Faithful, Adopt, InferToolNameByIndex, B.ContentClosers;
      var st := B.ToolAt(builder.toolStates, t);
      OthersAnswer(codec, o.defend, req.toolNames, st, log, t);
      if st.started {
        return false;
      }
      if st.preStartArgs == "" && st.name == "" {
        return false;
      }
      var inferredName := InferToolNameByIndex(req.toolNames, t);
      if inferredName != "" {
        var resolvedID := st.toolID;
        if resolvedID == "" {
          resolvedID := MintId("tool_");
        }
        CloseContentBlocks();
        AdoptedAnswers(codec, o.defend, req.toolNames, st, log, t, builder.nextIndex, resolvedID);
        StartOrphan(t, resolvedID, inferredName, old(minted));
        return false;
      }
      DropOrphan(t);
      return true;
    }

    /** The call is forgotten. */
    method DropOrphan(t: nat)
      requires Base() && Minting() && !B.ToolAt(builder.toolStates, t).started
      modifies builder`toolStates, builder`toolOrder
      ensures Base() && Minting() && OnlyAt(old(builder.toolStates), builder.toolStates, t) && t !in builder.toolStates
    {
      hide B.Builder.Valid, Delivering, AllMinted;
      ghost var states := builder.toolStates;
      if o.defend { MintedNext(uuid, states, serials, minted, states - {t}, t, minted); }
      builder.SetToolPreStartArgs(t, "");
      builder.DeleteToolState(t);
      assert builder.toolStates == states - {t};
    }

    /** The arguments that were held back are repaired, or take the Task path. */
    method StartOrphan(t: nat, resolvedID: string, inferredName: string, ghost before: nat)
      requires Base() && t in builder.toolStates && !builder.toolStates[t].started && resolvedID != ""
      requires !builder.thinkingStarted && !builder.textStarted
      requires before <= minted && (o.defend ==> AllMinted(uuid, builder.toolStates, serials, before))
      requires o.defend ==>
               resolvedID == builder.toolStates[t].toolID
               || (MintedAs(uuid, resolvedID, before) && before < minted)
      modifies this`out, this`stop, this`issued, this`serials
      modifies builder`nextIndex, builder`toolStates, builder`toolOrder, builder`trace, builder`ledger, builder`owner,
          builder`names
      ensures Base() && Minting() && (old(stop) ==> stop)
      ensures builder.toolStates ==
                old(builder.toolStates)[t := Adopt(codec, o.defend, old(builder.toolStates)[t], old(builder.nextIndex),
                      resolvedID, inferredName)]
      ensures builder.names == old(builder.names)[t := inferredName]
    {
      hide Base, AllMinted, MintedAs, Minting, Adopt;
      ghost var states := builder.toolStates;
      OpenOrphan(t, resolvedID, inferredName);
      AdoptStarts(codec, o.defend, states[t], old(builder.nextIndex), resolvedID, inferredName);
      Remint(states, before, t);
    }

    method OpenOrphan(t: nat, resolvedID: string, inferredName: string)
      requires Base() && t in builder.toolStates && !builder.toolStates[t].started && resolvedID != ""
      requires !builder.thinkingStarted && !builder.textStarted
      modifies this`out, this`stop, this`issued
      modifies builder`nextIndex, builder`toolStates, builder`toolOrder, builder`trace, builder`ledger, builder`owner,
          builder`names
      ensures Base() && (old(stop) ==> stop)
      ensures builder.toolStates ==
                old(builder.toolStates)[t := Adopt(codec, o.defend, old(builder.toolStates)[t], old(builder.nextIndex),
                      resolvedID, inferredName)]
      ensures builder.names == old(builder.names)[t := inferredName]
    {
      hide B.Builder.Valid, Delivering, Repaired;
      var raw := builder.toolStates[t].preStartArgs;
      var e := builder.StartToolBlock(t, resolvedID, inferredName);
      Emit(e);
      if raw != "" {
        GiveOrphanArgs(t, inferredName, raw);
      }
    }

    method GiveOrphanArgs(t: nat, inferredName: string, raw: string)
      requires Base() && t in builder.toolStates && builder.toolStates[t].started
      modifies this`out, this`stop, this`issued, builder`toolStates, builder`toolOrder, builder`trace, builder`ledger
      ensures Base() && (old(stop) ==> stop)
      ensures var st := old(builder.toolStates)[t].(preStartArgs := "");
              builder.toolStates == old(builder.toolStates)[t := if inferredName == TASK then TakeTask(codec, st, raw)
                                                                 else st.(contents := st.contents
                                                                       + [Repaired(codec, o.defend, raw)])]
    {
      hide B.Builder.Valid, Delivering;
      builder.SetToolPreStartArgs(t, "");
      if inferredName == TASK {
        GiveTaskArgs(t, raw);
      } else {
        var d := builder.EmitToolDelta(t, Repaired(codec, o.defend, raw));
        Emit(d);
      }
    }

    method ResolveOrphans(ghost log: seq<ToolCallDelta>) returns (orphaned: bool)
      requires Base() && Tracking() && log == seen
      modifies this`out, this`stop, this`issued, this`minted, this`serials, builder`thinkingStarted, builder`textStarted
      modifies builder`nextIndex, builder`toolStates, builder`toolOrder, builder`trace, builder`ledger, builder`owner,
          builder`names
      ensures Base() && Minting() && (old(stop) ==> stop)
      ensures AllAnswered(codec, o.defend, req.toolNames, builder.toolStates, log)
              && AllNamed(builder.toolStates, builder.names, req.toolNames, log)
      ensures forall t: nat :: !B.ToolAt(builder.toolStates, t).started ==> Unused(B.ToolAt(builder.toolStates, t))
      ensures orphaned <==> AnyDropped(req.toolNames, log)
    {
      hide *;
      orphaned := false;
      var order := builder.toolOrder;
      ghost var states := builder.toolStates;
      TrackingIs();
      StartResolving(order, log);
      var i := 0;
      while i < |order|
        invariant 0 <= i <= |order|
        invariant Base() && Minting() && (old(stop) ==> stop)
        invariant Resolving(codec, o.defend, req.toolNames, states, builder.toolStates, log, order, i)
        invariant AllNamed(builder.toolStates, builder.names, req.toolNames, log)
        invariant orphaned <==> DroppedAmong(req.toolNames, log, order, i)
      {
        ghost var before, names := builder.toolStates, builder.names;
        NextTracks(codec, o.defend, req.toolNames, states, before, log, order, i);
        var dropped := ResolveOrphan(order[i], log);
        NextResolved(codec, o.defend, req.toolNames, states, before, builder.toolStates, log, order, i);
        DealtIs(codec, o.defend, req.toolNames, B.ToolAt(builder.toolStates, order[i]), log, order[i]);
        StillNamed(codec, o.defend, before, names, req.toolNames, log, builder.toolStates, builder.names, order[i]);
        NextDropped(req.toolNames, log, order, i);
        if dropped {
          orphaned := true;
        }
        i := i + 1;
      }
      AllResolved(codec, o.defend, req.toolNames, states, builder.toolStates, log, order);
    }

    lemma StartResolving(order: seq<nat>, log: seq<ToolCallDelta>)
      requires Base() && Tracking() && log == seen && order == builder.toolOrder
      ensures Resolving(codec, o.defend, req.toolNames, builder.toolStates, builder.toolStates, log, order, 0)
      ensures AllNamed(builder.toolStates, builder.names, req.toolNames, log)
              && !DroppedAmong(req.toolNames, log, order, 0)
    {
      hide B.Builder.Accepted, B.Builder.Accumulates, B.ContentOpen, B.ToolsOpen, B.ToolContents, Delivering, AllTrack,
           AllNamed;
    }

    /** A turn without any block, or with reasoning only, gets a one-space text block. */
    method EnsureVisible()
      requires Base()
      modifies this`out, this`stop, this`issued
      modifies builder`nextIndex, builder`textIndex, builder`thinkingStarted, builder`textStarted
      modifies builder`accumulatedText, builder`trace, builder`ledger
      ensures Base() && (old(stop) ==> stop)
      ensures Visible(builder.trace)
      ensures Shown(builder.HasEmittedToolBlock(), Join(old(builder.accumulatedText)),
                    Join(builder.accumulatedReasoning), Join(builder.accumulatedText))
    {
      hide B.Builder.Valid, Delivering, TrimSpace, Join, Starts, Visible, Shown;
      JoinAppend(builder.accumulatedText, " ");
      var hasStartedTool := builder.HasEmittedToolBlock();
      PlaceholderShows(hasStartedTool);
      if NeedsPlaceholder(builder.textIndex, builder.thinkingIndex, hasStartedTool, builder.AccumulatedText(),
                          builder.AccumulatedReasoning()) {
        EnsureTextBlock();
        var e := builder.TextDelta(" ");
        Emit(e);
        VisibleWithText();
      } else {
        VisibleAlready(hasStartedTool);
      }
    }

    lemma PlaceholderShows(hasStartedTool: bool)
      requires Base()
      ensures var t, r := Join(builder.accumulatedText), Join(builder.accumulatedReasoning);
              Shown(hasStartedTool, t, r, if NeedsPlaceholder(builder.textIndex, builder.thinkingIndex, hasStartedTool,
                    t, r) then t + " " else t)
    {
      hide Replay, TextOf, ReasoningOf, B.Signed, TrimSpace, Join, B.ContentOpen, B.ToolsOpen, B.Ordered,
           B.ToolContents, Delivering;
      BlankHasNoName();
    }

    lemma VisibleWithText()
      requires Base() && builder.textStarted
      ensures Visible(builder.trace)
    {
      hide Replay, TextOf, ReasoningOf, B.Signed, TrimSpace, Join, Delivering;
    }

    lemma VisibleAlready(hasStartedTool: bool)
      requires Base() && hasStartedTool == builder.HasEmittedToolBlock()
      requires !NeedsPlaceholder(builder.textIndex, builder.thinkingIndex, hasStartedTool, builder.AccumulatedText(),
                                 builder.AccumulatedReasoning())
      ensures Visible(builder.trace)
    {
      hide Replay, TextOf, ReasoningOf, B.Signed, TrimSpace, Join, B.ContentOpen, B.ToolsOpen, B.Ordered, Delivering;
      assert TrimSpace("") == "" by { BlankHasNoName(); }
      if hasStartedTool {
        var t :| t in builder.toolStates && builder.toolStates[t].started;
        assert B.ToolContent(builder.toolStates[t], B.NameAt(builder.names, t), builder.trace, builder.nextIndex);
      }
    }

    /** Task arguments that never completed are sent now. */
    method FlushTasks()
      requires Base() && Json.Lawful(codec)
      modifies this`out, this`stop, this`issued, builder`toolStates, builder`trace, builder`ledger
      ensures Base() && (old(stop) ==> stop) && old(issued) <= issued
      ensures forall t: nat :: B.ToolAt(builder.toolStates, t) == AfterFlush(codec, o.defend,
                B.ToolAt(old(builder.toolStates), t))
      ensures builder.HasEmittedToolBlock() == old(builder.HasEmittedToolBlock())
    {
      hide *;
      ghost var was, order := builder.toolStates, builder.toolOrder;
      StartedIs();
      HoldersStarted();
      var results := builder.FlushTaskArgBuffers();
      B.FlushResultsOnce(codec, order, was);
      NoneFlushed(codec, o.defend, was, results);
      assert Base() by { StillBase(); }
      var i := 0;
      while i < |results|
        invariant 0 <= i <= |results|
        invariant Base() && (old(stop) ==> stop) && old(issued) <= issued
        invariant PartlyFlushed(codec, o.defend, was, builder.toolStates, results, i)
      {
        var (t, args) := results[i];
        assert results[i] in results;
        OneFlushed(codec, o.defend, was, builder.toolStates, results, i);
        GiveDelta(t, Repaired(codec, o.defend, args));
        i := i + 1;
      }
      AllFlushed(codec, o.defend, order, was, builder.toolStates);
      SameStarted(codec, o.defend, was, builder.toolStates);
      StartedIs();
    }

    lemma StartedIs()
      ensures builder.HasEmittedToolBlock() == Started(builder.toolStates)
      ensures Set() == Setting(codec, o.defend, o.thinkingEnabled)
    {
    }

    method GiveDelta(t: nat, json: string)
      requires Base() && t in builder.toolStates && builder.toolStates[t].started
      modifies this`out, this`stop, this`issued, builder`toolStates, builder`trace, builder`ledger
      ensures Base() && (old(stop) ==> stop) && old(issued) <= issued
      ensures var st := old(builder.toolStates)[t];
              builder.toolStates == old(builder.toolStates)[t := st.(contents := st.contents + [json])]
    {
      hide B.Builder.Valid, Delivering;
      var e := builder.EmitToolDelta(t, json);
      Emit(e);
    }

    lemma HoldersStarted()
      requires Base()
      ensures forall t :: t in builder.toolStates && B.HoldsTask(builder.toolStates[t]) ==>
              builder.toolStates[t].started
      ensures B.Ordered(builder.toolOrder, builder.toolStates) && builder.codec == codec && builder.Valid()
      ensures forall i, j :: 0 <= i < j < |builder.toolOrder| ==> builder.toolOrder[i] != builder.toolOrder[j]
    {
      hide B.Builder.Accepted, B.Builder.Accumulates, B.ContentOpen, B.ToolsOpen, B.HoldsTask, Delivering;
      forall t | t in builder.toolStates && B.HoldsTask(builder.toolStates[t]) ensures builder.toolStates[t].started {
        builder.HolderStarted(t);
      }
    }

    twostate lemma StillBase()
      requires old(Base()) && builder.Valid() && unchanged(this) && builder.trace == old(builder.trace)
      requires builder.ledger == old(builder.ledger) && builder.origin == old(builder.origin)
      requires heuristicParser.stripControlTokens == old(heuristicParser.stripControlTokens)
      ensures Base()
    {
      hide B.Builder.Valid;
    }

    /** The consumer has been offered a trace in which every block is stopped. */
    ghost predicate AtEnd()
      reads this`out, this`stop, this`issued, this`found, this`builder, builder
    {
      && Delivering() && builder.trace == issued && builder.Sealed()
      && builder.origin == Origin(o.startingBlockIndex, o.skipLifecycle)
    }

    method CloseAllBlocks()
      requires Base()
      modifies this`out, this`stop, this`issued, builder`thinkingStarted, builder`textStarted, builder`trace,
          builder`ledger
      ensures AtEnd() && builder.ledger.phase == Streaming && (old(stop) ==> stop)
      ensures issued == old(issued) + old(Closers()) + B.ToolClosers(builder.toolOrder, builder.toolStates)
    {
      hide B.Builder.Valid, B.Builder.Sealed, Delivering, B.ContentClosers, B.ToolClosers;
      var events := builder.CloseAllBlocks();
      EmitAll(events);
      assert old(issued) + events == old(issued) + old(Closers()) + B.ToolClosers(builder.toolOrder,
            builder.toolStates);
    }

    /** The upstream failed for good: flush, close, and leave the error to the route. */
    method HandleError(loopErr: StreamError)
      requires Base() && Told()
      modifies this`out, this`stop, this`issued, this`err, this`found, this`script, thinkParser, contentDSML,
          reasoningDSML
      modifies heuristicParser`mode, heuristicParser`buffer, heuristicParser`currentToolID,
          heuristicParser`currentFunctionName,
               heuristicParser`currentParameters, heuristicParser`serial
      modifies builder`nextIndex, builder`textIndex, builder`thinkingIndex, builder`thinkingStarted, builder`textStarted
      modifies builder`thinkingAccum, builder`accumulatedText, builder`accumulatedReasoning, builder`trace,
          builder`ledger
      ensures AtEnd() && builder.ledger.phase == Streaming && (old(stop) ==> stop) && err == Some(loopErr)
      ensures script == old(script) + [Finish]
      ensures Honest(Set(), Begin(o.defend, 0), script)
              && Tells(Play(Set(), Begin(o.defend, 0), script), false, false, issued, found)
    {
      hide *;
      FlushParsers();
      ToldIs();
      CloseAllBlocks();
      err := Some(loopErr);
      TellsAll(Play(Set(), Begin(o.defend, 0), script));
    }

    lemma TellsAll(f: Flow)
      requires AtEnd() && View() == f
      ensures Tells(f, false, false, issued, found)
    {
      hide B.Signed, B.ToolContents, B.Distinct, Replay, TextOf, ReasoningOf, Join, Starts, Delivering;
    }

    /** The last two events of a message. */
    method EndMessage(stopReason: string)
      requires AtEnd() && builder.ledger.phase == Streaming
      modifies this`out, this`stop, this`issued, builder`trace, builder`ledger
      ensures AtEnd() && builder.ledger.phase == Closed && (old(stop) ==> stop)
      ensures issued == old(issued) + [MessageDelta(stopReason,
                DetectStopSequence(TextOf(old(issued)), req.stopSequences))] + [MessageStop]
    {
      hide B.Builder.Sealed, DetectStopSequence, TextOf, Delivering;
      assert TextOf(issued) == builder.AccumulatedText() by { SealedText(); }
      var detected := DetectStopSequence(builder.AccumulatedText(), req.stopSequences);
      var d := builder.MessageDelta(stopReason, detected);
      Emit(d);
      var e := builder.MessageStop();
      Emit(e);
    }

    lemma SealedText()
      requires AtEnd()
      ensures TextOf(issued) == builder.AccumulatedText()
    {
    }

    /** Flush the parsers, settle the nameless calls, offer retries, and make sure there is something to see. */
    method SettleTurn() returns (hasOrphanedToolStates: bool, ghost last: Reading)
      requires Base() && Tracking() && Told() && Budgeted(o)
      modifies this`out, this`stop, this`issued, this`minted, this`serials, this`seen, this`finishReason, this`seenDone,
          this`found, this`script
      modifies builder, thinkParser, contentDSML, reasoningDSML
      modifies heuristicParser`mode, heuristicParser`buffer, heuristicParser`currentToolID,
          heuristicParser`currentFunctionName,
               heuristicParser`currentParameters, heuristicParser`serial
      ensures Base() && Minting() && (old(stop) ==> stop) && Visible(issued)
      ensures old(script) + [Finish] <= script && Honest(Set(), Begin(o.defend, 0), script)
      ensures var f := Play(Set(), Begin(o.defend, 0), script);
              && found == f.calls && Join(builder.accumulatedReasoning) == f.reasoning
              && Shown(builder.HasEmittedToolBlock(), f.text, f.reasoning, Join(builder.accumulatedText))
      ensures hasOrphanedToolStates <==> AnyDropped(req.toolNames, old(seen))
      ensures last.actions == Input(script) && last.reason == finishReason
      ensures var r, f := old(Heard(None)), Act(Set(), old(View()), Finish);
              var names := if AsksAgain(o, req.toolNames, r, f) then [] else req.toolNames;
              && AllAnswered(codec, o.defend, names, builder.toolStates, last.tools)
              && AllNamed(builder.toolStates, builder.names, names, last.tools)
              && (if AsksAgain(o, req.toolNames, r, f) then !stop ==> last == FirstRetry(o, Set(), f, r)
                  else script == old(script) + [Finish] && last == Flushed(r))
    {
      hide *;
      hasOrphanedToolStates, last := SettleCalls();
      MakeVisible();
    }

    /** Flush the parsers, settle the nameless calls, offer retries. */
    method SettleCalls() returns (hasOrphanedToolStates: bool, ghost last: Reading)
      requires Base() && Tracking() && Told() && Budgeted(o)
      modifies this`out, this`stop, this`issued, this`minted, this`serials, this`seen, this`finishReason, this`seenDone,
          this`found, this`script
      modifies builder, thinkParser, contentDSML, reasoningDSML
      modifies heuristicParser`mode, heuristicParser`buffer, heuristicParser`currentToolID,
          heuristicParser`currentFunctionName,
               heuristicParser`currentParameters, heuristicParser`serial
      ensures Base() && Minting() && Told() && (old(stop) ==> stop) && old(script) + [Finish] <= script
      ensures hasOrphanedToolStates <==> AnyDropped(req.toolNames, old(seen))
      ensures last.actions == Input(script) && last.reason == finishReason
      ensures var r, f := old(Heard(None)), Act(Set(), old(View()), Finish);
              var names := if AsksAgain(o, req.toolNames, r, f) then [] else req.toolNames;
              && AllAnswered(codec, o.defend, names, builder.toolStates, last.tools)
              && AllNamed(builder.toolStates, builder.names, names, last.tools)
              && (if AsksAgain(o, req.toolNames, r, f) then !stop ==> last == FirstRetry(o, Set(), f, r)
                  else script == old(script) + [Finish] && last == Flushed(r))
    {
      hide *;
      ghost var r, f := Heard(None), Act(Set(), View(), Finish);
      HeardParts(r, None);
      hasOrphanedToolStates := FlushAndResolve();
      InvisibleIs(r, f);
      FlushedIs(r);
      last := EmptyTurnGuard(r.tools);
      RetriedCalls(r, f, last);
    }

    /** What is known of the calls after the further attempts, if there were any. */
    lemma RetriedCalls(r: Reading, f: Flow, last: Reading)
      requires AsksAgain(o, req.toolNames, r, f) ==> Tracking() && last.tools == seen
      requires !AsksAgain(o, req.toolNames, r, f) ==>
                 && last.tools == r.tools && AllAnswered(codec, o.defend, req.toolNames, builder.toolStates, r.tools)
                 && AllNamed(builder.toolStates, builder.names, req.toolNames, r.tools)
      ensures var names := if AsksAgain(o, req.toolNames, r, f) then [] else req.toolNames;
              && AllAnswered(codec, o.defend, names, builder.toolStates, last.tools)
              && AllNamed(builder.toolStates, builder.names, names, last.tools)
    {
      hide AllAnswered, AllTrack, AllNamed, AsksAgain;
      if AsksAgain(o, req.toolNames, r, f) {
        TrackedAnswers(codec, o.defend, builder.toolStates, seen);
        TrackedNames(codec, builder.toolStates, builder.names, req.toolNames, seen);
      }
    }

    /** Whether the turn is invisible shows in what was read and what the parsers made of it. */
    lemma InvisibleIs(r: Reading, f: Flow)
      requires AllAnswered(codec, o.defend, req.toolNames, builder.toolStates, r.tools) && r.reason == finishReason
               && r.error == None && View() == f
      ensures IsInvisibleStopTurn() && o.invisibleRetry(1, builder.AccumulatedReasoning(),
                builder.AccumulatedText()).Some? <==>
              AsksAgain(o, req.toolNames, r, f)
      ensures f.text == builder.AccumulatedText() && f.reasoning == builder.AccumulatedReasoning()
      ensures var granted := o.invisibleRetry(1, builder.AccumulatedReasoning(), builder.AccumulatedText());
              granted.Some? ==>
                FirstRetry(o, Set(), f, r) == Retried(o, Set(),
                      Read(Reading([], r.actions + [Finish], r.reason, r.done, None), granted.value), 2)
    {
      hide AllAnswered, TrimSpace, Resolved, Adopted, Read, Join, Retried;
      AnsweredStarts(codec, o.defend, req.toolNames, builder.toolStates, r.tools);
    }

    method FlushAndResolve() returns (hasOrphanedToolStates: bool)
      requires Base() && Tracking() && Told()
      modifies this`out, this`stop, this`issued, this`minted, this`serials, this`seen, this`found, this`script
      modifies builder, thinkParser, contentDSML, reasoningDSML
      modifies heuristicParser`mode, heuristicParser`buffer, heuristicParser`currentToolID,
          heuristicParser`currentFunctionName,
               heuristicParser`currentParameters, heuristicParser`serial
      ensures Base() && Minting() && Told() && (old(stop) ==> stop)
      ensures Input(script) == Input(old(script)) + [Finish] && finishReason == old(finishReason)
              && seenDone == old(seenDone)
      ensures forall t: nat :: !B.ToolAt(builder.toolStates, t).started ==> Unused(B.ToolAt(builder.toolStates, t))
      ensures script == old(script) + [Finish] && View() == Act(Set(), old(View()), Finish)
      ensures AllAnswered(codec, o.defend, req.toolNames, builder.toolStates, old(seen))
      ensures AllNamed(builder.toolStates, builder.names, req.toolNames, old(seen))
      ensures hasOrphanedToolStates <==> AnyDropped(req.toolNames, old(seen))
    {
      hide *;
      FlushParsers();
      hasOrphanedToolStates := ResolveOrphans(seen);
    }

    method MakeVisible()
      requires Base() && Told()
      modifies this`out, this`stop, this`issued
      modifies builder`nextIndex, builder`textIndex, builder`thinkingStarted, builder`textStarted
      modifies builder`accumulatedText, builder`trace, builder`ledger
      ensures Base() && (old(stop) ==> stop) && Visible(issued)
      ensures Honest(Set(), Begin(o.defend, 0), script)
      ensures var f := Play(Set(), Begin(o.defend, 0), script);
              && found == f.calls && Join(builder.accumulatedReasoning) == f.reasoning
              && Shown(builder.HasEmittedToolBlock(), f.text, f.reasoning, Join(builder.accumulatedText))
    {
      hide *;
      ToldIs();
      ViewTexts();
      EnsureVisible();
      BaseTexts();
    }

    lemma ViewTexts()
      ensures View().text == Join(builder.accumulatedText) && View().reasoning == Join(builder.accumulatedReasoning)
              && View().calls == found
    {
    }

    lemma BaseTexts()
      requires Base()
      ensures issued == builder.trace && ReasoningOf(issued) == Join(builder.accumulatedReasoning)
    {
      hide Replay, TextOf, ReasoningOf, Join, B.Signed, B.ContentOpen, B.ToolsOpen, B.Ordered, B.ToolContents,
           Delivering;
    }

    lemma EndTexts()
      requires AtEnd()
      ensures TextOf(issued) == Join(builder.accumulatedText)
              && ReasoningOf(issued) == Join(builder.accumulatedReasoning)
      ensures Sent(codec, uuid, issued, found)
    {
      hide Replay, TextOf, ReasoningOf, Join, B.Signed, B.ToolContents, B.Distinct, Sent;
    }

    /** The normal end of a turn. */
    method Finalize() returns (ghost last: Reading)
      requires Base() && Tracking() && Told() && Budgeted(o) && Json.Lawful(codec)
      modifies this`out, this`stop, this`issued, this`minted, this`serials, this`seen, this`finishReason, this`seenDone,
          this`found, this`script
      modifies builder, thinkParser, contentDSML, reasoningDSML
      modifies heuristicParser`mode, heuristicParser`buffer, heuristicParser`currentToolID,
          heuristicParser`currentFunctionName,
               heuristicParser`currentParameters, heuristicParser`serial
      ensures AtEnd() && (old(stop) ==> stop) && builder.ledger.phase == (if o.skipLifecycle then Streaming else Closed)
      ensures Minting() && Visible(issued)
      ensures old(script) + [Finish] <= script && Honest(Set(), Begin(o.defend, 0), script)
              && last.actions == Input(script)
      ensures Tells(Play(Set(), Begin(o.defend, 0), script), true, builder.HasEmittedToolBlock(), issued, found)
      ensures !o.skipLifecycle ==>
                && Ends(issued, req.stopSequences)
                && StopReason(issued) == MapStopReason(if AnyDropped(req.toolNames, old(seen)) then "stop"
                     else last.reason)
      ensures var r, f := old(Heard(None)), Act(Set(), old(View()), Finish);
              var names := if AsksAgain(o, req.toolNames, r, f) then [] else req.toolNames;
              && AllDelivered(codec, o.defend, names, builder.toolStates, last.tools)
              && AllNamed(builder.toolStates, builder.names, names, last.tools)
              && (if AsksAgain(o, req.toolNames, r, f) then !stop ==> last == FirstRetry(o, Set(), f, r)
                  else script == old(script) + [Finish] && last == Flushed(r))
    {
      hide *;
      ghost var names := if AsksAgain(o, req.toolNames, Heard(None), Act(Set(), View(), Finish)) then []
          else req.toolNames;
      var hasOrphanedToolStates;
      hasOrphanedToolStates, last := SettleTurn();
      CloseTurn(names, last.tools, Play(Set(), Begin(o.defend, 0), script));
      if !o.skipLifecycle {
        EndTurn(if hasOrphanedToolStates then "stop" else finishReason, Play(Set(), Begin(o.defend, 0), script));
      }
    }

    /** Held arguments go out and every block is stopped. */
    method CloseTurn(ghost names: seq<Option<string>>, ghost log: seq<ToolCallDelta>, ghost f: Flow)
      requires Base() && Minting() && Visible(issued) && Json.Lawful(codec)
      requires found == f.calls && Join(builder.accumulatedReasoning) == f.reasoning
      requires Shown(builder.HasEmittedToolBlock(), f.text, f.reasoning, Join(builder.accumulatedText))
      requires AllAnswered(codec, o.defend, names, builder.toolStates, log)
               && AllNamed(builder.toolStates, builder.names, names, log)
      modifies this`out, this`stop, this`issued, builder`toolStates, builder`thinkingStarted, builder`textStarted,
          builder`trace, builder`ledger
      ensures AtEnd() && (old(stop) ==> stop) && builder.ledger.phase == Streaming
      ensures Minting() && Visible(issued)
      ensures Tells(f, true, builder.HasEmittedToolBlock(), issued, found)
      ensures AllDelivered(codec, o.defend, names, builder.toolStates, log)
              && AllNamed(builder.toolStates, builder.names, names, log)
    {
      hide *;
      ghost var visible, states := issued, builder.toolStates;
      MintingIs();
      BaseTexts();
      FlushTasks();
      FlushedIsDelivered(codec, o.defend, names, states, log, builder.toolStates);
      FlushedNames(codec, o.defend, states, builder.toolStates, builder.names, names, log);
      FlushedIDs(states);
      CloseAllBlocks();
      EndTexts();
      assert visible <= issued;
      StillVisible(visible, issued);
      TellsNow(f, builder.HasEmittedToolBlock(), issued, found);
    }

    lemma FlushedIDs(states: map<nat, B.ToolCallState>)
      requires o.defend ==> AllMinted(uuid, states, serials, minted)
      requires forall t: nat :: B.ToolAt(builder.toolStates, t) == AfterFlush(codec, o.defend, B.ToolAt(states, t))
      ensures Minting()
    {
      hide AllMinted, B.TaskFallback, Repaired;
      if o.defend { MintedSame(uuid, states, serials, minted, builder.toolStates); }
    }

    lemma MintingIs()
      ensures Minting() <==> (o.defend ==> AllMinted(uuid, builder.toolStates, serials, minted))
    {
    }

    /** The last two events add no text. */
    method EndTurn(effectiveFinishReason: string, ghost f: Flow)
      requires AtEnd() && builder.ledger.phase == Streaming && Visible(issued)
      requires Tells(f, true, builder.HasEmittedToolBlock(), issued, found)
      modifies this`out, this`stop, this`issued, builder`trace, builder`ledger
      ensures AtEnd() && builder.ledger.phase == Closed && (old(stop) ==> stop) && Visible(issued)
      ensures Tells(f, true, builder.HasEmittedToolBlock(), issued, found)
      ensures Ends(issued, req.stopSequences) && StopReason(issued) == MapStopReason(effectiveFinishReason)
    {
      hide *;
      ghost var whole := issued;
      EndMessage(MapStopReason(effectiveFinishReason));
      EndsWell(whole, MapStopReason(effectiveFinishReason), req.stopSequences, issued);
      StillVisible(whole, issued);
      StillTells(f, true, builder.HasEmittedToolBlock(), whole, issued, found);
    }

    // ---- the whole run ----

    ghost predicate Ready()
      reads this`out, this`stop, this`issued, this`found, this`builder, this`heuristicParser, this`contentDSML,
          this`reasoningDSML
      reads builder, heuristicParser`stripControlTokens
    {
      && Delivering() && contentDSML != reasoningDSML && issued == []
      && builder.Valid() && builder.trace == [] && builder.codec == codec
      && builder.ledger == builder.origin == Origin(o.startingBlockIndex, o.skipLifecycle)
      && heuristicParser.codec == codec && heuristicParser.stripControlTokens == o.defend
    }

    /** At every point of a run: the events are accepted so far, and what is known of the calls is what was sent. */
    ghost predicate Sound()
      reads this`out, this`stop, this`issued, this`found, this`builder, builder
    {
      && Delivering() && builder.trace == issued && builder.origin == Origin(o.startingBlockIndex, o.skipLifecycle)
      && builder.Accepted() && builder.Accumulates()
      && B.ToolContents(builder.toolStates, builder.names, builder.trace, builder.nextIndex)
         && B.Distinct(builder.toolStates)
    }

    lemma BaseSound()
      ensures Base() || AtEnd() ==> Sound()
    {
      hide B.Builder.Accepted, B.Builder.Accumulates, B.ToolContents, B.ContentOpen, B.ToolsOpen, B.Ordered, B.Distinct,
           Delivering;
      if Base() {
        B.OwnedAreDistinct(builder.toolStates, builder.owner, builder.ledger.open);
      }
    }

    method Open()
      requires Ready()
      modifies this`out, this`stop, this`issued, builder`trace, builder`ledger
      ensures Base() && issued == (if o.skipLifecycle then [] else [Event.MessageStart])
    {
      hide B.Builder.Valid, Delivering;
      if !o.skipLifecycle {
        var e := builder.MessageStart();
        Emit(e);
      }
    }

    /** The upstream's side of a run: the first stream and its continuations. */
    method Receive() returns (loopErr: Option<StreamError>)
      requires Base() && Tracking() && Told() && Budgeted(o) && !builder.thinkingStarted && !builder.textStarted
      modifies this, builder, thinkParser, heuristicParser, contentDSML, reasoningDSML
      ensures builder == old(builder) && Base() && Tracking() && Told() && (old(stop) ==> stop)
      ensures thinkParser == old(thinkParser) || fresh(thinkParser)
      ensures heuristicParser == old(heuristicParser) || fresh(heuristicParser)
      ensures contentDSML == old(contentDSML) || fresh(contentDSML)
      ensures reasoningDSML == old(reasoningDSML) || fresh(reasoningDSML)
      ensures err == old(err)
      ensures !stop ==> Heard(loopErr) == Resumed(o, Verdict(Read(old(Heard(None)), old(chunks))), 1)
    {
      hide *;
      loopErr := Iterate();
      if stop {
        return;
      }
      loopErr := MidStreamAbortGuard(loopErr);
    }

    /** What the upstream's side leaves is finalized, or its error is reported. */
    method Conclude(loopErr: Option<StreamError>) returns (ghost last: Reading)
      requires Base() && Tracking() && Told() && Budgeted(o) && Json.Lawful(codec) && err == None
      modifies this, builder, thinkParser, heuristicParser, contentDSML, reasoningDSML
      ensures builder == old(builder) && AtEnd() && Minting() && err == loopErr
      ensures builder.ledger.phase == (if err == None && !o.skipLifecycle then Closed else Streaming)
      ensures err == None ==> Visible(issued) && (!o.skipLifecycle ==> Ends(issued, req.stopSequences))
      ensures old(script) + [Finish] <= script && Honest(Set(), Begin(o.defend, 0), script)
              && last.actions == Input(script)
      ensures Tells(Play(Set(), Begin(o.defend, 0), script), err == None, builder.HasEmittedToolBlock(), issued, found)
      ensures err == None && !o.skipLifecycle ==>
                StopReason(issued) == MapStopReason(if AnyDropped(req.toolNames, old(seen)) then "stop"
                      else last.reason)
      ensures var r, f := old(Heard(loopErr)), Act(Set(), old(View()), Finish);
              var names := if AsksAgain(o, req.toolNames, r, f) then [] else req.toolNames;
              && CallsKept(codec, o.defend, names, err == None, builder.toolStates, last.tools)
              && AllNamed(builder.toolStates, builder.names, names, last.tools)
              && (if AsksAgain(o, req.toolNames, r, f) then !stop ==> last == FirstRetry(o, Set(), f, r)
                  else script == old(script) + [Finish] && last == Flushed(r))
    {
      hide *;
      ghost var r, f := Heard(loopErr), Act(Set(), View(), Finish);
      HeardParts(r, loopErr);
      ghost var names := if AsksAgain(o, req.toolNames, r, f) then [] else req.toolNames;
      if loopErr.Some? {
        FailedAsksNot(r, f);
        TrackingIs();
        HandleError(loopErr.value);
        PlaySnoc(Set(), Begin(o.defend, 0), old(script), Finish);
        FinishAct(Set(), old(View()));
        last := Flushed(r);
        FlushedIs(r);
        NotYet(Play(Set(), Begin(o.defend, 0), script), builder.HasEmittedToolBlock(), issued, found);
        KeptSoFar(codec, o.defend, names, builder.toolStates, seen);
        return;
      }
      last := Finalize();
      KeptToTheEnd(codec, o.defend, names, builder.toolStates, last.tools);
    }

    lemma FailedAsksNot(r: Reading, f: Flow)
      requires r.error.Some?
      ensures !AsksAgain(o, req.toolNames, r, f)
    {
    }

    lemma TrackingIs()
      ensures Tracking() <==>
              AllTrack(codec, builder.toolStates, seen)
              && AllNamed(builder.toolStates, builder.names, req.toolNames, seen) && Minting()
    {
    }

    /** The run; `finished` says that it was not cut short by the consumer's leaving. */
    method Run() returns (finished: bool, ghost heard: Reading, ghost last: Reading)
      requires Ready() && !builder.thinkingStarted && !builder.textStarted && View() == Begin(o.defend, 0)
               && Heard(None) == NOTHING
      requires script == [] && serials == map[] && builder.toolStates == map[] && err == None && Budgeted(o)
               && Json.Lawful(codec)
      modifies this, builder, thinkParser, heuristicParser, contentDSML, reasoningDSML
      ensures builder == old(builder) && Sound() && (!finished ==> stop)
      ensures finished ==>
              Minting() && AtEnd()
              && builder.ledger.phase == (if err == None && !o.skipLifecycle then Closed else Streaming)
      ensures finished && err == None ==> Visible(issued) && (!o.skipLifecycle ==> Ends(issued, req.stopSequences))
      ensures finished ==>
                && heard == Resumed(o, Verdict(Read(NOTHING, old(chunks))), 1) && err == heard.error
                && Honest(Set(), Begin(o.defend, 0), script) && Input(script) == last.actions
                && Tells(Play(Set(), Begin(o.defend, 0), script), err == None, builder.HasEmittedToolBlock(), issued,
                         found)
                && |heard.actions| < |script| && Input(script[..|heard.actions| + 1]) == heard.actions + [Finish]
      ensures finished && err == None && !o.skipLifecycle ==>
                StopReason(issued) == MapStopReason(if AnyDropped(req.toolNames, heard.tools) then "stop"
                      else last.reason)
      ensures finished ==>
                var asked := Asked(o, Set(), req.toolNames, heard);
                var names := if asked then [] else req.toolNames;
                && CallsKept(codec, o.defend, names, err == None, builder.toolStates, last.tools)
                && AllNamed(builder.toolStates, builder.names, names, last.tools)
                && ((asked && stop) || last == Outcome(o, Set(), req.toolNames, heard))
    {
      hide *;
      assert Told() && Tracking() by { StartsTold(); }
      Open();
      var loopErr := Receive();
      heard := Heard(loopErr);
      if stop {
        BaseSound();
        return false, heard, heard;
      }
      HeardParts(heard, loopErr);
      ghost var before, f := script, Act(Set(), View(), Finish);
      ToldIs();
      InputLength(before);
      PlaySnoc(Set(), Begin(o.defend, 0), before, Finish);
      FinishAct(Set(), View());
      last := Conclude(loopErr);
      BaseSound();
      assert script[..|heard.actions| + 1] == before + [Finish];
      FlushedIs(heard);
      FlowIs(Set(), before + [Finish], Flushed(heard));
      OutcomeIs(o, Set(), req.toolNames, heard, f);
      finished := true;
    }

    lemma StartsTold()
      requires View() == Begin(o.defend, 0) && script == [] && serials == map[] && builder.toolStates == map[]
               && Heard(None) == NOTHING
      ensures Told() && Tracking()
    {
      hide AllTrack, View;
      NothingTracked(codec);
    }

    lemma HeardParts(h: Reading, e: Option<StreamError>)
      requires h == Heard(e)
      ensures h == Reading(seen, Input(script), finishReason, seenDone, e)
    {
      hide Input;
    }
  }

  // ---- one turn ----

  lemma MadeReady(s: Streamer)
    requires s.builder.Valid() && s.builder.trace == []
             && s.builder.origin == Origin(s.o.startingBlockIndex, s.o.skipLifecycle)
    requires s.builder.ledger == s.builder.origin && s.builder.codec == s.codec
    requires s.heuristicParser.codec == s.codec && s.heuristicParser.stripControlTokens == s.o.defend
    requires s.contentDSML != s.reasoningDSML && s.issued == s.out == [] && !s.stop && s.found == []
    requires s.seen == [] && s.script == [] && s.finishReason == "" && !s.seenDone
    ensures s.Ready() && s.Heard(None) == NOTHING
  {
    hide B.Builder.Valid;
  }

  lemma SoundRun(s: Streamer)
    requires s.Sound()
    ensures s.out <= s.issued && (!s.stop ==> s.out == s.issued) && s.builder.trace == s.issued
    ensures (forall n :: 0 < n < |s.out| ==> s.takes(n)) && (if s.stop then !s.takes(|s.out|) else s.out != [] ==>
              s.takes(|s.out|))
    ensures s.builder.origin == Origin(s.o.startingBlockIndex, s.o.skipLifecycle)
    ensures Replay(s.builder.origin, s.issued) == Some(s.builder.ledger) && B.Signed(s.builder.sign, s.issued)
    ensures B.ToolContents(s.builder.toolStates, s.builder.names, s.issued, s.builder.nextIndex)
            && B.Distinct(s.builder.toolStates)
    ensures Sent(s.codec, s.uuid, s.issued, s.found)
  {
    hide B.Signed, B.ToolContents, B.Distinct, Replay, TextOf, ReasoningOf, Starts, Sent;
  }

  lemma AtEndOpen(s: Streamer)
    requires s.AtEnd()
    ensures s.builder.ledger.open == map[]
  {
    hide B.Builder.Accepted, B.Builder.Accumulates, B.ToolContents, B.Distinct;
  }

  /**
   * One turn: the events the consumer has taken, the error left for the route, and the states of the calls.
   * `issued` is everything the run emitted, `heard` what the upstream had sent when the turn came to its end, `last`
   * what it had sent in all, `script` what came in for the parsers.
   */
  method Translate(codec: Json.Codec, sign: string -> string, uuid: nat -> string, takes: nat -> bool,
                   chunks: seq<Chunk>, req: Request, o: Options)
      returns (out: seq<Event>, err: Option<StreamError>, finished: bool, stopped: bool,
               tools: map<nat, B.ToolCallState>,
               ghost issued: seq<Event>, ghost heard: Reading, ghost last: Reading)
    requires Budgeted(o) && Json.Lawful(codec)
    // The consumer has the events up to the first it refused.
    ensures out <= issued && (!stopped ==> finished && out == issued) && (forall n :: 0 < n < |out| ==> takes(n))
    ensures if stopped then !takes(|out|) else out != [] ==> takes(|out|)
    // Every run: a trace the protocol accepts, closed when the run has ended, with each signature over its thinking.
    ensures var l := Origin(o.startingBlockIndex, o.skipLifecycle); Replay(l, out).Some? && Replay(l, issued).Some?
    ensures finished ==>
              var l := Replay(Origin(o.startingBlockIndex, o.skipLifecycle), issued).value;
              l.open == map[] && l.phase == (if err == None && !o.skipLifecycle then Closed else Streaming)
    ensures B.Signed(sign, issued)
    ensures finished && err == None ==> Visible(issued) && (!o.skipLifecycle ==> Ends(issued, req.stopSequences))
    // Text and reasoning are what the parsers and filters make of
    // what came in, and the calls found in the text are sent.
    ensures finished ==>
              var f := FlowAt(Setting(codec, o.defend, o.thinkingEnabled), last);
              Tells(f, err == None, Started(tools), issued, f.calls) && Sent(codec, uuid, issued, f.calls)
    // What was heard is what the upstream sent, over all its attempts;
    // it decides how the turn ends and whether it is asked again.
    ensures finished ==>
              var g := Setting(codec, o.defend, o.thinkingEnabled);
              && heard == Resumed(o, Verdict(Read(NOTHING, chunks)), 1) && err == heard.error
              && ((Asked(o, g, req.toolNames, heard) && stopped) || last == Outcome(o, g, req.toolNames, heard))
    ensures finished && err == None && !o.skipLifecycle ==>
              StopReason(issued) == MapStopReason(if AnyDropped(req.toolNames, heard.tools) then "stop"
                    else last.reason)
    // What was read is what the chunks hold, field by field and in order, up to the end of each stream.
    ensures finished ==>
              var ss, g := L.Streams(o, chunks), Setting(codec, o.defend, o.thinkingEnabled);
              && L.Says(heard, L.Heard(ss), L.Heard(ss)) && L.EndsLike(heard, ss, [])
              && (!(Asked(o, g, req.toolNames, heard) && stopped) ==>
                   L.Says(last, L.Heard(L.AllStreams(o, g, req.toolNames, chunks, heard)),
                          L.Heard(L.CallStreams(o, g, req.toolNames, chunks, heard))))
    // Every call is delivered. Names of the request are given out before an invisible turn is tried again, not after.
    ensures finished ==>
              var names := if Asked(o, Setting(codec, o.defend, o.thinkingEnabled), req.toolNames, heard) then []
                  else req.toolNames;
              CallsDelivered(codec, o.defend, names, err == None, tools, issued, last.tools)
    ensures finished && o.defend ==> Minted(uuid, tools)
    ensures finished && o.defend && Random(uuid) ==>
              forall t, u :: t in tools && u in tools && t != u && tools[t].started && tools[u].started ==>
                  tools[t].toolID != tools[u].toolID
    ensures finished && Random(uuid) ==>
              var us := FlowAt(Setting(codec, o.defend, o.thinkingEnabled), last).calls;
              DistinctFound(uuid, us) && (o.defend && Unmistakable(uuid) ==> KindsApart(uuid, tools, us))
    // A turn of quiet text, however it was cut.
    ensures var ds := L.Deltas(L.Live(chunks));
            finished && L.Undivided(o, chunks) && L.PlainChunks(o, ds) ==>
              var f := FlowAt(Setting(codec, o.defend, o.thinkingEnabled), Flushed(heard));
              ReadsScan(o.defend, Join(Gather(L.ContentIn, ds)), f.text, f.reasoning)
    // A turn of anything at all, when nothing in its content is a tag or a call: what its reader is told.
    ensures var ds := L.Deltas(L.Live(chunks));
            finished && L.Undivided(o, chunks) && L.SimpleChunks(o, ds)
            && !Asked(o, Setting(codec, o.defend, o.thinkingEnabled), req.toolNames, heard) ==>
              Reads(Whole(o.defend, L.Spoken(ds)), Whole(o.defend, Join(Gather(L.ReasoningIn, ds))), err == None,
                    Started(tools), issued)
  {
    hide *;
    var s := new Streamer(codec, sign, uuid, takes, chunks, req, o);
    assert s.Ready() && s.Heard(None) == NOTHING by { MadeReady(s); }
    finished, heard, last := s.Run();
    out, err, stopped, tools, issued := s.out, s.err, s.stop, s.builder.toolStates, s.issued;
    SoundRun(s);
    s.StartedIs();
    ReplayPrefix(s.builder.origin, issued, |out|);
    assert out == issued[..|out|];
    if finished {
      AtEndOpen(s);
      IDsOfTheirOwn(s);
      TellsCalls(Play(s.Set(), Begin(o.defend, 0), s.script), err == None, Started(tools), issued, s.found);
      FlowIs(s.Set(), s.script, last);
      if Random(uuid) {
        FoundIDsDiffer(s.Set(), uuid, s.script);
        if o.defend && Unmistakable(uuid) { KindsDiffer(s.Set(), uuid, s.script, tools); }
      }
      ghost var first := s.script[..|heard.actions| + 1];
      HonestPrefix(s.Set(), Begin(o.defend, 0), s.script, |first|);
      FlushedIs(heard);
      FlowIs(s.Set(), first, Flushed(heard));
      KeptIsDelivered(codec, o.defend, if Asked(o, s.Set(), req.toolNames, heard) then [] else req.toolNames,
                      err == None, tools,
                      s.builder.names, issued, s.builder.nextIndex, last.tools);
      L.TurnHears(o, chunks);
      L.SaysAll(heard, L.Heard(L.Streams(o, chunks)));
      if !(Asked(o, s.Set(), req.toolNames, heard) && stopped) {
        L.OutcomeHears(o, s.Set(), req.toolNames, chunks, heard, last);
      }
      if L.Undivided(o, chunks) && L.PlainChunks(o, L.Deltas(L.Live(chunks))) {
        L.PlainHeard(o, chunks, heard);
        PlainIs(o, heard.actions);
        PlainInput(s.Set(), first, heard.actions);
      }
      if L.Undivided(o, chunks) && L.SimpleChunks(o, L.Deltas(L.Live(chunks)))
          && !Asked(o, s.Set(), req.toolNames, heard) {
        L.SimpleHeard(o, chunks, heard);
        M.MixedInput(s.Set(), first, heard.actions);
        OutcomeUnasked(o, s.Set(), req.toolNames, heard);
        ReadsNow(FlowAt(s.Set(), last), err == None, Started(tools), issued);
      }
    }
  }

  /** While defending, the ids of a run are the proxy's own, and with random numbers that differ so do they. */
  lemma IDsOfTheirOwn(s: Streamer)
    requires s.Minting() && B.ToolContents(s.builder.toolStates, s.builder.names, s.issued, s.builder.nextIndex)
    ensures s.o.defend ==> Minted(s.uuid, s.builder.toolStates)
    ensures s.o.defend && Random(s.uuid) ==>
              var tools := s.builder.toolStates;
              forall t, u :: t in tools && u in tools && t != u && tools[t].started && tools[u].started ==>
                  tools[t].toolID != tools[u].toolID
  {
    hide AllMinted, Random, FragmentsOf;
    var tools := s.builder.toolStates;
    if s.o.defend && Random(s.uuid) {
      forall t, u | t in tools && u in tools && t != u && tools[t].started && tools[u].started
          ensures tools[t].toolID != tools[u].toolID {
        assert B.ToolContent(tools[t], B.NameAt(s.builder.names, t), s.issued, s.builder.nextIndex);
        assert B.ToolContent(tools[u], B.NameAt(s.builder.names, u), s.issued, s.builder.nextIndex);
        MintedIDsDiffer(s.uuid, tools, s.serials, s.minted, t, u);
      }
    }
  }
}
