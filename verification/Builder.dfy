/** The event builder of one streaming turn and its content block manager (internal/sse/builder.go). */
module Builder {
  import opened Wrappers
  import opened Strings
  import opened Events
  import Json

  /** The state of one streamed tool call, keyed by the upstream's tool index. */
  datatype ToolCallState = ToolCallState(
    blockIndex: nat, toolID: string, name: string, contents: seq<string>, started: bool,
    taskArgBuffer: string, taskArgsEmitted: bool, preStartArgs: string)

  const NEW_TOOL: ToolCallState := ToolCallState(0, "", "", [], false, "", false, "")

  const RUN_IN_BACKGROUND: string := "run_in_background"

  /** Task calls never run in the background. */
  function Foreground(args: Json.Object): Json.Object
  {
    args[RUN_IN_BACKGROUND := Json.Bool(false)]
  }

  /** How a tool name grows with each fragment that carries one. */
  function ExtendName(prev: string, name: string): string
  {
    if prev == "" || prev <= name then name
    else if name <= prev then prev
    else prev + name
  }

  /** Each signature signs the thinking text sent so far for its block. */
  ghost predicate Signed(sign: string -> string, es: seq<Event>)
  {
    forall n :: 0 <= n < |es| && es[n].SignatureDelta? ==> es[n].signature == sign(BlockText(es[..n], es[n].index))
  }

  lemma SignedSnoc(sign: string -> string, es: seq<Event>, e: Event)
    requires Signed(sign, es)
    requires e.SignatureDelta? ==> e.signature == sign(BlockText(es, e.index))
    ensures Signed(sign, es + [e])
  {
    var fs := es + [e];
    forall n | 0 <= n < |fs| && fs[n].SignatureDelta? ensures fs[n].signature == sign(BlockText(fs[..n], fs[n].index)) {
      assert fs[..n] == if n < |es| then es[..n] else es;
    }
  }

  // ---- how the manager's state relates to the ledger ----

  /** The flags say which content block is open. */
  ghost predicate ContentOpen(thinkingStarted: bool, thinkingIndex: int, textStarted: bool, textIndex: int,
                              open: map<nat, Kind>)
  {
    && !(thinkingStarted && textStarted)
    && (thinkingStarted ==> thinkingIndex >= 0 && thinkingIndex in open && open[thinkingIndex] == ThinkingBlock)
    && (textStarted ==> textIndex >= 0 && textIndex in open && open[textIndex] == TextBlock)
    && (forall k :: k in open && open[k] == ThinkingBlock ==> thinkingStarted && k == thinkingIndex)
    && (forall k :: k in open && open[k] == TextBlock ==> textStarted && k == textIndex)
  }

  /** The tool states say which tool blocks are open. */
  ghost predicate ToolsOpen(states: map<nat, ToolCallState>, owner: map<nat, nat>, open: map<nat, Kind>)
  {
    && (forall t :: t in states && states[t].started ==>
          var b := states[t].blockIndex; b in open && open[b] == ToolBlock && b in owner && owner[b] == t)
    && (forall k :: k in open && open[k] == ToolBlock ==>
          k in owner && owner[k] in states && states[owner[k]].started && states[owner[k]].blockIndex == k)
  }

  /** Started calls have blocks of their own. */
  ghost predicate Distinct(states: map<nat, ToolCallState>)
  {
    forall t, u :: t in states && u in states && states[t].started && states[u].started && t != u ==>
        states[t].blockIndex != states[u].blockIndex
  }

  lemma OwnedAreDistinct(states: map<nat, ToolCallState>, owner: map<nat, nat>, open: map<nat, Kind>)
    requires ToolsOpen(states, owner, open)
    ensures Distinct(states)
  {
  }

  /** Insertion order lists every tool state once. */
  ghost predicate Ordered(order: seq<nat>, states: map<nat, ToolCallState>)
  {
    && (forall i, j :: 0 <= i < j < |order| ==> order[i] != order[j])
    && (forall t :: t in order <==> t in states)
  }

  /**
   * A started call has a block under its id and name and has recorded
   * exactly the fragments sent to it; the others have sent nothing.
   */
  ghost predicate ToolContents(states: map<nat, ToolCallState>, names: map<nat, string>, trace: seq<Event>, next: nat)
  {
    forall t :: t in states ==> ToolContent(states[t], NameAt(names, t), trace, next)
  }

  function NameAt(names: map<nat, string>, t: nat): string
  {
    if t in names then names[t] else ""
  }

  ghost predicate ToolContent(st: ToolCallState, name: string, trace: seq<Event>, next: nat)
  {
    if st.started then
      && st.contents == FragmentsOf(trace, st.blockIndex) && st.blockIndex < next
      && st.toolID != "" && BlockStart(st.blockIndex, ToolBlock, st.toolID, name) in trace
    else st.contents == [] && st.taskArgBuffer == "" && !st.taskArgsEmitted
  }

  lemma ContentStarts(tS: bool, tI: int, xS: bool, xI: int, open: map<nat, Kind>, n: nat, kind: Kind)
    requires ContentOpen(tS, tI, xS, xI, open) && n !in open
    ensures kind == ToolBlock ==> ContentOpen(tS, tI, xS, xI, open[n := kind])
    ensures !tS && !xS && kind == ThinkingBlock ==> ContentOpen(true, n, false, xI, open[n := kind])
    ensures !tS && !xS && kind == TextBlock ==> ContentOpen(false, tI, true, n, open[n := kind])
    ensures !tS && !xS ==> NoContentOpen(open)
  {
  }

  lemma ContentStops(tS: bool, tI: int, xS: bool, xI: int, open: map<nat, Kind>)
    requires ContentOpen(tS, tI, xS, xI, open)
    ensures tS ==> ContentOpen(false, tI, false, xI, open - {tI})
    ensures xS ==> ContentOpen(false, tI, false, xI, open - {xI})
  {
  }

  lemma ToolsUnaffected(states: map<nat, ToolCallState>, owner: map<nat, nat>, open: map<nat, Kind>, n: nat, kind: Kind)
    requires ToolsOpen(states, owner, open) && kind != ToolBlock
    ensures n !in open ==> ToolsOpen(states, owner, open[n := kind])
    ensures n in open && open[n] == kind ==> ToolsOpen(states, owner, open - {n})
  {
  }

  lemma ToolStarts(states: map<nat, ToolCallState>, owner: map<nat, nat>, open: map<nat, Kind>, t: nat,
                   st: ToolCallState)
    requires ToolsOpen(states, owner, open) && st.blockIndex !in open && st.started
             && (t in states ==> !states[t].started)
    ensures ToolsOpen(states[t := st], owner[st.blockIndex := t], open[st.blockIndex := ToolBlock])
  {
  }

  lemma ToolKept(states: map<nat, ToolCallState>, owner: map<nat, nat>, open: map<nat, Kind>, t: nat, st: ToolCallState)
    requires ToolsOpen(states, owner, open)
    requires if t in states then st.blockIndex == states[t].blockIndex && st.started == states[t].started
             else !st.started
    ensures ToolsOpen(states[t := st], owner, open)
  {
  }

  lemma ToolDropped(states: map<nat, ToolCallState>, owner: map<nat, nat>, open: map<nat, Kind>, t: nat)
    requires ToolsOpen(states, owner, open) && t in states && !states[t].started
    ensures ToolsOpen(states - {t}, owner, open)
  {
  }

  /** An event that is no JSON fragment leaves the fragments alone. */
  lemma ContentsSnoc(states: map<nat, ToolCallState>, names: map<nat, string>, trace: seq<Event>, e: Event, next: nat,
                     next': nat)
    requires ToolContents(states, names, trace, next) && next <= next' && !e.InputJsonDelta?
    ensures ToolContents(states, names, trace + [e], next')
  {
    hide FragmentsOf, StartsAt;
    forall t | t in states ensures ToolContent(states[t], NameAt(names, t), trace + [e], next') {
      SnocBlock(trace, e, states[t].blockIndex);
    }
  }

  /** A fragment for a block that no call owns. */
  lemma ContentsForeign(states: map<nat, ToolCallState>, names: map<nat, string>, trace: seq<Event>, next: nat,
                        json: string)
    requires ToolContents(states, names, trace, next)
    ensures ToolContents(states, names, trace + [InputJsonDelta(next, json)], next)
  {
    hide FragmentsOf, StartsAt;
    var e := InputJsonDelta(next, json);
    forall t | t in states ensures ToolContent(states[t], NameAt(names, t), trace + [e], next) {
      SnocBlock(trace, e, states[t].blockIndex);
      assert ToolContent(states[t], NameAt(names, t), trace, next);
    }
  }

  lemma ContentsUpdate(states: map<nat, ToolCallState>, names: map<nat, string>, trace: seq<Event>, next: nat, t: nat,
                       st: ToolCallState, name: string)
    requires ToolContents(states, names, trace, next) && ToolContent(st, name, trace, next)
    ensures ToolContents(states[t := st], names[t := name], trace, next)
    ensures name == NameAt(names, t) ==> ToolContents(states[t := st], names, trace, next)
  {
    hide ToolContent;
  }

  /** A JSON fragment for the block of one call. */
  lemma ContentsFragment(states: map<nat, ToolCallState>, names: map<nat, string>, trace: seq<Event>,
                         owner: map<nat, nat>, open: map<nat, Kind>, next: nat, t: nat, json: string)
    requires ToolContents(states, names, trace, next) && ToolsOpen(states, owner, open) && t in states
             && states[t].started
    ensures var st := states[t];
            ToolContents(states[t := st.(contents := st.contents + [json])], names,
                         trace + [InputJsonDelta(st.blockIndex, json)], next)
  {
    hide FragmentsOf, StartsAt;
    var e := InputJsonDelta(states[t].blockIndex, json);
    forall u | u in states ensures ToolContent(states[u := if u == t then
          states[t].(contents := states[t].contents + [json]) else states[u]][u], NameAt(names, u), trace + [e], next) {
      SnocBlock(trace, e, states[u].blockIndex);
      assert ToolContent(states[u], NameAt(names, u), trace, next);
    }
  }

  lemma OrderKept(order: seq<nat>, states: map<nat, ToolCallState>, t: nat, st: ToolCallState)
    requires Ordered(order, states)
    ensures t in states ==> Ordered(order, states[t := st])
    ensures t !in states ==> Ordered(order + [t], states[t := st])
  {
  }

  /** The stop of the block at an index, which is not -1 when the block is open. */
  function BlockStopAt(index: int): Event
  {
    BlockStop(if index >= 0 then index else 0)
  }

  /** A thinking block is signed before it is stopped. */
  function ContentClosers(thinkingStarted: bool, thinkingIndex: int, signature: string, textStarted: bool,
                          textIndex: int): seq<Event>
  {
    (if thinkingStarted && thinkingIndex >= 0 then
          [SignatureDelta(thinkingIndex, signature)] + [BlockStopAt(thinkingIndex)] else [])
    + (if textStarted then [BlockStopAt(textIndex)] else [])
  }

  /** The stops of the started calls in insertion order. */
  function ToolClosers(order: seq<nat>, states: map<nat, ToolCallState>): seq<Event>
  {
    if order == [] then []
    else
      var t := order[|order| - 1];
      ToolClosers(order[..|order| - 1], states) + (if t in states && states[t].started then
            [BlockStop(states[t].blockIndex)] else [])
  }

  lemma NoToolClosers(order: seq<nat>, states: map<nat, ToolCallState>, closers: seq<Event>)
    ensures closers + ToolClosers(order[..0], states) == closers
  {
  }

  lemma NextToolCloser(order: seq<nat>, states: map<nat, ToolCallState>, i: nat, closers: seq<Event>)
    requires i < |order| && order[i] in states
    ensures closers + ToolClosers(order[..i + 1], states) ==
            if states[order[i]].started then
                closers + ToolClosers(order[..i], states) + [BlockStop(states[order[i]].blockIndex)]
            else closers + ToolClosers(order[..i], states)
  {
    assert order[..i + 1][..i] == order[..i];
  }

  class Builder {
    const codec: Json.Codec
    const sign: string -> string  // SHA-256 of the turn's secret and the text, in hex

    var nextIndex: nat
    var thinkingIndex: int
    var textIndex: int
    var thinkingStarted: bool
    var textStarted: bool
    var toolStates: map<nat, ToolCallState>
    var toolOrder: seq<nat>
    var accumulatedText: seq<string>
    var accumulatedReasoning: seq<string>
    var thinkingAccum: string

    // What has been built so far, and what the ledger makes of it.
    ghost var origin: Ledger
    ghost var trace: seq<Event>
    ghost var ledger: Ledger
    ghost var owner: map<nat, nat>     // the tool index an open tool block belongs to
    ghost var names: map<nat, string>  // the name a call's block was started with

    /** The trace is accepted by the ledger. */
    ghost predicate Accepted()
      reads this`origin, this`trace, this`ledger, this`nextIndex
    {
      Replay(origin, trace) == Some(ledger) && origin.open == map[] && ledger.next == nextIndex && OpenBelowNext(ledger)
    }

    /** The accumulators hold what the trace carries. */
    ghost predicate Accumulates()
      reads this`trace, this`accumulatedText, this`accumulatedReasoning, this`thinkingStarted, this`thinkingIndex,
          this`thinkingAccum, this`textIndex
    {
      && Join(accumulatedText) == TextOf(trace)
      && Join(accumulatedReasoning) == ReasoningOf(trace)
      && (thinkingStarted ==> thinkingIndex >= 0 && thinkingAccum == BlockText(trace, thinkingIndex))
      && -1 <= textIndex && -1 <= thinkingIndex
      && (textIndex != -1 <==> Starts(trace, TextBlock))
      && (thinkingIndex != -1 <==> Starts(trace, ThinkingBlock))
      && (Join(accumulatedText) != "" ==> textIndex != -1)
      && (Join(accumulatedReasoning) != "" ==> thinkingIndex != -1)
      && Signed(sign, trace)
    }

    ghost predicate Valid()
      reads this
    {
      && Accepted() && Accumulates()
      && ContentOpen(thinkingStarted, thinkingIndex, textStarted, textIndex, ledger.open)
      && ToolsOpen(toolStates, owner, ledger.open) && Ordered(toolOrder, toolStates)
         && ToolContents(toolStates, names, trace, nextIndex)
    }

    /** `begun` says that message_start went out before this builder was made. */
    constructor (codec: Json.Codec, sign: string -> string, ghost begun: bool)
      ensures Valid() && this.codec == codec && this.sign == sign
      ensures trace == [] && origin == Origin(0, begun) && toolStates == map[]
      ensures accumulatedText == [] && accumulatedReasoning == [] && textIndex == -1 && thinkingIndex == -1
      ensures !thinkingStarted && !textStarted
    {
      this.codec, this.sign := codec, sign;
      nextIndex, thinkingIndex, textIndex, thinkingStarted, textStarted := 0, -1, -1, false, false;
      toolStates, toolOrder := map[], [];
      accumulatedText, accumulatedReasoning, thinkingAccum := [], [], "";
      origin, ledger, trace, owner, names := Origin(0, begun), Origin(0, begun), [], map[], map[];
    }

    method SetNextIndex(n: nat)
      requires Valid() && trace == [] && ledger == origin && toolStates == map[] && !thinkingStarted && !textStarted
      modifies this`nextIndex, this`origin, this`ledger
      ensures Valid() && origin == old(origin).(next := n)
    {
      nextIndex := n;
      origin := origin.(next := n);
      ledger := origin;
    }

    /** One more event on the trace. */
    ghost method Record(e: Event)
      requires Replay(origin, trace) == Some(ledger) && Step(ledger, e).Some? && Signed(sign, trace)
      requires e.SignatureDelta? ==> e.signature == sign(BlockText(trace, e.index))
      modifies this`trace, this`ledger
      ensures trace == old(trace) + [e] && ledger == Step(old(ledger), e).value && Replay(origin, trace) == Some(ledger)
      ensures TextOf(trace) == TextOf(old(trace)) + TextIn(e)
              && ReasoningOf(trace) == ReasoningOf(old(trace)) + ReasoningIn(e)
      ensures forall i :: FragmentsOf(trace, i) == FragmentsOf(old(trace), i) + FragmentIn(e, i)
      ensures forall i :: BlockText(trace, i) == BlockText(old(trace), i) + BlockTextIn(e, i)
      ensures forall k :: Starts(trace, k) <==> Starts(old(trace), k) || (e.BlockStart? && e.kind == k)
      ensures Signed(sign, trace)
    {
      hide *;
      ReplaySnoc(origin, trace, e);
      SignedSnoc(sign, trace, e);
      forall i ensures FragmentsOf(trace + [e], i) == FragmentsOf(trace, i) + FragmentIn(e, i)
                       && BlockText(trace + [e], i) == BlockText(trace, i) + BlockTextIn(e, i) {
        SnocBlock(trace, e, i);
      }
      forall k ensures Starts(trace + [e], k) <==> Starts(trace, k) || (e.BlockStart? && e.kind == k) {
        StartsSnoc(trace, e, k);
      }
      ledger := Step(ledger, e).value;
      trace := trace + [e];
    }

    /** One more event that carries neither text nor reasoning. */
    ghost method RecordSilent(e: Event)
      requires Replay(origin, trace) == Some(ledger) && Step(ledger, e).Some? && Accumulates()
      requires !e.TextDelta? && !e.ThinkingDelta? && !e.SignatureDelta? && (e.BlockStart? ==> e.kind == ToolBlock)
      modifies this`trace, this`ledger
      ensures trace == old(trace) + [e] && ledger == Step(old(ledger), e).value && Replay(origin, trace) == Some(ledger)
      ensures Accumulates()
    {
      hide Replay, Step, Starts, StartsAt, FragmentsOf, BlockText, TextOf, ReasoningOf, Signed, Join;
      Record(e);
    }

    method MessageStart() returns (e: Event)
      requires Valid() && ledger.phase == Unopened
      modifies this`trace, this`ledger
      ensures Valid() && e == Event.MessageStart && trace == old(trace) + [e]
              && ledger == old(ledger).(phase := Streaming)
    {
      hide Replay, Starts, StartsAt, FragmentsOf, BlockText, TextOf, ReasoningOf, Signed, Join, ContentOpen, ToolsOpen,
           Ordered, ToolContents;
      e := Event.MessageStart;
      ContentsSnoc(toolStates, names, trace, e, nextIndex, nextIndex);
      Record(e);
    }

    method TextDelta(content: string) returns (e: Event)
      requires Valid() && textStarted && ledger.phase == Streaming
      modifies this`accumulatedText, this`trace, this`ledger
      ensures Valid() && trace == old(trace) + [e] && ledger == old(ledger)
      ensures e == Event.TextDelta(textIndex, content) && accumulatedText == old(accumulatedText) + [content]
    {
      hide Replay, Starts, StartsAt, FragmentsOf, BlockText, TextOf, ReasoningOf, Signed, Join, ContentOpen, ToolsOpen,
           Ordered, ToolContents;
      JoinAppend(accumulatedText, content);
      TextIsOpen();
      OneOpen();
      accumulatedText := accumulatedText + [content];
      e := Event.TextDelta(textIndex, content);
      ContentsSnoc(toolStates, names, trace, e, nextIndex, nextIndex);
      Record(e);
    }

    /** Every block is stopped, and the accumulators still agree with the trace. */
    ghost predicate Sealed()
      reads this
    {
      Accepted() && Accumulates() && ToolContents(toolStates, names, trace, nextIndex) && Distinct(toolStates)
          && ledger.open == map[]
    }

    method MessageDelta(stopReason: string, stopSequence: Option<string>) returns (e: Event)
      requires Sealed() && ledger.phase == Streaming
      modifies this`trace, this`ledger
      ensures Sealed() && trace == old(trace) + [e] && ledger == old(ledger).(phase := Closing)
      ensures e == Event.MessageDelta(stopReason, stopSequence)
    {
      hide Replay, Starts, StartsAt, FragmentsOf, BlockText, TextOf, ReasoningOf, Signed, Join, ToolContents, Distinct;
      e := Event.MessageDelta(stopReason, stopSequence);
      ContentsSnoc(toolStates, names, trace, e, nextIndex, nextIndex);
      Record(e);
    }

    method MessageStop() returns (e: Event)
      requires Sealed() && ledger.phase == Closing
      modifies this`trace, this`ledger
      ensures Sealed() && trace == old(trace) + [e] && ledger == old(ledger).(phase := Closed)
      ensures e == Event.MessageStop
    {
      hide Replay, Starts, StartsAt, FragmentsOf, BlockText, TextOf, ReasoningOf, Signed, Join, ToolContents, Distinct;
      e := Event.MessageStop;
      ContentsSnoc(toolStates, names, trace, e, nextIndex, nextIndex);
      Record(e);
    }

    /** Reserve the next block index. The ledger learns of it when the block's events are settled. */
    method AllocateIndex() returns (index: nat)
      modifies this`nextIndex
      ensures index == old(nextIndex) && nextIndex == index + 1
      ensures old(Valid()) ==> Reserved()
    {
      hide Replay, Starts, StartsAt, FragmentsOf, BlockText, TextOf, ReasoningOf, Signed, Join, ContentOpen, ToolsOpen,
           Ordered, ToolContents;
      index := nextIndex;
      nextIndex := nextIndex + 1;
    }

    /** Valid but for the one index that has been reserved and not used yet. */
    ghost predicate Reserved()
      reads this
    {
      && Replay(origin, trace) == Some(ledger) && origin.open == map[] && ledger.next + 1 == nextIndex
         && OpenBelowNext(ledger)
      && Accumulates()
      && ContentOpen(thinkingStarted, thinkingIndex, textStarted, textIndex, ledger.open)
      && ToolsOpen(toolStates, owner, ledger.open) && Ordered(toolOrder, toolStates)
         && ToolContents(toolStates, names, trace, ledger.next)
    }

    /** A tool block that is sent whole under the reserved index leaves nothing open. */
    ghost method SettleWholeTool(id: string, name: string, json: string)
      requires Reserved() && ledger.phase == Streaming && !thinkingStarted && !textStarted
      modifies this`trace, this`ledger
      ensures Valid() && ledger.phase == Streaming
      ensures var i := old(ledger.next);
              trace == old(trace) + [BlockStart(i, ToolBlock, id, name)] + [InputJsonDelta(i, json)] + [BlockStop(i)]
      ensures ledger == old(ledger).(next := nextIndex)
    {
      hide Replay, Starts, StartsAt, FragmentsOf, BlockText, TextOf, ReasoningOf, Signed, Join, ContentOpen, ToolsOpen,
           Ordered, ToolContents;
      var i, t0 := ledger.next, trace;
      var e1, e2, e3 := BlockStart(i, ToolBlock, id, name), InputJsonDelta(i, json), BlockStop(i);
      ContentStarts(thinkingStarted, thinkingIndex, textStarted, textIndex, ledger.open, i, ToolBlock);
      ContentsSnoc(toolStates, names, trace, e1, i, i);
      Record(e1);
      ContentsForeign(toolStates, names, trace, i, json);
      Record(e2);
      ContentsSnoc(toolStates, names, trace, e3, i, i + 1);
      Record(e3);
      assert ledger.open == old(ledger.open);
    }

    method StartThinkingBlock() returns (e: Event)
      requires Valid() && !thinkingStarted && !textStarted && ledger.phase == Streaming
      modifies this`nextIndex, this`thinkingIndex, this`thinkingStarted, this`thinkingAccum, this`trace, this`ledger
      ensures Valid() && thinkingStarted && trace == old(trace) + [e] && ledger.phase == Streaming
      ensures thinkingIndex == old(nextIndex) && thinkingAccum == ""
              && e == BlockStart(thinkingIndex, ThinkingBlock, "", "")
    {
      hide Replay, Starts, StartsAt, FragmentsOf, BlockText, TextOf, ReasoningOf, Signed, Join, ContentOpen, ToolsOpen,
           Ordered, ToolContents;
      FutureIndexUntouched(origin, trace, nextIndex);
      ContentStarts(thinkingStarted, thinkingIndex, textStarted, textIndex, ledger.open, nextIndex, ThinkingBlock);
      ToolsUnaffected(toolStates, owner, ledger.open, nextIndex, ThinkingBlock);
      thinkingIndex := AllocateIndex();
      thinkingStarted := true;
      thinkingAccum := "";
      e := BlockStart(thinkingIndex, ThinkingBlock, "", "");
      ContentsSnoc(toolStates, names, trace, e, nextIndex - 1, nextIndex);
      Record(e);
    }

    method EmitThinkingDelta(content: string) returns (e: Event)
      requires Valid() && thinkingStarted && ledger.phase == Streaming
      modifies this`thinkingAccum, this`accumulatedReasoning, this`trace, this`ledger
      ensures Valid() && trace == old(trace) + [e] && ledger == old(ledger)
      ensures e == ThinkingDelta(thinkingIndex, content) && thinkingAccum == old(thinkingAccum) + content
      ensures accumulatedReasoning == old(accumulatedReasoning) + [content]
    {
      hide Replay, Starts, StartsAt, FragmentsOf, BlockText, TextOf, ReasoningOf, Signed, Join, ContentOpen, ToolsOpen,
           Ordered, ToolContents;
      JoinAppend(accumulatedReasoning, content);
      ThinkingIsOpen();
      thinkingAccum := thinkingAccum + content;
      accumulatedReasoning := accumulatedReasoning + [content];
      e := ThinkingDelta(thinkingIndex, content);
      ContentsSnoc(toolStates, names, trace, e, nextIndex, nextIndex);
      Record(e);
    }

    method EmitSignatureDelta() returns (e: Event)
      requires Valid() && thinkingStarted && ledger.phase == Streaming
      modifies this`trace, this`ledger
      ensures Valid() && e == SignatureDelta(thinkingIndex, sign(thinkingAccum)) && trace == old(trace) + [e]
              && ledger == old(ledger)
    {
      hide Replay, Starts, StartsAt, FragmentsOf, BlockText, TextOf, ReasoningOf, Signed, Join, ContentOpen, ToolsOpen,
           Ordered, ToolContents;
      ThinkingIsOpen();
      e := SignatureDelta(thinkingIndex, sign(thinkingAccum));
      ContentsSnoc(toolStates, names, trace, e, nextIndex, nextIndex);
      Record(e);
    }

    method StopThinkingBlock() returns (e: Event)
      requires Valid() && thinkingStarted && ledger.phase == Streaming
      modifies this`thinkingStarted, this`trace, this`ledger
      ensures Valid() && !thinkingStarted && e == BlockStopAt(thinkingIndex) && trace == old(trace) + [e]
              && ledger.phase == Streaming
    {
      hide Replay, Starts, StartsAt, FragmentsOf, BlockText, TextOf, ReasoningOf, Signed, Join, ContentOpen, ToolsOpen,
           Ordered, ToolContents;
      ThinkingIsOpen();
      ContentStops(thinkingStarted, thinkingIndex, textStarted, textIndex, ledger.open);
      ToolsUnaffected(toolStates, owner, ledger.open, thinkingIndex, ThinkingBlock);
      OneOpen();
      thinkingStarted := false;
      e := BlockStop(thinkingIndex);
      ContentsSnoc(toolStates, names, trace, e, nextIndex, nextIndex);
      Record(e);
    }

    method StartTextBlock() returns (e: Event)
      requires Valid() && !thinkingStarted && !textStarted && ledger.phase == Streaming
      modifies this`nextIndex, this`textIndex, this`textStarted, this`trace, this`ledger
      ensures Valid() && textStarted && trace == old(trace) + [e] && ledger.phase == Streaming
      ensures textIndex == old(nextIndex) && e == BlockStart(textIndex, TextBlock, "", "")
    {
      hide Replay, Starts, StartsAt, FragmentsOf, BlockText, TextOf, ReasoningOf, Signed, Join, ContentOpen, ToolsOpen,
           Ordered, ToolContents;
      ContentStarts(thinkingStarted, thinkingIndex, textStarted, textIndex, ledger.open, nextIndex, TextBlock);
      ToolsUnaffected(toolStates, owner, ledger.open, nextIndex, TextBlock);
      textIndex := AllocateIndex();
      textStarted := true;
      e := BlockStart(textIndex, TextBlock, "", "");
      ContentsSnoc(toolStates, names, trace, e, nextIndex - 1, nextIndex);
      Record(e);
    }

    method StopTextBlock() returns (e: Event)
      requires Valid() && textStarted && ledger.phase == Streaming
      modifies this`textStarted, this`trace, this`ledger
      ensures Valid() && !textStarted && e == BlockStopAt(textIndex) && trace == old(trace) + [e]
              && ledger.phase == Streaming
    {
      hide Replay, Starts, StartsAt, FragmentsOf, BlockText, TextOf, ReasoningOf, Signed, Join, ContentOpen, ToolsOpen,
           Ordered, ToolContents;
      TextIsOpen();
      ContentStops(thinkingStarted, thinkingIndex, textStarted, textIndex, ledger.open);
      ToolsUnaffected(toolStates, owner, ledger.open, textIndex, TextBlock);
      OneOpen();
      textStarted := false;
      e := BlockStop(textIndex);
      ContentsSnoc(toolStates, names, trace, e, nextIndex, nextIndex);
      Record(e);
    }

    method EnsureThinkingBlock() returns (events: seq<Event>)
      requires Valid() && ledger.phase == Streaming
      modifies this`nextIndex, this`thinkingIndex, this`thinkingStarted, this`textStarted, this`thinkingAccum,
          this`trace, this`ledger
      ensures Valid() && thinkingStarted && trace == old(trace) + events && ledger.phase == Streaming
      ensures events == (if old(textStarted) then [BlockStopAt(textIndex)] else [])
                        + (if old(thinkingStarted) then [] else [BlockStart(old(nextIndex), ThinkingBlock, "", "")])
    {
      hide Valid;
      events := [];
      if textStarted {
        var e := StopTextBlock();
        events := events + [e];
      }
      assert thinkingStarted ==> !textStarted by { OneOpen(); }
      if !thinkingStarted {
        var e := StartThinkingBlock();
        events := events + [e];
      }
    }

    /** The switch to text stops an open thinking block without a signature. */
    method EnsureTextBlock() returns (events: seq<Event>)
      requires Valid() && ledger.phase == Streaming
      modifies this`nextIndex, this`textIndex, this`thinkingStarted, this`textStarted, this`trace, this`ledger
      ensures Valid() && textStarted && trace == old(trace) + events && ledger.phase == Streaming
      ensures events == (if old(thinkingStarted) then [BlockStopAt(thinkingIndex)] else [])
                        + (if old(textStarted) then [] else [BlockStart(old(nextIndex), TextBlock, "", "")])
    {
      hide Valid;
      events := [];
      if thinkingStarted {
        var e := StopThinkingBlock();
        events := events + [e];
      }
      if !textStarted {
        var e := StartTextBlock();
        events := events + [e];
      }
    }

    lemma OneOpen()
      requires Valid()
      ensures !(thinkingStarted && textStarted)
    {
    }

    /** A thinking block is signed before it is stopped here. */
    method CloseContentBlocks() returns (events: seq<Event>)
      requires Valid() && ledger.phase == Streaming
      modifies this`thinkingStarted, this`textStarted, this`trace, this`ledger
      ensures Valid() && !thinkingStarted && !textStarted && trace == old(trace) + events && ledger.phase == Streaming
      ensures events == ContentClosers(old(thinkingStarted), thinkingIndex, sign(thinkingAccum), old(textStarted),
                                       textIndex)
    {
      hide Valid;
      events := [];
      if thinkingStarted {
        var s := EmitSignatureDelta();
        var e := StopThinkingBlock();
        events := events + [s] + [e];
      }
      if textStarted {
        var e := StopTextBlock();
        events := events + [e];
      }
    }

    method StartToolBlock(toolIndex: nat, toolID: string, name: string) returns (e: Event)
      requires Valid() && ledger.phase == Streaming && toolID != "" && !thinkingStarted && !textStarted
      requires toolIndex in toolStates ==> !toolStates[toolIndex].started
      modifies this`nextIndex, this`toolStates, this`toolOrder, this`trace, this`ledger, this`owner, this`names
      ensures Valid() && trace == old(trace) + [e] && ledger.phase == Streaming
      ensures e == BlockStart(old(nextIndex), ToolBlock, toolID, name) && nextIndex == old(nextIndex) + 1
      ensures names == old(names)[toolIndex := name]
      ensures toolStates == old(toolStates)[toolIndex := StartedTool(old(toolStates), toolIndex, old(nextIndex), toolID,
                name)]
    {
      hide Accumulates, Replay, Starts, StartsAt, FragmentsOf, BlockText, TextOf, ReasoningOf, Signed, Join,
           ContentOpen, ToolsOpen, Ordered, ToolContents;
      ToolBlockStarts(toolIndex, toolID, name);
      var blockIdx := AllocateIndex();
      MarkStarted(toolIndex, blockIdx, toolID, name);
      owner, names := owner[blockIdx := toolIndex], names[toolIndex := name];
      e := BlockStart(blockIdx, ToolBlock, toolID, name);
      RecordSilent(e);
    }

    method MarkStarted(toolIndex: nat, blockIdx: nat, toolID: string, name: string)
      requires Ordered(toolOrder, toolStates)
      modifies this`toolStates, this`toolOrder
      ensures Ordered(toolOrder, toolStates)
      ensures toolStates == old(toolStates)[toolIndex := StartedTool(old(toolStates), toolIndex, blockIdx, toolID,
                name)]
    {
      hide Ordered;
      if toolIndex in toolStates {
        OrderKept(toolOrder, toolStates, toolIndex, StartedTool(toolStates, toolIndex, blockIdx, toolID, name));
        toolStates := toolStates[toolIndex := toolStates[toolIndex].(blockIndex := blockIdx, toolID := toolID,
              started := true)];
      } else {
        SetToolState(toolIndex, NEW_TOOL.(blockIndex := blockIdx, toolID := toolID, name := name, started := true));
      }
    }

    lemma ToolBlockStarts(toolIndex: nat, toolID: string, name: string)
      requires Valid() && toolID != "" && !thinkingStarted && !textStarted
               && (toolIndex in toolStates ==> !toolStates[toolIndex].started)
      ensures var st := StartedTool(toolStates, toolIndex, nextIndex, toolID, name);
              var e := BlockStart(nextIndex, ToolBlock, toolID, name);
              var open := ledger.open[nextIndex := ToolBlock];
              && NoContentOpen(ledger.open) && ContentOpen(thinkingStarted, thinkingIndex, textStarted, textIndex, open)
              && ToolsOpen(toolStates[toolIndex := st], owner[nextIndex := toolIndex], open)
              && ToolContents(toolStates[toolIndex := st], names[toolIndex := name], trace + [e], nextIndex + 1)
    {
      hide Replay, Starts, StartsAt, FragmentsOf, BlockText, TextOf, ReasoningOf, Signed, Join, ContentOpen, ToolsOpen,
           Ordered, ToolContents;
      var st := StartedTool(toolStates, toolIndex, nextIndex, toolID, name);
      var e := BlockStart(nextIndex, ToolBlock, toolID, name);
      ContentStarts(thinkingStarted, thinkingIndex, textStarted, textIndex, ledger.open, nextIndex, ToolBlock);
      ToolStarts(toolStates, owner, ledger.open, toolIndex, st);
      ContentsSnoc(toolStates, names, trace, e, nextIndex, nextIndex + 1);
      FutureIndexUntouched(origin, trace, nextIndex);
      SnocBlock(trace, e, nextIndex);
      StartedEmpty(toolIndex);
      assert e in trace + [e];
      ContentsUpdate(toolStates, names, trace + [e], nextIndex + 1, toolIndex, st, name);
    }

    method SetToolState(index: nat, state: ToolCallState)
      requires Ordered(toolOrder, toolStates) && index !in toolStates
      modifies this`toolStates, this`toolOrder
      ensures Ordered(toolOrder, toolStates) && toolStates == old(toolStates)[index := state]
              && toolOrder == old(toolOrder) + [index]
    {
      hide Ordered;
      OrderKept(toolOrder, toolStates, index, state);
      toolStates := toolStates[index := state];
      toolOrder := toolOrder + [index];
    }

    method EmitToolDelta(toolIndex: nat, partialJSON: string) returns (e: Event)
      requires Valid() && ledger.phase == Streaming && toolIndex in toolStates && toolStates[toolIndex].started
      modifies this`toolStates, this`trace, this`ledger
      ensures Valid() && trace == old(trace) + [e] && ledger == old(ledger)
      ensures var st := old(toolStates)[toolIndex];
              && e == InputJsonDelta(st.blockIndex, partialJSON)
              && toolStates == old(toolStates)[toolIndex := st.(contents := st.contents + [partialJSON])]
    {
      hide Accumulates, Replay, Starts, StartsAt, FragmentsOf, BlockText, TextOf, ReasoningOf, Signed, Join,
           ContentOpen, ToolsOpen, Ordered, ToolContents;
      ToolIsOpen(toolIndex);
      var state := toolStates[toolIndex];
      ghost var st := state.(contents := state.contents + [partialJSON]);
      ToolKept(toolStates, owner, ledger.open, toolIndex, st);
      OrderKept(toolOrder, toolStates, toolIndex, st);
      ContentsFragment(toolStates, names, trace, owner, ledger.open, nextIndex, toolIndex, partialJSON);
      toolStates := toolStates[toolIndex := state.(contents := state.contents + [partialJSON])];
      e := InputJsonDelta(state.blockIndex, partialJSON);
      RecordSilent(e);
    }

    /** Content blocks first, then every started tool block in insertion order; afterwards nothing is open. */
    method CloseAllBlocks() returns (events: seq<Event>)
      requires Valid() && ledger.phase == Streaming
      modifies this`thinkingStarted, this`textStarted, this`trace, this`ledger
      ensures Sealed() && ledger.phase == Streaming && trace == old(trace) + events
      ensures !thinkingStarted && !textStarted
      ensures events == ContentClosers(old(thinkingStarted), thinkingIndex, sign(thinkingAccum), old(textStarted),
                                       textIndex)
                        + ToolClosers(toolOrder, toolStates)
    {
      hide Replay, Starts, StartsAt, FragmentsOf, BlockText, TextOf, ReasoningOf, Signed, Join, ContentOpen, ToolsOpen,
           Ordered, ToolContents, Distinct, ContentClosers, ToolClosers;
      events := CloseContentBlocks();
      OnlyToolsOpen();
      OwnedAreDistinct(toolStates, owner, ledger.open);
      ghost var closers := events;
      NoToolClosers(toolOrder, toolStates, closers);
      var i := 0;
      while i < |toolOrder|
        invariant 0 <= i <= |toolOrder|
        invariant Accepted() && Accumulates() && ToolContents(toolStates, names, trace, nextIndex)
        invariant !thinkingStarted && !textStarted && ledger.phase == Streaming
        invariant trace == old(trace) + events && events == closers + ToolClosers(toolOrder[..i], toolStates)
        invariant StillOpen(toolStates, toolOrder, i, owner, ledger.open)
      {
        var t := toolOrder[i];
        NextToClose(toolStates, toolOrder, i, owner, ledger.open);
        NextToolCloser(toolOrder, toolStates, i, closers);
        if toolStates[t].started {
          var e := BlockStop(toolStates[t].blockIndex);
          ContentsSnoc(toolStates, names, trace, e, nextIndex, nextIndex);
          Record(e);
          events := events + [e];
        }
        i := i + 1;
      }
      assert toolOrder[..i] == toolOrder;
      assert ledger.open == map[] by { NothingOpen(toolStates, toolOrder, owner, ledger.open); }
    }

    lemma OnlyToolsOpen()
      requires Valid() && !thinkingStarted && !textStarted
      ensures StillOpen(toolStates, toolOrder, 0, owner, ledger.open)
    {
      hide Accepted, Accumulates, ToolContents;
      forall k | k in ledger.open ensures ledger.open[k] == ToolBlock {
        assert ledger.open[k] == ThinkingBlock || ledger.open[k] == TextBlock || ledger.open[k] == ToolBlock;
      }
    }

    // ---- tool states ----

    method EnsureToolState(index: nat)
      requires Valid()
      modifies this`toolStates, this`toolOrder
      ensures Valid() && toolStates == if index in old(toolStates) then old(toolStates)
              else old(toolStates)[index := NEW_TOOL]
    {
      hide Replay, Starts, StartsAt, FragmentsOf, BlockText, TextOf, ReasoningOf, Signed, Join, ContentOpen, ToolsOpen,
           Ordered, ToolContents;
      if index !in toolStates {
        ToolKept(toolStates, owner, ledger.open, index, NEW_TOOL);
        ContentsUpdate(toolStates, names, trace, nextIndex, index, NEW_TOOL, NameAt(names, index));
        SetToolState(index, NEW_TOOL);
      }
    }

    /** Changing nothing but the id, the name or the held-back arguments of a call keeps the builder valid. */
    method UpdateTool(index: nat, state: ToolCallState)
      requires Valid() && index in toolStates
      requires var st := toolStates[index];
               && state.blockIndex == st.blockIndex && state.contents == st.contents
               && state.started == st.started
      requires var st := toolStates[index];
               if state.started then state.toolID == st.toolID
               else state.taskArgBuffer == st.taskArgBuffer && state.taskArgsEmitted == st.taskArgsEmitted
      modifies this`toolStates
      ensures Valid() && toolStates == old(toolStates)[index := state]
    {
      hide Replay, Starts, StartsAt, FragmentsOf, BlockText, TextOf, ReasoningOf, Signed, Join, ContentOpen, ToolsOpen,
           Ordered, ToolContents;
      ToolKept(toolStates, owner, ledger.open, index, state);
      OrderKept(toolOrder, toolStates, index, state);
      SameContent(index, state);
      ContentsUpdate(toolStates, names, trace, nextIndex, index, state, NameAt(names, index));
      toolStates := toolStates[index := state];
    }

    method SetStreamToolID(index: nat, toolID: string)
      requires Valid() && !ToolAt(toolStates, index).started
      modifies this`toolStates, this`toolOrder
      ensures Valid()
      ensures toolStates == if toolID == "" then old(toolStates)
                            else old(toolStates)[index := ToolAt(old(toolStates), index).(toolID := toolID)]
    {
      hide Valid;
      if toolID == "" {
        return;
      }
      EnsureToolState(index);
      UpdateTool(index, toolStates[index].(toolID := toolID));
    }

    method RegisterToolName(index: nat, name: string)
      requires Valid()
      modifies this`toolStates, this`toolOrder
      ensures Valid()
      ensures toolStates == old(toolStates)[index :=
                ToolAt(old(toolStates), index).(name := ExtendName(ToolAt(old(toolStates), index).name, name))]
    {
      hide Valid;
      if index !in toolStates {
        EnsureToolState(index);
        UpdateTool(index, NEW_TOOL.(name := name));
        return;
      }
      var state := toolStates[index];
      var prev := state.name;
      if prev == "" || prev <= name {
        UpdateTool(index, state.(name := name));
      } else if !(name <= prev) {
        UpdateTool(index, state.(name := prev + name));
      }
    }

    method SetToolPreStartArgs(index: nat, args: string)
      requires Valid()
      modifies this`toolStates, this`toolOrder
      ensures Valid() && toolStates == old(toolStates)[index := ToolAt(old(toolStates), index).(preStartArgs := args)]
    {
      hide Valid;
      EnsureToolState(index);
      UpdateTool(index, toolStates[index].(preStartArgs := args));
    }

    /** Task arguments are held until they parse; then they come out once, forced into the foreground. */
    method BufferTaskArgs(index: nat, args: string) returns (r: Option<Json.Object>)
      requires Valid() && index in toolStates && toolStates[index].started
      modifies this`toolStates
      ensures Valid()
      ensures var st := old(toolStates)[index];
              if st.taskArgsEmitted then r == None && toolStates == old(toolStates)
              else
                var buffer := st.taskArgBuffer + args;
                var parsed := codec.decode(buffer);
                if parsed == None then r == None && toolStates == old(toolStates)[index := st.(taskArgBuffer := buffer)]
                else r == Some(Foreground(parsed.value))
                     && toolStates == old(toolStates)[index := st.(taskArgBuffer := "", taskArgsEmitted := true)]
    {
      hide Valid;
      var state := toolStates[index];
      if state.taskArgsEmitted {
        return None;
      }
      var buffer := state.taskArgBuffer + args;
      var parsed := codec.decode(buffer);
      if parsed == None {
        UpdateTool(index, state.(taskArgBuffer := buffer));
        return None;
      }
      UpdateTool(index, state.(taskArgBuffer := "", taskArgsEmitted := true));
      return Some(Foreground(parsed.value));
    }

    /** Task arguments still held when the turn ends: parsed and forced into the foreground, or "{}". */
    method FlushTaskArgBuffers() returns (results: seq<(nat, string)>)
      requires Valid()
      modifies this`toolStates
      ensures Valid()
      ensures results == FlushResults(codec, toolOrder, old(toolStates))
      ensures toolStates == FlushedStates(old(toolStates))
    {
      hide Valid, FlushResults, Ordered;
      results := [];
      var i := 0;
      ghost var was := toolStates;
      OrderValid();
      FlushNone(codec, was);
      assert toolOrder[..0] == [];
      while i < |toolOrder|
        invariant 0 <= i <= |toolOrder| && Valid() && Ordered(toolOrder, was)
        invariant toolStates == FlushedSome(toolOrder[..i], was)
        invariant results == FlushResults(codec, toolOrder[..i], was)
      {
        var t := toolOrder[i];
        FlushNext(codec, toolOrder, i, was);
        var state := toolStates[t];
        if HoldsTask(state) {
          HolderStarted(t);
          UpdateTool(t, Flushed(state));
          results := results + [(t, TaskFallback(codec, state.taskArgBuffer))];
        }
        i := i + 1;
      }
      assert toolOrder[..i] == toolOrder;
      FlushAll(toolOrder, was);
    }

    lemma OrderValid()
      requires Valid()
      ensures Ordered(toolOrder, toolStates)
    {
    }

    lemma HolderStarted(t: nat)
      requires Valid() && t in toolStates && HoldsTask(toolStates[t])
      ensures toolStates[t].started
    {
      hide Accepted, Accumulates, ContentOpen, ToolsOpen, Ordered;
      assert ToolContent(toolStates[t], NameAt(names, t), trace, nextIndex);
    }

    method DeleteToolState(index: nat)
      requires Valid() && (index in toolStates ==> !toolStates[index].started)
      modifies this`toolStates, this`toolOrder
      ensures Valid() && toolStates == old(toolStates) - {index}
    {
      hide Replay, Starts, StartsAt, FragmentsOf, BlockText, TextOf, ReasoningOf, Signed, Join, ContentOpen, ToolsOpen;
      if index !in toolStates {
        assert toolStates - {index} == toolStates;
        return;
      }
      ToolDropped(toolStates, owner, ledger.open, index);
      toolStates := toolStates - {index};
      RemoveFromOrder(index);
    }

    method RemoveFromOrder(index: nat)
      requires index in toolOrder && forall i, j :: 0 <= i < j < |toolOrder| ==> toolOrder[i] != toolOrder[j]
      modifies this`toolOrder
      ensures forall i, j :: 0 <= i < j < |toolOrder| ==> toolOrder[i] != toolOrder[j]
      ensures forall t :: t in toolOrder <==> t in old(toolOrder) && t != index
    {
      var i := 0;
      while toolOrder[i] != index
        invariant 0 <= i < |toolOrder| && index in toolOrder[i..]
        decreases |toolOrder| - i
      {
        i := i + 1;
      }
      RemoveAt(toolOrder, i);
      toolOrder := toolOrder[..i] + toolOrder[i + 1..];
    }

    lemma ThinkingIsOpen()
      requires Valid() && thinkingStarted
      ensures thinkingIndex >= 0 && thinkingIndex in ledger.open && ledger.open[thinkingIndex] == ThinkingBlock
    {
      hide Accepted, Accumulates, ToolsOpen;
    }

    lemma TextIsOpen()
      requires Valid() && textStarted
      ensures textIndex >= 0 && textIndex in ledger.open && ledger.open[textIndex] == TextBlock
    {
      hide Accepted, Accumulates, ToolsOpen;
    }

    lemma ToolIsOpen(t: nat)
      requires Valid() && t in toolStates && toolStates[t].started
      ensures toolStates[t].blockIndex in ledger.open && ledger.open[toolStates[t].blockIndex] == ToolBlock
    {
      hide Accepted, Accumulates, ContentOpen;
    }

    lemma StartedEmpty(t: nat)
      requires Valid() && (t in toolStates ==> !toolStates[t].started)
      ensures ToolAt(toolStates, t).contents == []
    {
      hide Accepted, Accumulates, ContentOpen, ToolsOpen;
    }

    lemma SameContent(t: nat, st: ToolCallState)
      requires Valid() && t in toolStates
      requires st.blockIndex == toolStates[t].blockIndex && st.contents == toolStates[t].contents
               && st.started == toolStates[t].started
      requires if st.started then st.toolID == toolStates[t].toolID
               else st.taskArgBuffer == toolStates[t].taskArgBuffer
                    && st.taskArgsEmitted == toolStates[t].taskArgsEmitted
      ensures ToolContent(st, NameAt(names, t), trace, nextIndex)
    {
      hide Accepted, Accumulates, ContentOpen, ToolsOpen;
      assert ToolContent(toolStates[t], NameAt(names, t), trace, nextIndex);
    }

    predicate HasEmittedToolBlock()
      reads this`toolStates
    {
      exists t :: t in toolStates && toolStates[t].started
    }

    function AccumulatedText(): string
      reads this`accumulatedText
    {
      Join(accumulatedText)
    }

    function AccumulatedReasoning(): string
      reads this`accumulatedReasoning
    {
      Join(accumulatedReasoning)
    }
  }

  /** Exactly the blocks of the started calls from position i of the order on are open. */
  ghost predicate StillOpen(states: map<nat, ToolCallState>, order: seq<nat>, i: nat, owner: map<nat, nat>,
                            open: map<nat, Kind>)
  {
    && i <= |order| && Ordered(order, states)
    && (forall j :: i <= j < |order| && states[order[j]].started ==>
          var b := states[order[j]].blockIndex; b in open && open[b] == ToolBlock && b in owner && owner[b] == order[j])
    && (forall k :: k in open ==>
          open[k] == ToolBlock && k in owner && owner[k] in order && owner[k] !in order[..i]
          && states[owner[k]].started && states[owner[k]].blockIndex == k)
  }

  lemma NextToClose(states: map<nat, ToolCallState>, order: seq<nat>, i: nat, owner: map<nat, nat>,
                    open: map<nat, Kind>)
    requires i < |order| && StillOpen(states, order, i, owner, open)
    ensures order[i] in states
    ensures var st := states[order[i]];
            if st.started then st.blockIndex in open && StillOpen(states, order, i + 1, owner, open - {st.blockIndex})
            else StillOpen(states, order, i + 1, owner, open)
  {
    var t := order[i];
    assert t in order;
    assert order[..i + 1] == order[..i] + [t];
  }

  lemma NothingOpen(states: map<nat, ToolCallState>, order: seq<nat>, owner: map<nat, nat>, open: map<nat, Kind>)
    requires StillOpen(states, order, |order|, owner, open)
    ensures open == map[]
  {
    assert order[..|order|] == order;
  }

  predicate HoldsTask(st: ToolCallState)
  {
    st.taskArgBuffer != "" && !st.taskArgsEmitted
  }

  function Flushed(st: ToolCallState): ToolCallState
  {
    if HoldsTask(st) then st.(taskArgBuffer := "", taskArgsEmitted := true) else st
  }

  function TaskFallback(codec: Json.Codec, buffer: string): string
  {
    var parsed := codec.decode(buffer);
    if parsed.Some? then codec.marshal(Foreground(parsed.value)) else "{}"
  }

  function FlushedStates(states: map<nat, ToolCallState>): map<nat, ToolCallState>
  {
    map t | t in states :: Flushed(states[t])
  }

  function FlushedSome(done: seq<nat>, states: map<nat, ToolCallState>): map<nat, ToolCallState>
  {
    map t | t in states :: if t in done then Flushed(states[t]) else states[t]
  }

  /** The held arguments of every call in insertion order. */
  function FlushResults(codec: Json.Codec, order: seq<nat>, states: map<nat, ToolCallState>): seq<(nat, string)>
  {
    if order == [] then []
    else
      var t := order[|order| - 1];
      FlushResults(codec, order[..|order| - 1], states)
      + (if t in states && HoldsTask(states[t]) then [(t, TaskFallback(codec, states[t].taskArgBuffer))] else [])
  }

  lemma FlushNone(codec: Json.Codec, states: map<nat, ToolCallState>)
    ensures FlushedSome([], states) == states && FlushResults(codec, [], states) == []
  {
  }

  lemma FlushNext(codec: Json.Codec, order: seq<nat>, i: nat, states: map<nat, ToolCallState>)
    requires i < |order| && Ordered(order, states)
    ensures var t := order[i];
            && t in states && t in FlushedSome(order[..i], states) && FlushedSome(order[..i], states)[t] == states[t]
            && FlushedSome(order[..i + 1], states) == FlushedSome(order[..i], states)[t := Flushed(states[t])]
            && FlushResults(codec, order[..i + 1], states) == FlushResults(codec, order[..i], states)
               + (if HoldsTask(states[t]) then [(t, TaskFallback(codec, states[t].taskArgBuffer))] else [])
    ensures !HoldsTask(states[order[i]]) ==> FlushedSome(order[..i + 1], states) == FlushedSome(order[..i], states)
  {
    hide HoldsTask, TaskFallback, FlushedSome;
    var t := order[i];
    assert t in order && t !in order[..i];
    FlushedOneMore(order[..i], t, states);
    assert order[..i + 1] == order[..i] + [t];
    assert order[..i + 1][..i] == order[..i];
  }

  lemma FlushedOneMore(done: seq<nat>, t: nat, states: map<nat, ToolCallState>)
    requires t in states && t !in done
    ensures t in FlushedSome(done, states) && FlushedSome(done, states)[t] == states[t]
    ensures FlushedSome(done + [t], states) == FlushedSome(done, states)[t := Flushed(states[t])]
    ensures !HoldsTask(states[t]) ==> FlushedSome(done + [t], states) == FlushedSome(done, states)
  {
    hide HoldsTask;
    var a, b := FlushedSome(done + [t], states), FlushedSome(done, states);
    assert forall u :: u in done + [t] <==> u in done || u == t;
  }

  lemma FlushAll(order: seq<nat>, states: map<nat, ToolCallState>)
    requires Ordered(order, states)
    ensures FlushedSome(order, states) == FlushedStates(states)
  {
  }

  /** Every held call appears in the results, and no call appears twice. */
  lemma {:induction false} FlushResultsOnce(codec: Json.Codec, order: seq<nat>, states: map<nat, ToolCallState>)
    requires forall i, j :: 0 <= i < j < |order| ==> order[i] != order[j]
    ensures var r := FlushResults(codec, order, states);
            && (forall x :: x in r ==>
                 x.0 in order && x.0 in states && HoldsTask(states[x.0])
                 && x.1 == TaskFallback(codec, states[x.0].taskArgBuffer))
            && (forall i, j :: 0 <= i < j < |r| ==> r[i].0 != r[j].0)
            && (forall t :: t in order && t in states && HoldsTask(states[t]) ==>
                 (t, TaskFallback(codec, states[t].taskArgBuffer)) in r)
  {
    hide HoldsTask, TaskFallback;
    if order != [] {
      FlushResultsOnce(codec, order[..|order| - 1], states);
    }
  }

  /** The state kept for a tool index; a blank one when there is none. */
  function ToolAt(states: map<nat, ToolCallState>, index: nat): ToolCallState
  {
    if index in states then states[index] else NEW_TOOL
  }

  /** The state of a call once its block is started; a known call keeps the name it has. */
  function StartedTool(states: map<nat, ToolCallState>, t: nat, block: nat, id: string, name: string): ToolCallState
  {
    if t in states then states[t].(blockIndex := block, toolID := id, started := true)
    else NEW_TOOL.(blockIndex := block, toolID := id, name := name, started := true)
  }

  lemma RemoveAt(s: seq<nat>, i: nat)
    requires i < |s| && forall j, k :: 0 <= j < k < |s| ==> s[j] != s[k]
    ensures forall t :: t in s[..i] + s[i + 1..] <==> t in s && t != s[i]
    ensures var r := s[..i] + s[i + 1..]; forall j, k :: 0 <= j < k < |r| ==> r[j] != r[k]
  {
    var r := s[..i] + s[i + 1..];
    forall j | 0 <= j < |s| && j != i ensures s[j] in r {
      assert r[if j < i then j else j - 1] == s[j];
    }
  }
}
