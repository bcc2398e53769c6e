/**
 * The non-streaming answer (internal/sse/nonstream.go): the events of a turn, reassembled into one
 * message, and why it says the same as the stream.
 */
module Aggregate {
  import opened Wrappers
  import opened Strings
  import opened Events
  import Json

  datatype MsgBlock = MsgBlock(typ: Option<Kind>, id: string, name: string, text: string, signature: string,
                               argBuf: string)

  const NEW_BLOCK: MsgBlock := MsgBlock(None, "", "", "", "", "")

  datatype Entry =
    | TextEntry(text: string)
    | ThinkingEntry(thinking: string, signature: string)
    | ToolUseEntry(id: string, name: string, input: Json.Value)

  datatype Message = Message(content: seq<Entry>, stopReason: Option<string>, stopSequence: Option<string>)

  // ---- what a trace says about one block ----

  /** The last start of the block. */
  function LastStart(es: seq<Event>, i: nat): (r: Option<Event>)
    ensures r.Some? ==> r.value.BlockStart? && r.value.index == i
  {
    if es == [] then None
    else
      var e := es[|es| - 1];
      if e.BlockStart? && e.index == i then Some(e) else LastStart(es[..|es| - 1], i)
  }

  function LastSignature(es: seq<Event>, i: nat): string
  {
    if es == [] then ""
    else
      var e := es[|es| - 1];
      if e.SignatureDelta? && e.index == i then e.signature else LastSignature(es[..|es| - 1], i)
  }

  function KindAt(es: seq<Event>, i: nat): Option<Kind>
  {
    var s := LastStart(es, i);
    if s.Some? then Some(s.value.kind) else None
  }

  function BlockAt(es: seq<Event>, i: nat): MsgBlock
  {
    var s := LastStart(es, i);
    MsgBlock(KindAt(es, i), if s.Some? then s.value.id else "", if s.Some? then s.value.name else "",
             BlockText(es, i), LastSignature(es, i), Join(FragmentsOf(es, i)))
  }

  function LastStop(es: seq<Event>): (r: Option<Event>)
    ensures r.Some? ==> r.value.MessageDelta?
  {
    if es == [] then None
    else if es[|es| - 1].MessageDelta? then Some(es[|es| - 1])
    else LastStop(es[..|es| - 1])
  }

  lemma StartSnoc(es: seq<Event>, e: Event, i: nat)
    ensures LastStart(es + [e], i) == if e.BlockStart? && e.index == i then Some(e) else LastStart(es, i)
    ensures LastSignature(es + [e], i) == if e.SignatureDelta? && e.index == i then e.signature
            else LastSignature(es, i)
  {
    assert (es + [e])[..|es|] == es;
  }

  /** What one event changes about block i. */
  function Changed(b: MsgBlock, e: Event, i: nat): MsgBlock
  {
    match e
    case BlockStart(j, kind, id, name) => if j == i then b.(typ := Some(kind), id := id, name := name) else b
    case TextDelta(j, text) => if j == i then b.(text := b.text + text) else b
    case ThinkingDelta(j, text) => if j == i then b.(text := b.text + text) else b
    case SignatureDelta(j, signature) => if j == i then b.(signature := signature) else b
    case InputJsonDelta(j, json) => if j == i then b.(argBuf := b.argBuf + json) else b
    case _ => b
  }

  lemma BlockSnoc(es: seq<Event>, e: Event, i: nat)
    ensures BlockAt(es + [e], i) == Changed(BlockAt(es, i), e, i)
  {
    hide LastStart, LastSignature, BlockText, FragmentsOf, Join;
    StartSnoc(es, e, i);
    SnocBlock(es, e, i);
    assert BlockText(es, i) + "" == BlockText(es, i) && FragmentsOf(es, i) + [] == FragmentsOf(es, i);
    if e.InputJsonDelta? && e.index == i {
      JoinAppend(FragmentsOf(es, i), e.json);
    }
  }

  // ---- assembly ----

  /** The arguments of a call parse, or they are {}. */
  function Input(parse: string -> Option<Json.Value>, argBuf: string): Json.Value
  {
    if argBuf != "" && parse(argBuf).Some? then parse(argBuf).value else Json.Obj(map[])
  }

  function EntryOf(parse: string -> Option<Json.Value>, b: MsgBlock): seq<Entry>
  {
    match b.typ
    case None => []
    case Some(TextBlock) => [TextEntry(b.text)]
    case Some(ThinkingBlock) => [ThinkingEntry(b.text, b.signature)]
    case Some(ToolBlock) => [ToolUseEntry(b.id, b.name, Input(parse, b.argBuf))]
  }

  /** The entries of the blocks below n, in index order. */
  function Contents(parse: string -> Option<Json.Value>, es: seq<Event>, n: nat): seq<Entry>
  {
    if n == 0 then [] else Contents(parse, es, n - 1) + EntryOf(parse, BlockAt(es, n - 1))
  }

  function At(blocks: seq<MsgBlock>, i: nat): MsgBlock
  {
    if i < |blocks| then blocks[i] else NEW_BLOCK
  }

  /** Grow the blocks until they have one at the index. */
  method Block(blocks: seq<MsgBlock>, index: nat) returns (r: seq<MsgBlock>)
    ensures index < |r| && forall i: nat :: At(r, i) == At(blocks, i)
  {
    r := blocks;
    while |r| <= index
      invariant forall i: nat :: At(r, i) == At(blocks, i)
    {
      r := r + [NEW_BLOCK];
    }
  }

  ghost predicate Reflects(blocks: seq<MsgBlock>, es: seq<Event>)
  {
    forall i: nat :: At(blocks, i) == BlockAt(es, i)
  }

  method Apply(blocks: seq<MsgBlock>, e: Event, ghost es: seq<Event>) returns (r: seq<MsgBlock>)
    requires Reflects(blocks, es)
    ensures Reflects(r, es + [e])
  {
    hide BlockAt;
    forall i: nat ensures BlockAt(es + [e], i) == Changed(BlockAt(es, i), e, i) {
      BlockSnoc(es, e, i);
    }
    r := blocks;
    match e {
      case BlockStart(index, kind, id, name) =>
        r := Block(r, index);
        r := r[index := r[index].(typ := Some(kind), id := id, name := name)];
      case TextDelta(index, text) =>
        r := Block(r, index);
        r := r[index := r[index].(text := r[index].text + text)];
      case ThinkingDelta(index, text) =>
        r := Block(r, index);
        r := r[index := r[index].(text := r[index].text + text)];
      case SignatureDelta(index, signature) =>
        r := Block(r, index);
        r := r[index := r[index].(signature := signature)];
      case InputJsonDelta(index, json) =>
        r := Block(r, index);
        r := r[index := r[index].(argBuf := r[index].argBuf + json)];
      case _ =>
    }
  }

  /** What the message says about a trace, whatever the trace: one entry for each block that was started. */
  ghost predicate Sums(parse: string -> Option<Json.Value>, es: seq<Event>, m: Message)
  {
    && (forall n: nat :: NothingFrom(es, n) ==> m.content == Contents(parse, es, n))
    && var d := LastStop(es);
       && m.stopReason == (if d.Some? then Some(d.value.stopReason) else None)
       && m.stopSequence == (if d.Some? then d.value.stopSequence else None)
  }

  /** No block at or above n is started. */
  ghost predicate NothingFrom(es: seq<Event>, n: nat)
  {
    forall i: nat :: i >= n ==> KindAt(es, i) == None
  }

  method AggregateMessage(parse: string -> Option<Json.Value>, events: seq<Event>) returns (m: Message)
    ensures Sums(parse, events, m)
  {
    hide BlockAt, Contents, EntryOf, LastStop;
    var blocks: seq<MsgBlock> := [];
    var stopReason: Option<string>, stopSequence: Option<string> := None, None;
    var n := 0;
    NothingYet();
    while n < |events|
      invariant 0 <= n <= |events|
      invariant Reflects(blocks, events[..n])
      invariant var d := LastStop(events[..n]);
                && stopReason == (if d.Some? then Some(d.value.stopReason) else None)
                && stopSequence == (if d.Some? then d.value.stopSequence else None)
    {
      assert events[..n + 1] == events[..n] + [events[n]];
      LastStopSnoc(events[..n], events[n]);
      blocks := Apply(blocks, events[n], events[..n]);
      if events[n].MessageDelta? {
        stopReason, stopSequence := Some(events[n].stopReason), events[n].stopSequence;
      }
      n := n + 1;
    }
    assert events[..n] == events;
    var content := Assemble(parse, blocks, events);
    m := Message(content, stopReason, stopSequence);
    forall n: nat | NothingFrom(events, n) ensures content == Contents(parse, events, n) {
      SameContents(parse, blocks, events, n);
    }
  }

  lemma NothingYet()
    ensures Reflects([], []) && LastStop([]) == None
  {
  }

  lemma LastStopSnoc(es: seq<Event>, e: Event)
    ensures LastStop(es + [e]) == if e.MessageDelta? then Some(e) else LastStop(es)
  {
    assert (es + [e])[..|es|] == es;
  }

  method Assemble(parse: string -> Option<Json.Value>, blocks: seq<MsgBlock>, ghost es: seq<Event>)
      returns (content: seq<Entry>)
    requires Reflects(blocks, es)
    ensures content == Contents(parse, es, |blocks|)
  {
    hide BlockAt;
    content := [];
    for i := 0 to |blocks|
      invariant content == Contents(parse, es, i)
    {
      var b := blocks[i];
      assert b == At(blocks, i);
      match b.typ {
        case Some(TextBlock) =>
          content := content + [TextEntry(b.text)];
        case Some(ThinkingBlock) =>
          content := content + [ThinkingEntry(b.text, b.signature)];
        case Some(ToolBlock) =>
          var input := Json.Obj(map[]);
          if b.argBuf != "" {
            var parsed := parse(b.argBuf);
            if parsed.Some? {
              input := parsed.value;
            }
          }
          content := content + [ToolUseEntry(b.id, b.name, input)];
        case None =>
      }
    }
  }

  lemma SameContents(parse: string -> Option<Json.Value>, blocks: seq<MsgBlock>, es: seq<Event>, n: nat)
    requires Reflects(blocks, es) && NothingFrom(es, n)
    ensures Contents(parse, es, |blocks|) == Contents(parse, es, n)
  {
    hide KindAt, Contents;
    forall i: nat | i >= |blocks| ensures KindAt(es, i) == None {
      assert At(blocks, i) == BlockAt(es, i) && BlockAt(es, i).typ == KindAt(es, i);
    }
    if n <= |blocks| { ContentsBeyond(parse, es, n, |blocks|); } else { ContentsBeyond(parse, es, |blocks|, n); }
  }

  lemma NoEntry(parse: string -> Option<Json.Value>, es: seq<Event>, i: nat)
    requires KindAt(es, i) == None
    ensures EntryOf(parse, BlockAt(es, i)) == []
  {
    hide KindAt, BlockText, LastSignature, FragmentsOf, Join;
  }

  lemma {:induction false} ContentsBeyond(parse: string -> Option<Json.Value>, es: seq<Event>, n: nat, n': nat)
    requires n <= n' && forall i: nat :: n <= i < n' ==> KindAt(es, i) == None
    ensures Contents(parse, es, n') == Contents(parse, es, n)
  {
    hide KindAt, BlockAt, EntryOf;
    if n < n' {
      ContentsBeyond(parse, es, n, n' - 1);
      NoEntry(parse, es, n' - 1);
      assert Contents(parse, es, n' - 1) + [] == Contents(parse, es, n' - 1);
    }
  }

  // ---- the message and the stream agree ----

  /** The text or thinking of the blocks of one kind below n, in index order. */
  function Gathered(kind: Kind, es: seq<Event>, n: nat): string
  {
    if n == 0 then ""
    else Gathered(kind, es, n - 1) + (if KindAt(es, n - 1) == Some(kind) then BlockText(es, n - 1) else "")
  }

  lemma {:induction false} GatheredSame(kind: Kind, es: seq<Event>, es': seq<Event>, n: nat)
    requires forall i: nat :: i < n ==> KindAt(es', i) == KindAt(es, i)
    requires forall i: nat :: i < n && KindAt(es, i) == Some(kind) ==> BlockText(es', i) == BlockText(es, i)
    ensures Gathered(kind, es', n) == Gathered(kind, es, n)
  {
    hide KindAt, BlockText;
    if n > 0 {
      GatheredSame(kind, es, es', n - 1);
    }
  }

  lemma {:induction false} GatheredBeyond(kind: Kind, es: seq<Event>, n: nat, n': nat)
    requires n <= n' && forall i: nat :: n <= i < n' ==> KindAt(es, i) != Some(kind) || BlockText(es, i) == ""
    ensures Gathered(kind, es, n') == Gathered(kind, es, n)
  {
    hide KindAt, BlockText;
    if n < n' {
      GatheredBeyond(kind, es, n, n' - 1);
      assert Gathered(kind, es, n' - 1) + "" == Gathered(kind, es, n' - 1);
    }
  }

  /**
   * The kinds of the blocks a trace has started, and of those still
   * open; the open text or thinking block is the last of its sort.
   */
  ghost predicate Kinds(first: nat, es: seq<Event>, l: Ledger)
  {
    && first <= l.next
    && (forall i: nat :: KindAt(es, i).Some? <==> first <= i < l.next)
    && (forall i :: i in l.open ==> i < l.next && KindAt(es, i) == Some(l.open[i]))
    && (forall i, j: nat :: i in l.open && l.open[i] != ToolBlock && i < j < l.next ==>
         KindAt(es, j) == Some(ToolBlock))
  }

  lemma KindSnoc(es: seq<Event>, e: Event)
    ensures forall i: nat :: KindAt(es + [e], i) == if e.BlockStart? && e.index == i then Some(e.kind)
            else KindAt(es, i)
  {
    hide LastStart;
    forall i: nat ensures KindAt(es + [e], i) == if e.BlockStart? && e.index == i then Some(e.kind) else KindAt(es, i) {
      StartSnoc(es, e, i);
    }
  }

  lemma KindsStep(first: nat, es: seq<Event>, l: Ledger, e: Event)
    requires Kinds(first, es, l) && Step(l, e).Some?
    ensures Kinds(first, es + [e], Step(l, e).value)
  {
    hide KindAt;
    KindSnoc(es, e);
  }

  lemma {:induction false} KindsOf(first: nat, begun: bool, es: seq<Event>)
    requires Replay(Origin(first, begun), es).Some?
    ensures Kinds(first, es, Replay(Origin(first, begun), es).value)
  {
    hide KindAt, Step, Kinds;
    if es == [] {
      KindsNone(first, begun);
    } else {
      var es', e := es[..|es| - 1], es[|es| - 1];
      KindsOf(first, begun, es');
      KindsStep(first, es', Replay(Origin(first, begun), es').value, e);
      assert es == es' + [e];
    }
  }

  lemma KindsNone(first: nat, begun: bool)
    ensures Kinds(first, [], Origin(first, begun))
  {
  }

  function CarriedIn(kind: Kind, e: Event): string
  {
    if kind == TextBlock then TextIn(e) else if kind == ThinkingBlock then ReasoningIn(e) else ""
  }

  /** One event adds to the gathered text of a kind what it carries of that kind. */
  lemma GatheredStep(kind: Kind, first: nat, es: seq<Event>, l: Ledger, e: Event)
    requires kind != ToolBlock && Kinds(first, es, l) && Step(l, e).Some?
    requires BlockText(es, l.next) == ""
    ensures Gathered(kind, es + [e], Step(l, e).value.next) == Gathered(kind, es, l.next) + CarriedIn(kind, e)
  {
    hide KindAt, BlockText, Gathered;
    KindSnoc(es, e);
    var es' := es + [e];
    forall i: nat ensures BlockText(es', i) == BlockText(es, i) + BlockTextIn(e, i) {
      SnocBlock(es, e, i);
    }
    assert forall i: nat :: BlockText(es, i) + "" == BlockText(es, i);
    assert Gathered(kind, es, l.next) + "" == Gathered(kind, es, l.next);
    if (e.TextDelta? && kind == TextBlock) || (e.ThinkingDelta? && kind == ThinkingBlock) {
      GatheredDelta(kind, first, es, l, e);
    } else {
      GatheredSame(kind, es, es', l.next);
      if e.BlockStart? {
        GatheredBeyond(kind, es', l.next, l.next + 1);
      }
    }
  }

  lemma GatheredDelta(kind: Kind, first: nat, es: seq<Event>, l: Ledger, e: Event)
    requires kind != ToolBlock && Kinds(first, es, l) && Step(l, e).Some?
    requires (e.TextDelta? && kind == TextBlock) || (e.ThinkingDelta? && kind == ThinkingBlock)
    ensures Gathered(kind, es + [e], l.next) == Gathered(kind, es, l.next) + e.text
  {
    hide KindAt, BlockText, Gathered;
    KindSnoc(es, e);
    var i, es' := e.index, es + [e];
    forall j: nat ensures BlockText(es', j) == BlockText(es, j) + BlockTextIn(e, j) {
      SnocBlock(es, e, j);
    }
    assert forall j: nat :: BlockText(es, j) + "" == BlockText(es, j);
    GatheredSame(kind, es, es', i);
    GatheredBeyond(kind, es, i + 1, l.next);
    GatheredBeyond(kind, es', i + 1, l.next);
    GatheredOne(kind, es, i);
    GatheredOne(kind, es', i);
    assert Gathered(kind, es, i) + BlockText(es, i) + e.text == Gathered(kind, es, i) + (BlockText(es, i) + e.text);
  }

  lemma GatheredOne(kind: Kind, es: seq<Event>, i: nat)
    requires KindAt(es, i) == Some(kind)
    ensures Gathered(kind, es, i + 1) == Gathered(kind, es, i) + BlockText(es, i)
  {
  }

  /** Block by block, an accepted trace carries its text and its reasoning in the order they were sent. */
  lemma {:induction false} GatheredIsSent(first: nat, begun: bool, es: seq<Event>)
    requires Replay(Origin(first, begun), es).Some?
    ensures var n := Replay(Origin(first, begun), es).value.next;
            Gathered(TextBlock, es, n) == TextOf(es) && Gathered(ThinkingBlock, es, n) == ReasoningOf(es)
  {
    hide KindAt, Step, Kinds, Gathered, BlockText;
    if es == [] {
      NoneGathered(TextBlock, first);
      NoneGathered(ThinkingBlock, first);
    } else {
      var es', e := es[..|es| - 1], es[|es| - 1];
      var l := Replay(Origin(first, begun), es').value;
      assert es == es' + [e];
      GatheredIsSent(first, begun, es');
      KindsOf(first, begun, es');
      FutureIndexUntouched(Origin(first, begun), es', l.next);
      GatheredStep(TextBlock, first, es', l, e);
      GatheredStep(ThinkingBlock, first, es', l, e);
    }
  }

  lemma {:induction false} NoneGathered(kind: Kind, n: nat)
    ensures Gathered(kind, [], n) == ""
  {
    if n > 0 { NoneGathered(kind, n - 1); }
  }

  function KindOf(e: Entry): Kind
  {
    match e
    case TextEntry(_) => TextBlock
    case ThinkingEntry(_, _) => ThinkingBlock
    case ToolUseEntry(_, _, _) => ToolBlock
  }

  function EntryText(kind: Kind, e: Entry): string
  {
    if KindOf(e) != kind then ""
    else match e
         case TextEntry(text) => text
         case ThinkingEntry(thinking, _) => thinking
         case ToolUseEntry(_, _, _) => ""
  }

  function EntryTexts(kind: Kind, c: seq<Entry>): string
  {
    if c == [] then "" else EntryTexts(kind, c[..|c| - 1]) + EntryText(kind, c[|c| - 1])
  }

  /** One entry for each block from `first` on, in index order and of the kind it was started with. */
  ghost predicate OneEntryEach(parse: string -> Option<Json.Value>, first: nat, es: seq<Event>, c: seq<Entry>)
  {
    forall k :: 0 <= k < |c| ==>
        KindAt(es, first + k) == Some(KindOf(c[k]))
        && EntryOf(parse, BlockAt(es, first + k)) == [c[k]]
  }

  lemma {:induction false} ContentsEach(parse: string -> Option<Json.Value>, first: nat, es: seq<Event>, l: Ledger,
                                        n: nat)
    requires Kinds(first, es, l) && n <= l.next
    ensures var c := Contents(parse, es, n);
            && |c| == (if n < first then 0 else n - first)
            && OneEntryEach(parse, first, es, c)
            && EntryTexts(TextBlock, c) == Gathered(TextBlock, es, n)
            && EntryTexts(ThinkingBlock, c) == Gathered(ThinkingBlock, es, n)
  {
    hide KindAt, BlockAt, BlockText, EntryOf, EntryTexts, EntryText, KindOf, OneEntryEach;
    if n > 0 {
      ContentsEach(parse, first, es, l, n - 1);
      ContentsMore(parse, first, es, Contents(parse, es, n - 1), n - 1, KindAt(es, n - 1) == None);
      assert Gathered(TextBlock, es, n - 1) + "" == Gathered(TextBlock, es, n - 1);
      assert Gathered(ThinkingBlock, es, n - 1) + "" == Gathered(ThinkingBlock, es, n - 1);
    } else {
      NoEntries(parse, first, es);
    }
  }

  lemma NoEntries(parse: string -> Option<Json.Value>, first: nat, es: seq<Event>)
    ensures OneEntryEach(parse, first, es, []) && EntryTexts(TextBlock, []) == EntryTexts(ThinkingBlock, []) == ""
  {
  }

  lemma ContentsMore(parse: string -> Option<Json.Value>, first: nat, es: seq<Event>, c: seq<Entry>, i: nat, none: bool)
    requires OneEntryEach(parse, first, es, c) && none == (KindAt(es, i) == None)
    requires |c| == (if i < first then 0 else i - first) && (!none ==> i >= first)
    ensures var c' := c + EntryOf(parse, BlockAt(es, i));
            && |c'| == |c| + (if none then 0 else 1)
            && OneEntryEach(parse, first, es, c')
            && EntryTexts(TextBlock, c') == EntryTexts(TextBlock, c) + (if KindAt(es, i) == Some(TextBlock) then
                 BlockText(es, i) else "")
            && EntryTexts(ThinkingBlock, c') == EntryTexts(ThinkingBlock, c)
               + (if KindAt(es, i) == Some(ThinkingBlock) then BlockText(es, i) else "")
  {
    hide KindAt, BlockAt, BlockText, EntryOf;
    BlockEntry(parse, es, i);
    var b := EntryOf(parse, BlockAt(es, i));
    if none {
      assert c + b == c;
      assert EntryTexts(TextBlock, c) + "" == EntryTexts(TextBlock, c);
      assert EntryTexts(ThinkingBlock, c) + "" == EntryTexts(ThinkingBlock, c);
    } else {
      assert (c + b)[..|c|] == c;
      assert b == [b[0]];
    }
  }

  lemma BlockEntry(parse: string -> Option<Json.Value>, es: seq<Event>, i: nat)
    ensures var b := EntryOf(parse, BlockAt(es, i));
            match KindAt(es, i)
            case None => b == []
            case Some(kind) =>
              && |b| == 1 && KindOf(b[0]) == kind
              && (kind != ToolBlock ==> EntryText(kind, b[0]) == BlockText(es, i))
  {
    hide KindAt, BlockText, LastSignature, FragmentsOf, Join, Input;
  }

  /** In an accepted trace a block is started once, so a start is the last one of its index. */
  lemma {:induction false} StartIsLast(l: Ledger, es: seq<Event>, e: Event)
    requires Replay(l, es).Some? && e in es && e.BlockStart?
    ensures LastStart(es, e.index) == Some(e) && l.next <= e.index < Replay(l, es).value.next
  {
    hide Step;
    var es', x := es[..|es| - 1], es[|es| - 1];
    assert es == es' + [x];
    StepEffect(Replay(l, es').value, x);
    NextGrows(l, es');
    if e in es' {
      StartIsLast(l, es', e);
    }
  }

  lemma {:induction false} NextGrows(l: Ledger, es: seq<Event>)
    requires Replay(l, es).Some?
    ensures l.next <= Replay(l, es).value.next
  {
    hide Step;
    if es != [] {
      NextGrows(l, es[..|es| - 1]);
      StepEffect(Replay(l, es[..|es| - 1]).value, es[|es| - 1]);
    }
  }

  /** A block that was started keeps its kind. */
  lemma {:induction false} StartedThere(first: nat, begun: bool, es: seq<Event>, kind: Kind, i: nat)
    requires Replay(Origin(first, begun), es).Some? && StartsAt(es, kind, i)
    ensures first <= i < Replay(Origin(first, begun), es).value.next && KindAt(es, i) == Some(kind)
  {
    hide KindAt, Kinds, Step, StartsAt;
    if es == [] {
      assert !StartsAt([], kind, i) by { NothingStarts(kind, i); }
    } else {
      var es', e := es[..|es| - 1], es[|es| - 1];
      assert es == es' + [e];
      var l := Replay(Origin(first, begun), es').value;
      StepEffect(l, e);
      KindsOf(first, begun, es');
      KindSnoc(es', e);
      StartsAtSnoc(es', e, kind, i);
      KindsBelow(first, es', l);
      if StartsAt(es', kind, i) {
        StartedThere(first, begun, es', kind, i);
      }
    }
  }

  lemma NothingStarts(kind: Kind, i: nat)
    ensures !StartsAt([], kind, i)
  {
  }

  lemma StartsSomewhere(es: seq<Event>, kind: Kind) returns (i: nat)
    requires Starts(es, kind)
    ensures StartsAt(es, kind, i)
  {
    var p :| 0 <= p < |es| && es[p].BlockStart? && es[p].kind == kind;
    i := es[p].index;
  }

  lemma KindsBelow(first: nat, es: seq<Event>, l: Ledger)
    requires Kinds(first, es, l)
    ensures first <= l.next && forall i: nat :: KindAt(es, i).Some? ==> i < l.next
    ensures NothingFrom(es, l.next)
  {
    hide KindAt;
  }

  /** What a message says of an accepted trace. */
  ghost predicate Agrees(parse: string -> Option<Json.Value>, first: nat, next: nat, es: seq<Event>, c: seq<Entry>)
  {
    && |c| == next - first && OneEntryEach(parse, first, es, c)
    && EntryTexts(TextBlock, c) == TextOf(es)
    && EntryTexts(ThinkingBlock, c) == ReasoningOf(es)
    && (forall kind :: Starts(es, kind) ==> exists k :: 0 <= k < |c| && KindOf(c[k]) == kind)
  }

  /** Streaming and non-streaming agree. */
  lemma Agreement(parse: string -> Option<Json.Value>, first: nat, begun: bool, es: seq<Event>, m: Message)
    requires Replay(Origin(first, begun), es).Some? && Sums(parse, es, m)
    ensures Agrees(parse, first, Replay(Origin(first, begun), es).value.next, es, m.content)
  {
    hide *;
    var l := Replay(Origin(first, begun), es).value;
    KindsOf(first, begun, es);
    KindsBelow(first, es, l);
    SumsUp(parse, es, m, l.next);
    ContentsEach(parse, first, es, l, l.next);
    GatheredIsSent(first, begun, es);
    forall kind | Starts(es, kind) ensures exists k :: 0 <= k < |m.content| && KindOf(m.content[k]) == kind {
      var i := StartsSomewhere(es, kind);
      StartedThere(first, begun, es, kind, i);
      EntryHasKind(parse, first, es, m.content, i - first);
    }
    Agreed(parse, first, l.next, es, m.content);
  }

  lemma SumsUp(parse: string -> Option<Json.Value>, es: seq<Event>, m: Message, n: nat)
    requires Sums(parse, es, m) && NothingFrom(es, n)
    ensures m.content == Contents(parse, es, n)
  {
    hide NothingFrom, Contents, LastStop;
  }

  lemma EntryHasKind(parse: string -> Option<Json.Value>, first: nat, es: seq<Event>, c: seq<Entry>, k: nat)
    requires k < |c| && OneEntryEach(parse, first, es, c)
    ensures KindAt(es, first + k) == Some(KindOf(c[k]))
  {
    hide KindAt, BlockAt;
  }

  lemma Agreed(parse: string -> Option<Json.Value>, first: nat, next: nat, es: seq<Event>, c: seq<Entry>)
    requires |c| == next - first && OneEntryEach(parse, first, es, c)
    requires EntryTexts(TextBlock, c) == TextOf(es) && EntryTexts(ThinkingBlock, c) == ReasoningOf(es)
    requires forall kind :: Starts(es, kind) ==> exists k :: 0 <= k < |c| && KindOf(c[k]) == kind
    ensures Agrees(parse, first, next, es, c)
  {
  }

  // ---- what an entry says, from the events alone ----

  /** The signature of a block is that of its last signature event, or empty. */
  ghost predicate SignedBy(es: seq<Event>, i: nat, signature: string)
  {
    if forall p :: 0 <= p < |es| && es[p].SignatureDelta? ==> es[p].index != i then signature == ""
    else exists p :: 0 <= p < |es| && es[p] == SignatureDelta(i, signature)
                     && forall q :: p < q < |es| && es[q].SignatureDelta? ==> es[q].index != i
  }

  lemma {:induction false} SignatureFound(es: seq<Event>, i: nat)
    ensures SignedBy(es, i, LastSignature(es, i))
  {
    if es != [] {
      var es', e := es[..|es| - 1], es[|es| - 1];
      assert es == es' + [e];
      if !(e.SignatureDelta? && e.index == i) {
        SignatureFound(es', i);
        if !(forall p :: 0 <= p < |es'| && es'[p].SignatureDelta? ==> es'[p].index != i) {
          var p :| 0 <= p < |es'| && es'[p] == SignatureDelta(i, LastSignature(es', i))
                   && forall q :: p < q < |es'| && es'[q].SignatureDelta? ==> es'[q].index != i;
          assert es[p] == SignatureDelta(i, LastSignature(es, i));
        }
      } else {
        assert es[|es| - 1] == SignatureDelta(i, LastSignature(es, i));
      }
    }
  }

  /** The entry of a started block has what was streamed for it. */
  ghost predicate Tells(parse: string -> Option<Json.Value>, es: seq<Event>, start: Event, e: Entry)
    requires start.BlockStart?
  {
    var i := start.index;
    match start.kind
    case TextBlock => e == TextEntry(BlockText(es, i))
    case ThinkingBlock => e.ThinkingEntry? && e.thinking == BlockText(es, i) && SignedBy(es, i, e.signature)
    case ToolBlock =>
      && e.ToolUseEntry? && e.id == start.id && e.name == start.name
      && var sent := Join(FragmentsOf(es, i));
         if sent == "" || parse(sent) == None then e.input == Json.Obj(map[]) else Some(e.input) == parse(sent)
  }

  /**
   * Every block of an accepted trace has its entry, with its text, its thinking and signature, or its id, name and
   * arguments: those of all its fragments when they parse, none when they do not.
   */
  lemma EntriesTell(parse: string -> Option<Json.Value>, first: nat, begun: bool, es: seq<Event>, m: Message, p: nat)
    requires Replay(Origin(first, begun), es).Some? && Sums(parse, es, m)
    requires p < |es| && es[p].BlockStart?
    ensures first <= es[p].index < first + |m.content| && Tells(parse, es, es[p], m.content[es[p].index - first])
  {
    hide *;
    var l := Replay(Origin(first, begun), es).value;
    KindsOf(first, begun, es);
    KindsBelow(first, es, l);
    SumsUp(parse, es, m, l.next);
    ContentsEach(parse, first, es, l, l.next);
    StartIsLast(Origin(first, begun), es, es[p]);
    OriginNext(first, begun);
    EntryTells(parse, first, es, es[p], m.content);
  }

  lemma OriginNext(first: nat, begun: bool)
    ensures Origin(first, begun).next == first
  {
  }

  lemma EntryTells(parse: string -> Option<Json.Value>, first: nat, es: seq<Event>, start: Event, c: seq<Entry>)
    requires OneEntryEach(parse, first, es, c) && start.BlockStart? && first <= start.index < first + |c|
    requires LastStart(es, start.index) == Some(start)
    ensures Tells(parse, es, start, c[start.index - first])
  {
    hide LastStart, LastSignature, SignedBy, BlockText, FragmentsOf, Join;
    var k := start.index - first;
    assert EntryOf(parse, BlockAt(es, first + k)) == [c[k]];
    SignatureFound(es, start.index);
  }

  /** The stop reason is that of the one message_delta; there is none without it. */
  lemma StopTells(parse: string -> Option<Json.Value>, first: nat, begun: bool, es: seq<Event>, m: Message)
    requires Replay(Origin(first, begun), es).Some? && Sums(parse, es, m)
    ensures forall e <- es :: e.MessageDelta? ==> m.stopReason == Some(e.stopReason) && m.stopSequence == e.stopSequence
    ensures (forall e <- es :: !e.MessageDelta?) ==> m.stopReason == None && m.stopSequence == None
  {
    hide Replay, Contents;
    forall p: nat | p < |es| && es[p].MessageDelta? ensures LastStop(es) == Some(es[p]) {
      OriginOpen(first, begun);
      EndsOnce(Origin(first, begun), es, p);
      assert es == es[..p] + [es[p]] + es[p + 1..];
      if |es| == p + 2 {
        assert es[..|es| - 1][..p] == es[..p];
      }
    }
    StopIsOne(es);
  }

  lemma OriginOpen(first: nat, begun: bool)
    ensures Origin(first, begun).open == map[]
  {
  }

  lemma {:induction false} StopIsOne(es: seq<Event>)
    ensures LastStop(es).Some? ==> LastStop(es).value in es
  {
    if es != [] && !es[|es| - 1].MessageDelta? {
      StopIsOne(es[..|es| - 1]);
      assert es == es[..|es| - 1] + [es[|es| - 1]];
    }
  }
}
