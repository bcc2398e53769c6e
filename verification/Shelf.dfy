/**
 * The items of one Responses stream as its translator keeps them (internal/responses/stream.go): the one under
 * way, those that are finished, and the calls they belong to.
 */
module Shelf {
  import opened Wrappers
  import opened Items
  import ToolLog
  import H = HeuristicTool
  import Json

  /** One native tool call; `begun` says its item was added, `closed` that it is finished. */
  datatype ToolState = ToolState(itemID: nat, callID: string, name: string, args: string, buffered: string, begun: bool,
                                 closed: bool)

  /**
   * The calls, the items of those that are finished, all finished
   * items, the calls found in the text, the random numbers drawn.
   */
  datatype Stock = Stock(tools: map<nat, ToolState>, stored: map<nat, Item>, output: seq<Item>, found: seq<H.ToolUse>,
                         minted: nat)

  /** The flags, buffers and output of a translator that has an item under way, or none. */
  datatype Desk = Desk(stock: Stock, order: seq<nat>, reasoningOpen: bool, reasoningID: nat, summary: string,
                       messageOpen: bool, messageID: nat, text: string, openTool: Option<nat>)

  /** What a translator is made for. */
  datatype Terms = Terms(codec: Json.Codec, uuid: nat -> string, defend: bool)

  predicate Settled(st: ToolState)
  {
    st.callID != "" && (!st.begun ==> !st.closed && st.args == st.buffered) && (st.begun ==> st.buffered == "")
  }

  /** The desk is where the ledger is. */
  ghost predicate Matches(l: Ledger, d: Desk)
  {
    && l.done == d.stock.output && l.thought == d.summary && l.said == d.text
    && !(d.reasoningOpen && d.messageOpen) && (d.openTool.Some? ==> !d.reasoningOpen && !d.messageOpen)
    && l.open == (if d.reasoningOpen then Some(Open(Item(Reasoning, d.reasoningID, "", "", ""), false))
                  else if d.messageOpen then Some(Open(Item(Message, d.messageID, "", "", ""), false))
                  else if d.openTool.Some? then l.open
                  else None)
    && (d.openTool.Some? ==> d.openTool.value in d.stock.tools && Under(l, d.stock.tools[d.openTool.value]))
    && (forall t :: t in d.stock.tools ==>
         Settled(d.stock.tools[t])
         && (d.stock.tools[t].begun && !d.stock.tools[t].closed ==> d.openTool == Some(t)))
  }

  /** The call's item is the one under way, and its arguments so far have been sent. */
  ghost predicate Under(l: Ledger, st: ToolState)
  {
    && st.begun && !st.closed && l.args == st.args
    && l.open.Some? && !l.open.value.ended
    && l.open.value.item.kind == Call && l.open.value.item.id == st.itemID && l.open.value.item.callID == st.callID
  }

  /** The order names the calls, each and no other. */
  ghost predicate Ordered(d: Desk)
  {
    (forall t :: t in d.stock.tools ==> t in d.order) && (forall t :: t in d.order ==> t in d.stock.tools)
  }

  predicate Idle(d: Desk)
  {
    !d.reasoningOpen && !d.messageOpen && d.openTool == None
  }

  predicate NewTo(output: seq<Item>, id: nat)
  {
    forall item <- output :: item.id != id
  }

  /** The numbers of the items' ids have been drawn, and every native call's item has an id of its own. */
  ghost predicate FreshIDs(d: Desk)
  {
    && (forall item <- d.stock.output :: item.id < d.stock.minted)
    && (d.reasoningOpen ==> d.reasoningID < d.stock.minted) && (d.messageOpen ==> d.messageID < d.stock.minted)
    && (forall t :: t in d.stock.tools && d.stock.tools[t].begun ==> d.stock.tools[t].itemID < d.stock.minted)
    && (forall t, u ::
          t in d.stock.tools && u in d.stock.tools && d.stock.tools[t].begun && d.stock.tools[u].begun && t != u ==>
            d.stock.tools[t].itemID != d.stock.tools[u].itemID)
  }

  // ---- what is stored ----

  function ItemOf(st: ToolState): Item
  {
    Item(Call, st.itemID, st.callID, st.name, st.args)
  }

  function Begun(st: ToolState, id: nat): ToolState
  {
    st.(begun := true, itemID := id, buffered := "")
  }

  /** The ids of the native calls' items. */
  function NativeIDs(tools: map<nat, ToolState>): set<nat>
  {
    set t | t in tools && tools[t].begun :: tools[t].itemID
  }

  /** A call's name and arguments. */
  datatype Order = Order(name: string, args: string)

  /** The calls among the items that are not native ones. */
  function TextCalls(output: seq<Item>, natives: set<nat>): seq<Order>
  {
    if output == [] then []
    else
      var item := output[|output| - 1];
      TextCalls(output[..|output| - 1], natives) + (if item.kind == Call && item.id !in natives then
            [Order(item.name, item.text)] else [])
  }

  /** The calls found in the text, their arguments in canonical form. */
  function Written(codec: Json.Codec, calls: seq<H.ToolUse>): seq<Order>
  {
    if calls == [] then []
    else
      var u := calls[|calls| - 1];
      Written(codec, calls[..|calls| - 1]) + [Order(u.name, codec.canonical(u.input))]
  }

  /** Every finished call has its item. */
  ghost predicate Shelved(tools: map<nat, ToolState>, stored: map<nat, Item>, output: seq<Item>)
  {
    && (forall t :: t in stored ==> t in tools && tools[t].closed)
    && (forall t :: t in tools && tools[t].closed ==>
         t in stored && tools[t].begun && IsItemOf(tools[t], stored[t])
         && stored[t] in output)
  }

  predicate IsItemOf(st: ToolState, item: Item)
  {
    item.kind == Call && item.id == st.itemID && item.callID == st.callID
  }

  /** The call id is a random number that was drawn. */
  ghost predicate Drawn(uuid: nat -> string, minted: nat, callID: string)
  {
    exists k: nat :: k < minted && callID == "call_" + uuid(k)
  }

  /** Every call has an id of the proxy's own. */
  ghost predicate Proxied(uuid: nat -> string, k: Stock)
  {
    (forall t :: t in k.tools ==> Drawn(uuid, k.minted, k.tools[t].callID)) && DrawnCalls(uuid, k.minted, k.output)
  }

  ghost predicate DrawnCalls(uuid: nat -> string, minted: nat, output: seq<Item>)
  {
    forall item <- output :: item.kind == Call ==> Drawn(uuid, minted, item.callID)
  }

  /** No call has an id that the upstream gave it. */
  ghost predicate OwnCallIDs(uuid: nat -> string, output: seq<Item>)
  {
    forall item <- output :: item.kind == Call ==> exists k: nat :: item.callID == "call_" + uuid(k)
  }

  lemma DrawnAreOwn(uuid: nat -> string, k: Stock)
    requires Proxied(uuid, k)
    ensures OwnCallIDs(uuid, k.output)
  {
  }

  /** No two calls share an id. */
  ghost predicate CallIDs(k: Stock)
  {
    && (forall t, u :: t in k.tools && u in k.tools && t != u ==> k.tools[t].callID != k.tools[u].callID)
    && (forall t, item :: t in k.tools && item in k.output && item.kind == Call && item.callID == k.tools[t].callID ==>
         k.tools[t].closed)
    && DistinctCalls(k.output)
  }

  ghost predicate DistinctCalls(output: seq<Item>)
  {
    forall p, q :: 0 <= p < q < |output| && output[p].kind == output[q].kind == Call ==>
        output[p].callID != output[q].callID
  }

  ghost predicate Stored(g: Terms, k: Stock)
  {
    && Shelved(k.tools, k.stored, k.output)
    && TextCalls(k.output, NativeIDs(k.tools)) == Written(g.codec, k.found)
    && (g.defend ==> Proxied(g.uuid, k)) && (g.defend && ToolLog.Random(g.uuid) ==> CallIDs(k))
  }

  lemma NewNumber(uuid: nat -> string, minted: nat, callID: string)
    requires ToolLog.Random(uuid) && Drawn(uuid, minted, callID)
    ensures callID != "call_" + uuid(minted)
  {
    var k: nat :| k < minted && callID == "call_" + uuid(k);
    assert callID[5..] == uuid(k) && ("call_" + uuid(minted))[5..] == uuid(minted);
  }

  lemma MoreDrawn(uuid: nat -> string, minted: nat, more: nat, callID: string)
    requires Drawn(uuid, minted, callID)
    ensures Drawn(uuid, minted + more, callID)
  {
  }

  lemma DrawnNow(uuid: nat -> string, minted: nat, k: nat)
    requires k < minted
    ensures Drawn(uuid, minted, "call_" + uuid(k))
  {
  }

  lemma TextCallsSnoc(output: seq<Item>, natives: set<nat>, item: Item)
    ensures TextCalls(output + [item], natives)
              == TextCalls(output, natives) + (if item.kind == Call && item.id !in natives then
                    [Order(item.name, item.text)] else [])
  {
    assert (output + [item])[..|output|] == output;
  }

  lemma WrittenSnoc(codec: Json.Codec, calls: seq<H.ToolUse>, u: H.ToolUse)
    ensures Written(codec, calls + [u]) == Written(codec, calls) + [Order(u.name, codec.canonical(u.input))]
  {
    assert (calls + [u])[..|calls|] == calls;
  }

  lemma {:induction false} TextCallsSame(output: seq<Item>, a: set<nat>, b: set<nat>)
    requires forall item <- output :: item.id in a <==> item.id in b
    ensures TextCalls(output, a) == TextCalls(output, b)
  {
    if output != [] {
      TextCallsSame(output[..|output| - 1], a, b);
    }
  }

  /** A number is drawn for something else. */
  lemma StoredMore(g: Terms, k: Stock, more: nat)
    requires Stored(g, k)
    ensures Stored(g, k.(minted := k.minted + more))
  {
    hide Drawn, Shelved, TextCalls, Written, NativeIDs, DistinctCalls;
    if g.defend { ProxiedMore(g.uuid, k, more); }
  }

  lemma ProxiedMore(uuid: nat -> string, k: Stock, more: nat)
    requires Proxied(uuid, k)
    ensures Proxied(uuid, k.(minted := k.minted + more))
  {
    hide Drawn;
    forall t | t in k.tools ensures Drawn(uuid, k.minted + more, k.tools[t].callID) {
      MoreDrawn(uuid, k.minted, more, k.tools[t].callID);
    }
    forall item | item in k.output && item.kind == Call ensures Drawn(uuid, k.minted + more, item.callID) {
      MoreDrawn(uuid, k.minted, more, item.callID);
    }
  }

  /** One more item is stored that is no call. */
  lemma StoredOther(g: Terms, k: Stock, item: Item)
    requires Stored(g, k) && item.kind != Call
    ensures Stored(g, k.(output := k.output + [item]))
  {
    hide Drawn, TextCalls, Written, NativeIDs;
    TextCallsSnoc(k.output, NativeIDs(k.tools), item);
  }

  lemma SameNatives(tools: map<nat, ToolState>, t: nat, st: ToolState)
    requires if t in tools then st.begun == tools[t].begun && (st.begun ==> st.itemID == tools[t].itemID) else !st.begun
    ensures NativeIDs(tools[t := st]) == NativeIDs(tools)
  {
    var now := tools[t := st];
    forall id ensures id in NativeIDs(now) <==> id in NativeIDs(tools) {
      if id in NativeIDs(tools) {
        var u :| u in tools && tools[u].begun && tools[u].itemID == id;
        assert u in now && now[u].begun && now[u].itemID == id;
      }
    }
  }

  /** A call's name or arguments change, or the id it is to have. */
  lemma StoredTool(g: Terms, k: Stock, t: nat, st: ToolState)
    requires Stored(g, k) && t in k.tools
    requires var was := k.tools[t];
             st.begun == was.begun && st.itemID == was.itemID && st.closed == was.closed
                 && (st.callID == was.callID || (!g.defend && !was.closed))
    ensures Stored(g, k.(tools := k.tools[t := st]))
  {
    hide Drawn, TextCalls, Written, NativeIDs, DistinctCalls;
    SameNatives(k.tools, t, st);
  }

  /** A new call, with an id of its own. */
  lemma StoredNew(g: Terms, k: Stock, t: nat, st: ToolState)
    requires Stored(g, k) && t !in k.tools && !st.begun && !st.closed
    requires g.defend ==> st.callID == "call_" + g.uuid(k.minted)
    ensures Stored(g, k.(tools := k.tools[t := st], minted := k.minted + 1))
  {
    hide Drawn, TextCalls, Written, NativeIDs, DistinctCalls, Proxied, CallIDs, ToolLog.Random;
    SameNatives(k.tools, t, st);
    if g.defend {
      NewCallID(g.uuid, k, t, st);
    }
  }

  lemma NewCallID(uuid: nat -> string, k: Stock, t: nat, st: ToolState)
    requires Proxied(uuid, k) && t !in k.tools && st.callID == "call_" + uuid(k.minted)
    ensures Proxied(uuid, k.(tools := k.tools[t := st], minted := k.minted + 1))
    ensures ToolLog.Random(uuid) && CallIDs(k) ==> CallIDs(k.(tools := k.tools[t := st], minted := k.minted + 1))
  {
    hide Drawn, DistinctCalls, ToolLog.Random;
    DrawnNow(uuid, k.minted + 1, k.minted);
    ProxiedMore(uuid, k, 1);
    NewIsOther(uuid, k);
  }

  /** The next id is nobody's. */
  lemma NewIsOther(uuid: nat -> string, k: Stock)
    requires Proxied(uuid, k)
    ensures ToolLog.Random(uuid) ==>
              var callID := "call_" + uuid(k.minted);
              (forall t :: t in k.tools ==> k.tools[t].callID != callID)
                  && (forall item <- k.output :: item.kind == Call ==> item.callID != callID)
  {
    hide Drawn, ToolLog.Random;
    if ToolLog.Random(uuid) {
      forall t | t in k.tools ensures k.tools[t].callID != "call_" + uuid(k.minted) {
        NewNumber(uuid, k.minted, k.tools[t].callID);
      }
      forall item | item in k.output && item.kind == Call ensures item.callID != "call_" + uuid(k.minted) {
        NewNumber(uuid, k.minted, item.callID);
      }
    }
  }

  /** A call's item is added. */
  lemma StoredBegins(g: Terms, k: Stock, t: nat)
    requires Stored(g, k) && t in k.tools && !k.tools[t].begun && !k.tools[t].closed && NewTo(k.output, k.minted)
    ensures Stored(g, k.(tools := k.tools[t := Begun(k.tools[t], k.minted)], minted := k.minted + 1))
  {
    hide Drawn, TextCalls, Written, NativeIDs, DistinctCalls;
    var now := k.tools[t := Begun(k.tools[t], k.minted)];
    OneMoreNative(k.tools, t, k.minted);
    TextCallsSame(k.output, NativeIDs(k.tools), NativeIDs(now));
    assert Stored(g, k.(tools := now));
    StoredMore(g, k.(tools := now), 1);
  }

  lemma OneMoreNative(tools: map<nat, ToolState>, t: nat, id: nat)
    requires t in tools && !tools[t].begun
    ensures NativeIDs(tools[t := Begun(tools[t], id)]) == NativeIDs(tools) + {id}
  {
    var now := tools[t := Begun(tools[t], id)];
    assert t in now && now[t].begun;
    forall other | other in NativeIDs(tools) ensures other in NativeIDs(now) {
      var u :| u in tools && tools[u].begun && tools[u].itemID == other;
      assert u in now && now[u].begun && now[u].itemID == other;
    }
  }

  /** A call's item is finished. */
  lemma StoredClosed(g: Terms, k: Stock, t: nat)
    requires Stored(g, k) && t in k.tools && k.tools[t].begun && !k.tools[t].closed
    ensures var item := ItemOf(k.tools[t]);
            Stored(g, k.(tools := k.tools[t := k.tools[t].(closed := true)], stored := k.stored[t := item],
                         output := k.output + [item]))
  {
    hide Drawn, TextCalls, Written, NativeIDs;
    var item, now := ItemOf(k.tools[t]), k.tools[t := k.tools[t].(closed := true)];
    SameNatives(k.tools, t, now[t]);
    assert item.id in NativeIDs(k.tools) by { IsNative(k.tools, t); }
    TextCallsSnoc(k.output, NativeIDs(k.tools), item);
  }

  lemma IsNative(tools: map<nat, ToolState>, t: nat)
    requires t in tools && tools[t].begun
    ensures tools[t].itemID in NativeIDs(tools)
  {
  }

  /** A call found in the text is stored whole. */
  lemma StoredFound(g: Terms, k: Stock, u: H.ToolUse, item: Item)
    requires Stored(g, k) && k.minted !in NativeIDs(k.tools)
    requires item == Item(Call, k.minted, "call_" + g.uuid(k.minted + 1), u.name, g.codec.canonical(u.input))
    ensures Stored(g, k.(output := k.output + [item], found := k.found + [u], minted := k.minted + 2))
  {
    hide Drawn, TextCalls, Written, NativeIDs, DistinctCalls, ToolLog.Random;
    TextCallsSnoc(k.output, NativeIDs(k.tools), item);
    WrittenSnoc(g.codec, k.found, u);
    if g.defend {
      ProxiedMore(g.uuid, k, 1);
      FoundCallID(g.uuid, k.(minted := k.minted + 1), item);
    }
  }

  lemma FoundCallID(uuid: nat -> string, k: Stock, item: Item)
    requires Proxied(uuid, k) && item.callID == "call_" + uuid(k.minted)
    ensures Proxied(uuid, k.(output := k.output + [item], minted := k.minted + 1))
    ensures ToolLog.Random(uuid) && CallIDs(k) ==> CallIDs(k.(output := k.output + [item], minted := k.minted + 1))
  {
    hide Drawn, ToolLog.Random;
    DrawnNow(uuid, k.minted + 1, k.minted);
    ProxiedMore(uuid, k, 1);
    NewIsOther(uuid, k);
  }

  /** The item that finishing whatever is under way adds. */
  function Pending(d: Desk): seq<Item>
  {
    (if d.openTool.Some? && d.openTool.value in d.stock.tools then [ItemOf(d.stock.tools[d.openTool.value])] else [])
    + (if d.reasoningOpen then [Item(Reasoning, d.reasoningID, "", "", d.summary)] else [])
    + (if d.messageOpen then [Item(Message, d.messageID, "", "", d.text)] else [])
  }

  // ---- what each run of events does ----

  /** The desk is where the ledger is, and what is finished is stored. */
  ghost predicate Sound(g: Terms, l: Ledger, d: Desk)
  {
    Matches(l, d) && FreshIDs(d) && Ordered(d) && Stored(g, d.stock)
  }

  function Finished(d: Desk, item: Item): Desk
  {
    d.(stock := d.stock.(output := d.stock.output + [item]))
  }

  function WithTool(d: Desk, t: nat, st: ToolState): Desk
  {
    d.(stock := d.stock.(tools := d.stock.tools[t := st]))
  }

  function Drew(d: Desk, n: nat): Desk
  {
    d.(stock := d.stock.(minted := d.stock.minted + n))
  }

  lemma SameIDs(d: Desk, t: nat, st: ToolState)
    requires FreshIDs(d) && Ordered(d) && t in d.stock.tools && st.begun == d.stock.tools[t].begun
             && st.itemID == d.stock.tools[t].itemID
    ensures FreshIDs(WithTool(d, t, st)) && Ordered(WithTool(d, t, st))
  {
  }

  lemma Unbegun(l: Ledger, d: Desk, t: nat)
    requires Matches(l, d) && t in d.stock.tools && !d.stock.tools[t].begun
    ensures !d.stock.tools[t].closed
  {
  }

  /** The reasoning is finished. */
  lemma ReasoningCloses(g: Terms, l: Ledger, d: Desk)
    requires Sound(g, l, d) && l.phase == Running && d.reasoningOpen
    ensures var at, item := |d.stock.output|, Item(Reasoning, d.reasoningID, "", "", d.summary);
            var l1 := Step(l, TextDone(Reasoning, d.reasoningID, at, d.summary));
            && l1.Some?
            && var l2 := Step(l1.value, PartDone(Reasoning, d.reasoningID, at, d.summary));
            && l2.Some?
            && var l3 := Step(l2.value, ItemDone(at, item));
            && l3.Some? && l3.value.phase == Running && l3.value.strays == l.strays
            && Sound(g, l3.value, Finished(d.(reasoningOpen := false), item))
  {
    hide Stored;
    StoredOther(g, d.stock, Item(Reasoning, d.reasoningID, "", "", d.summary));
  }

  lemma MessageCloses(g: Terms, l: Ledger, d: Desk)
    requires Sound(g, l, d) && l.phase == Running && d.messageOpen
    ensures var at, item := |d.stock.output|, Item(Message, d.messageID, "", "", d.text);
            var l1 := Step(l, TextDone(Message, d.messageID, at, d.text));
            && l1.Some?
            && var l2 := Step(l1.value, PartDone(Message, d.messageID, at, d.text));
            && l2.Some?
            && var l3 := Step(l2.value, ItemDone(at, item));
            && l3.Some? && l3.value.phase == Running && l3.value.strays == l.strays
            && Sound(g, l3.value, Finished(d.(messageOpen := false), item))
  {
    hide Stored;
    StoredOther(g, d.stock, Item(Message, d.messageID, "", "", d.text));
  }

  /** The call under way is finished, and its item stored. */
  function Closed(d: Desk, t: nat): Desk
    requires t in d.stock.tools
  {
    var k, st := d.stock, d.stock.tools[t];
    d.(openTool := None, stock := k.(tools := k.tools[t := st.(closed := true)], stored := k.stored[t := ItemOf(st)],
                                     output := k.output + [ItemOf(st)]))
  }

  lemma ToolCloses(g: Terms, l: Ledger, d: Desk, t: nat)
    requires Sound(g, l, d) && l.phase == Running && d.openTool == Some(t)
    ensures t in d.stock.tools && d.stock.tools[t].begun && !d.stock.tools[t].closed
    ensures var st, at := d.stock.tools[t], |d.stock.output|;
            var l1 := Step(l, TextDone(Call, st.itemID, at, st.args));
            && l1.Some?
            && var l2 := Step(l1.value, ItemDone(at, ItemOf(st)));
            && l2.Some? && l2.value.phase == Running && l2.value.strays == l.strays
            && Sound(g, l2.value, Closed(d, t))
  {
    hide Stored;
    StoredClosed(g, d.stock, t);
  }

  lemma ReasoningOpens(g: Terms, l: Ledger, d: Desk)
    requires Sound(g, l, d) && l.phase == Running && Idle(d)
    ensures var id := d.stock.minted;
            var l1 := Step(l, ItemAdded(|d.stock.output|, Item(Reasoning, id, "", "", "")));
            && l1.Some?
            && var l2 := Step(l1.value, PartAdded(Reasoning, id, |d.stock.output|));
            && l2.Some? && l2.value.phase == Running && l2.value.strays == l.strays
            && Sound(g, l2.value, Drew(d.(reasoningOpen := true, reasoningID := id), 1))
  {
    hide Stored;
    StoredMore(g, d.stock, 1);
  }

  lemma MessageOpens(g: Terms, l: Ledger, d: Desk)
    requires Sound(g, l, d) && l.phase == Running && Idle(d)
    ensures var id := d.stock.minted;
            var l1 := Step(l, ItemAdded(|d.stock.output|, Item(Message, id, "", "", "")));
            && l1.Some?
            && var l2 := Step(l1.value, PartAdded(Message, id, |d.stock.output|));
            && l2.Some? && l2.value.phase == Running && l2.value.strays == l.strays
            && Sound(g, l2.value, Drew(d.(messageOpen := true, messageID := id), 1))
  {
    hide Stored;
    StoredMore(g, d.stock, 1);
  }

  /** A text or reasoning delta for the item under way. */
  lemma Says(g: Terms, l: Ledger, d: Desk, kind: Kind, text: string)
    requires Sound(g, l, d) && l.phase == Running && kind != Call
             && (if kind == Reasoning then d.reasoningOpen else d.messageOpen)
    ensures var l1 := Step(l, Delta(kind, if kind == Reasoning then d.reasoningID else d.messageID, |d.stock.output|,
                                    text));
            && l1.Some? && l1.value.phase == Running && l1.value.strays == l.strays
            && Sound(g, l1.value, if kind == Reasoning then d.(summary := d.summary + text)
                 else d.(text := d.text + text))
  {
    hide Stored;
  }

  /** A call that had not begun, with its item added. */
  function Opened(d: Desk, t: nat): Desk
    requires t in d.stock.tools
  {
    Drew(WithTool(d.(openTool := Some(t)), t, Begun(d.stock.tools[t], d.stock.minted)), 1)
  }

  lemma ToolOpens(g: Terms, l: Ledger, d: Desk, t: nat)
    requires Sound(g, l, d) && l.phase == Running && Idle(d) && t in d.stock.tools && !d.stock.tools[t].begun
    ensures var st, id, at := d.stock.tools[t], d.stock.minted, |d.stock.output|;
            var l1 := Step(l, ItemAdded(at, Item(Call, id, st.callID, st.name, "")));
            && l1.Some? && l1.value.phase == Running && l1.value.strays == l.strays
            && (st.buffered == "" ==> Sound(g, l1.value, Opened(d, t)))
            && var l2 := Step(l1.value, Delta(Call, id, at, st.buffered));
            && l2.Some? && l2.value.phase == Running && l2.value.strays == l.strays
            && Sound(g, l2.value, Opened(d, t))
  {
    hide Stored;
    StoredBegins(g, d.stock, t);
    assert "" + d.stock.tools[t].buffered == d.stock.tools[t].buffered;
  }

  function WithArgs(st: ToolState, args: string): ToolState
  {
    st.(args := st.args + args, buffered := if st.begun then st.buffered else st.buffered + args)
  }

  /**
   * A fragment of arguments: it is sent for the item under way, counted
   * as a stray after the item's end, and kept before its start.
   */
  lemma ArgsArrive(g: Terms, l: Ledger, d: Desk, t: nat, args: string)
    requires Sound(g, l, d) && l.phase == Running && t in d.stock.tools
    ensures var st := d.stock.tools[t];
            var d' := WithTool(d, t, WithArgs(st, args));
            if !st.begun then Sound(g, l, d')
            else
              var l1 := Step(l, Delta(Call, st.itemID, |d.stock.output|, args));
              && l1.Some? && l1.value.phase == Running && l1.value.strays == l.strays + (if st.closed then 1 else 0)
              && Sound(g, l1.value, d')
  {
    hide Stored, Ordered;
    SameIDs(d, t, WithArgs(d.stock.tools[t], args));
    StoredTool(g, d.stock, t, WithArgs(d.stock.tools[t], args));
  }

  /** A call found in the text: it comes whole. */
  function Whole(g: Terms, d: Desk, u: H.ToolUse): Item
  {
    Item(Call, d.stock.minted, "call_" + g.uuid(d.stock.minted + 1), u.name, g.codec.canonical(u.input))
  }

  function WithFound(g: Terms, d: Desk, u: H.ToolUse): Desk
  {
    var k := d.stock;
    d.(stock := k.(output := k.output + [Whole(g, d, u)], found := k.found + [u], minted := k.minted + 2))
  }

  lemma WholeCall(g: Terms, l: Ledger, d: Desk, u: H.ToolUse)
    requires Sound(g, l, d) && l.phase == Running && Idle(d)
    ensures var at, item := |d.stock.output|, Whole(g, d, u);
            var l1 := Step(l, ItemAdded(at, item.(text := "")));
            && l1.Some?
            && var l2 := Step(l1.value, Delta(Call, item.id, at, item.text));
            && l2.Some?
            && var l3 := Step(l2.value, TextDone(Call, item.id, at, item.text));
            && l3.Some?
            && var l4 := Step(l3.value, ItemDone(at, item));
            && l4.Some? && l4.value.phase == Running && l4.value.strays == l.strays
            && Sound(g, l4.value, WithFound(g, d, u))
  {
    hide Stored;
    var item := Whole(g, d, u);
    assert "" + item.text == item.text;
    StoredFound(g, d.stock, u, item);
  }

  /** A call's name changes, or the id it is to have. */
  lemma ToolChanges(g: Terms, l: Ledger, d: Desk, t: nat, name: string, callID: string)
    requires Sound(g, l, d) && t in d.stock.tools && callID != ""
    requires callID == d.stock.tools[t].callID || (!g.defend && !d.stock.tools[t].begun)
    ensures Sound(g, l, WithTool(d, t, d.stock.tools[t].(name := name, callID := callID)))
  {
    hide Stored, FreshIDs, Ordered;
    SameIDs(d, t, d.stock.tools[t].(name := name, callID := callID));
    if !d.stock.tools[t].begun { Unbegun(l, d, t); }
    StoredTool(g, d.stock, t, d.stock.tools[t].(name := name, callID := callID));
  }

  /** A new call. */
  lemma ToolIsNew(g: Terms, l: Ledger, d: Desk, t: nat, callID: string)
    requires Sound(g, l, d) && t !in d.stock.tools && callID != ""
             && (g.defend ==> callID == "call_" + g.uuid(d.stock.minted))
    ensures Sound(g, l, Drew(WithTool(d.(order := d.order + [t]), t, ToolState(0, callID, "", "", "", false, false)),
                             1))
  {
    hide Stored;
    StoredNew(g, d.stock, t, ToolState(0, callID, "", "", "", false, false));
  }

  /** The phase is not the desk's business. */
  lemma PhaseChanges(g: Terms, l: Ledger, d: Desk, phase: Phase)
    requires Sound(g, l, d)
    ensures Sound(g, l.(phase := phase), d)
  {
    hide Stored;
  }

  /** What is under way, and what is finished. */
  lemma SoundIs(g: Terms, l: Ledger, d: Desk)
    requires Sound(g, l, d)
    ensures l.done == d.stock.output && l.thought == d.summary && l.said == d.text && (Idle(d) ==> l.open == None)
    ensures !(d.reasoningOpen && d.messageOpen)
            && (d.openTool.Some? ==> !d.reasoningOpen && !d.messageOpen && d.openTool.value in d.stock.tools)
    ensures forall t :: t in d.stock.tools ==>
            (d.stock.tools[t].begun && !d.stock.tools[t].closed <==> d.openTool == Some(t))
    ensures forall t :: t in d.stock.tools && !d.stock.tools[t].begun ==> !d.stock.tools[t].closed
    ensures Ordered(d) && Stored(g, d.stock) && FreshIDs(d)
  {
    hide Stored;
  }
}
