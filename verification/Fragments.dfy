/**
 * The fragments of native calls and their way to the items (internal/responses/stream.go): which call is under
 * way, and which fragments come after their call's item was finished.
 */
module Fragments {
  import opened Wrappers
  import opened Items
  import opened Shelf
  import opened TextFlow
  import ToolLog
  import U = Upstream

  datatype StreamFailure = StreamFailure(code: string, message: string)

  // ---- what is taken in ----

  /** What one upstream delta is to the parsers. */
  function DeltaActions(d: U.Delta): seq<Action>
  {
    (if U.Presence(d.reasoning) then [Reason(d.reasoning.value)] else [])
    + (if U.Presence(d.refusal) then [Refuse(d.refusal.value)] else [])
    + (if U.Presence(d.content) then [Content(d.content.value, [], false, "")] else [])
  }

  /**
   * Everything the upstream has sent: tool call fragments, what came in for the parsers, the finish reason, a failure.
   */
  datatype Intake = Intake(calls: seq<ToolLog.ToolCallDelta>, actions: seq<Action>, reason: string,
                           failure: Option<StreamFailure>)

  function Interrupted(message: string): StreamFailure
  {
    var msg := if message == "" then "upstream error" else message;
    StreamFailure("server_error", "Server error mid-response. The response above may be incomplete. (upstream: " + msg
          + ")")
  }

  function TakeChunk(k: Intake, c: U.Chunk): Intake
  {
    if c.readError then k.(failure :=
          Some(StreamFailure("server_error", "Connection closed mid-response. The response above may be incomplete.")))
    else if c.done then k
    else if c.error.Some? then k.(failure := Some(Interrupted(c.error.value.message)))
    else if c.choices == [] then k
    else
      var choice := c.choices[0];
      var k' := if U.Presence(choice.finishReason) then k.(reason := choice.finishReason.value) else k;
      if choice.delta == None then k'
      else k'.(calls := k.calls + choice.delta.value.toolCalls, actions := k.actions + DeltaActions(choice.delta.value))
  }

  function TakeAll(cs: seq<U.Chunk>): Intake
  {
    if cs == [] then Intake([], [], "", None) else TakeChunk(TakeAll(cs[..|cs| - 1]), cs[|cs| - 1])
  }

  /** The fragments of one chunk. */
  function CallsIn(c: U.Chunk): seq<ToolLog.ToolCallDelta>
  {
    if U.Over(c) || c.choices == [] || c.choices[0].delta == None then [] else c.choices[0].delta.value.toolCalls
  }

  function StatusOf(k: Intake): Status
  {
    if k.failure.Some? then Failed
    else if k.reason == "length" then Incomplete("max_output_tokens")
    else if k.reason == "content_filter" then Incomplete("content_filter")
    else Completed
  }

  lemma DeltaIs(d: U.Delta, actions: seq<Action>)
    ensures var a1 := if U.Presence(d.reasoning) then actions + [Reason(ToolLog.Text(d.reasoning))] else actions;
            var a2 := if U.Presence(d.refusal) then a1 + [Refuse(ToolLog.Text(d.refusal))] else a1;
            actions + DeltaActions(d) == if U.Presence(d.content) then
                a2 + [Content(ToolLog.Text(d.content), [], false, "")] else a2
  {
  }

  // ---- what the fragments say of a call ----

  /** The name a call has: the last one that was given. */
  function LastName(log: seq<ToolLog.ToolCallDelta>, t: nat): string
  {
    if log == [] then ""
    else
      var d := log[|log| - 1];
      if d.index == t && U.Presence(d.name) then d.name.value else LastName(log[..|log| - 1], t)
  }

  /** The id the upstream gave a call: the last one that came before its name, or with it. */
  function GivenID(log: seq<ToolLog.ToolCallDelta>, t: nat): string
  {
    if log == [] then ""
    else
      var d, before := log[|log| - 1], log[..|log| - 1];
      if d.index == t && U.Presence(d.id) && LastName(before, t) == "" then d.id.value else GivenID(before, t)
  }

  function Indices(calls: seq<ToolLog.ToolCallDelta>): seq<nat>
  {
    if calls == [] then [] else Indices(calls[..|calls| - 1]) + [calls[|calls| - 1].index]
  }

  lemma LogSnoc(log: seq<ToolLog.ToolCallDelta>, d: ToolLog.ToolCallDelta, t: nat)
    ensures LastName(log + [d], t) == if d.index == t && U.Presence(d.name) then d.name.value else LastName(log, t)
    ensures ToolLog.ArgsFor(log + [d], t) == ToolLog.ArgsFor(log, t) + (if d.index == t then ToolLog.Text(d.args)
              else "")
    ensures GivenID(log + [d], t) == if d.index == t && U.Presence(d.id) && LastName(log, t) == "" then d.id.value
            else GivenID(log, t)
    ensures Indices(log + [d]) == Indices(log) + [d.index]
  {
    assert (log + [d])[..|log|] == log;
  }

  /** A call of which nothing came has no name, no arguments and no id. */
  lemma {:induction false} Unheard(log: seq<ToolLog.ToolCallDelta>, t: nat)
    requires t !in Indices(log)
    ensures LastName(log, t) == "" && ToolLog.ArgsFor(log, t) == "" && GivenID(log, t) == ""
  {
    if log != [] {
      assert Indices(log) == Indices(log[..|log| - 1]) + [log[|log| - 1].index];
      Unheard(log[..|log| - 1], t);
    }
  }

  predicate NamedAt(log: seq<ToolLog.ToolCallDelta>, t: nat, p: int)
  {
    0 <= p < |log| && log[p].index == t && U.Presence(log[p].name)
  }

  lemma NamedBefore(log: seq<ToolLog.ToolCallDelta>, t: nat, p: int)
    requires log != []
    ensures NamedAt(log, t, p) <==>
            NamedAt(log[..|log| - 1], t, p) || (p == |log| - 1 && log[p].index == t && U.Presence(log[p].name))
  {
  }

  /** A call without a fragment that carries a name has none. */
  lemma {:induction false} NamedSomewhere(log: seq<ToolLog.ToolCallDelta>, t: nat)
    ensures LastName(log, t) == "" <==> forall p :: !NamedAt(log, t, p)
  {
    if log != [] {
      var before := log[..|log| - 1];
      NamedSomewhere(before, t);
      forall p ensures NamedAt(before, t, p) ==> NamedAt(log, t, p) { NamedBefore(log, t, p); }
      NamedBefore(log, t, |log| - 1);
      if forall p :: !NamedAt(before, t, p) {
        forall p | NamedAt(log, t, p) ensures p == |log| - 1 { NamedBefore(log, t, p); }
      }
    }
  }

  /** The last fragment of a call that carries a name gives it. */
  lemma {:induction false} NameIsLast(log: seq<ToolLog.ToolCallDelta>, t: nat, p: int)
    requires NamedAt(log, t, p) && forall q :: q > p ==> !NamedAt(log, t, q)
    ensures log[p].name == Some(LastName(log, t))
  {
    NamedBefore(log, t, p);
    if p < |log| - 1 {
      var before := log[..|log| - 1];
      forall q | q > p ensures !NamedAt(before, t, q) { NamedBefore(log, t, q); }
      assert !NamedAt(log, t, |log| - 1);
      NameIsLast(before, t, p);
    }
  }

  /** An id counts until the call has a name: up to the fragment that names it. */
  predicate IDAt(log: seq<ToolLog.ToolCallDelta>, t: nat, p: int)
  {
    0 <= p < |log| && log[p].index == t && U.Presence(log[p].id) && forall q :: 0 <= q < p ==> !NamedAt(log, t, q)
  }

  lemma {:induction false} IDIsGiven(log: seq<ToolLog.ToolCallDelta>, t: nat)
    ensures GivenID(log, t) == "" <==> forall p :: !IDAt(log, t, p)
    ensures forall p :: IDAt(log, t, p) && (forall q :: q > p ==> !IDAt(log, t, q)) ==>
            log[p].id == Some(GivenID(log, t))
  {
    hide LastName;
    if log != [] {
      var before, last := log[..|log| - 1], |log| - 1;
      IDIsGiven(before, t);
      NamedSomewhere(before, t);
      assert forall q :: q < last ==> (NamedAt(log, t, q) <==> NamedAt(before, t, q));
      assert IDAt(log, t, last) <==> log[last].index == t && U.Presence(log[last].id) && LastName(before, t) == "";
      assert forall p :: IDAt(log, t, p) ==> IDAt(before, t, p) || p == last;
      assert forall p :: IDAt(before, t, p) ==> IDAt(log, t, p);
    }
  }

  // ---- which call is under way ----

  /**
   * The fragments so far, the call under way, and the fragments that
   * came late: for a call that had begun and was under way no more.
   */
  datatype Progress = Progress(log: seq<ToolLog.ToolCallDelta>, under: Option<nat>, late: seq<ToolLog.ToolCallDelta>)

  const NOTHING: Progress := Progress([], None, [])

  /** A call begins with its name; then it is the one under way. */
  function Arrive(p: Progress, d: ToolLog.ToolCallDelta): Progress
  {
    var named := LastName(p.log, d.index) != "";
    Progress(p.log + [d],
             if !named && U.Presence(d.name) then Some(d.index) else p.under,
             if named && p.under != Some(d.index) then p.late + [d] else p.late)
  }

  function ArriveAll(p: Progress, calls: seq<ToolLog.ToolCallDelta>): Progress
  {
    if calls == [] then p else Arrive(ArriveAll(p, calls[..|calls| - 1]), calls[|calls| - 1])
  }

  /** How much has come out for the reader: text, reasoning, calls found in the text. */
  function Volume(f: Flow): nat
  {
    |f.text| + |f.reasoning| + |f.calls|
  }

  /** Whatever comes out for the reader ends the call under way. */
  function Leave(p: Progress, was: nat, now: nat): Progress
  {
    if was < now then p.(under := None) else p
  }

  /** The flow when these chunks are in. */
  function FlowAfter(g: Setting, chunks: seq<U.Chunk>): Flow
  {
    Play(g, Begin(g.defend, 0), ScriptOf(g, Begin(g.defend, 0), TakeAll(chunks).actions))
  }

  /** The flow when the stream has ended. */
  function FlowAtEnd(g: Setting, chunks: seq<U.Chunk>): Flow
  {
    Play(g, Begin(g.defend, 0), ScriptOf(g, Begin(g.defend, 0), TakeAll(chunks).actions + [Action.Finish]))
  }

  lemma EndIs(g: Setting, script: seq<Action>, chunks: seq<U.Chunk>)
    requires Honest(g, Begin(g.defend, 0), script) && Input(script) == TakeAll(chunks).actions + [Action.Finish]
    ensures FlowAtEnd(g, chunks) == Play(g, Begin(g.defend, 0), script)
  {
    hide TakeAll, Play, Honest;
    HonestIsScript(g, Begin(g.defend, 0), script);
  }

  /** Chunk by chunk: first what comes out for the reader, then the fragments. */
  function Watch(g: Setting, chunks: seq<U.Chunk>): Progress
  {
    if chunks == [] then NOTHING
    else
      var before := chunks[..|chunks| - 1];
      ArriveAll(Leave(Watch(g, before), Volume(FlowAfter(g, before)), Volume(FlowAfter(g, chunks))),
                CallsIn(chunks[|chunks| - 1]))
  }

  /** The late fragments that carry arguments. */
  function Strays(late: seq<ToolLog.ToolCallDelta>): nat
  {
    if late == [] then 0
    else Strays(late[..|late| - 1]) + (if U.Presence(late[|late| - 1].args) then 1 else 0)
  }

  // ---- what a fragment does to its call ----

  /** The state of an upstream index when a fragment for it comes, before its name and arguments. */
  function Called(tools: map<nat, ToolState>, t: nat, upstreamID: Option<string>, defend: bool,
                  serial: string): ToolState
  {
    var adopts := !defend && upstreamID.Some? && upstreamID.value != "";
    if t !in tools then ToolState(0, if adopts then upstreamID.value else "call_" + serial, "", "", "", false, false)
    else if adopts && !tools[t].begun then tools[t].(callID := upstreamID.value)
    else tools[t]
  }

  /** What a fragment makes of the state of its call. */
  predicate Fragment(st: ToolState, tc: ToolLog.ToolCallDelta, now: ToolState)
  {
    && now.name == (if U.Presence(tc.name) then tc.name.value else st.name)
    && now.args == st.args + ToolLog.Text(tc.args) && now.callID == st.callID && now.closed == st.closed
    && now.begun == (st.begun || now.name != "") && (st.begun ==> now.itemID == st.itemID)
    && now.buffered == (if st.begun then st.buffered else if now.begun then "" else st.buffered + ToolLog.Text(tc.args))
  }

  /** The fragment brings arguments for a call that is finished already. */
  predicate Late(tools: map<nat, ToolState>, tc: ToolLog.ToolCallDelta)
  {
    U.Presence(tc.args) && tc.index in tools && tools[tc.index].begun && tools[tc.index].closed
  }

  lemma CalledCloses(tools: map<nat, ToolState>, t: nat, upstreamID: Option<string>, defend: bool, serial: string)
    ensures Called(tools, t, upstreamID, defend, serial).closed == (t in tools && tools[t].closed)
    ensures Called(tools, t, upstreamID, defend, serial).begun == (t in tools && tools[t].begun)
  {
  }

  /** A call that has not begun is not the one that was under way. */
  lemma Unclosed(was: map<nat, ToolState>, now: map<nat, ToolState>, t: nat)
    requires SameCalls(was, now) && t in was && !was[t].closed
    ensures t in now && (!now[t].closed ==> now[t] == was[t])
    ensures now[t].begun == was[t].begun
  {
    assert t in now.Keys;
  }

  lemma SameButOne(was: map<nat, ToolState>, now: map<nat, ToolState>, t: nat, st: ToolState)
    requires t in was && SameCalls(was, now[t := was[t]])
    ensures SameCalls(was[t := st], now[t := st])
  {
    var mid := now[t := was[t]];
    assert now[t := st] == mid[t := st];
    assert mid[t := st].Keys == was[t := st].Keys;
  }

  /** From the state that was called for, over its name and its item's beginning, to its arguments. */
  lemma FragmentIs(was: map<nat, ToolState>, named: map<nat, ToolState>, begun: map<nat, ToolState>,
                   now: map<nat, ToolState>,
                   st: ToolState, tc: ToolLog.ToolCallDelta)
    requires st.begun == (tc.index in was && was[tc.index].begun)
             && st.closed == (tc.index in was && was[tc.index].closed)
    requires !st.begun ==> !st.closed
    requires named == was[tc.index := if U.Presence(tc.name) then st.(name := tc.name.value) else st]
    requires tc.index in begun && SameCalls(named, begun[tc.index := named[tc.index]])
             && begun[tc.index].closed == st.closed
    requires var n := named[tc.index];
             if n.name != "" && !n.begun then begun[tc.index] == Begun(n, begun[tc.index].itemID) else begun == named
    requires var b, args := begun[tc.index], ToolLog.Text(tc.args);
             if U.Presence(tc.args) then
               now == begun[tc.index := WithArgs(b, args)]
             else now == begun
    ensures tc.index in now && Fragment(st, tc, now[tc.index])
    ensures SameCalls(was[tc.index := st], now[tc.index := st])
    ensures tc.index in now && now == begun[tc.index := now[tc.index]] && now[tc.index].closed == st.closed
    ensures U.Presence(tc.args) && begun[tc.index].begun && begun[tc.index].closed <==> Late(was, tc)
  {
    hide SameCalls;
    var t := tc.index;
    SameButOne(named, begun, t, st);
    assert named[t := st] == was[t := st];
    assert now[t := st] == begun[t := st];
    if !U.Presence(tc.args) {
      assert st.args + ToolLog.Text(tc.args) == st.args && st.buffered + ToolLog.Text(tc.args) == st.buffered;
      assert now == begun[t := now[t]];
    }
  }


  // ---- from one moment to the next ----

  /** The calls, the items of those that are finished, the call under way, and how much has come out for the reader. */
  datatype Scene = Scene(tools: map<nat, ToolState>, stored: map<nat, Item>, open: Option<nat>, heard: nat)

  /** The calls are the same, but some may have been finished. */
  ghost predicate SameCalls(was: map<nat, ToolState>, now: map<nat, ToolState>)
  {
    now.Keys == was.Keys && forall t :: t in was ==>
        now[t] == was[t].(closed := now[t].closed)
        && (was[t].closed ==> now[t].closed)
  }

  /** A finished call's item is what the call was then, and stays. */
  ghost predicate KeptItems(was: map<nat, ToolState>, stored: map<nat, Item>, stored': map<nat, Item>)
  {
    && (forall t :: t in stored ==> t in stored' && stored'[t] == stored[t])
    && (forall t :: t in stored' && t !in stored ==> t in was && stored'[t] == ItemOf(was[t]))
  }

  /** The calls are the same, but some may have been finished and stored as they were. */
  ghost predicate Kept(x: Scene, y: Scene)
  {
    SameCalls(x.tools, y.tools) && KeptItems(x.tools, x.stored, y.stored)
  }

  /** Whatever came out for the reader has ended the call under way, and nothing else has. */
  ghost predicate Carried(x: Scene, y: Scene)
  {
    Kept(x, y) && x.heard <= y.heard && y.open == (if x.heard < y.heard then None else x.open)
  }

  lemma CarriedIs(x: Scene, y: Scene)
    requires Carried(x, y)
    ensures Kept(x, y)
  {
    hide Kept;
  }

  lemma NothingCarried(x: Scene)
    ensures Carried(x, x) && Kept(x, x)
  {
  }

  lemma KeptTwice(x: Scene, y: Scene, z: Scene)
    requires Kept(x, y) && Kept(y, z)
    ensures Kept(x, z)
  {
    forall t | t in x.tools ensures z.tools[t] == x.tools[t].(closed := z.tools[t].closed)
        && (x.tools[t].closed ==> z.tools[t].closed) {
      assert t in y.tools.Keys;
    }
    forall t | t in z.stored && t !in x.stored ensures t in x.tools && z.stored[t] == ItemOf(x.tools[t]) {
      if t !in y.stored { assert t in x.tools.Keys; }
    }
  }

  lemma CarriedTwice(x: Scene, y: Scene, z: Scene)
    requires Carried(x, y) && Carried(y, z)
    ensures Carried(x, z)
  {
    hide Kept;
    KeptTwice(x, y, z);
  }

  /** Something comes out, and what was under way is finished. */
  lemma Spoken(x: Scene, y: Scene)
    requires Kept(x, y) && y.open == None && x.heard < y.heard
    ensures Carried(x, y)
  {
    hide Kept;
  }

  /** The call under way is finished. */
  lemma OneClosed(x: Scene, t: nat)
    requires t in x.tools
    ensures Kept(x, x.(tools := x.tools[t := x.tools[t].(closed := true)], stored := if t in x.stored then x.stored
              else x.stored[t := ItemOf(x.tools[t])], open := None))
  {
    assert x.tools[t := x.tools[t].(closed := true)].Keys == x.tools.Keys;
  }

  /**
   * A call is finished if and only if it has an item, and under way if and only if it has begun and is not finished.
   */
  ghost predicate Consistent(x: Scene)
  {
    && (forall t :: t in x.stored ==> t in x.tools)
    && (forall t :: t in x.tools ==> (x.tools[t].closed <==> t in x.stored) && (x.tools[t].closed ==> x.tools[t].begun))
    && (forall t :: t in x.tools ==> (x.tools[t].begun && !x.tools[t].closed <==> x.open == Some(t)))
  }

  // ---- the states are those of the fragments ----

  /**
   * What the fragments say of a call is what its state says, and of a
   * finished call the item together with the late fragments.
   */
  ghost predicate Accounts(x: Scene, strays: nat, defend: bool, p: Progress)
  {
    p.under == x.open && strays == Strays(p.late) && forall t: nat :: CallAccount(x, defend, p, t)
  }

  ghost predicate CallAccount(x: Scene, defend: bool, p: Progress, t: nat)
  {
    && (t in x.tools <==> t in Indices(p.log))
    && (t in x.tools ==> Reflects(x.tools[t], defend, p.log, t))
    && (t in x.stored ==> t in x.tools && Remains(x.stored[t], x.tools[t], p.late, t))
    && (t in Indices(p.late) ==> t in x.stored)
  }

  predicate Reflects(st: ToolState, defend: bool, log: seq<ToolLog.ToolCallDelta>, t: nat)
  {
    && st.name == LastName(log, t) && st.args == ToolLog.ArgsFor(log, t) && (st.begun <==> LastName(log, t) != "")
    && (!defend && GivenID(log, t) != "" ==> st.callID == GivenID(log, t))
  }

  /** The item lacks what came late, and nothing else. */
  predicate Remains(item: Item, st: ToolState, late: seq<ToolLog.ToolCallDelta>, t: nat)
  {
    && st.args == item.text + ToolLog.ArgsFor(late, t)
    && st.name == if LastName(late, t) != "" then LastName(late, t) else item.name
  }

  lemma NothingAccounted()
    ensures Accounts(Scene(map[], map[], None, 0), 0, true, NOTHING)
            && Accounts(Scene(map[], map[], None, 0), 0, false, NOTHING)
  {
  }

  /** An item that has just been finished lacks nothing. */
  lemma NothingLate(item: Item, st: ToolState, late: seq<ToolLog.ToolCallDelta>, t: nat)
    requires t !in Indices(late) && item == ItemOf(st)
    ensures Remains(item, st, late, t)
  {
    Unheard(late, t);
    assert st.args + "" == st.args;
  }

  /** Text and reasoning. */
  lemma AccountsText(x: Scene, y: Scene, strays: nat, defend: bool, p: Progress)
    requires Accounts(x, strays, defend, p) && Carried(x, y)
    ensures Accounts(y, strays, defend, Leave(p, x.heard, y.heard))
  {
    hide LastName, ToolLog.ArgsFor, Indices, GivenID, Strays, Remains;
    forall t: nat ensures CallAccount(y, defend, Leave(p, x.heard, y.heard), t) {
      AccountsCall(x, y, defend, p, t);
    }
  }

  /** The calls are finished at the end. */
  lemma AccountsCall(x: Scene, y: Scene, defend: bool, p: Progress, t: nat)
    requires CallAccount(x, defend, p, t) && Kept(x, y)
    ensures CallAccount(y, defend, p, t)
  {
    hide LastName, ToolLog.ArgsFor, Indices, GivenID, Remains;
    assert t in x.tools <==> t in y.tools.Keys;
    if t in y.stored {
      if t in x.stored {
        RemainsSame(x.stored[t], x.tools[t], y.tools[t], p.late, t);
      } else {
        NothingLate(y.stored[t], y.tools[t], p.late, t);
      }
    }
  }

  lemma RemainsSame(item: Item, was: ToolState, now: ToolState, late: seq<ToolLog.ToolCallDelta>, t: nat)
    requires Remains(item, was, late, t) && was.args == now.args && was.name == now.name
    ensures Remains(item, now, late, t)
  {
  }

  /** What a fragment does, from one moment to the next. */
  ghost predicate Advances(x: Scene, y: Scene, tc: ToolLog.ToolCallDelta, defend: bool, serial: string)
  {
    var t, st := tc.index, Called(x.tools, tc.index, tc.id, defend, serial);
    && t in y.tools && Fragment(st, tc, y.tools[t])
    && SameCalls(x.tools[t := st], y.tools[t := st]) && KeptItems(x.tools, x.stored, y.stored)
    && y.open == (if y.tools[t].begun && !st.begun then Some(t) else x.open)
  }

  lemma AdvancesNow(x: Scene, y: Scene, named: map<nat, ToolState>, begun: map<nat, ToolState>,
                    tc: ToolLog.ToolCallDelta, defend: bool, serial: string)
    requires var t, st := tc.index, Called(x.tools, tc.index, tc.id, defend, serial);
             && t in y.tools && Fragment(st, tc, y.tools[t]) && SameCalls(x.tools[t := st], y.tools[t := st])
             && named == x.tools[t := if U.Presence(tc.name) then st.(name := tc.name.value) else st]
             && y.open == (if named[t].name != "" && !named[t].begun then Some(t) else x.open)
    requires KeptItems(named, x.stored, y.stored) && Consistent(x) && Consistent(y)
    ensures Advances(x, y, tc, defend, serial)
  {
    hide SameCalls;
  }

  lemma AccountsFragment(x: Scene, y: Scene, strays: nat, strays': nat, defend: bool, serial: string, p: Progress,
                         tc: ToolLog.ToolCallDelta)
    requires Accounts(x, strays, defend, p) && Consistent(x) && Consistent(y) && Advances(x, y, tc, defend, serial)
    requires strays' == strays + (if Late(x.tools, tc) then 1 else 0)
    ensures Accounts(y, strays', defend, Arrive(p, tc))
  {
    hide Advances, Consistent, CallAccount, Arrive, Strays, Late;
    assert CallAccount(x, defend, p, tc.index);
    Named(x, y, defend, serial, p, tc);
    forall u: nat ensures CallAccount(y, defend, Arrive(p, tc), u) {
      assert CallAccount(x, defend, p, u);
      if u == tc.index {
        OwnAccount(x, y, defend, serial, p, tc);
      } else {
        OtherAccount(x, y, defend, serial, p, tc, u);
      }
    }
    StraysSnoc(p.late, tc);
  }

  lemma StraysSnoc(late: seq<ToolLog.ToolCallDelta>, d: ToolLog.ToolCallDelta)
    ensures Strays(late + [d]) == Strays(late) + (if U.Presence(d.args) then 1 else 0)
  {
    assert (late + [d])[..|late|] == late;
  }

  /** The call under way, and the late fragments. */
  lemma Named(x: Scene, y: Scene, defend: bool, serial: string, p: Progress, tc: ToolLog.ToolCallDelta)
    requires p.under == x.open && CallAccount(x, defend, p, tc.index) && Consistent(x)
             && Advances(x, y, tc, defend, serial)
    ensures Arrive(p, tc).under == y.open
    ensures Arrive(p, tc).late == if tc.index in x.stored then p.late + [tc] else p.late
    ensures Late(x.tools, tc) <==> tc.index in x.stored && U.Presence(tc.args)
    ensures LastName(p.log, tc.index) != "" <==> tc.index in x.tools && x.tools[tc.index].begun
  {
    hide LastName, ToolLog.ArgsFor, Indices, GivenID, Remains, SameCalls, KeptItems;
    if tc.index !in x.tools { Unheard(p.log, tc.index); }
  }

  lemma OwnAccount(x: Scene, y: Scene, defend: bool, serial: string, p: Progress, tc: ToolLog.ToolCallDelta)
    requires CallAccount(x, defend, p, tc.index) && Consistent(x) && Consistent(y) && Advances(x, y, tc, defend, serial)
    requires Arrive(p, tc).late == if tc.index in x.stored then p.late + [tc] else p.late
    requires LastName(p.log, tc.index) != "" <==> tc.index in x.tools && x.tools[tc.index].begun
    ensures CallAccount(y, defend, Arrive(p, tc), tc.index)
  {
    hide LastName, ToolLog.ArgsFor, Indices, GivenID, SameCalls, Remains;
    var t := tc.index;
    LogSnoc(p.log, tc, t);
    LogSnoc(p.late, tc, t);
    if t !in x.tools { Unheard(p.log, t); }
    if t in x.stored { RemainsMore(x.stored[t], x.tools[t], y.tools[t], p.late, tc); }
  }

  lemma RemainsMore(item: Item, was: ToolState, now: ToolState, late: seq<ToolLog.ToolCallDelta>,
                    tc: ToolLog.ToolCallDelta)
    requires Remains(item, was, late, tc.index) && now.args == was.args + ToolLog.Text(tc.args)
    requires now.name == if U.Presence(tc.name) then tc.name.value else was.name
    ensures Remains(item, now, late + [tc], tc.index)
  {
    hide LastName, ToolLog.ArgsFor;
    LogSnoc(late, tc, tc.index);
  }

  lemma OtherAccount(x: Scene, y: Scene, defend: bool, serial: string, p: Progress, tc: ToolLog.ToolCallDelta, u: nat)
    requires CallAccount(x, defend, p, u) && Advances(x, y, tc, defend, serial) && u != tc.index
    ensures CallAccount(y, defend, Arrive(p, tc), u)
  {
    hide LastName, ToolLog.ArgsFor, Indices, GivenID, Fragment, Called, Remains, Reflects;
    LogSnoc(p.log, tc, u);
    LogSnoc(p.late, tc, u);
    var t, st, late := tc.index, Called(x.tools, tc.index, tc.id, defend, serial), Arrive(p, tc).late;
    assert u in x.tools <==> u in y.tools[t := st].Keys;
    assert u in y.tools ==> y.tools[t := st][u] == x.tools[t := st][u].(closed := y.tools[u].closed);
    if u in x.tools { ReflectsMore(x.tools[u], y.tools[u], defend, p.log, tc, u); }
    if u in y.stored {
      if u in x.stored {
        RemainsOther(x.stored[u], x.tools[u], y.tools[u], p.late, late, u);
      } else {
        NothingLate(y.stored[u], y.tools[u], late, u);
      }
    }
  }

  lemma ReflectsMore(was: ToolState, now: ToolState, defend: bool, log: seq<ToolLog.ToolCallDelta>,
                     tc: ToolLog.ToolCallDelta, u: nat)
    requires Reflects(was, defend, log, u) && now == was.(closed := now.closed) && u != tc.index
    ensures Reflects(now, defend, log + [tc], u)
  {
    hide LastName, ToolLog.ArgsFor, GivenID;
    LogSnoc(log, tc, u);
    assert ToolLog.ArgsFor(log, u) + "" == ToolLog.ArgsFor(log, u);
  }

  lemma RemainsOther(item: Item, was: ToolState, now: ToolState, late: seq<ToolLog.ToolCallDelta>,
                     late': seq<ToolLog.ToolCallDelta>, u: nat)
    requires Remains(item, was, late, u) && was.args == now.args && was.name == now.name
    requires late' == late || (late' != [] && late' == late + [late'[|late'| - 1]] && late'[|late'| - 1].index != u)
    ensures Remains(item, now, late', u)
  {
    hide LastName, ToolLog.ArgsFor;
    if late' != late {
      LogSnoc(late, late'[|late'| - 1], u);
      assert ToolLog.ArgsFor(late, u) + "" == ToolLog.ArgsFor(late, u);
    }
  }

  lemma NoCalls(p: Progress)
    ensures ArriveAll(p, []) == p && Leave(p, 0, 0) == p && forall n: nat :: Leave(p, n, n) == p
  {
  }

  lemma NextCall(p: Progress, calls: seq<ToolLog.ToolCallDelta>, i: nat)
    requires i < |calls|
    ensures ArriveAll(p, calls[..i + 1]) == Arrive(ArriveAll(p, calls[..i]), calls[i])
  {
    hide Arrive;
    assert calls[..i + 1][..i] == calls[..i];
  }

  // ---- chunk by chunk ----

  lemma NoChunks(g: Setting)
    ensures Watch(g, []) == NOTHING
  {
  }

  lemma TakenGrows(k: Intake, c: U.Chunk)
    ensures k.calls <= TakeChunk(k, c).calls && k.actions <= TakeChunk(k, c).actions
            && TakeChunk(k, c).calls == k.calls + CallsIn(c)
  {
    hide DeltaActions, Interrupted;
  }

  lemma {:induction false} TakenBefore(cs: seq<U.Chunk>, n: nat)
    requires n <= |cs|
    ensures TakeAll(cs[..n]).calls <= TakeAll(cs).calls && TakeAll(cs[..n]).actions <= TakeAll(cs).actions
    decreases |cs|
  {
    hide TakeChunk;
    if n < |cs| {
      TakenGrows(TakeAll(cs[..|cs| - 1]), cs[|cs| - 1]);
      TakenBefore(cs[..|cs| - 1], n);
      assert cs[..|cs| - 1][..n] == cs[..n];
    } else {
      assert cs[..n] == cs;
    }
  }

  /** Another chunk. */
  lemma WatchNext(g: Setting, script: seq<Action>, script': seq<Action>, chunks: seq<U.Chunk>, i: nat)
    requires i < |chunks| && Honest(g, Begin(g.defend, 0), script) && Honest(g, Begin(g.defend, 0), script')
    requires Input(script) == TakeAll(chunks[..i]).actions && Input(script') == TakeAll(chunks[..i + 1]).actions
    ensures Watch(g, chunks[..i + 1])
            == ArriveAll(Leave(Watch(g, chunks[..i]), Volume(Play(g, Begin(g.defend, 0), script)),
                               Volume(Play(g, Begin(g.defend, 0), script'))),
                         CallsIn(chunks[i]))
  {
    hide *;
    assert chunks[..i + 1][..i] == chunks[..i];
    WatchLast(g, chunks[..i + 1]);
    FlowNow(g, script, chunks[..i]);
    FlowNow(g, script', chunks[..i + 1]);
  }

  lemma FlowNow(g: Setting, script: seq<Action>, chunks: seq<U.Chunk>)
    requires Honest(g, Begin(g.defend, 0), script) && Input(script) == TakeAll(chunks).actions
    ensures FlowAfter(g, chunks) == Play(g, Begin(g.defend, 0), script)
  {
    hide TakeAll, Play, Honest;
    HonestIsScript(g, Begin(g.defend, 0), script);
  }

  lemma WatchLast(g: Setting, chunks: seq<U.Chunk>)
    requires chunks != []
    ensures var before, c := chunks[..|chunks| - 1], chunks[|chunks| - 1];
            Watch(g, chunks) == ArriveAll(Leave(Watch(g, before), Volume(FlowAfter(g, before)),
                                                Volume(FlowAfter(g, chunks))), CallsIn(c))
  {
    hide FlowAfter, ArriveAll, Leave, Volume, CallsIn;
  }

  lemma {:induction false} TakenCalls(p: Progress, calls: seq<ToolLog.ToolCallDelta>)
    ensures ArriveAll(p, calls).log == p.log + calls
  {
    if calls != [] { TakenCalls(p, calls[..|calls| - 1]); }
  }

  lemma {:induction false} WatchLog(g: Setting, chunks: seq<U.Chunk>)
    ensures Watch(g, chunks).log == TakeAll(chunks).calls
  {
    hide FlowAfter, Volume, TakeChunk, ArriveAll, CallsIn;
    if chunks != [] {
      var before, c := chunks[..|chunks| - 1], chunks[|chunks| - 1];
      WatchLog(g, before);
      TakenGrows(TakeAll(before), c);
      TakenCalls(Leave(Watch(g, before), Volume(FlowAfter(g, before)), Volume(FlowAfter(g, chunks))), CallsIn(c));
    }
  }

  // ---- upstreams that stream tool calls strictly by index ----

  predicate Silent(d: U.Delta)
  {
    !U.Presence(d.reasoning) && !U.Presence(d.refusal) && !U.Presence(d.content)
  }

  /** A chunk without text or reasoning. */
  predicate Mute(c: U.Chunk)
  {
    U.Over(c) || c.choices == [] || c.choices[0].delta == None || Silent(c.choices[0].delta.value)
  }

  /** Once an index is left it does not come back. */
  predicate Grouped(ix: seq<nat>)
  {
    forall i, j, k :: 0 <= i < j < k < |ix| && ix[i] == ix[k] ==> ix[j] == ix[i]
  }

  /** Tool calls come one index after the other, and nothing else comes once they have begun. */
  predicate StrictlyByIndex(cs: seq<U.Chunk>)
  {
    && Grouped(Indices(TakeAll(cs).calls))
    && forall q :: 0 <= q < |cs| && TakeAll(cs[..q]).calls != [] ==> Mute(cs[q])
  }

  /** An index that comes again is the one that came last. */
  lemma ComesAgain(ix: seq<nat>, i: nat)
    requires Grouped(ix + [i]) && i in ix
    ensures ix[|ix| - 1] == i
  {
    var all := ix + [i];
    var a :| 0 <= a < |ix| && ix[a] == i;
    assert all[a] == all[|ix|] && all[|ix| - 1] == ix[|ix| - 1];
  }

  lemma {:induction false} IndicesConcat(a: seq<ToolLog.ToolCallDelta>, b: seq<ToolLog.ToolCallDelta>)
    ensures Indices(a + b) == Indices(a) + Indices(b)
  {
    if b == [] {
      assert a + b == a;
    } else {
      assert (a + b)[..|a + b| - 1] == a + b[..|b| - 1];
      IndicesConcat(a, b[..|b| - 1]);
    }
  }

  lemma GroupedBefore(a: seq<ToolLog.ToolCallDelta>, b: seq<ToolLog.ToolCallDelta>)
    ensures Grouped(Indices(a + b)) ==> Grouped(Indices(a))
  {
    hide Indices;
    IndicesConcat(a, b);
    assert forall i :: 0 <= i < |Indices(a)| ==> Indices(a + b)[i] == Indices(a)[i];
  }

  /** Nothing came late, and a call that comes last is under way once it has a name. */
  ghost predicate InOrder(p: Progress)
  {
    p.late == [] && (p.log != [] ==> var t := p.log[|p.log| - 1].index; LastName(p.log, t) != "" ==> p.under == Some(t))
  }

  lemma LastIndex(log: seq<ToolLog.ToolCallDelta>)
    ensures log != [] ==> Indices(log) != [] && Indices(log)[|Indices(log)| - 1] == log[|log| - 1].index
    ensures log == [] ==> Indices(log) == []
  {
  }

  lemma ArriveInOrder(p: Progress, d: ToolLog.ToolCallDelta)
    requires InOrder(p) && Grouped(Indices(p.log + [d]))
    ensures InOrder(Arrive(p, d))
  {
    hide Grouped, Indices, LastName;
    LogSnoc(p.log, d, d.index);
    LastIndex(p.log);
    if d.index in Indices(p.log) { ComesAgain(Indices(p.log), d.index); } else { Unheard(p.log, d.index); }
  }

  lemma {:induction false} CallsInOrder(p: Progress, calls: seq<ToolLog.ToolCallDelta>)
    requires InOrder(p) && Grouped(Indices(p.log + calls))
    ensures InOrder(ArriveAll(p, calls))
  {
    hide Grouped, Indices, InOrder, Arrive;
    if calls != [] {
      var before, d := calls[..|calls| - 1], calls[|calls| - 1];
      assert p.log + calls == p.log + before + [d];
      GroupedBefore(p.log + before, [d]);
      CallsInOrder(p, before);
      TakenCalls(p, before);
      ArriveInOrder(ArriveAll(p, before), d);
    }
  }

  lemma StrictBefore(chunks: seq<U.Chunk>)
    requires chunks != [] && StrictlyByIndex(chunks)
    ensures StrictlyByIndex(chunks[..|chunks| - 1])
    ensures TakeAll(chunks[..|chunks| - 1]).calls == [] || Mute(chunks[|chunks| - 1])
  {
    hide Grouped, Indices, TakeAll, Mute;
    var before := chunks[..|chunks| - 1];
    TakenBefore(chunks, |chunks| - 1);
    var a, b := TakeAll(before).calls, TakeAll(chunks).calls;
    assert b == a + b[|a|..];
    GroupedBefore(a, b[|a|..]);
    forall q | 0 <= q < |before| && TakeAll(before[..q]).calls != [] ensures Mute(before[q]) {
      assert before[..q] == chunks[..q];
    }
  }

  lemma MuteTakes(k: Intake, c: U.Chunk)
    requires Mute(c)
    ensures TakeChunk(k, c).actions == k.actions
  {
    assert k.actions + [] == k.actions;
  }

  /** What the source counts on: an upstream that streams its calls one index after the other sends nothing late. */
  lemma {:induction false} StrictIsNeverLate(g: Setting, chunks: seq<U.Chunk>)
    requires StrictlyByIndex(chunks)
    ensures Watch(g, chunks).late == [] && InOrder(Watch(g, chunks))
  {
    hide Grouped, Indices, LastName, StrictlyByIndex, TakeChunk, Volume, Mute, CallsIn;
    if chunks != [] {
      var before, c := chunks[..|chunks| - 1], chunks[|chunks| - 1];
      StrictBefore(chunks);
      StrictIsNeverLate(g, before);
      WatchLog(g, before);
      WatchLog(g, chunks);
      TakenGrows(TakeAll(before), c);
      if Mute(c) { MuteTakes(TakeAll(before), c); }
      var p := Leave(Watch(g, before), Volume(FlowAfter(g, before)), Volume(FlowAfter(g, chunks)));
      assert p.log + CallsIn(c) == TakeAll(chunks).calls;
      assert Grouped(Indices(TakeAll(chunks).calls)) by { StrictIs(chunks); }
      CallsInOrder(p, CallsIn(c));
    }
  }

  lemma StrictIs(chunks: seq<U.Chunk>)
    requires StrictlyByIndex(chunks)
    ensures Grouped(Indices(TakeAll(chunks).calls))
  {
  }

  // ---- the calls of a finished response ----

  /** Each call with a name has one item; it has all of the call's fragments but the late ones. */
  ghost predicate CallsStored(defend: bool, stored: map<nat, Item>, output: seq<Item>, p: Progress)
  {
    && (forall t: nat :: CallStored(defend, stored, output, p, t))
    && (forall t, u :: t in stored && u in stored && t != u ==> stored[t].id != stored[u].id)
  }

  ghost predicate CallStored(defend: bool, stored: map<nat, Item>, output: seq<Item>, p: Progress, t: nat)
  {
    && (t in stored <==> LastName(p.log, t) != "")
    && (t in stored ==>
          && stored[t] in output && stored[t].kind == Call
          && ToolLog.ArgsFor(p.log, t) == stored[t].text + ToolLog.ArgsFor(p.late, t)
          && LastName(p.log, t) == (if LastName(p.late, t) != "" then LastName(p.late, t) else stored[t].name)
          && (!defend && GivenID(p.log, t) != "" ==> stored[t].callID == GivenID(p.log, t)))
    && (t in Indices(p.late) ==> t in stored)
  }

  /** The ids of these items. */
  function IDsOf(stored: map<nat, Item>): set<nat>
  {
    set t | t in stored :: stored[t].id
  }

  /** At the end every call that has begun is finished. */
  lemma AllStored(g: Terms, x: Scene, y: Scene, strays: nat, p: Progress, d: Desk)
    requires Accounts(x, strays, g.defend, p) && Kept(x, y) && Consistent(y) && y.open == None
    requires Stored(g, d.stock) && FreshIDs(d) && d.stock.tools == y.tools && d.stock.stored == y.stored
    ensures CallsStored(g.defend, d.stock.stored, d.stock.output, p) && strays == Strays(p.late)
    ensures TextCalls(d.stock.output, IDsOf(d.stock.stored)) == Written(g.codec, d.stock.found)
    ensures g.defend ==>
            OwnCallIDs(g.uuid, d.stock.output)
            && (ToolLog.Random(g.uuid) ==> DistinctCalls(d.stock.output))
  {
    hide OwnCallIDs, Proxied, LastName, ToolLog.ArgsFor, Indices, GivenID, TextCalls, Written, DistinctCalls, Kept,
         Strays;
    var k := d.stock;
    forall t: nat ensures CallStored(g.defend, k.stored, k.output, p, t) {
      assert CallAccount(x, g.defend, p, t);
      AccountsCall(x, y, g.defend, p, t);
      if t !in y.tools { Unheard(p.log, t); }
    }
    if g.defend { DrawnAreOwn(g.uuid, k); }
    assert IDsOf(k.stored) == NativeIDs(k.tools) by { SameIDsStored(k.tools, k.stored, k.output, y); }
  }

  lemma SameIDsStored(tools: map<nat, ToolState>, stored: map<nat, Item>, output: seq<Item>, y: Scene)
    requires Shelved(tools, stored, output) && Consistent(y) && y.open == None && y.tools == tools && y.stored == stored
    ensures IDsOf(stored) == NativeIDs(tools)
  {
    forall id ensures id in IDsOf(stored) <==> id in NativeIDs(tools) {
      if id in IDsOf(stored) {
        var t :| t in stored && stored[t].id == id;
        assert t in tools && tools[t].begun && tools[t].itemID == id;
      }
      if id in NativeIDs(tools) {
        var t :| t in tools && tools[t].begun && tools[t].itemID == id;
        assert t in stored && stored[t].id == id;
      }
    }
  }

  /** The items hold all arguments if and only if no late fragment carries any. */
  lemma AllArguments(defend: bool, stored: map<nat, Item>, output: seq<Item>, p: Progress)
    requires CallsStored(defend, stored, output, p)
    ensures Strays(p.late) == 0 <==> forall t :: t in stored ==> stored[t].text == ToolLog.ArgsFor(p.log, t)
  {
    hide LastName, GivenID, ToolLog.ArgsFor, Indices, Strays;
    forall t | t in stored ensures stored[t].text == ToolLog.ArgsFor(p.log, t) <==> ToolLog.ArgsFor(p.late, t) == "" {
      assert CallStored(defend, stored, output, p, t);
    }
    var q := SomeStray(p.late);
    if Strays(p.late) > 0 {
      assert CallStored(defend, stored, output, p, q);
    }
  }

  /** A call for which a late fragment carries arguments, or none. */
  lemma {:induction false} SomeStray(late: seq<ToolLog.ToolCallDelta>) returns (t: nat)
    ensures Strays(late) > 0 ==> t in Indices(late) && ToolLog.ArgsFor(late, t) != ""
    ensures Strays(late) == 0 ==> forall u: nat :: ToolLog.ArgsFor(late, u) == ""
  {
    t := 0;
    if late != [] {
      var before, d := late[..|late| - 1], late[|late| - 1];
      assert late == before + [d];
      t := SomeStray(before);
      if U.Presence(d.args) { t := d.index; }
      forall u: nat ensures ToolLog.ArgsFor(late, u) == ToolLog.ArgsFor(before, u) + (if d.index == u then
            ToolLog.Text(d.args) else "") {
        LogSnoc(before, d, u);
      }
    }
  }

  /** A chunk that carries one fragment. */
  function Only(d: ToolLog.ToolCallDelta): U.Chunk
  {
    U.Chunk(false, false, None, [U.Choice(Some(U.Delta(None, None, None, [d])), None)])
  }

  lemma OnlyTakes(g: Setting, chunks: seq<U.Chunk>, d: ToolLog.ToolCallDelta)
    ensures Watch(g, chunks + [Only(d)]) == Arrive(Watch(g, chunks), d)
  {
    hide TakeAll, Volume, Play, Arrive, TakeChunk;
    var all := chunks + [Only(d)];
    assert all[..|chunks|] == chunks;
    MuteTakes(TakeAll(chunks), Only(d));
    assert TakeAll(all) == TakeChunk(TakeAll(chunks), Only(d)) by { TakeAllSnoc(chunks, Only(d)); }
    WatchLast(g, all);
    assert ArriveAll(Watch(g, chunks), [d]) == Arrive(Watch(g, chunks), d);
  }

  lemma TakeAllSnoc(chunks: seq<U.Chunk>, c: U.Chunk)
    ensures TakeAll(chunks + [c]) == TakeChunk(TakeAll(chunks), c)
  {
    hide TakeChunk;
    assert (chunks + [c])[..|chunks|] == chunks;
  }

  /** Not every upstream does: arguments for a call that another has ended come late. */
  lemma InterleavedIsLate(g: Setting, t: nat, u: nat, a: string, b: string, x: string)
    requires t != u && a != "" && b != "" && x != ""
    ensures var first, second, third := ToolLog.ToolCallDelta(t, None, Some(a), Some(x)),
            ToolLog.ToolCallDelta(u, None, Some(b), Some(x)),
                                        ToolLog.ToolCallDelta(t, None, None, Some(x));
            var p := Watch(g, [Only(first), Only(second), Only(third)]);
            p.late == [third] && Strays(p.late) == 1
  {
    hide Watch, Only, Arrive, Strays;
    var first, second, third := ToolLog.ToolCallDelta(t, None, Some(a), Some(x)),
        ToolLog.ToolCallDelta(u, None, Some(b), Some(x)),
                                ToolLog.ToolCallDelta(t, None, None, Some(x));
    NoChunks(g);
    OnlyTakes(g, [], first);
    OnlyTakes(g, [Only(first)], second);
    OnlyTakes(g, [Only(first), Only(second)], third);
    assert [] + [Only(first)] == [Only(first)] && [Only(first)] + [Only(second)] == [Only(first), Only(second)];
    assert [Only(first), Only(second)] + [Only(third)] == [Only(first), Only(second), Only(third)];
    ThirdIsLate(first, second, third);
  }

  lemma ThirdIsLate(first: ToolLog.ToolCallDelta, second: ToolLog.ToolCallDelta, third: ToolLog.ToolCallDelta)
    requires first.index == third.index != second.index && U.Presence(first.name) && U.Presence(second.name)
             && U.Presence(third.args)
    ensures var p := Arrive(Arrive(Arrive(NOTHING, first), second), third); p.late == [third] && Strays(p.late) == 1
  {
    hide LastName, Strays;
    var t := third.index;
    var p := Arrive(NOTHING, first);
    Unheard([], t);
    Unheard([], second.index);
    LogSnoc([], first, t);
    LogSnoc([], first, second.index);
    LogSnoc(p.log, second, t);
    assert Strays([third]) == 1 by { OneStray(third); }
  }

  lemma OneStray(d: ToolLog.ToolCallDelta)
    requires U.Presence(d.args)
    ensures Strays([d]) == 1
  {
    assert [d][..0] == [];
  }
}
