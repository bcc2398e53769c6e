/**
 * How the Messages route uses the streaming converter
 * (internal/proxy/server.go): its retry hooks and its non-streaming answer.
 */
module Answer {
  import opened Wrappers
  import opened Strings
  import opened Events
  import opened TextFlow
  import opened ToolLog
  import opened Turn
  import S = Streamer
  import U = Upstream
  import A = Aggregate
  import B = Builder
  import Json

  datatype Config = Config(emptyTurnGuard: bool, emptyTurnMaxRetries: int, midStreamStallTimeout: int)

  /** The hook for an invisible turn; `request` is the upstream's answer to the attempt, None when it failed. */
  function EmptyTurnRetryHook(cfg: Config, request: (nat, string, string) -> Option<seq<U.Chunk>>): (nat, string,
        string) -> Option<seq<U.Chunk>>
  {
    (attempt: nat, reasoning: string, visible: string) =>
      if !cfg.emptyTurnGuard || attempt > cfg.emptyTurnMaxRetries then None else request(attempt, reasoning, visible)
  }

  /** The hook for a connection that died; its budget is fixed. */
  function MidStreamRetryHook(cfg: Config, request: (nat, StreamError) -> Option<seq<U.Chunk>>): (nat,
        StreamError) -> Option<seq<U.Chunk>>
  {
    (attempt: nat, e: StreamError) => if cfg.midStreamStallTimeout <= 0 || attempt > 2 then None
        else request(attempt, e)
  }

  /** With the route's hooks a turn asks the upstream again at most this often. */
  lemma HooksKeepBudgets(cfg: Config, o: Options, invisible: (nat, string, string) -> Option<seq<U.Chunk>>,
                         mid: (nat, StreamError) -> Option<seq<U.Chunk>>)
    requires o.invisibleRetry == EmptyTurnRetryHook(cfg, invisible) && o.midRetry == MidStreamRetryHook(cfg, mid)
    requires o.invisibleBudget == (if cfg.emptyTurnGuard && cfg.emptyTurnMaxRetries > 0 then cfg.emptyTurnMaxRetries
               else 0)
    requires o.midBudget == (if cfg.midStreamStallTimeout <= 0 then 0 else 2)
    ensures Budgeted(o)
  {
  }

  /** The call, in the message: the entry of its block has its id and name, and what was sent to it, parsed. */
  ghost predicate CallAnswered(parse: string -> Option<Json.Value>, c: seq<A.Entry>, k: int, st: B.ToolCallState,
                               name: string)
  {
    0 <= k < |c| && c[k] == A.ToolUseEntry(st.toolID, name, A.Input(parse, Join(st.contents)))
  }

  lemma SomethingToSee(parse: string -> Option<Json.Value>, first: nat, next: nat, es: seq<Event>, c: seq<A.Entry>)
    requires A.Agrees(parse, first, next, es, c) && Visible(es)
    ensures c != []
    ensures TrimSpace(A.EntryTexts(ThinkingBlock, c)) != "" ==> exists k ::
            0 <= k < |c|
            && (c[k].TextEntry? || c[k].ToolUseEntry?)
  {
    hide A.OneEntryEach, A.EntryTexts, Starts, TrimSpace, TextOf, ReasoningOf;
  }

  lemma CallsAnswered(parse: string -> Option<Json.Value>, first: nat, begun: bool, es: seq<Event>, c: seq<A.Entry>,
                      st: B.ToolCallState, name: string)
      returns (k: int)
    requires Replay(Origin(first, begun), es).Some?
             && A.Agrees(parse, first, Replay(Origin(first, begun), es).value.next, es, c)
    requires CallSent(es, st, name)
    ensures CallAnswered(parse, c, k, st, name)
  {
    hide Replay, A.Input, A.EntryTexts, Join, FragmentsOf, TextOf, ReasoningOf, Starts, A.LastStart, A.LastSignature,
         BlockText;
    A.StartIsLast(Origin(first, begun), es, BlockStart(st.blockIndex, ToolBlock, st.toolID, name));
    k := st.blockIndex - first;
    assert A.EntryOf(parse, A.BlockAt(es, first + k)) == [c[k]];
  }

  /**
   * The non-streaming answer to a turn. It drains the whole stream, so it is the error or the message the
   * stream spells out.
   */
  method WriteNonStreamMessages(codec: Json.Codec, parse: string -> Option<Json.Value>, sign: string -> string,
                                uuid: nat -> string,
                                chunks: seq<U.Chunk>, req: Request, o: Options)
      returns (r: Result<A.Message, StreamError>, ghost issued: seq<Event>, ghost heard: Reading, ghost last: Reading,
               ghost tools: map<nat, B.ToolCallState>)
    requires Budgeted(o) && Json.Lawful(codec)
    ensures Replay(Origin(o.startingBlockIndex, o.skipLifecycle), issued).Some?
    ensures heard == Resumed(o, Verdict(Read(NOTHING, chunks)), 1)
    ensures last == Outcome(o, Setting(codec, o.defend, o.thinkingEnabled), req.toolNames, heard)
    ensures if heard.error.Some? then r == Failure(heard.error.value) else r.Success?
    ensures r.Success? ==> A.Agrees(parse, o.startingBlockIndex,
                                    Replay(Origin(o.startingBlockIndex, o.skipLifecycle), issued).value.next, issued,
            r.value.content)
    ensures r.Success? ==> r.value.content != []
    ensures r.Success? && TrimSpace(A.EntryTexts(ThinkingBlock, r.value.content)) != "" ==>
              exists k :: 0 <= k < |r.value.content|
                  && (r.value.content[k].TextEntry? || r.value.content[k].ToolUseEntry?)
    ensures r.Success? ==>
              var names := if Asked(o, Setting(codec, o.defend, o.thinkingEnabled), req.toolNames, heard) then []
                  else req.toolNames;
              && AllDelivered(codec, o.defend, names, tools, last.tools)
              && forall t :: t in tools && tools[t].started ==>
                   exists k :: CallAnswered(parse, r.value.content, k, tools[t], StartName(names, last.tools, t))
  {
    hide *;
    var events, err, finished, stopped, states;
    events, err, finished, stopped, states, issued, heard,
        last := S.Translate(codec, sign, uuid, n => true, chunks, req, o);
    tools := states;
    if err.Some? {
      return Failure(err.value), issued, heard, last, tools;
    }
    var msg := A.AggregateMessage(parse, events);
    A.Agreement(parse, o.startingBlockIndex, o.skipLifecycle, events, msg);
    SomethingToSee(parse, o.startingBlockIndex,
                   Replay(Origin(o.startingBlockIndex, o.skipLifecycle), events).value.next, events, msg.content);
    ghost var names := if Asked(o, Setting(codec, o.defend, o.thinkingEnabled), req.toolNames, heard) then []
        else req.toolNames;
    DeliveredMeans(codec, o.defend, names, tools, events, last.tools);
    forall t | t in tools && tools[t].started
      ensures exists k :: CallAnswered(parse, msg.content, k, tools[t], StartName(names, last.tools, t)) {
      var k := CallsAnswered(parse, o.startingBlockIndex, o.skipLifecycle, events, msg.content, tools[t],
                             StartName(names, last.tools, t));
    }
    r := Success(msg);
  }

  lemma DeliveredMeans(codec: Json.Codec, defend: bool, toolNames: seq<Option<string>>,
                       tools: map<nat, B.ToolCallState>,
                       es: seq<Event>, received: seq<ToolCallDelta>)
    requires CallsDelivered(codec, defend, toolNames, true, tools, es, received)
    ensures AllDelivered(codec, defend, toolNames, tools, received)
    ensures forall t :: t in tools && tools[t].started ==> CallSent(es, tools[t], StartName(toolNames, received, t))
  {
    hide AllDelivered, CallSent, B.Distinct, StartName;
  }
}
