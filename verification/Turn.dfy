/**
 * What a streamed turn is to do: what an upstream stream says, which events a turn ends with, what its reader
 * is told and which of its calls are delivered (internal/stream/stream.go).
 */
module Turn {
  import opened Wrappers
  import opened Strings
  import opened Events
  import opened TextFlow
  import opened ToolLog
  import opened Upstream
  import opened PlainRun
  import B = Builder
  import H = HeuristicTool
  import Json

  datatype StreamError = ConnectionClosed | ResponseStalled | Upstream(code: int, message: string)

  /** The upstream connection died, as opposed to the upstream reporting an error. */
  predicate Aborted(e: Option<StreamError>)
  {
    e == Some(ConnectionClosed) || e == Some(ResponseStalled)
  }

  datatype Request = Request(stopSequences: seq<string>, toolNames: seq<Option<string>>)

  /** A hook that is not set is one that never grants a retry. */
  datatype Options = Options(
    skipLifecycle: bool, startingBlockIndex: nat, defend: bool, thinkingEnabled: bool,
    invisibleRetry: (nat, string, string) -> Option<seq<Chunk>>, invisibleBudget: nat,
    midRetry: (nat, StreamError) -> Option<seq<Chunk>>, midBudget: nat)

  /** The hooks keep their own budgets: attempts beyond them are refused. */
  ghost predicate Budgeted(o: Options)
  {
    && (forall a, r, v :: a > o.invisibleBudget ==> o.invisibleRetry(a, r, v) == None)
    && (forall a, e :: a > o.midBudget ==> o.midRetry(a, e) == None)
  }

  function MapStopReason(reason: string): string
  {
    if reason == "length" then "max_tokens"
    else if reason == "tool_calls" then "tool_use"
    else if reason == "content_filter" then "refusal"
    else "end_turn"
  }

  /** The first of the request's stop sequences the text ends with. */
  function DetectStopSequence(text: string, sequences: seq<string>): Option<string>
  {
    if text == "" || sequences == [] then None
    else if sequences[0] != "" && HasSuffix(text, sequences[0]) then Some(sequences[0])
    else DetectStopSequence(text, sequences[1..])
  }

  /** What one upstream delta is to the parsers; a refusal supersedes the fields after it. */
  function DeltaActions(d: Delta): seq<Action>
  {
    (if Presence(d.reasoning) then [Reason(d.reasoning.value)] else [])
    + (if Presence(d.refusal) then [Refuse(d.refusal.value)]
       else (if Presence(d.content) then [Content(d.content.value, [], false, "")] else []) + (if d.toolCalls != [] then
             [Calls] else []))
  }

  /** The tool call fragments that reach the tool calls' states. */
  function DeltaTools(d: Delta): seq<ToolCallDelta>
  {
    if Presence(d.refusal) then [] else d.toolCalls
  }

  /** What has been read of a stream: its tool call fragments, what came in for the parsers, and how it ends. */
  datatype Reading = Reading(tools: seq<ToolCallDelta>, actions: seq<Action>, reason: string, done: bool,
                             error: Option<StreamError>)

  const NOTHING: Reading := Reading([], [], "", false, None)

  function ReadChunk(r: Reading, c: Chunk): Reading
  {
    if c.readError then r.(error := Some(ConnectionClosed))
    else if c.done then r.(done := true)
    else if c.error.Some? then
      r.(error := Some(Upstream(if c.error.value.code.Some? then c.error.value.code.value
            else 500, c.error.value.message)))
    else if c.choices == [] || c.choices[0].delta == None then r
    else
      var choice, d := c.choices[0], c.choices[0].delta.value;
      r.(tools := r.tools + DeltaTools(d), actions := r.actions + DeltaActions(d),
         reason := if Presence(choice.finishReason) then choice.finishReason.value else r.reason)
  }

  /** A stream, up to its end marker or its first failure. */
  function Read(r: Reading, cs: seq<Chunk>): Reading
    decreases |cs|
  {
    if cs == [] then r
    else if Over(cs[0]) then ReadChunk(r, cs[0])
    else Read(ReadChunk(r, cs[0]), cs[1..])
  }

  /** A stream without a finish reason ends well only if it says that it is done. */
  function Verdict(r: Reading): Reading
  {
    if r.error.Some? || r.reason != "" then r
    else if r.done then r.(reason := "stop")
    else r.(error := Some(ResponseStalled))
  }

  function ForegroundInput(u: H.ToolUse): Json.Object
  {
    if u.name == TASK then B.Foreground(u.input) else u.input
  }

  function FoundID(uuid: nat -> string, u: H.ToolUse): string
  {
    "toolu_heuristic_" + uuid(u.id)
  }

  /** The events of a call found in the text: one whole block. */
  function CallBlock(codec: Json.Codec, uuid: nat -> string, u: H.ToolUse, index: nat): seq<Event>
  {
    [BlockStart(index, ToolBlock, FoundID(uuid, u), u.name)]
    + [InputJsonDelta(index, codec.canonical(ForegroundInput(u)))]
    + [BlockStop(index)]
  }

  /** The last of the calls is the block at p. */
  predicate LastSentAt(codec: Json.Codec, uuid: nat -> string, es: seq<Event>, calls: seq<H.ToolUse>, p: nat,
                       index: nat)
  {
    calls != [] && p + 3 <= |es| && es[p..p + 3] == CallBlock(codec, uuid, calls[|calls| - 1], index)
  }

  /** The calls found in the text were sent in order, each as one whole block. */
  ghost predicate Sent(codec: Json.Codec, uuid: nat -> string, es: seq<Event>, calls: seq<H.ToolUse>)
    decreases |calls|
  {
    calls == [] || exists p: nat, index: nat ::
        LastSentAt(codec, uuid, es, calls, p, index)
        && Sent(codec, uuid, es[..p], calls[..|calls| - 1])
  }

  lemma SentMore(codec: Json.Codec, uuid: nat -> string, es: seq<Event>, more: seq<Event>, calls: seq<H.ToolUse>)
    requires Sent(codec, uuid, es, calls)
    ensures Sent(codec, uuid, es + more, calls)
  {
    hide CallBlock;
    if calls != [] {
      var p: nat, index: nat :| LastSentAt(codec, uuid, es, calls, p, index)
          && Sent(codec, uuid, es[..p], calls[..|calls| - 1]);
      assert (es + more)[p..p + 3] == es[p..p + 3] && (es + more)[..p] == es[..p];
      assert LastSentAt(codec, uuid, es + more, calls, p, index);
    }
  }

  lemma SentNow(codec: Json.Codec, uuid: nat -> string, es: seq<Event>, calls: seq<H.ToolUse>, u: H.ToolUse, index: nat)
    requires Sent(codec, uuid, es, calls)
    ensures Sent(codec, uuid, es + CallBlock(codec, uuid, u, index), calls + [u])
  {
    var es' := es + CallBlock(codec, uuid, u, index);
    assert es'[..|es|] == es && (calls + [u])[..|calls|] == calls;
    assert LastSentAt(codec, uuid, es', calls + [u], |es|, index);
  }

  /** No random number looks like part of another kind of id. */
  ghost predicate Unmistakable(uuid: nat -> string)
  {
    forall n: nat :: !("heuristic_" <= uuid(n))
  }

  ghost predicate DistinctFound(uuid: nat -> string, us: seq<H.ToolUse>)
  {
    forall i, j :: 0 <= i < j < |us| ==> FoundID(uuid, us[i]) != FoundID(uuid, us[j])
  }

  /** Native calls and calls found in the text have no id in common. */
  ghost predicate KindsApart(uuid: nat -> string, tools: map<nat, B.ToolCallState>, us: seq<H.ToolUse>)
  {
    forall t, u :: t in tools && tools[t].toolID != "" && u in us ==> tools[t].toolID != FoundID(uuid, u)
  }

  lemma KindsDiffer(g: Setting, uuid: nat -> string, script: seq<Action>, tools: map<nat, B.ToolCallState>)
    requires Random(uuid) && Unmistakable(uuid) && Minted(uuid, tools)
    ensures KindsApart(uuid, tools, Play(g, Begin(g.defend, 0), script).calls)
  {
    hide Play, Random, Unmistakable;
    FoundIDsDiffer(g, uuid, script);
    var serials: map<nat, nat>, minted: nat :| AllMinted(uuid, tools, serials, minted);
    forall t, u | t in tools && tools[t].toolID != "" && u in Play(g, Begin(g.defend, 0), script).calls
        ensures tools[t].toolID != FoundID(uuid, u) {
      assert MintedAs(uuid, tools[t].toolID, serials[t]);
    }
  }

  /** The calls found in the text have different ids, and none that a native call could have. */
  lemma FoundIDsDiffer(g: Setting, uuid: nat -> string, script: seq<Action>)
    requires Random(uuid)
    ensures var us := Play(g, Begin(g.defend, 0), script).calls;
            DistinctFound(uuid, us) && (Unmistakable(uuid) ==>
                  forall u <- us, id: string, n: nat :: MintedAs(uuid, id, n) ==> id != FoundID(uuid, u))
  {
    hide Play;
    CallsAreNumbered(g, script);
    var us := Play(g, Begin(g.defend, 0), script).calls;
    forall i, j | 0 <= i < j < |us| ensures FoundID(uuid, us[i]) != FoundID(uuid, us[j]) {
      assert FoundID(uuid, us[i])[16..] == uuid(us[i].id) && FoundID(uuid, us[j])[16..] == uuid(us[j].id);
      assert us[i].id != us[j].id;
    }
    if Unmistakable(uuid) {
      forall u, id: string, n: nat | u in us && MintedAs(uuid, id, n) ensures id != FoundID(uuid, u) {
        OtherKind(uuid, u, n);
      }
    }
  }

  lemma OtherKind(uuid: nat -> string, u: H.ToolUse, n: nat)
    requires Unmistakable(uuid)
    ensures "toolu_" + uuid(n) != FoundID(uuid, u) && "tool_" + uuid(n) != FoundID(uuid, u)
  {
    var a, b, c := "toolu_" + uuid(n), "tool_" + uuid(n), FoundID(uuid, u);
    assert a[6..] == uuid(n) && b[4] == '_' && c[4] == 'u';
    assert c[6..] == "heuristic_" + uuid(u.id);
  }

  lemma CallBlockIs(codec: Json.Codec, uuid: nat -> string, es: seq<Event>, u: H.ToolUse, index: nat)
    ensures es + CallBlock(codec, uuid, u, index) ==
            es + [BlockStart(index, ToolBlock, "toolu_heuristic_" + uuid(u.id), u.name)]
            + [InputJsonDelta(index, codec.canonical(ForegroundInput(u)))] + [BlockStop(index)]
  {
    hide ForegroundInput;
  }

  /** The id of a call after a fragment: the first one counts, and while defending it is replaced by a fresh one. */
  function CallID(st: B.ToolCallState, d: ToolCallDelta, defend: bool, minted: string): string
  {
    if st.toolID != "" || ToolLog.Text(d.id) == "" then st.toolID
    else if defend then "toolu_" + minted
    else ToolLog.Text(d.id)
  }

  // ---- when the upstream is asked again ----

  /** A call has a name, so its block has started. */
  ghost predicate AnyNamed(log: seq<ToolCallDelta>)
  {
    exists t: nat :: Resolved(log, t) != ""
  }

  /** Another attempt's stream, read on after a restart. */
  function ReadOn(r: Reading, cs: seq<Chunk>): Reading
  {
    Verdict(Read(r.(actions := r.actions + [Restart], error := None), cs))
  }

  /**
   * The reading as the attempts go on: while the connection has died, no native call has a name and the hook grants
   * it, the next stream is read on, with everything read before kept.
   */
  ghost function Resumed(o: Options, r: Reading, attempt: nat): Reading
    decreases if attempt <= o.midBudget then o.midBudget + 1 - attempt else 0
  {
    if attempt <= o.midBudget && Aborted(r.error) && !AnyNamed(r.tools) && o.midRetry(attempt, r.error.value).Some? then
      Resumed(o, ReadOn(r, o.midRetry(attempt, r.error.value).value), attempt + 1)
    else r
  }

  /** The turn has ended well, with reasoning and nothing to see of it. */
  predicate Speechless(r: Reading, f: Flow)
  {
    r.error == None && (r.reason == "" || r.reason == "stop") && TrimSpace(f.text) == "" && TrimSpace(f.reasoning) != ""
  }

  /** It would end with reasoning alone: no call has a block either, by its own name or one of the request's. */
  ghost predicate AsksAgain(o: Options, toolNames: seq<Option<string>>, r: Reading, f: Flow)
  {
    && Speechless(r, f) && !(exists t: nat :: Resolved(r.tools, t) != "" || Adopted(toolNames, r.tools, t))
    && o.invisibleRetry(1, f.reasoning, f.text).Some?
  }

  /** What the parsers have made of what came in when r was read. */
  function FlowAt(g: Setting, r: Reading): Flow
  {
    Play(g, Begin(g.defend, 0), ScriptOf(g, Begin(g.defend, 0), r.actions))
  }

  /** The reading as the attempts at an invisible turn go on; one that fails is the last. */
  ghost function Retried(o: Options, g: Setting, r: Reading, attempt: nat): Reading
    decreases if attempt <= o.invisibleBudget then o.invisibleBudget + 1 - attempt else 0
  {
    var f := FlowAt(g, r);
    if attempt <= o.invisibleBudget && Speechless(r, f) && !AnyNamed(r.tools)
        && o.invisibleRetry(attempt, f.reasoning, f.text).Some? then
      Retried(o, g, Read(r, o.invisibleRetry(attempt, f.reasoning, f.text).value), attempt + 1)
    else r
  }

  /** The parsers are flushed after what was heard. */
  function Flushed(heard: Reading): Reading
  {
    heard.(actions := heard.actions + [Finish])
  }

  /** Was the upstream asked again for an invisible turn? */
  ghost predicate Asked(o: Options, g: Setting, toolNames: seq<Option<string>>, heard: Reading)
  {
    AsksAgain(o, toolNames, heard, FlowAt(g, Flushed(heard)))
  }

  /**
   * Everything that was read: what was heard, or, when the turn was invisible,
   * what the further attempts sent. Calls that came to nothing are forgotten.
   */
  ghost function Outcome(o: Options, g: Setting, toolNames: seq<Option<string>>, heard: Reading): Reading
  {
    if Asked(o, g, toolNames, heard) then FirstRetry(o, g, FlowAt(g, Flushed(heard)), heard) else Flushed(heard)
  }

  ghost function FirstRetry(o: Options, g: Setting, f: Flow, heard: Reading): Reading
  {
    var cs := o.invisibleRetry(1, f.reasoning, f.text);
    if cs.Some? then Retried(o, g, Read(Flushed(heard).(tools := []), cs.value), 2) else Flushed(heard)
  }

  /** The script that was played is that of what was read. */
  lemma FlowIs(g: Setting, script: seq<Action>, r: Reading)
    requires Honest(g, Begin(g.defend, 0), script) && r.actions == Input(script)
    ensures FlowAt(g, r) == Play(g, Begin(g.defend, 0), script)
  {
    hide Play, Honest;
    HonestIsScript(g, Begin(g.defend, 0), script);
  }

  lemma RetriedGoes(o: Options, g: Setting, r: Reading, attempt: nat, cs: seq<Chunk>)
    requires var f := FlowAt(g, r);
             attempt <= o.invisibleBudget && Speechless(r, f) && !AnyNamed(r.tools)
                 && o.invisibleRetry(attempt, f.reasoning, f.text) == Some(cs)
    ensures Retried(o, g, r, attempt) == Retried(o, g, Read(r, cs), attempt + 1)
  {
    hide Read, FlowAt, AnyNamed, Speechless;
  }

  lemma RetriedStops(o: Options, g: Setting, r: Reading, attempt: nat)
    requires var f := FlowAt(g, r);
             !(attempt <= o.invisibleBudget && Speechless(r, f) && !AnyNamed(r.tools)
                   && o.invisibleRetry(attempt, f.reasoning, f.text).Some?)
    ensures Retried(o, g, r, attempt) == r
  {
    hide FlowAt, AnyNamed, Speechless;
  }

  lemma ResumedStops(o: Options, r: Reading, attempt: nat)
    requires !Aborted(r.error) || AnyNamed(r.tools) || attempt > o.midBudget
             || o.midRetry(attempt, r.error.value) == None
    ensures Resumed(o, r, attempt) == r
  {
    hide AnyNamed;
  }

  lemma ResumedGoes(o: Options, r: Reading, attempt: nat, cs: seq<Chunk>)
    requires Aborted(r.error) && !AnyNamed(r.tools) && attempt <= o.midBudget
             && o.midRetry(attempt, r.error.value) == Some(cs)
    ensures Resumed(o, r, attempt) == Resumed(o, ReadOn(r, cs), attempt + 1)
  {
    hide AnyNamed, ReadOn;
  }

  lemma ReadOnIs(r: Reading, cs: seq<Chunk>)
    ensures ReadOn(r, cs) == Verdict(Read(Reading(r.tools, r.actions + [Restart], r.reason, r.done, None), cs))
  {
    hide Read, Verdict;
  }

  lemma FailureIsLast(o: Options, g: Setting, r: Reading, attempt: nat)
    ensures r.error.Some? ==> Retried(o, g, r, attempt) == r
  {
    hide AnyNamed, FlowAt;
  }

  lemma FlushedIs(r: Reading)
    ensures Flushed(r) == Reading(r.tools, r.actions + [Finish], r.reason, r.done, r.error)
  {
  }

  lemma OutcomeIs(o: Options, g: Setting, toolNames: seq<Option<string>>, heard: Reading, f: Flow)
    requires f == FlowAt(g, Flushed(heard))
    ensures Asked(o, g, toolNames, heard) <==> AsksAgain(o, toolNames, heard, f)
    ensures Outcome(o, g, toolNames, heard) == if AsksAgain(o, toolNames, heard, f) then FirstRetry(o, g, f, heard)
            else Flushed(heard)
  {
    hide AsksAgain, FirstRetry, Flushed, FlowAt;
  }

  /** With both budgets spent from the start, the upstream is asked once. */
  lemma AskedOnce(o: Options, g: Setting, toolNames: seq<Option<string>>, r: Reading)
    requires Budgeted(o)
    ensures o.midBudget == 0 ==> Resumed(o, r, 1) == r
    ensures o.invisibleBudget == 0 ==> Outcome(o, g, toolNames, r) == Flushed(r)
  {
    hide Speechless, AnyNamed, Play;
  }

  /** Reading on forgets nothing. */
  lemma {:induction false} ReadGrows(r: Reading, cs: seq<Chunk>)
    ensures r.tools <= Read(r, cs).tools && r.actions <= Read(r, cs).actions
    decreases |cs|
  {
    hide DeltaActions, DeltaTools;
    if cs != [] && !Over(cs[0]) {
      ReadGrows(ReadChunk(r, cs[0]), cs[1..]);
    }
  }

  /**
   * However often a stream is resumed, everything read before is kept,
   * and it ends for good: by itself, with a call under way, or refused.
   */
  lemma {:induction false} ResumedEnds(o: Options, r: Reading, attempt: nat)
    requires Budgeted(o)
    ensures var now := Resumed(o, r, attempt);
            && r.tools <= now.tools && r.actions <= now.actions
            && (!Aborted(now.error) || AnyNamed(now.tools) || exists a: nat ::
                 attempt <= a
                 && o.midRetry(a, now.error.value) == None)
    decreases if attempt <= o.midBudget then o.midBudget + 1 - attempt else 0
  {
    hide AnyNamed, Read;
    if attempt > o.midBudget {
      assert Aborted(r.error) ==> o.midRetry(attempt, r.error.value) == None;
    } else if Aborted(r.error) && !AnyNamed(r.tools) && o.midRetry(attempt, r.error.value).Some? {
      var cs := o.midRetry(attempt, r.error.value).value;
      ReadGrows(r.(actions := r.actions + [Restart], error := None), cs);
      assert r.actions <= r.actions + [Restart];
      ResumedEnds(o, ReadOn(r, cs), attempt + 1);
      var now := Resumed(o, r, attempt);
      if a: nat :| attempt + 1 <= a && Aborted(now.error) && o.midRetry(a, now.error.value) == None {
        assert attempt <= a;
      }
    }
  }

  /** Nothing but quiet text comes in, for a reader who wants reasoning. */
  ghost predicate PlainSetting(o: Options, actions: seq<Action>)
  {
    o.thinkingEnabled && AllContent(actions) && QuietInput(o.defend, Contents(actions))
  }

  /** What the reader has been told is what came out, when the turn has ended with the placeholder it may need. */
  ghost predicate Tells(f: Flow, ended: bool, native: bool, es: seq<Event>, calls: seq<H.ToolUse>)
  {
    && f.calls == calls && ReasoningOf(es) == f.reasoning
    && (if ended then Shown(native, f.text, f.reasoning, TextOf(es)) else TextOf(es) == f.text)
  }

  /** What the reader has in the end: this text, with the placeholder it may need, and this reasoning. */
  ghost predicate Reads(text: string, reasoning: string, ended: bool, native: bool, es: seq<Event>)
  {
    && ReasoningOf(es) == reasoning
    && (if ended then Shown(native, text, reasoning, TextOf(es)) else TextOf(es) == text)
  }

  lemma ReadsNow(f: Flow, ended: bool, native: bool, es: seq<Event>)
    requires Tells(f, ended, native, es, f.calls)
    ensures Reads(f.text, f.reasoning, ended, native, es)
  {
    hide TextOf, ReasoningOf, Shown;
  }

  lemma OutcomeUnasked(o: Options, g: Setting, toolNames: seq<Option<string>>, heard: Reading)
    requires !Asked(o, g, toolNames, heard)
    ensures Outcome(o, g, toolNames, heard) == Flushed(heard)
  {
    hide Asked, FirstRetry, Flushed;
  }

  lemma NotYet(f: Flow, native: bool, es: seq<Event>, calls: seq<H.ToolUse>)
    requires Tells(f, false, false, es, calls)
    ensures Tells(f, false, native, es, calls)
  {
    hide TextOf, ReasoningOf, Shown;
  }

  lemma StillTells(f: Flow, ended: bool, native: bool, es: seq<Event>, es': seq<Event>, calls: seq<H.ToolUse>)
    requires Tells(f, ended, native, es, calls) && TextOf(es') == TextOf(es) && ReasoningOf(es') == ReasoningOf(es)
    ensures Tells(f, ended, native, es', calls)
  {
    hide TextOf, ReasoningOf, Shown;
  }

  lemma TellsNow(f: Flow, native: bool, es: seq<Event>, calls: seq<H.ToolUse>)
    requires f.calls == calls && ReasoningOf(es) == f.reasoning && Shown(native, f.text, f.reasoning, TextOf(es))
    ensures Tells(f, true, native, es, calls)
  {
    hide TextOf, ReasoningOf, Shown;
  }

  /** The text of a turn as it is shown: one space is added when there is nothing else to see. */
  ghost predicate Shown(native: bool, text: string, reasoning: string, shown: string)
  {
    && (shown == text || (shown == text + " " && TrimSpace(text) == "" && !native))
    && (!native && TrimSpace(text) == "" && TrimSpace(reasoning) != "" ==> shown == text + " ")
  }

  /** What is known of the calls of a turn that ended, or broke off. */
  ghost predicate CallsKept(codec: Json.Codec, defend: bool, toolNames: seq<Option<string>>, ended: bool,
                            states: map<nat, B.ToolCallState>, log: seq<ToolCallDelta>)
  {
    if ended then AllDelivered(codec, defend, toolNames, states, log) else AllTrack(codec, states, log)
  }

  lemma KeptSoFar(codec: Json.Codec, defend: bool, toolNames: seq<Option<string>>, states: map<nat, B.ToolCallState>,
                  log: seq<ToolCallDelta>)
    requires AllTrack(codec, states, log)
    ensures CallsKept(codec, defend, toolNames, false, states, log)
  {
    hide AllTrack;
  }

  lemma KeptToTheEnd(codec: Json.Codec, defend: bool, toolNames: seq<Option<string>>, states: map<nat, B.ToolCallState>,
                     log: seq<ToolCallDelta>)
    requires AllDelivered(codec, defend, toolNames, states, log)
    ensures CallsKept(codec, defend, toolNames, true, states, log)
  {
    hide AllDelivered;
  }

  /** message_delta and message_stop come last, and the stop sequence is the one the text ends with. */
  ghost predicate Ends(es: seq<Event>, stopSequences: seq<string>)
  {
    && |es| >= 2 && es[|es| - 1] == MessageStop && es[|es| - 2].MessageDelta?
    && es[|es| - 2].stopSequence == DetectStopSequence(TextOf(es), stopSequences)
  }

  function StopReason(es: seq<Event>): string
  {
    if |es| >= 2 && es[|es| - 2].MessageDelta? then es[|es| - 2].stopReason else ""
  }

  lemma EndsWell(whole: seq<Event>, stopReason: string, stopSequences: seq<string>, es: seq<Event>)
    requires es == whole + [MessageDelta(stopReason, DetectStopSequence(TextOf(whole), stopSequences))] + [MessageStop]
    ensures Ends(es, stopSequences) && StopReason(es) == stopReason
    ensures whole <= es && TextOf(es) == TextOf(whole) && ReasoningOf(es) == ReasoningOf(whole)
  {
    hide DetectStopSequence, TextOf, ReasoningOf;
    var d := MessageDelta(stopReason, DetectStopSequence(TextOf(whole), stopSequences));
    var l := Origin(0, false);
    ReplaySnoc(l, whole, d);
    ReplaySnoc(l, whole + [d], MessageStop);
    assert TextOf(whole) + "" == TextOf(whole) && ReasoningOf(whole) + "" == ReasoningOf(whole);
  }

  lemma StillVisible(es: seq<Event>, es': seq<Event>)
    requires Visible(es) && es <= es' && ReasoningOf(es) == ReasoningOf(es')
    ensures Visible(es')
  {
    hide ReasoningOf, TrimSpace;
    forall k | Starts(es, k) ensures Starts(es', k) {
      var p :| 0 <= p < |es| && es[p].BlockStart? && es[p].kind == k;
      assert es'[p] == es[p];
    }
  }

  /** Is the one-space text block called for? */
  predicate NeedsPlaceholder(textIndex: int, thinkingIndex: int, hasStartedTool: bool, text: string, reasoning: string)
  {
    if textIndex == -1 && thinkingIndex == -1 && !hasStartedTool then true
    else !hasStartedTool && TrimSpace(text) == "" && TrimSpace(reasoning) != ""
  }

  /** The turn has a block, and one the reader can see when it has reasoned. */
  ghost predicate Visible(es: seq<Event>)
  {
    && (Starts(es, TextBlock) || Starts(es, ThinkingBlock) || Starts(es, ToolBlock))
    && (TrimSpace(ReasoningOf(es)) != "" ==> Starts(es, TextBlock) || Starts(es, ToolBlock))
  }

  // ---- reading a stream chunk by chunk ----

  lemma ReadNothing(r: Reading, cs: seq<Chunk>)
    ensures cs[0..] == cs && Read(r, cs[0..]) == Read(r, cs)
  {
  }

  lemma ReadAll(r: Reading, cs: seq<Chunk>)
    ensures Read(r, cs[|cs|..]) == r
  {
  }

  lemma ReadNext(r: Reading, cs: seq<Chunk>, i: nat)
    requires i < |cs|
    ensures Read(r, cs[i..]) == if Over(cs[i]) then ReadChunk(r, cs[i]) else Read(ReadChunk(r, cs[i]), cs[i + 1..])
  {
    hide ReadChunk, Over;
    assert cs[i..][1..] == cs[i + 1..];
  }

  lemma DeltaIs(d: Delta, actions: seq<Action>, log: seq<ToolCallDelta>)
    ensures log + DeltaTools(d) == if Presence(d.refusal) then log else if d.toolCalls == [] then log
            else log + d.toolCalls
    ensures var a1 := if Presence(d.reasoning) then actions + [Reason(ToolLog.Text(d.reasoning))] else actions;
            var a2 := if Presence(d.content) then a1 + [Content(ToolLog.Text(d.content), [], false, "")] else a1;
            actions + DeltaActions(d) == if Presence(d.refusal) then a1 + [Refuse(ToolLog.Text(d.refusal))]
                                         else if d.toolCalls != [] then a2 + [Calls] else a2
  {
  }

  lemma BlankHasNoName()
    ensures TrimSpace("") == ""
  {
  }

  lemma GiveNothing(codec: Json.Codec)
    ensures forall st, r :: Give(codec, st, r, "") == st
  {
  }

  lemma GiveKeepsAll(codec: Json.Codec)
    ensures forall st, r, args :: var g := Give(codec, st, r, args);
            g.started == st.started && g.name == st.name && g.toolID == st.toolID
  {
  }

  lemma AbortedSome(e: Option<StreamError>)
    ensures Aborted(e) ==> e.Some?
  {
  }

  /** A started call keeps its id; the others take the one they are started with. */
  lemma AdvancedID(codec: Json.Codec, st: B.ToolCallState, block: nat, id: string, args: string)
    ensures var now := Advance(codec, st, block, id, args);
            now.toolID == (if !st.started && now.started then id else st.toolID)
  {
    hide TrimSpace, Give;
    GiveKeepsAll(codec);
  }

  lemma AdoptStarts(codec: Json.Codec, defend: bool, st: B.ToolCallState, block: nat, id: string, name: string)
    ensures var now := Adopt(codec, defend, st, block, id, name); now.started && now.toolID == id
  {
  }

  lemma PlainIs(o: Options, actions: seq<Action>)
    requires PlainSetting(o, actions)
    ensures o.thinkingEnabled && AllContent(actions) && QuietInput(o.defend, Contents(actions))
  {
    hide QuietInput, Contents;
  }

  // ---- the nameless calls, one by one ----

  ghost predicate AnyDropped(toolNames: seq<Option<string>>, log: seq<ToolCallDelta>)
  {
    exists t: nat :: Dropped(toolNames, log, t)
  }

  ghost predicate DroppedAmong(toolNames: seq<Option<string>>, log: seq<ToolCallDelta>, order: seq<nat>, i: nat)
    requires i <= |order|
  {
    exists k :: 0 <= k < i && Dropped(toolNames, log, order[k])
  }

  lemma NextDropped(toolNames: seq<Option<string>>, log: seq<ToolCallDelta>, order: seq<nat>, i: nat)
    requires i < |order|
    ensures DroppedAmong(toolNames, log, order, i + 1) <==>
            DroppedAmong(toolNames, log, order, i)
            || Dropped(toolNames, log, order[i])
  {
    hide Dropped;
  }

  /** The call is answered, and if it has no block nothing is kept of it. */
  ghost predicate Dealt(codec: Json.Codec, defend: bool, toolNames: seq<Option<string>>, st: B.ToolCallState,
                        log: seq<ToolCallDelta>, t: nat)
  {
    Answered(codec, defend, toolNames, st, log, t) && (!st.started ==> Unused(st))
  }

  /** The first i calls of the order have been answered, the others are as they were. */
  ghost predicate Resolving(codec: Json.Codec, defend: bool, toolNames: seq<Option<string>>,
                            was: map<nat, B.ToolCallState>, now: map<nat, B.ToolCallState>,
                            log: seq<ToolCallDelta>, order: seq<nat>, i: nat)
  {
    && i <= |order| && B.Ordered(order, was) && AllTrack(codec, was, log)
    && (forall t: nat :: if t in order[..i] then Dealt(codec, defend, toolNames, B.ToolAt(now, t), log, t)
         else B.ToolAt(now, t) == B.ToolAt(was, t))
  }

  lemma NextTracks(codec: Json.Codec, defend: bool, toolNames: seq<Option<string>>, was: map<nat, B.ToolCallState>,
                   now: map<nat, B.ToolCallState>,
                   log: seq<ToolCallDelta>, order: seq<nat>, i: nat)
    requires i < |order| && Resolving(codec, defend, toolNames, was, now, log, order, i)
    ensures Tracks(codec, B.ToolAt(now, order[i]), log, order[i])
  {
    hide Tracks, Dealt;
    var t := order[i];
    assert Tracks(codec, B.ToolAt(was, t), log, t);
    assert t !in order[..i];
    assert B.ToolAt(now, t) == B.ToolAt(was, t);
  }

  lemma NextResolved(codec: Json.Codec, defend: bool, toolNames: seq<Option<string>>, was: map<nat, B.ToolCallState>,
                     before: map<nat, B.ToolCallState>,
                     now: map<nat, B.ToolCallState>, log: seq<ToolCallDelta>, order: seq<nat>, i: nat)
    requires i < |order| && Resolving(codec, defend, toolNames, was, before, log, order, i)
    requires OnlyAt(before, now, order[i]) && Dealt(codec, defend, toolNames, B.ToolAt(now, order[i]), log, order[i])
    ensures Resolving(codec, defend, toolNames, was, now, log, order, i + 1)
  {
    hide Tracks, Dealt, AllTrack, B.Ordered;
    assert order[..i + 1] == order[..i] + [order[i]];
    forall t: nat ensures if t in order[..i + 1] then Dealt(codec, defend, toolNames, B.ToolAt(now, t), log, t)
        else B.ToolAt(now, t) == B.ToolAt(was, t) {
      if t != order[i] {
        assert B.ToolAt(now, t) == B.ToolAt(before, t);
      }
    }
  }

  lemma AllResolved(codec: Json.Codec, defend: bool, toolNames: seq<Option<string>>, was: map<nat, B.ToolCallState>,
                    now: map<nat, B.ToolCallState>,
                    log: seq<ToolCallDelta>, order: seq<nat>)
    requires Resolving(codec, defend, toolNames, was, now, log, order, |order|)
    ensures AllAnswered(codec, defend, toolNames, now, log)
    ensures forall t: nat :: !B.ToolAt(now, t).started ==> Unused(B.ToolAt(now, t))
    ensures DroppedAmong(toolNames, log, order, |order|) <==> AnyDropped(toolNames, log)
  {
    hide Tracks, Dealt, Answered, Unused, Dropped, AllTrack;
    assert order[..|order|] == order;
    forall t: nat ensures Dealt(codec, defend, toolNames, B.ToolAt(now, t), log, t)
        && (Dropped(toolNames, log, t) ==> t in order) {
      if t !in order {
        StrangerAnswers(codec, defend, toolNames, was, log, t);
        assert B.ToolAt(now, t) == B.ToolAt(was, t);
      }
    }
    forall t: nat ensures Answered(codec, defend, toolNames, B.ToolAt(now, t), log, t)
        && (!B.ToolAt(now, t).started ==> Unused(B.ToolAt(now, t))) {
      assert Dealt(codec, defend, toolNames, B.ToolAt(now, t), log, t);
      DealtIs(codec, defend, toolNames, B.ToolAt(now, t), log, t);
    }
    if AnyDropped(toolNames, log) {
      var t: nat :| Dropped(toolNames, log, t);
      var k :| 0 <= k < |order| && order[k] == t;
    }
  }

  lemma DealtIs(codec: Json.Codec, defend: bool, toolNames: seq<Option<string>>, st: B.ToolCallState,
                log: seq<ToolCallDelta>, t: nat)
    requires Dealt(codec, defend, toolNames, st, log, t)
    ensures Answered(codec, defend, toolNames, st, log, t) && (!st.started ==> Unused(st))
  {
    hide Answered, Unused;
  }

  lemma StrangerAnswers(codec: Json.Codec, defend: bool, toolNames: seq<Option<string>>, was: map<nat, B.ToolCallState>,
                        log: seq<ToolCallDelta>, t: nat)
    requires AllTrack(codec, was, log) && t !in was
    ensures Dealt(codec, defend, toolNames, B.ToolAt(was, t), log, t) && !Dropped(toolNames, log, t)
  {
    hide Answered, Faithful, NameFor, ArgsFor;
    assert Tracks(codec, B.ToolAt(was, t), log, t);
    OthersAnswer(codec, defend, toolNames, B.ToolAt(was, t), log, t);
  }

  lemma StillNamed(codec: Json.Codec, defend: bool, before: map<nat, B.ToolCallState>, names: map<nat, string>,
                   toolNames: seq<Option<string>>,
                   log: seq<ToolCallDelta>, now: map<nat, B.ToolCallState>, names': map<nat, string>, t: nat)
    requires AllNamed(before, names, toolNames, log) && OnlyAt(before, now, t)
    requires names' == if Adopted(toolNames, log, t) then names[t := InferToolNameByIndex(toolNames, t)] else names
    requires Answered(codec, defend, toolNames, B.ToolAt(now, t), log, t)
    requires !Adopted(toolNames, log, t) && !Dropped(toolNames, log, t) ==> now == before
    ensures AllNamed(now, names', toolNames, log)
  {
    hide TrimSpace, Faithful, NameFor, ArgsFor, FirstName, InferToolNameByIndex, Resolved;
    NamedOnce(log, t);
    forall u | u in now && now[u].started ensures B.NameAt(names', u) == StartName(toolNames, log, u) {
      if u != t {
        assert B.ToolAt(now, u) == B.ToolAt(before, u);
        assert u in before;
      }
    }
  }

  lemma SameStarted(codec: Json.Codec, defend: bool, was: map<nat, B.ToolCallState>, now: map<nat, B.ToolCallState>)
    requires forall t: nat :: B.ToolAt(now, t) == AfterFlush(codec, defend, B.ToolAt(was, t))
    ensures Started(now) == Started(was)
  {
    hide B.TaskFallback, Repaired;
    forall t: nat ensures B.ToolAt(now, t).started == B.ToolAt(was, t).started {
    }
    if Started(was) {
      var t :| t in was && was[t].started;
      assert B.ToolAt(now, t).started;
    }
    if Started(now) {
      var t :| t in now && now[t].started;
      assert B.ToolAt(was, t).started;
    }
  }

  /** Whether a call has started shows in what is known of the fragments. */
  lemma AnsweredStarts(codec: Json.Codec, defend: bool, toolNames: seq<Option<string>>,
                       states: map<nat, B.ToolCallState>, log: seq<ToolCallDelta>)
    requires AllAnswered(codec, defend, toolNames, states, log)
    ensures Started(states) <==> exists t: nat :: Resolved(log, t) != "" || Adopted(toolNames, log, t)
  {
    hide Faithful, Resolved, Adopted;
    if Started(states) {
      var t :| t in states && states[t].started;
      assert Answered(codec, defend, toolNames, B.ToolAt(states, t), log, t);
    }
    if t: nat :| Resolved(log, t) != "" || Adopted(toolNames, log, t) {
      assert Answered(codec, defend, toolNames, B.ToolAt(states, t), log, t);
      assert t in states;
    }
  }

  lemma TrackedStarts(codec: Json.Codec, states: map<nat, B.ToolCallState>, log: seq<ToolCallDelta>)
    requires AllTrack(codec, states, log)
    ensures Started(states) <==> AnyNamed(log)
  {
    hide Faithful, Resolved;
    if Started(states) {
      var t :| t in states && states[t].started;
      assert Tracks(codec, B.ToolAt(states, t), log, t);
    }
    if AnyNamed(log) {
      var t: nat :| Resolved(log, t) != "";
      assert Tracks(codec, B.ToolAt(states, t), log, t);
      assert t in states;
    }
  }

  /** Sending held arguments starts no call. */
  lemma FlushedNames(codec: Json.Codec, defend: bool, was: map<nat, B.ToolCallState>, now: map<nat, B.ToolCallState>,
                     names: map<nat, string>,
                     toolNames: seq<Option<string>>, log: seq<ToolCallDelta>)
    requires forall t: nat :: B.ToolAt(now, t) == AfterFlush(codec, defend, B.ToolAt(was, t))
    ensures AllNamed(was, names, toolNames, log) ==> AllNamed(now, names, toolNames, log)
  {
    hide StartName, B.TaskFallback, Repaired;
    if AllNamed(was, names, toolNames, log) {
      forall t | t in now && now[t].started ensures B.NameAt(names, t) == StartName(toolNames, log, t) {
        assert B.ToolAt(was, t).started;
      }
    }
  }

  // ---- the calls in the trace ----

  /** The call has a block under its id and this name, and what was sent to it is what was recorded. */
  ghost predicate CallSent(es: seq<Event>, st: B.ToolCallState, name: string)
  {
    BlockStart(st.blockIndex, ToolBlock, st.toolID, name) in es && st.contents == FragmentsOf(es, st.blockIndex)
  }

  /**
   * Every call that has a block has one of its own, under the name the call had first, and every call has
   * been sent what it should: all its argument fragments in order, or the one delta of a Task call.
   */
  ghost predicate CallsDelivered(codec: Json.Codec, defend: bool, toolNames: seq<Option<string>>, ended: bool,
                                 tools: map<nat, B.ToolCallState>, es: seq<Event>, received: seq<ToolCallDelta>)
  {
    && (forall t :: t in tools && tools[t].started ==> CallSent(es, tools[t], StartName(toolNames, received, t)))
    && B.Distinct(tools) && CallsKept(codec, defend, toolNames, ended, tools, received)
  }

  lemma KeptIsDelivered(codec: Json.Codec, defend: bool, toolNames: seq<Option<string>>, ended: bool,
                        tools: map<nat, B.ToolCallState>,
                        names: map<nat, string>, es: seq<Event>, next: nat, received: seq<ToolCallDelta>)
    requires CallsKept(codec, defend, toolNames, ended, tools, received) && AllNamed(tools, names, toolNames, received)
    requires B.ToolContents(tools, names, es, next) && B.Distinct(tools)
    ensures CallsDelivered(codec, defend, toolNames, ended, tools, es, received)
  {
    hide CallsKept, FragmentsOf, B.Distinct, StartName;
    forall t | t in tools && tools[t].started ensures CallSent(es, tools[t], StartName(toolNames, received, t)) {
      assert B.ToolContent(tools[t], B.NameAt(names, t), es, next);
    }
  }

  predicate Started(tools: map<nat, B.ToolCallState>)
  {
    exists t :: t in tools && tools[t].started
  }

  lemma TellsCalls(f: Flow, ended: bool, native: bool, es: seq<Event>, calls: seq<H.ToolUse>)
    requires Tells(f, ended, native, es, calls)
    ensures calls == f.calls
  {
    hide TextOf, ReasoningOf, Shown;
  }
}
