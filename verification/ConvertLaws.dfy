/**
 * What the conversion of a conversation keeps: its tool calls, their
 * results, what was put off, and its assistant turns.
 */
module ConvertLaws {
  import opened Wrappers
  import opened Strings
  import opened Sequences
  import opened Chat
  import opened Convert

  // ---- what conversations and their conversions contain ----

  function CallsOf(m: OutMessage): seq<ToolCall> { m.toolCalls }

  /** The message, if it answers a tool call. */
  function ResultOf(m: OutMessage): seq<OutMessage>
  {
    if m.role == "tool" && m.toolCallID.Some? then [m] else []
  }

  function AssistantOf(m: OutMessage): seq<OutMessage>
  {
    if m.role == "assistant" then [m] else []
  }

  function CallsAsked(m: Message): seq<ToolCall>
  {
    if m.role == "assistant" && m.content.Blocks? then Calls(m.content.blocks) else []
  }

  function BlockResult(b: Block): seq<OutMessage>
  {
    if IsToolResult(b.typ) then [ResultMessage(b)] else []
  }

  function ResultsGiven(m: Message): seq<OutMessage>
  {
    if m.role == "user" && m.content.Blocks? then Gather(BlockResult, m.content.blocks) else []
  }

  /** What a waiting message is: an assistant's, and without calls. */
  predicate Quiet(p: Option<Pending>)
  {
    p.Some? ==> p.value.message.role == "assistant" && p.value.message.toolCalls == []
  }

  lemma {:induction false} NoCallsLeft(blocks: seq<Block>)
    ensures Calls(NotCalls(blocks)) == []
  {
    if blocks != [] {
      var b, rest := blocks[|blocks| - 1], NotCalls(blocks[..|blocks| - 1]);
      NoCallsLeft(blocks[..|blocks| - 1]);
      assert rest + [] == rest && (rest + [b])[..|rest|] == rest;
    }
  }

  lemma PendingQuiet(blocks: seq<Block>, reasoning: Option<string>, replay: ReplayMode)
    ensures Quiet(PendingAfter(blocks, reasoning, replay))
  {
    hide Calls, NotCalls, Replayed, JoinWith, Said, ResultIDs, IndexFirstToolUse;
    var first := IndexFirstToolUse(blocks);
    if first != -1 {
      NoCallsLeft(blocks[first + 1..]);
    }
  }

  // ---- user turns ----

  /** What a user turn's messages can be: user messages and tool results. */
  predicate FromUser(ms: seq<OutMessage>)
  {
    forall m <- ms :: m.toolCalls == [] && (m.role == "user" || (m.role == "tool" && m.toolCallID.Some?))
  }

  lemma FlushTextKeeps(s: UserState)
    requires FromUser(s.result)
    ensures FromUser(FlushText(s).result) && Gather(ResultOf, FlushText(s).result) == Gather(ResultOf, s.result)
    ensures FlushText(s).images == s.images && FlushText(s).media == s.media
  {
    hide JoinWith, Gather;
    var m := UserText(JoinWith(s.text, "\n"));
    GatherSnoc(ResultOf, s.result, m);
    assert Gather(ResultOf, s.result) + [] == Gather(ResultOf, s.result);
  }

  lemma FlushImagesKeeps(s: UserState)
    requires FromUser(s.result)
    ensures FromUser(FlushImages(s).result) && Gather(ResultOf, FlushImages(s).result) == Gather(ResultOf, s.result)
    ensures FlushImages(s).media == s.media && FlushImages(s).images == []
  {
    hide FlushText, Gather;
    if s.images != [] {
      FlushTextKeeps(s);
      var ms := FlushText(s).result;
      var i := LastUserText(ms);
      if i != -1 {
        GatherWithout(ResultOf, ms, i);
        GatherSnoc(ResultOf, ms[..i] + ms[i + 1..], UserParts([TextPart(ms[i].content.text)] + s.images));
      } else {
        GatherSnoc(ResultOf, ms, UserParts(s.images));
      }
      assert Gather(ResultOf, ms) + [] == Gather(ResultOf, ms);
    }
  }

  lemma AddBlockResults(s: UserState, b: Block)
    requires FromUser(s.result)
    ensures var t := AddBlock(s, b);
            FromUser(t.result) && Gather(ResultOf, t.result) == Gather(ResultOf, s.result) + BlockResult(b)
  {
    hide FlushText, FlushImages, Gather, ImagePartOf, ResultImages, DocumentRef, DataURL, MediaType;
    assert Gather(ResultOf, s.result) + [] == Gather(ResultOf, s.result);
    FlushTextKeeps(s);
    if IsToolResult(b.typ) {
      FlushImagesKeeps(s);
      FlushTextKeeps(FlushImages(s));
      GatherSnoc(ResultOf, FlushText(FlushImages(s)).result, ResultMessage(b));
    }
  }

  lemma {:induction false} AddBlocksResults(blocks: seq<Block>)
    ensures FromUser(AddBlocks(blocks).result)
            && Gather(ResultOf, AddBlocks(blocks).result) == Gather(BlockResult, blocks)
  {
    hide AddBlock;
    if blocks != [] {
      AddBlocksResults(blocks[..|blocks| - 1]);
      AddBlockResults(AddBlocks(blocks[..|blocks| - 1]), blocks[|blocks| - 1]);
    }
  }

  lemma MediaKeeps(ms: seq<OutMessage>, media: seq<Part>)
    ensures Gather(ResultOf, WithMedia(ms, media)) == Gather(ResultOf, ms)
    ensures FromUser(ms) ==> FromUser(WithMedia(ms, media))
  {
    hide Gather;
    GatherSnoc(ResultOf, ms, UserParts([TextPart(MEDIA_MARKER)] + media));
    assert Gather(ResultOf, ms) + [] == Gather(ResultOf, ms);
  }

  /** A user turn's results come out once each, in order. */
  lemma UserResults(blocks: seq<Block>)
    ensures FromUser(UserMessages(blocks)) && Gather(ResultOf, UserMessages(blocks)) == Gather(BlockResult, blocks)
  {
    hide FlushText, FlushImages, AddBlocks, Gather, WithMedia, FromUser;
    var s := AddBlocks(blocks);
    AddBlocksResults(blocks);
    FlushImagesKeeps(s);
    FlushTextKeeps(FlushImages(s));
    MediaKeeps(FlushText(FlushImages(s)).result, s.media);
  }

  lemma {:induction false} UserSilent(ms: seq<OutMessage>)
    requires FromUser(ms)
    ensures Gather(CallsOf, ms) == [] && Gather(AssistantOf, ms) == []
  {
    if ms != [] {
      UserSilent(ms[..|ms| - 1]);
    }
  }

  // ---- user turns that answer ----

  /** The messages carry no calls, these results and these assistant turns. */
  ghost predicate Yields(ms: seq<OutMessage>, results: seq<OutMessage>, assistants: seq<OutMessage>)
  {
    Gather(CallsOf, ms) == [] && Gather(ResultOf, ms) == results && Gather(AssistantOf, ms) == assistants
  }

  lemma YieldsSnoc(ms: seq<OutMessage>, results: seq<OutMessage>, assistants: seq<OutMessage>, m: OutMessage)
    requires Yields(ms, results, assistants) && m.toolCalls == []
    ensures Yields(ms + [m], results + ResultOf(m), assistants + AssistantOf(m))
  {
    hide Gather;
    GatherSnoc(CallsOf, ms, m);
    GatherSnoc(ResultOf, ms, m);
    GatherSnoc(AssistantOf, ms, m);
  }

  lemma InjectTextYields(s: InjectState, results: seq<OutMessage>, assistants: seq<OutMessage>)
    requires Yields(s.result, results, assistants)
    ensures var t := InjectText(s);
            && Yields(t.result, results, assistants) && t.cleared == s.cleared
            && t.remaining == s.remaining && t.media == s.media
  {
    hide Yields, JoinWith;
    YieldsSnoc(s.result, results, assistants, UserText(JoinWith(s.text, "\n")));
    assert results + [] == results && assistants + [] == assistants;
  }

  /** The deferred message has gone out exactly when the last waited-for result has. */
  lemma {:induction false} InjectYields(blocks: seq<Block>, deferred: OutMessage, remaining: set<string>)
    requires deferred.role == "assistant" && deferred.toolCalls == [] && remaining != {}
    ensures var s := InjectBlocks(blocks, deferred, remaining);
            && Yields(s.result, Gather(BlockResult, blocks), if s.cleared then [deferred] else [])
            && (s.cleared <==> s.remaining == {})
  {
    hide InjectBlock, Yields, Gather;
    if blocks == [] {
      YieldsNothing();
    } else {
      var blocks', b := blocks[..|blocks| - 1], blocks[|blocks| - 1];
      InjectYields(blocks', deferred, remaining);
      assert blocks == blocks' + [b];
      GatherSnoc(BlockResult, blocks', b);
      InjectBlockYields(InjectBlocks(blocks', deferred, remaining), b, deferred, Gather(BlockResult, blocks'));
    }
  }

  lemma YieldsNothing()
    ensures Yields([], [], []) && Gather(BlockResult, []) == []
  {
  }

  lemma InjectBlockYields(s: InjectState, b: Block, deferred: OutMessage, results: seq<OutMessage>)
    requires Yields(s.result, results, if s.cleared then [deferred] else []) && (s.cleared <==> s.remaining == {})
    requires deferred.role == "assistant" && deferred.toolCalls == []
    ensures var t := InjectBlock(s, b, deferred);
            && Yields(t.result, results + BlockResult(b), if t.cleared then [deferred] else [])
            && (t.cleared <==> t.remaining == {})
  {
    hide Yields, ResultImages, InjectText;
    var held := if s.cleared then [deferred] else [];
    assert results + [] == results && held + [] == held;
    if b.typ != "text" && IsToolResult(b.typ) {
      InjectTextYields(s, results, held);
      var ms := InjectText(s).result;
      YieldsSnoc(ms, results, held, ResultMessage(b));
      YieldsSnoc(ms + [ResultMessage(b)], results + [ResultMessage(b)], held, deferred);
      assert results + [ResultMessage(b)] + [] == results + [ResultMessage(b)];
      assert ms + [ResultMessage(b)] + [] == ms + [ResultMessage(b)];
      assert [] + [deferred] == [deferred];
    }
  }

  lemma MediaYields(ms: seq<OutMessage>, media: seq<Part>, results: seq<OutMessage>, assistants: seq<OutMessage>)
    requires Yields(ms, results, assistants)
    ensures Yields(WithMedia(ms, media), results, assistants)
  {
    hide Yields;
    YieldsSnoc(ms, results, assistants, UserParts([TextPart(MEDIA_MARKER)] + media));
    assert results + [] == results && assistants + [] == assistants;
  }

  lemma InjectedYields(blocks: seq<Block>, deferred: OutMessage, remaining: set<string>)
    requires deferred.role == "assistant" && deferred.toolCalls == [] && remaining != {}
    ensures var s := InjectBlocks(blocks, deferred, remaining);
            Yields(InjectedMessages(blocks, deferred, remaining), Gather(BlockResult, blocks), if s.cleared then
                  [deferred] else [])
  {
    hide Yields, InjectBlocks, InjectText, WithMedia, Gather;
    InjectYields(blocks, deferred, remaining);
    var s := InjectBlocks(blocks, deferred, remaining);
    InjectTextYields(s, Gather(BlockResult, blocks), if s.cleared then [deferred] else []);
    MediaYields(InjectText(s).result, s.media, Gather(BlockResult, blocks), if s.cleared then [deferred] else []);
  }

  // ---- one turn ----

  /** What one assistant turn of blocks sends in all: its message, and the message of what has to wait. */
  function Owed(m: Message, replay: ReplayMode): seq<OutMessage>
  {
    if m.role == "assistant" && m.content.Blocks? then
      var reasoning := CleanReasoning(m.reasoning);
      [PreMessage(m.content.blocks, reasoning, replay)] + Waiting(PendingAfter(m.content.blocks, reasoning, replay))
    else []
  }

  /** The assistant turns that are no blocks. */
  function Spoken(m: Message, replay: ReplayMode): seq<OutMessage>
  {
    if m.role != "assistant" || m.content.Blocks? then []
    else if m.content.Str? then [StringMessage(m.role, m.content.text, CleanReasoning(m.reasoning), replay)]
    else [OutMessage(m.role, Text(""), [], None, None)]
  }

  /** Between two turns: what waited and what the turn owes is what it sends and what waits then. */
  ghost predicate Settles(m: Message, p: Option<Pending>, replay: ReplayMode, t: Turned)
  {
    && Quiet(t.pending)
    && Gather(CallsOf, t.out) == CallsAsked(m)
    && Gather(ResultOf, t.out) == ResultsGiven(m)
    && (if Spoken(m, replay) == [] then Waiting(p) + Owed(m, replay) == Gather(AssistantOf, t.out) + Waiting(t.pending)
        else Owed(m, replay) == [] && t.pending == p && Gather(AssistantOf, t.out) == Spoken(m, replay))
  }

  lemma WaitingYields(p: Option<Pending>)
    requires Quiet(p)
    ensures Yields(Waiting(p), [], Waiting(p))
  {
    YieldsNothing();
    if p.Some? {
      YieldsSnoc([], [], [], p.value.message);
    }
  }

  lemma TurnSettles(m: Message, p: Option<Pending>, replay: ReplayMode)
    requires Quiet(p) && Turn(m, p, replay).Success?
    ensures Settles(m, p, replay, Turn(m, p, replay).value)
  {
    hide *;
    if m.content.Blocks? {
      if m.role == "assistant" {
        AssistantSettles(m, p, replay);
      } else if m.role == "user" {
        UserSettles(m, p, replay);
      } else {
        OtherSettles(m, p, replay);
      }
    } else {
      StringSettles(m, p, replay);
    }
  }

  lemma PreCalls(blocks: seq<Block>, reasoning: Option<string>, replay: ReplayMode)
    ensures var m := PreMessage(blocks, reasoning, replay); m.role == "assistant" && m.toolCalls == Calls(blocks)
  {
    hide Calls, Said, Replayed, JoinWith;
  }

  lemma AssistantSettles(m: Message, p: Option<Pending>, replay: ReplayMode)
    requires Quiet(p) && m.role == "assistant" && m.content.Blocks?
    ensures Settles(m, p, replay, Turn(m, p, replay).value)
  {
    hide Calls, PreMessage, PendingAfter, Gather, Waiting;
    var reasoning := CleanReasoning(m.reasoning);
    var blocks := m.content.blocks;
    var pre := PreMessage(blocks, reasoning, replay);
    PreCalls(blocks, reasoning, replay);
    PendingQuiet(blocks, reasoning, replay);
    WaitingYields(p);
    GatherSnoc(CallsOf, Waiting(p), pre);
    GatherSnoc(ResultOf, Waiting(p), pre);
    GatherSnoc(AssistantOf, Waiting(p), pre);
    assert [] + Calls(blocks) == Calls(blocks);
    assert Waiting(p) + ([pre] + Waiting(PendingAfter(blocks, reasoning, replay))) == Waiting(p) + [pre]
        + Waiting(PendingAfter(blocks, reasoning, replay));
  }

  lemma UserSettles(m: Message, p: Option<Pending>, replay: ReplayMode)
    requires Quiet(p) && m.role == "user" && m.content.Blocks? && Turn(m, p, replay).Success?
    ensures Settles(m, p, replay, Turn(m, p, replay).value)
  {
    hide Gather, UserMessages, InjectBlocks, InjectedMessages, HasImage, FromUser;
    var blocks := m.content.blocks;
    WaitingYields(p);
    UserResults(blocks);
    UserSilent(UserMessages(blocks));
    GatherConcat(CallsOf, Waiting(p), UserMessages(blocks));
    GatherConcat(ResultOf, Waiting(p), UserMessages(blocks));
    GatherConcat(AssistantOf, Waiting(p), UserMessages(blocks));
    assert [] + Gather(BlockResult, blocks) == Gather(BlockResult, blocks);
    assert Waiting(p) + [] == Waiting(p);
    if p.Some? && p.value.remaining != {} {
      InjectedYields(blocks, p.value.message, p.value.remaining);
    }
  }

  lemma OtherSettles(m: Message, p: Option<Pending>, replay: ReplayMode)
    requires Quiet(p) && m.role != "user" && m.role != "assistant" && m.content.Blocks?
    ensures Settles(m, p, replay, Turn(m, p, replay).value)
  {
    YieldsNothing();
    assert Waiting(p) + [] == Waiting(p) && [] + Waiting(p) == Waiting(p);
  }

  lemma StringSettles(m: Message, p: Option<Pending>, replay: ReplayMode)
    requires Quiet(p) && !m.content.Blocks?
    ensures Settles(m, p, replay, Turn(m, p, replay).value)
  {
    hide Gather, JoinWith, ThinkTag;
    var msg := if m.content.Str? then StringMessage(m.role, m.content.text, CleanReasoning(m.reasoning), replay)
               else OutMessage(m.role, Text(""), [], None, None);
    WaitingYields(p);
    YieldsNothing();
    YieldsSnoc(Waiting(p), [], Waiting(p), msg);
    YieldsSnoc([], [], [], msg);
    assert [] + [msg] == [msg];
    assert Waiting(p) + [] == Waiting(p);
  }

  // ---- whole conversations ----

  /** c is a and b, each in its order, in some interleaving. */
  ghost predicate Interleaved<T>(a: seq<T>, b: seq<T>, c: seq<T>)
    decreases |c|
  {
    if c == [] then a == [] && b == []
    else
      var x, c' := c[|c| - 1], c[..|c| - 1];
      || (a != [] && a[|a| - 1] == x && Interleaved(a[..|a| - 1], b, c'))
      || (b != [] && b[|b| - 1] == x && Interleaved(a, b[..|b| - 1], c'))
  }

  lemma {:induction false} InterleavedMore<T>(a: seq<T>, b: seq<T>, c: seq<T>, x: seq<T>)
    requires Interleaved(a, b, c)
    ensures Interleaved(a + x, b, c + x) && Interleaved(a, b + x, c + x)
  {
    if x == [] {
      assert a + x == a && b + x == b && c + x == c;
    } else {
      var x', y := x[..|x| - 1], x[|x| - 1];
      InterleavedMore(a, b, c, x');
      assert a + x == (a + x') + [y] && b + x == (b + x') + [y] && c + x == (c + x') + [y];
      assert (a + x)[..|a + x| - 1] == a + x' && (b + x)[..|b + x| - 1] == b + x' && (c + x)[..|c + x| - 1] == c + x';
    }
  }

  /** Nothing in either sequence is lost or doubled. */
  lemma {:induction false} InterleavedOnce<T>(a: seq<T>, b: seq<T>, c: seq<T>)
    requires Interleaved(a, b, c)
    ensures multiset(c) == multiset(a) + multiset(b)
    decreases |c|
  {
    if c != [] {
      var c' := c[..|c| - 1];
      assert c == c' + [c[|c| - 1]];
      if a != [] && a[|a| - 1] == c[|c| - 1] && Interleaved(a[..|a| - 1], b, c') {
        InterleavedOnce(a[..|a| - 1], b, c');
        assert a == a[..|a| - 1] + [a[|a| - 1]];
      } else {
        InterleavedOnce(a, b[..|b| - 1], c');
        assert b == b[..|b| - 1] + [b[|b| - 1]];
      }
    }
  }

  function OwedUnder(replay: ReplayMode): Message -> seq<OutMessage>
  {
    m => Owed(m, replay)
  }

  function SpokenUnder(replay: ReplayMode): Message -> seq<OutMessage>
  {
    m => Spoken(m, replay)
  }

  /** What holds after some turns: `sent` of what the turns owe has gone out, the rest is waiting. */
  ghost predicate Kept(ms: seq<Message>, replay: ReplayMode, t: Turned, sent: seq<OutMessage>)
  {
    && Quiet(t.pending)
    && Gather(CallsOf, t.out) == Gather(CallsAsked, ms)
    && Gather(ResultOf, t.out) == Gather(ResultsGiven, ms)
    && sent + Waiting(t.pending) == Gather(OwedUnder(replay), ms)
    && Interleaved(sent, Gather(SpokenUnder(replay), ms), Gather(AssistantOf, t.out))
  }

  lemma {:induction false} TurnsKeep(ms: seq<Message>, replay: ReplayMode) returns (sent: seq<OutMessage>)
    requires Turns(ms, replay).Success?
    ensures Kept(ms, replay, Turns(ms, replay).value, sent)
  {
    hide Turn, Gather, Kept, Settles, Interleaved;
    if ms == [] {
      sent := [];
      NothingKept(replay);
    } else {
      var ms', m := ms[..|ms| - 1], ms[|ms| - 1];
      assert ms == ms' + [m];
      var t := Turns(ms', replay).value;
      var sent' := TurnsKeep(ms', replay);
      KeptQuiet(ms', replay, t, sent');
      TurnSettles(m, t.pending, replay);
      sent := KeptNext(ms', replay, t, sent', m, Turn(m, t.pending, replay).value);
    }
  }

  lemma NothingKept(replay: ReplayMode)
    ensures Kept([], replay, Turned([], None), [])
  {
  }

  lemma KeptQuiet(ms: seq<Message>, replay: ReplayMode, t: Turned, sent: seq<OutMessage>)
    requires Kept(ms, replay, t, sent)
    ensures Quiet(t.pending)
  {
    hide Gather, Interleaved, Quiet;
  }

  lemma KeptNext(ms: seq<Message>, replay: ReplayMode, t: Turned, sent: seq<OutMessage>, m: Message, n: Turned)
      returns (sent': seq<OutMessage>)
    requires Kept(ms, replay, t, sent) && Settles(m, t.pending, replay, n)
    ensures Kept(ms + [m], replay, Turned(t.out + n.out, n.pending), sent')
  {
    hide Gather, Interleaved, Owed, Spoken, Waiting, Quiet, CallsAsked, ResultsGiven;
    GatherConcat(CallsOf, t.out, n.out);
    GatherConcat(ResultOf, t.out, n.out);
    GatherConcat(AssistantOf, t.out, n.out);
    GatherSnoc(CallsAsked, ms, m);
    GatherSnoc(ResultsGiven, ms, m);
    GatherSnoc(OwedUnder(replay), ms, m);
    GatherSnoc(SpokenUnder(replay), ms, m);
    var out := Gather(AssistantOf, n.out);
    var said := Gather(SpokenUnder(replay), ms);
    InterleavedMore(sent, said, Gather(AssistantOf, t.out), out);
    var all := Gather(OwedUnder(replay), ms);
    if Spoken(m, replay) == [] {
      sent' := sent + out;
      assert sent + out + Waiting(n.pending) == sent + (out + Waiting(n.pending));
      assert sent + Waiting(t.pending) + Owed(m, replay) == sent + (Waiting(t.pending) + Owed(m, replay));
      assert said + [] == said;
    } else {
      sent' := sent;
      assert all + [] == all;
    }
  }

  /** What the conversion of a whole conversation keeps. */
  ghost predicate ConversationKept(ms: seq<Message>, replay: ReplayMode, out: seq<OutMessage>)
  {
    && Gather(CallsOf, out) == Gather(CallsAsked, ms)
    && Gather(ResultOf, out) == Gather(ResultsGiven, ms)
    && Interleaved(BackfilledAll(Gather(OwedUnder(replay), ms), replay),
                   BackfilledAll(Gather(SpokenUnder(replay), ms), replay),
                   Gather(AssistantOf, out))
  }

  lemma {:induction false} InterleavedBackfilled(a: seq<OutMessage>, b: seq<OutMessage>, c: seq<OutMessage>,
                                                 replay: ReplayMode)
    requires Interleaved(a, b, c)
    ensures Interleaved(BackfilledAll(a, replay), BackfilledAll(b, replay), BackfilledAll(c, replay))
    decreases |c|
  {
    hide Backfilled;
    if c != [] {
      var c' := c[..|c| - 1];
      assert BackfilledAll(c, replay)[..|c| - 1] == BackfilledAll(c', replay);
      if a != [] && a[|a| - 1] == c[|c| - 1] && Interleaved(a[..|a| - 1], b, c') {
        InterleavedBackfilled(a[..|a| - 1], b, c', replay);
        assert BackfilledAll(a, replay)[..|a| - 1] == BackfilledAll(a[..|a| - 1], replay);
      } else {
        InterleavedBackfilled(a, b[..|b| - 1], c', replay);
        assert BackfilledAll(b, replay)[..|b| - 1] == BackfilledAll(b[..|b| - 1], replay);
      }
    }
  }

  lemma {:induction false} GatherBackfilled(ms: seq<OutMessage>, replay: ReplayMode)
    ensures var r := BackfilledAll(ms, replay);
            && Gather(CallsOf, r) == Gather(CallsOf, ms)
            && Gather(ResultOf, r) == Gather(ResultOf, ms)
            && Gather(AssistantOf, r) == BackfilledAll(Gather(AssistantOf, ms), replay)
  {
    if ms != [] {
      var ms', m := ms[..|ms| - 1], ms[|ms| - 1];
      GatherBackfilled(ms', replay);
      assert BackfilledAll(ms, replay)[..|ms| - 1] == BackfilledAll(ms', replay);
    }
  }

  /**
   * Every conversation that converts keeps its tool calls and their results, once each and in order, and its
   * assistant turns: each turn's message and its deferred message go out once, in order.
   */
  lemma ConvertedKeeps(ms: seq<Message>, replay: ReplayMode)
    requires Converted(ms, replay).Success?
    ensures ConversationKept(ms, replay, Converted(ms, replay).value)
  {
    hide *;
    ConvertedIs(ms, replay);
    var t := Turns(ms, replay).value;
    var sent := TurnsKeep(ms, replay);
    KeptAll(ms, replay, t, sent);
  }

  lemma ConvertedIs(ms: seq<Message>, replay: ReplayMode)
    ensures Converted(ms, replay).Success? <==> Turns(ms, replay).Success?
    ensures Turns(ms, replay).Success? ==>
              var t := Turns(ms, replay).value;
                  Converted(ms, replay).value == BackfilledAll(t.out + Waiting(t.pending), replay)
  {
    hide Turns, BackfilledAll, Waiting;
  }

  lemma KeptAll(ms: seq<Message>, replay: ReplayMode, t: Turned, sent: seq<OutMessage>)
    requires Kept(ms, replay, t, sent)
    ensures ConversationKept(ms, replay, BackfilledAll(t.out + Waiting(t.pending), replay))
  {
    hide Gather, Interleaved, Waiting, BackfilledAll, Owed, Spoken, Quiet;
    var w, out := Waiting(t.pending), t.out + Waiting(t.pending);
    WaitingYields(t.pending);
    GatherConcat(CallsOf, t.out, w);
    GatherConcat(ResultOf, t.out, w);
    GatherConcat(AssistantOf, t.out, w);
    assert Gather(CallsOf, t.out) + [] == Gather(CallsOf, t.out)
        && Gather(ResultOf, t.out) + [] == Gather(ResultOf, t.out);
    InterleavedMore(sent, Gather(SpokenUnder(replay), ms), Gather(AssistantOf, t.out), w);
    InterleavedBackfilled(sent + w, Gather(SpokenUnder(replay), ms), Gather(AssistantOf, out), replay);
    GatherBackfilled(out, replay);
  }

  /** Under reasoning_content replay no tool turn goes out without reasoning. */
  lemma ToolTurnsReason(ms: seq<Message>, i: nat)
    requires Converted(ms, ReasoningContent).Success?
    requires var out := Converted(ms, ReasoningContent).value;
             i < |out| && out[i].role == "assistant" && out[i].toolCalls != []
    ensures var r := Converted(ms, ReasoningContent).value[i].reasoning; r.Some? && r.value != ""
  {
    hide Turns, Waiting;
  }

  // ---- calls and results stay together ----

  function ResultID(b: Block): seq<string> { [b.toolUseID] }

  function CallID(c: ToolCall): seq<string> { [c.id] }

  function AnswerID(m: OutMessage): seq<string>
  {
    if m.toolCallID.Some? then [m.toolCallID.value] else []
  }

  /** The ids of a turn's calls are usable: none is blank, none occurs twice. */
  predicate GoodIDs(calls: seq<ToolCall>)
  {
    && (forall c <- calls :: TrimSpace(c.id) != "")
    && forall i, j :: 0 <= i < j < |calls| ==> calls[i].id != calls[j].id
  }

  /** The user's turn begins with exactly the results of the calls, in some order. */
  predicate Answers(m: Message, calls: seq<ToolCall>)
  {
    && m.role == "user" && m.content.Blocks? && |calls| <= |m.content.blocks|
    && (forall k :: 0 <= k < |calls| ==> IsToolResult(m.content.blocks[k].typ))
    && multiset(Gather(ResultID, m.content.blocks[..|calls|])) == multiset(Gather(CallID, calls))
  }

  /** Every turn with calls is followed at once by a turn that answers them. */
  predicate WellPaired(ms: seq<Message>)
  {
    forall i :: 0 <= i < |ms| && CallsAsked(ms[i]) != [] ==>
      i + 1 < |ms| && GoodIDs(CallsAsked(ms[i])) && Answers(ms[i + 1], CallsAsked(ms[i]))
  }

  /** The n messages from p on are tool results. */
  predicate ResultsAt(out: seq<OutMessage>, p: nat, n: nat)
  {
    p + n <= |out| && forall k :: p <= k < p + n ==> out[k].role == "tool" && out[k].toolCallID.Some?
  }

  /** The message at p is followed at once by one result for each of its calls. */
  ghost predicate AnsweredAt(out: seq<OutMessage>, p: nat)
    requires p < |out|
  {
    var n := |out[p].toolCalls|;
    && ResultsAt(out, p + 1, n)
    && multiset(Gather(AnswerID, out[p + 1..p + 1 + n])) == multiset(Gather(CallID, out[p].toolCalls))
  }

  ghost predicate Adjacent(out: seq<OutMessage>)
  {
    forall p :: 0 <= p < |out| && out[p].toolCalls != [] ==> AnsweredAt(out, p)
  }

  lemma AdjacentConcat(a: seq<OutMessage>, b: seq<OutMessage>)
    requires Adjacent(a) && Adjacent(b)
    ensures Adjacent(a + b)
  {
    hide Gather;
    var c := a + b;
    forall p | 0 <= p < |c| && c[p].toolCalls != [] ensures AnsweredAt(c, p) {
      if p < |a| {
        assert AnsweredAt(a, p) && c[p] == a[p];
        assert c[p + 1..p + 1 + |a[p].toolCalls|] == a[p + 1..p + 1 + |a[p].toolCalls|];
      } else {
        var q := p - |a|;
        assert AnsweredAt(b, q) && c[p] == b[q];
        assert c[p + 1..p + 1 + |b[q].toolCalls|] == b[q + 1..q + 1 + |b[q].toolCalls|];
      }
    }
  }

  lemma {:induction false} SilentNoCalls(ms: seq<OutMessage>)
    requires Gather(CallsOf, ms) == []
    ensures forall m <- ms :: m.toolCalls == []
  {
    if ms != [] {
      assert |Gather(CallsOf, ms)| == |Gather(CallsOf, ms[..|ms| - 1])| + |ms[|ms| - 1].toolCalls|;
      SilentNoCalls(ms[..|ms| - 1]);
    }
  }

  function ResultMessages(blocks: seq<Block>): seq<OutMessage>
  {
    if blocks == [] then [] else ResultMessages(blocks[..|blocks| - 1]) + [ResultMessage(blocks[|blocks| - 1])]
  }

  lemma {:induction false} ResultMessagesAre(blocks: seq<Block>)
    ensures |ResultMessages(blocks)| == |blocks| && ResultsAt(ResultMessages(blocks), 0, |blocks|)
    ensures Gather(AnswerID, ResultMessages(blocks)) == Gather(ResultID, blocks)
  {
    hide SerializeToolResult;
    if blocks != [] {
      var blocks', b := blocks[..|blocks| - 1], blocks[|blocks| - 1];
      ResultMessagesAre(blocks');
      GatherSnoc(AnswerID, ResultMessages(blocks'), ResultMessage(b));
    }
  }

  /** A message with calls, its results, and messages without calls. */
  lemma AnsweredAdjacent(pre: OutMessage, results: seq<Block>, pieces: seq<OutMessage>)
    requires ResultMessages(results) <= pieces && Gather(CallsOf, pieces) == []
    requires |results| == |pre.toolCalls|
             && multiset(Gather(ResultID, results)) == multiset(Gather(CallID, pre.toolCalls))
    ensures Adjacent([pre] + pieces)
  {
    hide Gather, ResultMessages;
    var out, n := [pre] + pieces, |results|;
    SilentNoCalls(pieces);
    ResultMessagesAre(results);
    assert out[1..1 + n] == ResultMessages(results);
    forall k | 1 <= k < 1 + n ensures out[k].role == "tool" && out[k].toolCallID.Some? {
      assert out[k] == ResultMessages(results)[k - 1];
    }
    assert forall p :: 0 < p < |out| ==> out[p].toolCalls == [] by {
      assert forall p :: 0 < p < |out| ==> out[p] == pieces[p - 1];
    }
    assert AnsweredAt(out, 0);
  }

  // ---- leading results come out first ----

  /** Once the messages begin with n tool results they keep doing so. */
  lemma FlushKeepsLead(s: UserState, n: nat)
    requires ResultsAt(s.result, 0, n)
    ensures var t := FlushText(s); n <= |t.result| && t.result[..n] == s.result[..n]
    ensures var t := FlushImages(s); n <= |t.result| && t.result[..n] == s.result[..n]
  {
    hide JoinWith;
    var t := FlushText(s);
    assert t.result[..n] == s.result[..n];
    assert forall k :: 0 <= k < n ==> t.result[k] == s.result[k];
    var i := LastUserText(t.result);
    assert i == -1 || i >= n;
  }

  lemma AddKeepsLead(s: UserState, b: Block, n: nat)
    requires ResultsAt(s.result, 0, n)
    ensures var t := AddBlock(s, b); n <= |t.result| && t.result[..n] == s.result[..n] && ResultsAt(t.result, 0, n)
  {
    hide FlushText, FlushImages, ImagePartOf, ResultImages, ResultMessage, DocumentRef, DataURL, MediaType;
    FlushKeepsLead(s, n);
    var t := FlushImages(s);
    assert ResultsAt(t.result, 0, n) by { SameLead(s.result, t.result, n); }
    FlushKeepsLead(t, n);
    SameLead(s.result, AddBlock(s, b).result, n);
  }

  lemma SameLead(a: seq<OutMessage>, b: seq<OutMessage>, n: nat)
    requires ResultsAt(a, 0, n) && n <= |b|
    ensures b[..n] == a[..n] ==> ResultsAt(b, 0, n)
  {
    if b[..n] == a[..n] {
      assert forall k :: 0 <= k < n ==> b[k] == b[..n][k] == a[..n][k] == a[k];
    }
  }

  lemma {:induction false} LeadingResults(blocks: seq<Block>)
    requires forall b <- blocks :: IsToolResult(b.typ)
    ensures var s := AddBlocks(blocks); s.result == ResultMessages(blocks) && s.text == [] && s.images == []
  {
    hide ResultMessage, ResultImages;
    if blocks != [] {
      LeadingResults(blocks[..|blocks| - 1]);
      assert IsToolResult(blocks[|blocks| - 1].typ);
    }
  }

  lemma {:induction false} AddBlocksLead(blocks: seq<Block>, n: nat)
    requires n <= |blocks| && forall k :: 0 <= k < n ==> IsToolResult(blocks[k].typ)
    ensures ResultMessages(blocks[..n]) <= AddBlocks(blocks).result
    decreases |blocks|
  {
    hide AddBlock, AddBlocks, ResultMessages;
    ResultMessagesAre(blocks[..n]);
    if n == |blocks| {
      assert blocks[..n] == blocks;
      LeadingResults(blocks);
    } else {
      var blocks' := blocks[..|blocks| - 1];
      AddBlocksLead(blocks', n);
      assert blocks'[..n] == blocks[..n];
      var s := AddBlocks(blocks');
      LeadIs(s.result, ResultMessages(blocks[..n]), n);
      AddKeepsLead(s, blocks[|blocks| - 1], n);
      assert AddBlocks(blocks) == AddBlock(s, blocks[|blocks| - 1]) by { AddBlocksSnoc(blocks); }
    }
  }

  lemma AddBlocksSnoc(blocks: seq<Block>)
    requires blocks != []
    ensures AddBlocks(blocks) == AddBlock(AddBlocks(blocks[..|blocks| - 1]), blocks[|blocks| - 1])
  {
    hide AddBlock;
  }

  lemma LeadIs(a: seq<OutMessage>, lead: seq<OutMessage>, n: nat)
    requires lead <= a && |lead| == n && ResultsAt(lead, 0, n)
    ensures ResultsAt(a, 0, n) && a[..n] == lead
  {
    assert forall k :: 0 <= k < n ==> a[k] == lead[k];
  }

  /** The leading results of a user turn are its first messages. */
  lemma UserLead(blocks: seq<Block>, n: nat)
    requires n <= |blocks| && forall k :: 0 <= k < n ==> IsToolResult(blocks[k].typ)
    ensures ResultMessages(blocks[..n]) <= UserMessages(blocks)
  {
    hide FlushText, FlushImages, AddBlocks, ResultMessages, IsToolResult;
    var s, lead := AddBlocks(blocks), ResultMessages(blocks[..n]);
    AddBlocksLead(blocks, n);
    ResultMessagesAre(blocks[..n]);
    LeadIs(s.result, lead, n);
    FlushKeepsLead(s, n);
    var t := FlushImages(s);
    SameLead(s.result, t.result, n);
    FlushKeepsLead(t, n);
    assert lead <= FlushText(t).result;
  }

  /** Waiting or not: results up to the last one waited for come out first, the deferred message right behind. */
  lemma {:induction false} InjectLead(blocks: seq<Block>, deferred: OutMessage, remaining: set<string>)
    requires forall b <- blocks :: IsToolResult(b.typ)
    requires forall i, j :: 0 <= i < j < |blocks| ==> blocks[i].toolUseID != blocks[j].toolUseID
    requires remaining != {} && forall b <- blocks :: b.toolUseID in remaining
    ensures var s := InjectBlocks(blocks, deferred, remaining);
            && s.text == [] && (forall x :: x in s.remaining <==>
                 x in remaining && forall b <- blocks :: b.toolUseID != x)
            && (!s.cleared ==> s.result == ResultMessages(blocks))
            && (s.cleared ==> s.remaining == {} && s.result == ResultMessages(blocks) + [deferred])
            && (s.remaining == {} ==> s.cleared)
  {
    hide ResultMessage, ResultImages, IsToolResult;
    if blocks != [] {
      var blocks', b := blocks[..|blocks| - 1], blocks[|blocks| - 1];
      InjectLead(blocks', deferred, remaining);
      var s, t := InjectBlocks(blocks', deferred, remaining), InjectBlocks(blocks, deferred, remaining);
      assert b in blocks && b.toolUseID in s.remaining;
      assert IsToolResult(b.typ) && b.typ != "text" by { ResultIsNoText(b); }
      assert t == InjectResult(s, b, deferred);
      assert ResultMessages(blocks') + [ResultMessage(b)] + [] == ResultMessages(blocks);
      forall x ensures x in t.remaining <==> x in remaining && forall c <- blocks :: c.toolUseID != x {
        assert blocks == blocks' + [b];
      }
    }
  }

  lemma ResultIsNoText(b: Block)
    requires IsToolResult(b.typ)
    ensures b.typ != "text"
  {
  }

  lemma InjectGrows(s: InjectState, b: Block, deferred: OutMessage)
    ensures s.result <= InjectBlock(s, b, deferred).result
  {
    hide ResultMessage, ResultImages, JoinWith, IsToolResult;
  }

  lemma {:induction false} InjectPrefix(blocks: seq<Block>, n: nat, deferred: OutMessage, remaining: set<string>)
    requires n <= |blocks|
    ensures var a, b := InjectBlocks(blocks[..n], deferred, remaining), InjectBlocks(blocks, deferred, remaining);
            a.result <= b.result && (a.cleared ==> b.cleared)
    decreases |blocks|
  {
    hide InjectBlock, InjectText;
    if n == |blocks| {
      assert blocks[..n] == blocks;
    } else {
      var blocks' := blocks[..|blocks| - 1];
      InjectPrefix(blocks', n, deferred, remaining);
      assert blocks'[..n] == blocks[..n];
      var s := InjectBlocks(blocks', deferred, remaining);
      InjectGrows(s, blocks[|blocks| - 1], deferred);
      ClearedStays(s, blocks[|blocks| - 1], deferred);
    }
  }

  lemma ClearedStays(s: InjectState, b: Block, deferred: OutMessage)
    ensures s.cleared ==> InjectBlock(s, b, deferred).cleared
  {
    hide ResultMessage, ResultImages, IsToolResult, InjectText;
  }

  /** When the turn begins with all results waited for, they come out first and nothing waits any more. */
  lemma InjectedLead(blocks: seq<Block>, n: nat, deferred: OutMessage, remaining: set<string>)
    requires n <= |blocks| && forall k :: 0 <= k < n ==> IsToolResult(blocks[k].typ)
    requires forall i, j :: 0 <= i < j < n ==> blocks[i].toolUseID != blocks[j].toolUseID
    requires remaining != {} && forall x :: x in remaining <==> exists k :: 0 <= k < n && blocks[k].toolUseID == x
    ensures ResultMessages(blocks[..n]) <= InjectedMessages(blocks, deferred, remaining)
    ensures InjectBlocks(blocks, deferred, remaining).cleared
  {
    hide InjectBlocks, ResultMessages, InjectBlock, IsToolResult, JoinWith;
    var lead := blocks[..n];
    forall b | b in lead ensures IsToolResult(b.typ) && b.toolUseID in remaining {
      var k :| 0 <= k < n && lead[k] == b;
      assert blocks[k] == b;
    }
    InjectLead(lead, deferred, remaining);
    var s := InjectBlocks(lead, deferred, remaining);
    forall x ensures x !in s.remaining {
      if x in remaining {
        var k :| 0 <= k < n && blocks[k].toolUseID == x;
        assert lead[k] in lead && lead[k].toolUseID == x;
      }
    }
    InjectPrefix(blocks, n, deferred, remaining);
  }

  // ---- adjacency ----

  /** After a turn that asks nothing, everything is answered; after one that asks, only its own calls are open. */
  ghost predicate Paired(ms: seq<Message>, t: Turned, replay: ReplayMode)
  {
    if ms != [] && CallsAsked(ms[|ms| - 1]) != [] then
      var m := ms[|ms| - 1];
      && t.out != []
      && t.out[|t.out| - 1] == PreMessage(m.content.blocks, CleanReasoning(m.reasoning), replay)
      && Adjacent(t.out[..|t.out| - 1])
      && t.pending == PendingAfter(m.content.blocks, CleanReasoning(m.reasoning), replay)
    else Adjacent(t.out) && t.pending == None
  }

  lemma {:induction false} IDsInOrder(calls: seq<ToolCall>)
    ensures |Gather(CallID, calls)| == |calls| && forall i :: 0 <= i < |calls| ==>
            Gather(CallID, calls)[i] == calls[i].id
  {
    if calls != [] { IDsInOrder(calls[..|calls| - 1]); }
  }

  lemma {:induction false} ResultIDsInOrder(blocks: seq<Block>)
    ensures |Gather(ResultID, blocks)| == |blocks| && forall i :: 0 <= i < |blocks| ==>
            Gather(ResultID, blocks)[i] == blocks[i].toolUseID
  {
    if blocks != [] { ResultIDsInOrder(blocks[..|blocks| - 1]); }
  }

  /** Two sequences with the same elements, the one without repetition. */
  lemma SameElements(a: seq<string>, b: seq<string>)
    requires multiset(a) == multiset(b) && forall i, j :: 0 <= i < j < |a| ==> a[i] != a[j]
    ensures forall i, j :: 0 <= i < j < |b| ==> b[i] != b[j]
    ensures forall x :: x in a <==> x in b
  {
    forall i, j | 0 <= i < j < |b| ensures b[i] != b[j] {
      if b[i] == b[j] {
        TwiceCounted(b, i, j);
        OnceCounted(a, b[i]);
      }
    }
    forall x ensures x in a <==> x in b {
      assert x in multiset(a) <==> x in a;
      assert x in multiset(b) <==> x in b;
    }
  }

  lemma TwiceCounted(b: seq<string>, i: nat, j: nat)
    requires i < j < |b| && b[i] == b[j]
    ensures multiset(b)[b[i]] >= 2
  {
    assert b == b[..i] + [b[i]] + b[i + 1..j] + [b[j]] + b[j + 1..];
  }

  lemma {:induction false} OnceCounted(a: seq<string>, x: string)
    requires forall i, j :: 0 <= i < j < |a| ==> a[i] != a[j]
    ensures multiset(a)[x] <= 1
  {
    if a != [] {
      var a' := a[..|a| - 1];
      assert a == a' + [a[|a| - 1]];
      OnceCounted(a', x);
      if a[|a| - 1] == x {
        assert x !in a' && x !in multiset(a');
      }
    }
  }

  /** The ids of an answer's leading results are the ids waited for. */
  lemma AnswersCover(blocks: seq<Block>, calls: seq<ToolCall>)
    requires |calls| <= |blocks| && GoodIDs(calls)
    requires multiset(Gather(ResultID, blocks[..|calls|])) == multiset(Gather(CallID, calls))
    ensures forall i, j :: 0 <= i < j < |calls| ==> blocks[i].toolUseID != blocks[j].toolUseID
    ensures forall x :: x in ResultIDs(calls) <==> exists k :: 0 <= k < |calls| && blocks[k].toolUseID == x
    ensures calls != [] ==> ResultIDs(calls) != {}
  {
    hide Gather, TrimSpace;
    var a, b, lead := Gather(CallID, calls), Gather(ResultID, blocks[..|calls|]), blocks[..|calls|];
    IDsInOrder(calls);
    ResultIDsInOrder(lead);
    SameElements(a, b);
    forall i, j | 0 <= i < j < |calls| ensures blocks[i].toolUseID != blocks[j].toolUseID {
      assert b[i] == blocks[i].toolUseID && b[j] == blocks[j].toolUseID;
    }
    forall x ensures x in ResultIDs(calls) <==> x in a { InResultIDs(calls, a, x); }
    forall x ensures x in b <==> exists k :: 0 <= k < |calls| && blocks[k].toolUseID == x {
      if x in b {
        var k :| 0 <= k < |b| && b[k] == x;
        assert blocks[k].toolUseID == x;
      }
      if k :| 0 <= k < |calls| && blocks[k].toolUseID == x {
        assert b[k] == x;
      }
    }
    if calls != [] { assert a[0] in a; }
  }

  lemma InResultIDs(calls: seq<ToolCall>, a: seq<string>, x: string)
    requires GoodIDs(calls) && |a| == |calls| && forall i :: 0 <= i < |calls| ==> a[i] == calls[i].id
    ensures x in ResultIDs(calls) <==> x in a
  {
    hide TrimSpace;
    if x in a {
      var i :| 0 <= i < |a| && a[i] == x;
      assert calls[i] in calls;
    }
    if x in ResultIDs(calls) {
      var c :| c in calls && c.id == x;
      var i :| 0 <= i < |calls| && calls[i] == c;
      assert a[i] == x;
    }
  }

  lemma {:induction false} CallsNeedToolUse(blocks: seq<Block>)
    ensures Calls(blocks) == [] ==> IndexFirstToolUse(blocks) == -1
  {
    if blocks != [] { CallsNeedToolUse(blocks[..|blocks| - 1]); }
  }

  /** A turn that asks nothing, with nothing waiting, leaves nothing waiting. */
  lemma NothingWaits(m: Message, replay: ReplayMode)
    requires CallsAsked(m) == [] && Turn(m, None, replay).Success?
    ensures Turn(m, None, replay).value.pending == None
  {
    hide Calls, AssistantMessage, InjectBlocks, UserMessages, StringMessage, PreMessage, HasImage;
    if m.content.Blocks? {
      CallsNeedToolUse(m.content.blocks);
    }
  }

  lemma AskingTurn(m: Message, replay: ReplayMode)
    requires CallsAsked(m) != []
    ensures m.role == "assistant" && m.content.Blocks?
    ensures var r, blocks := CleanReasoning(m.reasoning), m.content.blocks;
            Turn(m, None, replay) == Success(Turned([PreMessage(blocks, r, replay)], PendingAfter(blocks, r, replay)))
    ensures PreMessage(m.content.blocks, CleanReasoning(m.reasoning), replay).toolCalls == CallsAsked(m)
  {
    hide Calls, PreMessage, PendingAfter;
    PreCalls(m.content.blocks, CleanReasoning(m.reasoning), replay);
    var pre := PreMessage(m.content.blocks, CleanReasoning(m.reasoning), replay);
    assert [] + [pre] == [pre];
  }

  /** The answer to a turn that asked begins with the results, and leaves nothing waiting. */
  lemma AnsweringTurn(m: Message, calls: seq<ToolCall>, p: Option<Pending>, replay: ReplayMode)
    requires GoodIDs(calls) && calls != [] && Answers(m, calls) && Quiet(p)
             && (p.Some? ==> p.value.remaining == ResultIDs(calls))
    requires Turn(m, p, replay).Success?
    ensures var t := Turn(m, p, replay).value;
            ResultMessages(m.content.blocks[..|calls|]) <= t.out && t.pending == None && Gather(CallsOf, t.out) == []
  {
    hide UserMessages, InjectBlocks, InjectedMessages, HasImage, ResultMessages, IsToolResult, Gather, ResultIDs,
         GoodIDs;
    var blocks := m.content.blocks;
    AnswersCover(blocks, calls);
    assert Gather(CallsOf, Turn(m, p, replay).value.out) == CallsAsked(m) by { AskedIs(m, p, replay); }
    if p == None {
      UserLead(blocks, |calls|);
      assert [] + UserMessages(blocks) == UserMessages(blocks);
    } else {
      InjectedLead(blocks, |calls|, p.value.message, p.value.remaining);
    }
  }

  lemma AskedIs(m: Message, p: Option<Pending>, replay: ReplayMode)
    requires Quiet(p) && Turn(m, p, replay).Success?
    ensures Gather(CallsOf, Turn(m, p, replay).value.out) == CallsAsked(m)
  {
    hide Turn, Gather, CallsAsked, ResultsGiven, Owed, Spoken, Waiting;
    TurnSettles(m, p, replay);
  }

  /** WellPaired, but for the last turn. */
  predicate PairedSoFar(ms: seq<Message>)
  {
    forall i :: 0 <= i < |ms| - 1 && CallsAsked(ms[i]) != [] ==>
        GoodIDs(CallsAsked(ms[i]))
        && Answers(ms[i + 1], CallsAsked(ms[i]))
  }

  lemma {:induction false} TurnsPaired(ms: seq<Message>, replay: ReplayMode)
    requires PairedSoFar(ms) && Turns(ms, replay).Success?
    ensures Paired(ms, Turns(ms, replay).value, replay)
  {
    hide *;
    if ms == [] {
      PairedNothing(replay);
    } else {
      var ms', m := ms[..|ms| - 1], ms[|ms| - 1];
      assert ms == ms' + [m];
      TurnsSnoc(ms', m, replay);
      PairedSoFarPrefix(ms', m);
      TurnsPaired(ms', replay);
      var t := Turns(ms', replay).value;
      PairedNext(ms', m, t, replay);
    }
  }

  lemma PairedNothing(replay: ReplayMode)
    ensures Turns([], replay) == Success(Turned([], None)) && Paired([], Turned([], None), replay)
  {
  }

  lemma TurnsSnoc(ms: seq<Message>, m: Message, replay: ReplayMode)
    requires Turns(ms + [m], replay).Success?
    ensures Turns(ms, replay).Success?
    ensures var t := Turns(ms, replay).value;
            var n := Turn(m, t.pending, replay);
            n.Success? && Turns(ms + [m], replay).value == Turned(t.out + n.value.out, n.value.pending)
  {
    hide Turn;
    assert (ms + [m])[..|ms|] == ms;
  }

  lemma PairedSoFarPrefix(ms: seq<Message>, m: Message)
    requires PairedSoFar(ms + [m])
    ensures PairedSoFar(ms)
    ensures ms != [] && CallsAsked(ms[|ms| - 1]) != [] ==>
            GoodIDs(CallsAsked(ms[|ms| - 1]))
            && Answers(m, CallsAsked(ms[|ms| - 1]))
  {
    hide CallsAsked, GoodIDs, Answers;
    var all := ms + [m];
    forall i | 0 <= i < |ms| - 1 && CallsAsked(ms[i]) != []
        ensures GoodIDs(CallsAsked(ms[i])) && Answers(ms[i + 1], CallsAsked(ms[i])) {
      assert all[i] == ms[i] && all[i + 1] == ms[i + 1];
    }
    if ms != [] {
      assert all[|ms| - 1] == ms[|ms| - 1] && all[|ms| - 1 + 1] == m;
    }
  }

  lemma PairedNext(ms: seq<Message>, m: Message, t: Turned, replay: ReplayMode)
    requires Paired(ms, t, replay) && Turn(m, t.pending, replay).Success?
    requires ms != [] && CallsAsked(ms[|ms| - 1]) != [] ==>
             GoodIDs(CallsAsked(ms[|ms| - 1]))
             && Answers(m, CallsAsked(ms[|ms| - 1]))
    ensures var n := Turn(m, t.pending, replay).value; Paired(ms + [m], Turned(t.out + n.out, n.pending), replay)
  {
    hide Turn, Adjacent, PreMessage, PendingAfter, GoodIDs, Answers, CallsAsked, Gather, Quiet;
    var n := Turn(m, t.pending, replay).value;
    assert (ms + [m])[|ms + [m]| - 1] == m;
    if ms != [] && CallsAsked(ms[|ms| - 1]) != [] {
      AskingTurn(ms[|ms| - 1], replay);
      PairedAnswer(ms[|ms| - 1], m, t, replay);
    } else if CallsAsked(m) != [] {
      AskingTurn(m, replay);
      assert (t.out + n.out)[..|t.out + n.out| - 1] == t.out;
    } else {
      assert Quiet(None) by { QuietNone(); }
      NothingWaits(m, replay);
      AskedIs(m, None, replay);
      AdjacentSilent(n.out);
      AdjacentConcat(t.out, n.out);
    }
  }

  lemma QuietNone()
    ensures Quiet(None)
  {
  }

  lemma AdjacentSilent(ms: seq<OutMessage>)
    requires Gather(CallsOf, ms) == []
    ensures Adjacent(ms)
  {
    hide Gather, AnsweredAt;
    SilentNoCalls(ms);
    assert forall p :: 0 <= p < |ms| ==> ms[p] in ms;
  }

  lemma PairedAnswer(asked: Message, m: Message, t: Turned, replay: ReplayMode)
    requires CallsAsked(asked) != [] && GoodIDs(CallsAsked(asked)) && Answers(m, CallsAsked(asked))
             && Turn(m, t.pending, replay).Success?
    requires asked.content.Blocks? && t.out != []
    requires t.out[|t.out| - 1] == PreMessage(asked.content.blocks, CleanReasoning(asked.reasoning), replay)
    requires t.pending == PendingAfter(asked.content.blocks, CleanReasoning(asked.reasoning), replay)
    requires Adjacent(t.out[..|t.out| - 1])
    ensures var n := Turn(m, t.pending, replay).value;
            Adjacent(t.out + n.out) && n.pending == None && CallsAsked(m) == []
  {
    hide Turn, Adjacent, PreMessage, GoodIDs, Gather, Calls, Deferred, AssistantMessage, ResultIDs, ResultMessages;
    var calls, n := CallsAsked(asked), Turn(m, t.pending, replay).value;
    var pre, before := t.out[|t.out| - 1], t.out[..|t.out| - 1];
    AskingTurn(asked, replay);
    PendingQuiet(asked.content.blocks, CleanReasoning(asked.reasoning), replay);
    AnsweringTurn(m, calls, t.pending, replay);
    AnsweredAdjacent(pre, m.content.blocks[..|calls|], n.out);
    AdjacentConcat(before, [pre] + n.out);
    assert t.out + n.out == before + ([pre] + n.out);
  }

  lemma BackfillsReasoning(m: OutMessage, replay: ReplayMode)
    ensures var r := Backfilled(m, replay); r == m.(reasoning := r.reasoning)
  {
  }

  lemma AdjacentBackfilled(ms: seq<OutMessage>, replay: ReplayMode)
    requires Adjacent(ms)
    ensures Adjacent(BackfilledAll(ms, replay))
  {
    hide Gather, Backfilled;
    var r := BackfilledAll(ms, replay);
    forall i | 0 <= i < |ms| ensures r[i].toolCalls == ms[i].toolCalls && r[i].toolCallID == ms[i].toolCallID
        && r[i].role == ms[i].role {
      BackfillsReasoning(ms[i], replay);
    }
    forall p | 0 <= p < |r| && r[p].toolCalls != [] ensures AnsweredAt(r, p) {
      assert AnsweredAt(ms, p);
      var n := |ms[p].toolCalls|;
      GatherSame(AnswerID, r[p + 1..p + 1 + n], ms[p + 1..p + 1 + n]);
    }
  }

  /**
   * When every turn with calls is answered at once, every converted message with calls is followed at once by
   * exactly its results.
   */
  lemma ToolAdjacency(ms: seq<Message>, replay: ReplayMode)
    requires WellPaired(ms) && Converted(ms, replay).Success?
    ensures Adjacent(Converted(ms, replay).value)
  {
    hide Turns, Adjacent, GoodIDs, Answers, CallsAsked, BackfilledAll;
    ConvertedIs(ms, replay);
    TurnsPaired(ms, replay);
    var t := Turns(ms, replay).value;
    assert ms != [] ==> CallsAsked(ms[|ms| - 1]) == [];
    assert t.out + [] == t.out;
    AdjacentBackfilled(t.out, replay);
  }
}
