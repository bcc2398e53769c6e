/**
 * What of an upstream's chunks is read, in the chunks' own terms: up to the first failure or end marker every chunk's
 * first delta counts, whatever finish reason comes with it (internal/stream/stream.go, internal/responses/stream.go).
 */
module Heard {
  import opened Wrappers
  import opened Sequences
  import opened Strings
  import opened TextFlow
  import opened ToolLog
  import opened Upstream
  import opened Turn
  import M = MixedRun
  import P = PlainRun

  // ---- what is in the chunks ----

  /** The chunks ahead of the first failure or end marker. */
  function Live(cs: seq<Chunk>): (r: seq<Chunk>)
    ensures |r| <= |cs|
    decreases |cs|
  {
    if cs == [] || cs[0].readError || cs[0].done || cs[0].error.Some? then [] else [cs[0]] + Live(cs[1..])
  }

  function FirstDelta(c: Chunk): seq<Delta>
  {
    if c.choices != [] && c.choices[0].delta.Some? then [c.choices[0].delta.value] else []
  }

  function Given(s: Option<string>): seq<string>
  {
    if s == None || s == Some("") then [] else [s.value]
  }

  function ReasoningIn(d: Delta): seq<string>
  {
    Given(d.reasoning)
  }

  function RefusalIn(d: Delta): seq<string>
  {
    Given(d.refusal)
  }

  /** A refusal supersedes the content that comes with it. */
  function ContentIn(d: Delta): seq<string>
  {
    if RefusalIn(d) != [] then [] else Given(d.content)
  }

  /** And the tool calls. */
  function FragmentsIn(d: Delta): seq<ToolCallDelta>
  {
    if RefusalIn(d) != [] then [] else d.toolCalls
  }

  function CallsIn(d: Delta): seq<Action>
  {
    if FragmentsIn(d) == [] then [] else [Calls]
  }

  /** A finish reason counts when a delta comes with it. */
  function FinishIn(c: Chunk): seq<string>
  {
    if FirstDelta(c) == [] then [] else Given(c.choices[0].finishReason)
  }

  function Deltas(cs: seq<Chunk>): seq<Delta>
  {
    Gather(FirstDelta, cs)
  }

  function LastOr(before: string, xs: seq<string>): string
  {
    if xs == [] then before else xs[|xs| - 1]
  }

  // ---- what is in the actions ----

  function ReasonText(a: Action): seq<string>
  {
    if a.Reason? then [a.text] else []
  }

  function RefuseText(a: Action): seq<string>
  {
    if a.Refuse? then [a.text] else []
  }

  function ContentText(a: Action): seq<string>
  {
    if a.Content? then [a.text] else []
  }

  function CallsMark(a: Action): seq<Action>
  {
    if a.Calls? then [Calls] else []
  }

  /** Reasoning comes first in a chunk, and calls come last. */
  function Rank(a: Action): nat
  {
    match a case Reason(_) => 0 case Refuse(_) => 1 case Content(_, _, _, _) => 1 case _ => 2
  }

  predicate Rising(actions: seq<Action>)
  {
    forall i, j :: 0 <= i < j < |actions| ==> Rank(actions[i]) < Rank(actions[j])
  }

  /** From r to q the reading has taken in these deltas, each field in order, and nothing else but restarts and ends. */
  ghost predicate TakesIn(r: Reading, q: Reading, ds: seq<Delta>)
  {
    && Gather(ReasonText, q.actions) == Gather(ReasonText, r.actions) + Gather(ReasoningIn, ds)
    && Gather(RefuseText, q.actions) == Gather(RefuseText, r.actions) + Gather(RefusalIn, ds)
    && Gather(ContentText, q.actions) == Gather(ContentText, r.actions) + Gather(ContentIn, ds)
    && Gather(CallsMark, q.actions) == Gather(CallsMark, r.actions) + Gather(CallsIn, ds)
    && q.tools == r.tools + Gather(FragmentsIn, ds)
  }

  lemma TakesNothing(r: Reading, q: Reading)
    requires q.tools == r.tools && q.actions == r.actions
    ensures TakesIn(r, q, [])
  {
    hide Gather;
    NoneGathered();
    NothingMore(r);
  }

  lemma NoneGathered()
    ensures Gather(ReasoningIn, []) == Gather(RefusalIn, []) == Gather(ContentIn, []) == []
    ensures Gather(CallsIn, []) == [] && Gather(FragmentsIn, []) == [] && Gather(FinishIn, []) == []
  {
  }

  lemma NothingMore(r: Reading)
    ensures r.tools + [] == r.tools
    ensures forall s: seq<string> :: s + [] == s
    ensures forall s: seq<Action> :: s + [] == s
  {
  }

  lemma TakesBoth(a: Reading, b: Reading, c: Reading, ds: seq<Delta>, es: seq<Delta>)
    requires TakesIn(a, b, ds) && TakesIn(b, c, es)
    ensures TakesIn(a, c, ds + es)
  {
    hide Gather;
    GatherConcat(ReasoningIn, ds, es);
    GatherConcat(RefusalIn, ds, es);
    GatherConcat(ContentIn, ds, es);
    GatherConcat(CallsIn, ds, es);
    GatherConcat(FragmentsIn, ds, es);
    assert a.tools + Gather(FragmentsIn, ds) + Gather(FragmentsIn, es)
        == a.tools + (Gather(FragmentsIn, ds) + Gather(FragmentsIn, es));
    Joins(Gather(ReasonText, a.actions), Gather(ReasoningIn, ds), Gather(ReasoningIn, es));
    Joins(Gather(RefuseText, a.actions), Gather(RefusalIn, ds), Gather(RefusalIn, es));
    Joins(Gather(ContentText, a.actions), Gather(ContentIn, ds), Gather(ContentIn, es));
    Joins(Gather(CallsMark, a.actions), Gather(CallsIn, ds), Gather(CallsIn, es));
  }

  lemma Joins<T>(a: seq<T>, b: seq<T>, c: seq<T>)
    ensures a + b + c == a + (b + c)
  {
  }

  lemma ActionsTexts(a: seq<Action>, b: seq<Action>)
    ensures Gather(ReasonText, a + b) == Gather(ReasonText, a) + Gather(ReasonText, b)
    ensures Gather(RefuseText, a + b) == Gather(RefuseText, a) + Gather(RefuseText, b)
    ensures Gather(ContentText, a + b) == Gather(ContentText, a) + Gather(ContentText, b)
    ensures Gather(CallsMark, a + b) == Gather(CallsMark, a) + Gather(CallsMark, b)
  {
    hide Gather;
    GatherConcat(ReasonText, a, b);
    GatherConcat(RefuseText, a, b);
    GatherConcat(ContentText, a, b);
    GatherConcat(CallsMark, a, b);
  }

  lemma OneTexts(a: Action)
    ensures Gather(ReasonText, [a]) == ReasonText(a) && Gather(RefuseText, [a]) == RefuseText(a)
    ensures Gather(ContentText, [a]) == ContentText(a) && Gather(CallsMark, [a]) == CallsMark(a)
  {
    hide Gather;
    GatherOne(ReasonText, a);
    GatherOne(RefuseText, a);
    GatherOne(ContentText, a);
    GatherOne(CallsMark, a);
  }

  lemma NoTexts()
    ensures Gather(ReasonText, []) == [] && Gather(RefuseText, []) == []
    ensures Gather(ContentText, []) == [] && Gather(CallsMark, []) == []
  {
  }

  // ---- one chunk ----

  /** What a delta holds, field by field. */
  lemma DeltaSplits(d: Delta) returns (a: seq<Action>, b: seq<Action>, c: seq<Action>)
    ensures DeltaActions(d) == a + b + c && |a| <= 1 && |b| <= 1 && |c| <= 1
    ensures forall x <- a :: Rank(x) == 0
    ensures forall x <- b :: Rank(x) == 1
    ensures forall x <- c :: Rank(x) == 2
    ensures (if a == [] then [] else ReasonText(a[0])) == ReasoningIn(d)
    ensures (if b == [] then [] else RefuseText(b[0])) == RefusalIn(d)
    ensures (if b == [] then [] else ContentText(b[0])) == ContentIn(d)
    ensures (if c == [] then [] else CallsMark(c[0])) == CallsIn(d)
    ensures DeltaTools(d) == FragmentsIn(d)
  {
    a := if Presence(d.reasoning) then [Reason(d.reasoning.value)] else [];
    b := if Presence(d.refusal) then [Refuse(d.refusal.value)]
         else if Presence(d.content) then [Content(d.content.value, [], false, "")] else [];
    c := if !Presence(d.refusal) && d.toolCalls != [] then [Calls] else [];
  }

  /** A chunk that is read adds what its first delta holds, in order. */
  lemma DeltaTexts(d: Delta)
    ensures var x := DeltaActions(d);
            && Gather(ReasonText, x) == ReasoningIn(d) && Gather(RefuseText, x) == RefusalIn(d)
            && Gather(ContentText, x) == ContentIn(d) && Gather(CallsMark, x) == CallsIn(d)
    ensures Rising(DeltaActions(d)) && DeltaTools(d) == FragmentsIn(d)
  {
    hide Gather, DeltaActions, DeltaTools, ReasoningIn, RefusalIn, ContentIn, CallsIn, FragmentsIn;
    var a, b, c := DeltaSplits(d);
    FewTexts(a, 0);
    FewTexts(b, 1);
    FewTexts(c, 2);
    ActionsTexts(a, b);
    ActionsTexts(a + b, c);
    NothingAround(ReasoningIn(d));
    NothingAround(RefusalIn(d));
    NothingAround(ContentIn(d));
    NothingAround(CallsIn(d));
    Rises(a, b, c);
  }

  lemma NothingAround<T>(x: seq<T>)
    ensures x + [] == x && [] + x == x && [] + [] + x == x && [] + x + [] == x && x + [] + [] == x
  {
  }

  lemma Rises(a: seq<Action>, b: seq<Action>, c: seq<Action>)
    requires |a| <= 1 && |b| <= 1 && |c| <= 1
    requires forall x <- a :: Rank(x) == 0
    requires forall x <- b :: Rank(x) == 1
    requires forall x <- c :: Rank(x) == 2
    ensures Rising(a + b + c)
  {
    hide Rank;
  }

  lemma FewTexts(x: seq<Action>, rank: nat)
    requires |x| <= 1 && forall a <- x :: Rank(a) == rank
    ensures Gather(ReasonText, x) == (if x == [] || rank != 0 then [] else ReasonText(x[0]))
    ensures Gather(RefuseText, x) == (if x == [] || rank != 1 then [] else RefuseText(x[0]))
    ensures Gather(ContentText, x) == (if x == [] || rank != 1 then [] else ContentText(x[0]))
    ensures Gather(CallsMark, x) == (if x == [] || rank != 2 then [] else CallsMark(x[0]))
  {
    hide Gather;
    NoTexts();
    if x != [] {
      assert x == [x[0]] && x[0] in x;
      OneTexts(x[0]);
    }
  }

  /** The actions of one chunk come in the order of the fields. */
  lemma ChunkRises(r: Reading, c: Chunk)
    ensures var q := ReadChunk(r, c); r.actions <= q.actions && Rising(q.actions[|r.actions|..])
  {
    hide Rising;
    assert Rising([]) by { NoneRise(); }
    if Over(c) {
      EndTakes(r, c);
      assert r.actions[|r.actions|..] == [];
    } else if FirstDelta(c) != [] {
      var d := FirstDelta(c)[0];
      DeltaTexts(d);
      assert (r.actions + DeltaActions(d))[|r.actions|..] == DeltaActions(d);
    }
  }

  lemma NoneRise()
    ensures Rising([])
  {
  }

  lemma ChunkTakes(r: Reading, c: Chunk)
    requires !Over(c)
    ensures var q := ReadChunk(r, c);
            && TakesIn(r, q, FirstDelta(c)) && q.reason == LastOr(r.reason, FinishIn(c))
            && q.done == r.done && q.error == r.error
  {
    hide Gather, DeltaActions, DeltaTools;
    var q := ReadChunk(r, c);
    if FirstDelta(c) == [] {
      TakesNothing(r, q);
    } else {
      var d := FirstDelta(c)[0];
      DeltaTexts(d);
      ActionsTexts(r.actions, DeltaActions(d));
      GatherOne(ReasoningIn, d);
      GatherOne(RefusalIn, d);
      GatherOne(ContentIn, d);
      GatherOne(CallsIn, d);
      GatherOne(FragmentsIn, d);
    }
  }

  // ---- one stream ----

  /** The chunk that ends a stream, if one does. */
  function EndOf(cs: seq<Chunk>): Option<Chunk>
  {
    if |Live(cs)| < |cs| then Some(cs[|Live(cs)|]) else None
  }

  lemma {:induction false} LiveIs(cs: seq<Chunk>)
    ensures Live(cs) == cs[..|Live(cs)|] && (forall c <- Live(cs) :: !Over(c))
    ensures EndOf(cs).Some? ==> Over(EndOf(cs).value)
    decreases |cs|
  {
    if cs != [] && !Over(cs[0]) {
      LiveIs(cs[1..]);
      assert cs == [cs[0]] + cs[1..];
    }
  }

  /** What an error event says; 500 when it has no code of its own. */
  function Reported(e: UpstreamError): StreamError
  {
    StreamError.Upstream(if e.code.Some? then e.code.value else 500, e.message)
  }

  /** A stream adds the deltas of its live chunks; the last finish reason counts; its last chunk says how it ends. */
  lemma {:induction false} StreamTakes(r: Reading, cs: seq<Chunk>)
    ensures var q, end := Read(r, cs), EndOf(cs);
            && TakesIn(r, q, Deltas(Live(cs))) && q.reason == LastOr(r.reason, Gather(FinishIn, Live(cs)))
            && q.done == (r.done || (end.Some? && !end.value.readError && end.value.done))
            && q.error == (if end == None then r.error
                           else if end.value.readError then Some(ConnectionClosed)
                           else if end.value.done then r.error
                           else if end.value.error.Some? then Some(Reported(end.value.error.value))
                           else r.error)
    decreases |cs|
  {
    hide Gather, TakesIn, FirstDelta, FinishIn, DeltaActions, DeltaTools;
    if cs == [] || Over(cs[0]) {
      if cs != [] { EndTakes(r, cs[0]); }
      TakesNothing(r, Read(r, cs));
      NoneGathered();
      NoDeltas();
    } else {
      var c, q := cs[0], ReadChunk(r, cs[0]);
      ChunkTakes(r, c);
      StreamTakes(q, cs[1..]);
      GatherConcat(FirstDelta, [c], Live(cs[1..]));
      GatherConcat(FinishIn, [c], Live(cs[1..]));
      GatherOne(FirstDelta, c);
      GatherOne(FinishIn, c);
      TakesBoth(r, q, Read(q, cs[1..]), FirstDelta(c), Deltas(Live(cs[1..])));
      assert EndOf(cs) == EndOf(cs[1..]);
    }
  }

  lemma NoDeltas()
    ensures Deltas([]) == []
  {
  }

  lemma EndTakes(r: Reading, c: Chunk)
    requires Over(c)
    ensures var q := ReadChunk(r, c);
            && q.tools == r.tools && q.actions == r.actions && q.reason == r.reason
            && q.done == (r.done || (!c.readError && c.done))
            && q.error == (if c.readError then Some(ConnectionClosed) else if c.done then r.error
                           else Some(Reported(c.error.value)))
  {
  }

  // ---- the streams of a turn ----

  /** The streams that are read on after the one read so far has died. */
  ghost function Further(o: Options, r: Reading, attempt: nat): seq<seq<Chunk>>
    decreases if attempt <= o.midBudget then o.midBudget + 1 - attempt else 0
  {
    if attempt <= o.midBudget && Aborted(r.error) && !AnyNamed(r.tools) && o.midRetry(attempt, r.error.value).Some? then
      var cs := o.midRetry(attempt, r.error.value).value;
      [cs] + Further(o, ReadOn(r, cs), attempt + 1)
    else []
  }

  /** The streams a turn is heard from, before it is asked again for being invisible. */
  ghost function Streams(o: Options, chunks: seq<Chunk>): seq<seq<Chunk>>
  {
    [chunks] + Further(o, Verdict(Read(NOTHING, chunks)), 1)
  }

  /** The streams of the further attempts at an invisible turn. */
  ghost function Attempts(o: Options, g: Setting, r: Reading, attempt: nat): seq<seq<Chunk>>
    decreases if attempt <= o.invisibleBudget then o.invisibleBudget + 1 - attempt else 0
  {
    var f := FlowAt(g, r);
    if attempt <= o.invisibleBudget && Speechless(r, f) && !AnyNamed(r.tools)
        && o.invisibleRetry(attempt, f.reasoning, f.text).Some? then
      var cs := o.invisibleRetry(attempt, f.reasoning, f.text).value;
      [cs] + Attempts(o, g, Read(r, cs), attempt + 1)
    else []
  }

  ghost function AllAttempts(o: Options, g: Setting, heard: Reading): seq<seq<Chunk>>
  {
    var f := FlowAt(g, Turn.Flushed(heard));
    var cs := o.invisibleRetry(1, f.reasoning, f.text);
    if cs.Some? then [cs.value] + Attempts(o, g, Read(Turn.Flushed(heard).(tools := []), cs.value), 2) else []
  }

  /** Everything the streams say, up to where each of them ends. */
  function Heard(ss: seq<seq<Chunk>>): seq<Delta>
  {
    Deltas(Gather(Live, ss))
  }

  function Reasons(ss: seq<seq<Chunk>>): seq<string>
  {
    Gather(FinishIn, Gather(Live, ss))
  }

  lemma HeardFirst(cs: seq<Chunk>, ss: seq<seq<Chunk>>)
    ensures Heard([cs] + ss) == Deltas(Live(cs)) + Heard(ss)
    ensures Reasons([cs] + ss) == Gather(FinishIn, Live(cs)) + Reasons(ss)
  {
    hide Gather;
    GatherConcat(Live, [cs], ss);
    GatherOne(Live, cs);
    GatherConcat(FirstDelta, Live(cs), Gather(Live, ss));
    GatherConcat(FinishIn, Live(cs), Gather(Live, ss));
  }

  lemma HeardNothing()
    ensures Heard([]) == [] && Reasons([]) == []
  {
  }

  /** The error the last stream ends with, when these finish reasons have come. */
  function ErrorOf(cs: seq<Chunk>, reasons: seq<string>): Option<StreamError>
  {
    var end := EndOf(cs);
    if end.Some? && end.value.readError then Some(ConnectionClosed)
    else if end.Some? && !end.value.done && end.value.error.Some? then Some(Reported(end.value.error.value))
    else if end == None && reasons == [] then Some(ResponseStalled)
    else None
  }

  /** A restart between streams is no text. */
  lemma RestartTakes(r: Reading)
    ensures TakesIn(r, r.(actions := r.actions + [Restart], error := None), [])
    ensures TakesIn(r, r.(actions := r.actions + [Finish]), [])
  {
    hide Gather;
    ActionsTexts(r.actions, [Restart]);
    ActionsTexts(r.actions, [Finish]);
    OneTexts(Restart);
    OneTexts(Finish);
    NoneGathered();
    NothingMore(r);
  }

  /** A reading that has not ended, or died, has its finish reason from the chunks. */
  ghost predicate Sincere(r: Reading, reasons: seq<string>)
  {
    r.reason == LastOr("", reasons) && !r.done
  }

  lemma VerdictTakes(r: Reading, q: Reading, ds: seq<Delta>)
    ensures TakesIn(r, q, ds) ==> TakesIn(r, Verdict(q), ds)
  {
    hide Gather;
  }

  /** One more stream, read from where the last one died. */
  lemma StreamHeard(r: Reading, was: seq<string>, cs: seq<Chunk>)
    requires Sincere(r, was) && r.error == None && "" !in was
    ensures var q, reasons := Verdict(Read(r, cs)), was + Gather(FinishIn, Live(cs));
            && TakesIn(r, q, Deltas(Live(cs))) && q.error == ErrorOf(cs, reasons) && "" !in reasons
            && q.reason == (if reasons == [] && q.error == None then "stop" else LastOr("", reasons))
            && (Aborted(q.error) ==> Sincere(q, reasons))
  {
    hide TakesIn, FinishIn;
    StreamTakes(r, cs);
    LiveIs(cs);
    VerdictTakes(r, Read(r, cs), Deltas(Live(cs)));
    FinishesAreGiven(Live(cs));
    var xs := Gather(FinishIn, Live(cs));
    assert xs != [] ==> xs[|xs| - 1] in xs && (was + xs)[|was + xs| - 1] == xs[|xs| - 1];
    assert xs == [] ==> was + xs == was;
    assert was != [] ==> was[|was| - 1] in was;
  }

  lemma {:induction false} FinishesAreGiven(cs: seq<Chunk>)
    ensures "" !in Gather(FinishIn, cs)
  {
    if cs != [] { FinishesAreGiven(cs[..|cs| - 1]); }
  }

  /** The last stream says how the reading ends; the last reason given counts, those given before among them. */
  ghost predicate EndsLike(q: Reading, ss: seq<seq<Chunk>>, was: seq<string>)
    requires ss != []
  {
    var reasons := was + Reasons(ss);
    && q.error == ErrorOf(ss[|ss| - 1], reasons)
    && q.reason == (if reasons == [] && q.error == None then "stop" else LastOr("", reasons))
  }

  lemma EndsNow(q: Reading, cs: seq<Chunk>, was: seq<string>)
    requires var reasons := was + Gather(FinishIn, Live(cs));
             && q.error == ErrorOf(cs, reasons)
             && q.reason == (if reasons == [] && q.error == None then "stop" else LastOr("", reasons))
    ensures EndsLike(q, [cs] + [], was)
  {
    hide ErrorOf, FinishIn, Gather, Reasons;
    HeardFirst(cs, []);
    HeardNothing();
    assert Gather(FinishIn, Live(cs)) + [] == Gather(FinishIn, Live(cs));
  }

  lemma EndsLater(q: Reading, cs: seq<Chunk>, more: seq<seq<Chunk>>, was: seq<string>)
    requires more != [] && EndsLike(q, more, was + Gather(FinishIn, Live(cs)))
    ensures EndsLike(q, [cs] + more, was)
  {
    hide ErrorOf, FinishIn, Gather, Reasons;
    HeardFirst(cs, more);
    Joins(was, Gather(FinishIn, Live(cs)), Reasons(more));
  }

  /** Resuming reads the further streams, each to its end; the last of them says how the turn ends. */
  lemma {:induction false} ResumedHears(o: Options, r: Reading, attempt: nat, was: seq<string>)
    requires (Aborted(r.error) ==> Sincere(r, was)) && "" !in was
    ensures TakesIn(r, Resumed(o, r, attempt), Heard(Further(o, r, attempt)))
    ensures Further(o, r, attempt) == [] ==> Resumed(o, r, attempt) == r
    ensures Further(o, r, attempt) != [] ==> EndsLike(Resumed(o, r, attempt), Further(o, r, attempt), was)
    decreases if attempt <= o.midBudget then o.midBudget + 1 - attempt else 0
  {
    hide TakesIn, AnyNamed, Verdict, Read, ErrorOf, Heard, EndsLike, Gather;
    HeardNothing();
    TakesNothing(r, r);
    if Further(o, r, attempt) != [] {
      var cs := o.midRetry(attempt, r.error.value).value;
      var r' := r.(actions := r.actions + [Restart], error := None);
      var q, more := ReadOn(r, cs), Further(o, ReadOn(r, cs), attempt + 1);
      var was' := was + Gather(FinishIn, Live(cs));
      RestartTakes(r);
      StreamHeard(r', was, cs);
      ResumedHears(o, q, attempt + 1, was');
      HeardFirst(cs, more);
      TakesBoth(r, r', q, [], Deltas(Live(cs)));
      TakesBoth(r, q, Resumed(o, r, attempt), [] + Deltas(Live(cs)), Heard(more));
      assert [] + Deltas(Live(cs)) == Deltas(Live(cs));
      if more == [] { EndsNow(q, cs, was); } else { EndsLater(Resumed(o, r, attempt), cs, more, was); }
    }
  }

  /**
   * What a turn has heard: in each field, what the first deltas of the chunks of its streams hold, in order, up to the
   * end of each stream. The finish reason is the last one given, or "stop" where the end marker stands for it.
   */
  lemma TurnHears(o: Options, chunks: seq<Chunk>)
    ensures var q, ss := Resumed(o, Verdict(Read(NOTHING, chunks)), 1), Streams(o, chunks);
            TakesIn(NOTHING, q, Heard(ss)) && EndsLike(q, ss, [])
  {
    hide TakesIn, Verdict, Read, ErrorOf, Heard, Reasons, Resumed, Further, EndsLike, Gather;
    var r := Verdict(Read(NOTHING, chunks));
    var more, was := Further(o, r, 1), [] + Gather(FinishIn, Live(chunks));
    StreamHeard(NOTHING, [], chunks);
    ResumedHears(o, r, 1, was);
    HeardFirst(chunks, more);
    TakesBoth(NOTHING, r, Resumed(o, r, 1), Deltas(Live(chunks)), Heard(more));
    if more == [] { EndsNow(r, chunks, []); } else { EndsLater(Resumed(o, r, 1), chunks, more, []); }
  }

  lemma {:induction false} RetriedHears(o: Options, g: Setting, r: Reading, attempt: nat)
    ensures var q, ss := Retried(o, g, r, attempt), Attempts(o, g, r, attempt);
            TakesIn(r, q, Heard(ss)) && q.reason == LastOr(r.reason, Reasons(ss))
    decreases if attempt <= o.invisibleBudget then o.invisibleBudget + 1 - attempt else 0
  {
    hide TakesIn, AnyNamed, FlowAt, Speechless, Read, Heard, Reasons;
    HeardNothing();
    TakesNothing(r, r);
    var f := FlowAt(g, r);
    if Attempts(o, g, r, attempt) != [] {
      var cs := o.invisibleRetry(attempt, f.reasoning, f.text).value;
      var q := Read(r, cs);
      var more := Attempts(o, g, q, attempt + 1);
      StreamTakes(r, cs);
      RetriedHears(o, g, q, attempt + 1);
      HeardFirst(cs, more);
      TakesBoth(r, q, Retried(o, g, r, attempt), Deltas(Live(cs)), Heard(more));
    }
  }

  /** What was read in all: for an invisible turn that is tried again, what the further attempts say as well. */
  ghost function AllStreams(o: Options, g: Setting, toolNames: seq<Option<string>>, chunks: seq<Chunk>, heard: Reading)
    : seq<seq<Chunk>>
  {
    if Asked(o, g, toolNames, heard) then Streams(o, chunks) + AllAttempts(o, g, heard) else Streams(o, chunks)
  }

  /** All that the reading holds is what these deltas hold; the native calls are those of the deltas in `calls`. */
  ghost predicate Says(q: Reading, ds: seq<Delta>, calls: seq<Delta>)
  {
    && Gather(ReasonText, q.actions) == Gather(ReasoningIn, ds)
    && Gather(RefuseText, q.actions) == Gather(RefusalIn, ds)
    && Gather(ContentText, q.actions) == Gather(ContentIn, ds)
    && q.tools == Gather(FragmentsIn, calls)
  }

  /** The streams whose native calls count in the end: the further attempts alone, if there are any. */
  ghost function CallStreams(o: Options, g: Setting, toolNames: seq<Option<string>>, chunks: seq<Chunk>, heard: Reading)
    : seq<seq<Chunk>>
  {
    if Asked(o, g, toolNames, heard) then AllAttempts(o, g, heard) else Streams(o, chunks)
  }

  lemma SaysAll(q: Reading, ds: seq<Delta>)
    requires TakesIn(NOTHING, q, ds)
    ensures Says(q, ds, ds)
  {
    hide Gather;
    NoTexts();
    NothingAround(Gather(ReasoningIn, ds));
    NothingAround(Gather(RefusalIn, ds));
    NothingAround(Gather(ContentIn, ds));
    NothingAround(Gather(FragmentsIn, ds));
  }

  lemma HeardConcat(a: seq<seq<Chunk>>, b: seq<seq<Chunk>>)
    ensures Heard(a + b) == Heard(a) + Heard(b)
  {
    hide Gather;
    GatherConcat(Live, a, b);
    GatherConcat(FirstDelta, Gather(Live, a), Gather(Live, b));
  }

  /** With the calls forgotten, reading on adds what is said. */
  lemma SaysMore(q: Reading, last: Reading, ds: seq<Delta>, more: seq<Delta>)
    requires Says(q, ds, ds) && TakesIn(q.(tools := []), last, more)
    ensures Says(last, ds + more, more)
  {
    hide Gather;
    GatherConcat(ReasoningIn, ds, more);
    GatherConcat(RefusalIn, ds, more);
    GatherConcat(ContentIn, ds, more);
    NothingAround(Gather(FragmentsIn, more));
  }

  lemma FlushedSays(q: Reading, ds: seq<Delta>)
    requires TakesIn(NOTHING, q, ds)
    ensures TakesIn(NOTHING, Turn.Flushed(q), ds) && Turn.Flushed(q).reason == q.reason
  {
    hide TakesIn;
    RestartTakes(q);
    TakesBoth(NOTHING, q, Turn.Flushed(q), ds, []);
    assert ds + [] == ds;
  }

  /** What was read in all, over every stream that was opened. */
  lemma OutcomeHears(o: Options, g: Setting, toolNames: seq<Option<string>>, chunks: seq<Chunk>, heard: Reading,
                     last: Reading)
    requires heard == Resumed(o, Verdict(Read(NOTHING, chunks)), 1) && last == Outcome(o, g, toolNames, heard)
    ensures Says(last, Heard(AllStreams(o, g, toolNames, chunks, heard)),
                 Heard(CallStreams(o, g, toolNames, chunks, heard)))
    ensures last.reason == if Asked(o, g, toolNames, heard) then LastOr(heard.reason, Reasons(AllAttempts(o, g, heard)))
            else heard.reason
  {
    hide TakesIn, Says, Verdict, Read, Heard, Reasons, Resumed, Streams, Asked, FlowAt, Retried, Attempts;
    var ss := Streams(o, chunks);
    TurnHears(o, chunks);
    FlushedSays(heard, Heard(ss));
    SaysAll(Turn.Flushed(heard), Heard(ss));
    if Asked(o, g, toolNames, heard) {
      var f := FlowAt(g, Turn.Flushed(heard));
      var first := Turn.Flushed(heard).(tools := []);
      AskedIs(o, g, toolNames, heard);
      var cs := o.invisibleRetry(1, f.reasoning, f.text).value;
      var q := Read(first, cs);
      StreamTakes(first, cs);
      RetriedHears(o, g, q, 2);
      HeardFirst(cs, Attempts(o, g, q, 2));
      TakesBoth(first, q, last, Deltas(Live(cs)), Heard(Attempts(o, g, q, 2)));
      SaysMore(Turn.Flushed(heard), last, Heard(ss), Heard(AllAttempts(o, g, heard)));
      HeardConcat(ss, AllAttempts(o, g, heard));
    }
  }

  lemma AskedIs(o: Options, g: Setting, toolNames: seq<Option<string>>, heard: Reading)
    ensures Asked(o, g, toolNames, heard) ==>
            var f := FlowAt(g, Turn.Flushed(heard)); o.invisibleRetry(1, f.reasoning, f.text).Some?
  {
    hide FlowAt, Speechless;
  }

  // ---- quiet turns, from the chunks ----

  /** What has been said, and the content that waits for native calls or the end. */
  function Speak(p: (string, string), d: Delta): (string, string)
  {
    var waiting := p.1 + Join(ContentIn(d));
    if FragmentsIn(d) == [] then (p.0 + Join(RefusalIn(d)), waiting) else (p.0 + waiting, "")
  }

  function SpeakAll(p: (string, string), ds: seq<Delta>): (string, string)
    decreases |ds|
  {
    if ds == [] then p else SpeakAll(Speak(p, ds[0]), ds[1..])
  }

  /** Everything for the reader: a refusal is said at once, content when native calls come or the turn ends. */
  function Spoken(ds: seq<Delta>): string
  {
    var p := SpeakAll(("", ""), ds);
    p.0 + p.1
  }

  /** Without native calls that is every refusal and then all the content. */
  lemma {:induction false} SpokenInTwo(p: (string, string), ds: seq<Delta>)
    requires forall d <- ds :: FragmentsIn(d) == []
    ensures SpeakAll(p, ds) == (p.0 + Join(Gather(RefusalIn, ds)), p.1 + Join(Gather(ContentIn, ds)))
    decreases |ds|
  {
    hide FragmentsIn, ContentIn, RefusalIn;
    if ds == [] {
      assert p.0 + "" == p.0 && p.1 + "" == p.1;
    } else {
      var d, rest := ds[0], ds[1..];
      assert d in ds && forall e <- rest :: e in ds;
      SpokenInTwo(Speak(p, d), rest);
      GatherConcat(RefusalIn, [d], rest);
      GatherConcat(ContentIn, [d], rest);
      GatherOne(RefusalIn, d);
      GatherOne(ContentIn, d);
      assert ds == [d] + rest;
      JoinConcat(RefusalIn(d), Gather(RefusalIn, rest));
      JoinConcat(ContentIn(d), Gather(ContentIn, rest));
      Joins(p.0, Join(RefusalIn(d)), Join(Gather(RefusalIn, rest)));
      Joins(p.1, Join(ContentIn(d)), Join(Gather(ContentIn, rest)));
    }
  }

  function Aloud(actions: seq<Action>): (string, string)
  {
    (M.Told(actions), M.Waiting(actions))
  }

  lemma AloudSnoc(actions: seq<Action>, a: Action)
    ensures var (told, waiting) := Aloud(actions);
            Aloud(actions + [a]) == if a.Refuse? then (told + a.text, waiting)
                                    else if a.Calls? then (told + waiting, "")
                                    else if a.Content? then (told, waiting + a.text) else (told, waiting)
  {
    assert (actions + [a])[..|actions|] == actions;
  }

  lemma AloudDelta(actions: seq<Action>, d: Delta)
    ensures Aloud(actions + DeltaActions(d)) == Speak(Aloud(actions), d)
  {
    hide Aloud;
    var a := if Presence(d.reasoning) then actions + [Reason(d.reasoning.value)] else actions;
    assert Aloud(a) == Aloud(actions) by { if a != actions { AloudSnoc(actions, Reason(d.reasoning.value)); } }
    assert Join([]) == "";
    assert forall s: string :: s + "" == s;
    if Presence(d.refusal) {
      AloudSnoc(a, Refuse(d.refusal.value));
      assert actions + DeltaActions(d) == a + [Refuse(d.refusal.value)];
      JoinOne(d.refusal.value);
    } else {
      var b := if Presence(d.content) then a + [Content(d.content.value, [], false, "")] else a;
      if Presence(d.content) {
        AloudSnoc(a, Content(d.content.value, [], false, ""));
        JoinOne(d.content.value);
      }
      if d.toolCalls != [] { AloudSnoc(b, Calls); }
      assert actions + DeltaActions(d) == if d.toolCalls != [] then b + [Calls] else b;
    }
  }

  lemma JoinOne(s: string)
    ensures Join([s]) == s
  {
    JoinAppend([], s);
  }

  lemma {:induction false} StreamSpeaks(r: Reading, cs: seq<Chunk>)
    ensures Aloud(Read(r, cs).actions) == SpeakAll(Aloud(r.actions), Deltas(Live(cs)))
    decreases |cs|
  {
    hide Aloud, Speak, DeltaActions, DeltaTools, Gather, FirstDelta;
    if cs == [] || Over(cs[0]) {
      if cs != [] { EndTakes(r, cs[0]); }
      NoDeltas();
    } else {
      var c, q := cs[0], ReadChunk(r, cs[0]);
      StreamSpeaks(q, cs[1..]);
      GatherConcat(FirstDelta, [c], Live(cs[1..]));
      GatherOne(FirstDelta, c);
      ChunkSpeaks(r, c);
      SpeakFirst(Aloud(r.actions), FirstDelta(c), Deltas(Live(cs[1..])));
    }
  }

  lemma ChunkSpeaks(r: Reading, c: Chunk)
    requires !Over(c)
    ensures Aloud(ReadChunk(r, c).actions) == SpeakAll(Aloud(r.actions), FirstDelta(c)) && |FirstDelta(c)| <= 1
  {
    hide Aloud, Speak, DeltaActions, DeltaTools;
    if FirstDelta(c) != [] {
      var d := FirstDelta(c)[0];
      AloudDelta(r.actions, d);
      assert SpeakAll(Aloud(r.actions), [d]) == SpeakAll(Speak(Aloud(r.actions), d), []);
    }
  }

  lemma SpeakFirst(p: (string, string), a: seq<Delta>, ds: seq<Delta>)
    requires |a| <= 1
    ensures SpeakAll(p, a + ds) == SpeakAll(SpeakAll(p, a), ds)
  {
    hide Speak;
    if a != [] {
      assert (a + ds)[0] == a[0] && (a + ds)[1..] == ds;
      assert a[1..] == [];
    } else {
      assert a + ds == ds;
    }
  }

  lemma {:induction false} TextsJoined(actions: seq<Action>)
    ensures P.Contents(actions) == Join(Gather(ContentText, actions))
    ensures M.Thoughts(actions) == Join(Gather(ReasonText, actions))
  {
    if actions != [] {
      var a, before := actions[|actions| - 1], actions[..|actions| - 1];
      TextsJoined(before);
      JoinConcat(Gather(ContentText, before), ContentText(a));
      JoinConcat(Gather(ReasonText, before), ReasonText(a));
      if a.Content? { JoinOne(a.text); }
      if a.Reason? { JoinOne(a.text); }
    }
  }

  predicate NoTags(d: Delta)
  {
    forall s <- ContentIn(d) :: '<' !in s
  }

  predicate OnlyContent(d: Delta)
  {
    ReasoningIn(d) == [] && RefusalIn(d) == [] && FragmentsIn(d) == []
  }

  lemma {:induction false} StreamSimple(r: Reading, cs: seq<Chunk>)
    ensures M.AllSimple(r.actions) && (forall d <- Deltas(Live(cs)) :: NoTags(d)) ==> M.AllSimple(Read(r, cs).actions)
    ensures P.AllContent(r.actions) && (forall d <- Deltas(Live(cs)) :: OnlyContent(d)) ==>
            P.AllContent(Read(r, cs).actions)
    decreases |cs|
  {
    hide M.AllSimple, P.AllContent, DeltaActions, DeltaTools, Gather, NoTags, OnlyContent, FirstDelta;
    if cs == [] || Over(cs[0]) {
      if cs != [] { EndTakes(r, cs[0]); }
    } else {
      var c, q := cs[0], ReadChunk(r, cs[0]);
      StreamSimple(q, cs[1..]);
      GatherConcat(FirstDelta, [c], Live(cs[1..]));
      GatherOne(FirstDelta, c);
      assert forall d :: d in FirstDelta(c) || d in Deltas(Live(cs[1..])) ==> d in Deltas(Live(cs));
      ChunkSimple(r, c);
    }
  }

  lemma ChunkSimple(r: Reading, c: Chunk)
    requires !Over(c)
    ensures M.AllSimple(r.actions) && (forall d <- FirstDelta(c) :: NoTags(d)) ==> M.AllSimple(ReadChunk(r, c).actions)
    ensures P.AllContent(r.actions) && (forall d <- FirstDelta(c) :: OnlyContent(d)) ==>
            P.AllContent(ReadChunk(r, c).actions)
  {
    hide DeltaActions, DeltaTools, NoTags, OnlyContent;
    if FirstDelta(c) != [] {
      var d := FirstDelta(c)[0];
      assert d in FirstDelta(c);
      DeltaSimple(d);
      assert forall a :: a in r.actions + DeltaActions(d) ==> a in r.actions || a in DeltaActions(d);
    }
  }

  lemma DeltaSimple(d: Delta)
    ensures NoTags(d) ==> M.AllSimple(DeltaActions(d))
    ensures OnlyContent(d) ==> P.AllContent(DeltaActions(d))
  {
  }

  /** One stream was enough: it did not die, or a call had a name, or the hook refused. */
  ghost predicate Undivided(o: Options, chunks: seq<Chunk>)
  {
    Streams(o, chunks) == [chunks]
  }

  /** Nothing but quiet text comes in, for a reader who wants reasoning. */
  ghost predicate PlainChunks(o: Options, ds: seq<Delta>)
  {
    && o.thinkingEnabled && (forall d <- ds :: OnlyContent(d))
    && P.QuietInput(o.defend, Join(Gather(ContentIn, ds)))
  }

  /** Anything may come in, but nothing in the content is a tag or a call. */
  ghost predicate SimpleChunks(o: Options, ds: seq<Delta>)
  {
    && o.thinkingEnabled && (forall d <- ds :: NoTags(d))
    && P.QuietText(o.defend, Join(Gather(ContentIn, ds)))
    && M.Unmarked(o.defend, Spoken(ds), Join(Gather(ReasoningIn, ds)))
  }

  /** Then what has been heard is this stream's. */
  lemma HeardAlone(o: Options, chunks: seq<Chunk>)
    requires Undivided(o, chunks)
    ensures Resumed(o, Verdict(Read(NOTHING, chunks)), 1).actions == Read(NOTHING, chunks).actions
    ensures TakesIn(NOTHING, Read(NOTHING, chunks), Deltas(Live(chunks)))
  {
    hide Read, TakesIn, AnyNamed, Gather;
    var more := Further(o, Verdict(Read(NOTHING, chunks)), 1);
    assert |[chunks] + more| == 1 + |more|;
    StreamTakes(NOTHING, chunks);
  }

  lemma PlainHeard(o: Options, chunks: seq<Chunk>, heard: Reading)
    requires Undivided(o, chunks) && heard == Resumed(o, Verdict(Read(NOTHING, chunks)), 1)
    requires PlainChunks(o, Deltas(Live(chunks)))
    ensures PlainSetting(o, heard.actions)
            && P.Contents(heard.actions) == Join(Gather(ContentIn, Deltas(Live(chunks))))
  {
    hide Read, TakesIn, Undivided, Verdict, Resumed, OnlyContent, P.QuietInput, P.Contents, Gather;
    var ds := Deltas(Live(chunks));
    HeardAlone(o, chunks);
    StreamSimple(NOTHING, chunks);
    assert P.AllContent([]);
    SaysAll(Read(NOTHING, chunks), ds);
    TextsJoined(heard.actions);
  }

  lemma SimpleHeard(o: Options, chunks: seq<Chunk>, heard: Reading)
    requires Undivided(o, chunks) && heard == Resumed(o, Verdict(Read(NOTHING, chunks)), 1)
    requires SimpleChunks(o, Deltas(Live(chunks)))
    ensures var ds := Deltas(Live(chunks));
            && o.thinkingEnabled && M.AllSimple(heard.actions) && P.QuietText(o.defend, P.Contents(heard.actions))
            && M.Told(heard.actions) + M.Waiting(heard.actions) == Spoken(ds)
            && M.Thoughts(heard.actions) == Join(Gather(ReasoningIn, ds))
            && M.Unmarked(o.defend, Spoken(ds), Join(Gather(ReasoningIn, ds)))
  {
    hide Read, TakesIn, Undivided, Verdict, Resumed, NoTags, P.QuietText, P.Contents, M.Unmarked, M.Thoughts, SpeakAll,
         Gather;
    var ds := Deltas(Live(chunks));
    HeardAlone(o, chunks);
    StreamSimple(NOTHING, chunks);
    assert M.AllSimple([]);
    SaysAll(Read(NOTHING, chunks), ds);
    TextsJoined(heard.actions);
    StreamSpeaks(NOTHING, chunks);
    assert Aloud([]) == ("", "");
  }

  // ---- how a turn ends ----

  /** The first of the request's stop sequences that is not empty and that the text ends with, if there is one. */
  lemma {:induction false} StopSequenceIsFirst(text: string, sequences: seq<string>)
    ensures var r := DetectStopSequence(text, sequences);
            && (r == None <==> forall q <- sequences :: q == "" || !EndsIn(text, q))
            && (r.Some? ==> exists k :: 0 <= k < |sequences| && sequences[k] == r.value != "" && EndsIn(text, r.value)
                                        && forall j :: 0 <= j < k ==> sequences[j] == "" || !EndsIn(text, sequences[j]))
  {
    if text == "" {
      assert forall q <- sequences :: q != "" ==> !EndsIn(text, q);
    } else if sequences != [] {
      var rest := sequences[1..];
      StopSequenceIsFirst(text, rest);
      assert forall q :: q in sequences <==> q == sequences[0] || q in rest;
      var r := DetectStopSequence(text, sequences);
      if sequences[0] != "" && EndsIn(text, sequences[0]) {
        assert r == Some(sequences[0]);
      } else if r.Some? {
        var k :| 0 <= k < |rest| && rest[k] == r.value && forall j :: 0 <= j < k ==>
            rest[j] == "" || !EndsIn(text, rest[j]);
        assert sequences[k + 1] == r.value;
        assert forall j :: 0 < j < k + 1 ==> sequences[j] == rest[j - 1];
      }
    }
  }

  predicate EndsIn(text: string, q: string)
  {
    |q| <= |text| && forall i :: 0 <= i < |q| ==> text[|text| - |q| + i] == q[i]
  }

  /** The finish reasons that have a stop reason of their own, and no others do. */
  lemma StopReasonMeans(reason: string)
    ensures var r := MapStopReason(reason);
            && (r == "max_tokens" <==> reason == "length") && (r == "tool_use" <==> reason == "tool_calls")
            && (r == "refusal" <==> reason == "content_filter")
            && r in {"max_tokens", "tool_use", "refusal", "end_turn"}
  {
  }
}
