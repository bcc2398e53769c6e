/**
 * What the Responses translator takes in, in the chunks' own terms: every chunk that is no failure and no end marker
 * counts, wherever it comes (internal/responses/stream.go).
 */
module TakenIn {
  import opened Wrappers
  import opened Strings
  import opened Sequences
  import opened TextFlow
  import opened Upstream
  import opened Fragments
  import opened Items
  import ToolLog
  import L = Heard
  import M = MixedRun
  import P = PlainRun

  function Sane(c: Chunk): seq<Chunk>
  {
    if c.readError || c.done || c.error.Some? then [] else [c]
  }

  /** The first deltas of all chunks that count. */
  function Taken(cs: seq<Chunk>): seq<Delta>
  {
    Gather(L.FirstDelta, Gather(Sane, cs))
  }

  function ContentIn(d: Delta): seq<string>
  {
    L.Given(d.content)
  }

  /** A refusal comes ahead of the content of its chunk, and does not supersede it. */
  function SpokenIn(d: Delta): seq<string>
  {
    L.RefusalIn(d) + ContentIn(d)
  }

  function FragmentsIn(d: Delta): seq<ToolLog.ToolCallDelta>
  {
    d.toolCalls
  }

  /** Here a finish reason counts without a delta, too. */
  function FinishIn(c: Chunk): seq<string>
  {
    if c.choices == [] then [] else L.Given(c.choices[0].finishReason)
  }

  /** The chunk reports a failure. */
  function FailureIn(c: Chunk): seq<Chunk>
  {
    if c.readError || (!c.done && c.error.Some?) then [c] else []
  }

  function SpokenText(a: Action): seq<string>
  {
    if a.Refuse? || a.Content? then [a.text] else []
  }

  /** What has been taken in is what these chunks hold, each field in order; a refusal and content come in one order. */
  ghost predicate Takes(k: Intake, ds: seq<Delta>)
  {
    && Gather(L.ReasonText, k.actions) == Gather(L.ReasoningIn, ds)
    && Gather(L.RefuseText, k.actions) == Gather(L.RefusalIn, ds)
    && Gather(L.ContentText, k.actions) == Gather(ContentIn, ds)
    && Gather(SpokenText, k.actions) == Gather(SpokenIn, ds)
    && k.calls == Gather(FragmentsIn, ds)
  }

  lemma TextsOf(a: seq<Action>, b: seq<Action>)
    ensures Gather(L.ReasonText, a + b) == Gather(L.ReasonText, a) + Gather(L.ReasonText, b)
    ensures Gather(L.RefuseText, a + b) == Gather(L.RefuseText, a) + Gather(L.RefuseText, b)
    ensures Gather(L.ContentText, a + b) == Gather(L.ContentText, a) + Gather(L.ContentText, b)
    ensures Gather(SpokenText, a + b) == Gather(SpokenText, a) + Gather(SpokenText, b)
  {
    hide Gather;
    GatherConcat(L.ReasonText, a, b);
    GatherConcat(L.RefuseText, a, b);
    GatherConcat(L.ContentText, a, b);
    GatherConcat(SpokenText, a, b);
  }

  lemma FewTexts(x: seq<Action>)
    requires |x| <= 1
    ensures Gather(L.ReasonText, x) == (if x == [] then [] else L.ReasonText(x[0]))
    ensures Gather(L.RefuseText, x) == (if x == [] then [] else L.RefuseText(x[0]))
    ensures Gather(L.ContentText, x) == (if x == [] then [] else L.ContentText(x[0]))
    ensures Gather(SpokenText, x) == (if x == [] then [] else SpokenText(x[0]))
  {
    hide Gather;
    L.NoTexts();
    NothingSpoken();
    if x != [] {
      assert x == [x[0]];
      L.OneTexts(x[0]);
      GatherOne(SpokenText, x[0]);
    }
  }

  lemma NothingSpoken()
    ensures Gather(SpokenText, []) == []
  {
  }

  lemma DeltaSplits(d: Delta) returns (a: seq<Action>, b: seq<Action>, c: seq<Action>)
    ensures DeltaActions(d) == a + b + c && |a| <= 1 && |b| <= 1 && |c| <= 1
    ensures (if a == [] then [] else L.ReasonText(a[0])) == L.ReasoningIn(d) && (a != [] ==> a[0].Reason?)
    ensures (if b == [] then [] else L.RefuseText(b[0])) == L.RefusalIn(d) && (b != [] ==> b[0].Refuse?)
    ensures (if c == [] then [] else L.ContentText(c[0])) == ContentIn(d) && (c != [] ==> c[0].Content?)
  {
    a := if Presence(d.reasoning) then [Reason(d.reasoning.value)] else [];
    b := if Presence(d.refusal) then [Refuse(d.refusal.value)] else [];
    c := if Presence(d.content) then [Content(d.content.value, [], false, "")] else [];
  }

  lemma DeltaTexts(d: Delta)
    ensures var x := DeltaActions(d);
            && Gather(L.ReasonText, x) == L.ReasoningIn(d) && Gather(L.RefuseText, x) == L.RefusalIn(d)
            && Gather(L.ContentText, x) == ContentIn(d) && Gather(SpokenText, x) == SpokenIn(d)
  {
    hide Gather, DeltaActions, L.ReasoningIn, L.RefusalIn, ContentIn;
    var a, b, c := DeltaSplits(d);
    FewTexts(a);
    FewTexts(b);
    FewTexts(c);
    TextsOf(a, b);
    TextsOf(a + b, c);
    L.NothingAround(L.ReasoningIn(d));
    L.NothingAround(L.RefusalIn(d));
    L.NothingAround(ContentIn(d));
    L.NothingAround(SpokenIn(d));
  }

  /** One more chunk. */
  lemma ChunkTakes(k: Intake, ds: seq<Delta>, c: Chunk)
    requires Takes(k, ds)
    ensures Takes(TakeChunk(k, c), ds + (if Sane(c) == [] then [] else L.FirstDelta(c)))
  {
    hide Gather, DeltaActions, Interrupted;
    if Sane(c) == [] || L.FirstDelta(c) == [] {
      assert ds + [] == ds;
    } else {
      var d := L.FirstDelta(c)[0];
      DeltaTexts(d);
      TextsOf(k.actions, DeltaActions(d));
      GatherSnoc(L.ReasoningIn, ds, d);
      GatherSnoc(L.RefusalIn, ds, d);
      GatherSnoc(ContentIn, ds, d);
      GatherSnoc(SpokenIn, ds, d);
      GatherSnoc(FragmentsIn, ds, d);
    }
  }

  /** The failure a chunk stands for. */
  function Told(c: Chunk): StreamFailure
  {
    StreamFailure("server_error",
                  if c.readError then "Connection closed mid-response. The response above may be incomplete."
                  else "Server error mid-response. The response above may be incomplete. (upstream: "
                       + (if c.error.Some? && c.error.value.message != "" then c.error.value.message
                             else "upstream error") + ")")
  }

  /** Everything that has been taken in is in the chunks; the last finish reason counts, and the last failure. */
  lemma {:induction false} AllTaken(cs: seq<Chunk>)
    ensures var k := TakeAll(cs);
            && Takes(k, Taken(cs)) && k.reason == L.LastOr("", Gather(FinishIn, Gather(Sane, cs)))
            && k.failure == (var bad := Gather(FailureIn, cs); if bad == [] then None else Some(Told(bad[|bad| - 1])))
  {
    hide Takes, TakeChunk, L.FirstDelta, FinishIn, Told;
    if cs == [] {
      assert Takes(TakeAll([]), []) by { NothingTaken(); }
    } else {
      var before, c := cs[..|cs| - 1], cs[|cs| - 1];
      AllTaken(before);
      ChunkTakes(TakeAll(before), Taken(before), c);
      ChunkEnds(TakeAll(before), c);
      GatherConcat(L.FirstDelta, Gather(Sane, before), Sane(c));
      GatherConcat(FinishIn, Gather(Sane, before), Sane(c));
      if Sane(c) != [] {
        GatherOne(L.FirstDelta, c);
        GatherOne(FinishIn, c);
      }
    }
  }

  lemma CallsTaken(cs: seq<Chunk>)
    ensures TakeAll(cs).calls == Gather(FragmentsIn, Taken(cs))
  {
    hide TakeAll, Taken, Gather, Told, FinishIn, FailureIn;
    AllTaken(cs);
  }

  lemma NothingTaken()
    ensures Takes(TakeAll([]), [])
  {
  }

  lemma ChunkEnds(k: Intake, c: Chunk)
    ensures var k' := TakeChunk(k, c);
            && k'.reason == L.LastOr(k.reason, if Sane(c) == [] then [] else FinishIn(c))
            && k'.failure == if FailureIn(c) == [] then k.failure else Some(Told(c))
  {
    hide DeltaActions;
    TellsIt(c);
  }

  lemma TellsIt(c: Chunk)
    ensures c.error.Some? && !c.readError ==> Interrupted(c.error.value.message) == Told(c)
  {
    if c.error.Some? {
      var msg := if c.error.value.message == "" then "upstream error" else c.error.value.message;
      assert "Server error mid-response. The response above may be incomplete. (upstream: " + msg + ")"
          == "Server error mid-response. The response above may be incomplete. (upstream: " + (msg) + ")";
    }
  }

  /** The status of the terminal event, read off the chunks. */
  lemma StatusMeans(cs: seq<Chunk>)
    ensures var s, reason := StatusOf(TakeAll(cs)), L.LastOr("", Gather(FinishIn, Gather(Sane, cs)));
            && (s == Failed <==> exists c <- cs :: c.readError || (!c.done && c.error.Some?))
            && (s == Incomplete("max_output_tokens") <==> s != Failed && reason == "length")
            && (s == Incomplete("content_filter") <==> s != Failed && reason == "content_filter")
            && (s.Incomplete? ==> s.reason in {"max_output_tokens", "content_filter"})
            && (s.Incomplete? || s == Failed || s == Completed)
  {
    hide TakeAll, Takes, Told, Taken, FinishIn, Sane;
    AllTaken(cs);
    NoFailure(cs);
  }

  lemma {:induction false} NoFailure(cs: seq<Chunk>)
    ensures Gather(FailureIn, cs) == [] <==> forall c <- cs :: FailureIn(c) == []
  {
    hide FailureIn;
    if cs != [] {
      NoFailure(cs[..|cs| - 1]);
      assert cs == cs[..|cs| - 1] + [cs[|cs| - 1]];
    }
  }

  // ---- quiet responses, from the chunks ----

  predicate OnlyContent(d: Delta)
  {
    L.ReasoningIn(d) == [] && L.RefusalIn(d) == []
  }

  predicate NoTags(d: Delta)
  {
    forall s <- ContentIn(d) :: '<' !in s
  }

  lemma {:induction false} IntakeSimple(cs: seq<Chunk>)
    ensures (forall d <- Taken(cs) :: NoTags(d)) ==> M.AllSimple(TakeAll(cs).actions)
    ensures (forall d <- Taken(cs) :: OnlyContent(d)) ==> P.AllContent(TakeAll(cs).actions)
  {
    hide M.AllSimple, P.AllContent, TakeChunk, Gather, Sane, NoTags, OnlyContent, L.FirstDelta;
    if cs == [] {
      assert M.AllSimple([]) && P.AllContent([]) by { NothingSimple(); }
    } else {
      var before, c := cs[..|cs| - 1], cs[|cs| - 1];
      IntakeSimple(before);
      TakenNext(before, c);
      assert cs == before + [c];
      ChunkSimple(TakeAll(before), c);
    }
  }

  lemma NothingSimple()
    ensures M.AllSimple([]) && P.AllContent([])
  {
  }

  lemma TakenNext(cs: seq<Chunk>, c: Chunk)
    ensures Taken(cs + [c]) == Taken(cs) + (if Sane(c) == [] then [] else L.FirstDelta(c))
  {
    hide Gather, L.FirstDelta;
    GatherSnoc(Sane, cs, c);
    GatherConcat(L.FirstDelta, Gather(Sane, cs), Sane(c));
    if Sane(c) != [] { GatherOne(L.FirstDelta, c); } else { NothingFirst(); }
  }

  lemma NothingFirst()
    ensures Gather(L.FirstDelta, []) == []
  {
  }

  lemma ChunkSimple(k: Intake, c: Chunk)
    ensures var ds := if Sane(c) == [] then [] else L.FirstDelta(c);
            && (M.AllSimple(k.actions) && (forall d <- ds :: NoTags(d)) ==> M.AllSimple(TakeChunk(k, c).actions))
            && (P.AllContent(k.actions) && (forall d <- ds :: OnlyContent(d)) ==> P.AllContent(TakeChunk(k, c).actions))
  {
    hide DeltaActions, NoTags, OnlyContent, Interrupted;
    if Sane(c) != [] && L.FirstDelta(c) != [] {
      var d := L.FirstDelta(c)[0];
      assert d in L.FirstDelta(c);
      DeltaSimple(d);
      assert forall a :: a in k.actions + DeltaActions(d) ==> a in k.actions || a in DeltaActions(d);
    }
  }

  lemma DeltaSimple(d: Delta)
    ensures NoTags(d) ==> M.AllSimple(DeltaActions(d))
    ensures OnlyContent(d) ==> P.AllContent(DeltaActions(d))
  {
  }

  /** Without native calls in the script refusals are told and content waits. */
  lemma {:induction false} NeverCalled(actions: seq<Action>)
    requires forall a <- actions :: !a.Calls?
    ensures M.Told(actions) == Join(Gather(L.RefuseText, actions))
    ensures M.Waiting(actions) == Join(Gather(L.ContentText, actions))
  {
    if actions != [] {
      var a, before := actions[|actions| - 1], actions[..|actions| - 1];
      assert a in actions && forall b <- before :: b in actions;
      NeverCalled(before);
      JoinConcat(Gather(L.RefuseText, before), L.RefuseText(a));
      JoinConcat(Gather(L.ContentText, before), L.ContentText(a));
      if a.Refuse? || a.Content? { L.JoinOne(a.text); }
    }
  }

  lemma {:induction false} TakesNoCalls(cs: seq<Chunk>)
    ensures forall a <- TakeAll(cs).actions :: !a.Calls?
  {
    if cs != [] { TakesNoCalls(cs[..|cs| - 1]); }
  }

  /** Nothing but quiet text comes in. */
  ghost predicate PlainChunks(defend: bool, ds: seq<Delta>)
  {
    (forall d <- ds :: OnlyContent(d)) && P.QuietInput(defend, Join(Gather(ContentIn, ds)))
  }

  /** Anything may come in, but nothing in the content is a tag or a call. */
  ghost predicate SimpleChunks(defend: bool, ds: seq<Delta>)
  {
    && (forall d <- ds :: NoTags(d)) && P.QuietText(defend, Join(Gather(ContentIn, ds)))
    && M.Unmarked(defend, Spoken(ds), Join(Gather(L.ReasoningIn, ds)))
  }

  /** Every refusal, and then all the content. */
  function Spoken(ds: seq<Delta>): string
  {
    Join(Gather(L.RefusalIn, ds)) + Join(Gather(ContentIn, ds))
  }

  lemma PlainTaken(defend: bool, cs: seq<Chunk>)
    requires PlainChunks(defend, Taken(cs))
    ensures P.AllContent(TakeAll(cs).actions) && P.QuietInput(defend, Join(Gather(ContentIn, Taken(cs))))
            && P.Contents(TakeAll(cs).actions) == Join(Gather(ContentIn, Taken(cs)))
  {
    hide TakeAll, OnlyContent, P.QuietInput, P.Contents, Gather, Told, Taken;
    IntakeSimple(cs);
    AllTaken(cs);
    L.TextsJoined(TakeAll(cs).actions);
  }

  lemma SimpleTaken(defend: bool, cs: seq<Chunk>)
    requires SimpleChunks(defend, Taken(cs))
    ensures var actions, ds := TakeAll(cs).actions, Taken(cs);
            && M.AllSimple(actions) && P.QuietText(defend, P.Contents(actions))
            && M.Told(actions) + M.Waiting(actions) == Spoken(ds)
            && M.Thoughts(actions) == Join(Gather(L.ReasoningIn, ds))
            && M.Unmarked(defend, Spoken(ds), Join(Gather(L.ReasoningIn, ds)))
  {
    hide TakeAll, NoTags, P.QuietText, P.Contents, M.Unmarked, M.Thoughts, M.Told, M.Waiting, Gather, Told, Taken;
    IntakeSimple(cs);
    AllTaken(cs);
    L.TextsJoined(TakeAll(cs).actions);
    TakesNoCalls(cs);
    NeverCalled(TakeAll(cs).actions);
  }
}
