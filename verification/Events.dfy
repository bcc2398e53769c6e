/**
 * The events of one Anthropic message stream, and a ledger that reads them: it knows which content
 * blocks are open and refuses an event the protocol does not allow next.
 */
module Events {
  import opened Wrappers

  datatype Kind = ThinkingBlock | TextBlock | ToolBlock

  datatype Event =
    | MessageStart
    | BlockStart(index: nat, kind: Kind, id: string, name: string)
    | ThinkingDelta(index: nat, text: string)
    | SignatureDelta(index: nat, signature: string)
    | TextDelta(index: nat, text: string)
    | InputJsonDelta(index: nat, json: string)
    | BlockStop(index: nat)
    | MessageDelta(stopReason: string, stopSequence: Option<string>)
    | MessageStop

  datatype Phase = Unopened | Streaming | Closing | Closed

  datatype Ledger = Ledger(next: nat, open: map<nat, Kind>, phase: Phase)

  /** No text or thinking block is open. */
  predicate NoContentOpen(open: map<nat, Kind>)
  {
    forall k :: k in open ==> open[k] == ToolBlock
  }

  function DeltaKind(e: Event): (r: Option<Kind>)
  {
    match e
    case ThinkingDelta(_, _) => Some(ThinkingBlock)
    case SignatureDelta(_, _) => Some(ThinkingBlock)
    case TextDelta(_, _) => Some(TextBlock)
    case InputJsonDelta(_, _) => Some(ToolBlock)
    case _ => None
  }

  /** One event against the ledger; None when it is out of place. */
  function Step(l: Ledger, e: Event): Option<Ledger>
  {
    match e
    case MessageStart => if l.phase == Unopened then Some(l.(phase := Streaming)) else None
    case BlockStart(i, kind, _, _) =>
      if l.phase == Streaming && i == l.next && NoContentOpen(l.open) then
        Some(l.(next := l.next + 1, open := l.open[i := kind]))
      else None
    case BlockStop(i) =>
      if l.phase == Streaming && i in l.open then Some(l.(open := l.open - {i})) else None
    case MessageDelta(_, _) =>
      if l.phase == Streaming && l.open == map[] then Some(l.(phase := Closing)) else None
    case MessageStop => if l.phase == Closing then Some(l.(phase := Closed)) else None
    case _ =>
      if l.phase == Streaming && e.index in l.open && DeltaKind(e) == Some(l.open[e.index]) then Some(l) else None
  }

  function Replay(l: Ledger, es: seq<Event>): Option<Ledger>
  {
    if es == [] then Some(l)
    else
      var r := Replay(l, es[..|es| - 1]);
      if r.Some? then Step(r.value, es[|es| - 1]) else None
  }

  /** Where a message stream starts: at block `first`, with its message_start still to come or already sent. */
  function Origin(first: nat, begun: bool): Ledger
  {
    Ledger(first, map[], if begun then Streaming else Unopened)
  }

  // ---- what a trace carries ----

  function TextIn(e: Event): string { if e.TextDelta? then e.text else "" }

  function ReasoningIn(e: Event): string { if e.ThinkingDelta? then e.text else "" }

  function FragmentIn(e: Event, index: nat): seq<string> { if e.InputJsonDelta? && e.index == index then [e.json]
        else [] }

  function BlockTextIn(e: Event, index: nat): string { if (e.TextDelta? || e.ThinkingDelta?) && e.index == index then
        e.text else "" }

  function StartIn(e: Event): seq<nat> { if e.BlockStart? then [e.index] else [] }

  function StopIn(e: Event, index: nat): nat { if e == BlockStop(index) then 1 else 0 }

  function TextOf(es: seq<Event>): string
  {
    if es == [] then ""
    else TextOf(es[..|es| - 1]) + TextIn(es[|es| - 1])
  }

  function ReasoningOf(es: seq<Event>): string
  {
    if es == [] then ""
    else ReasoningOf(es[..|es| - 1]) + ReasoningIn(es[|es| - 1])
  }

  /** The JSON fragments sent for one block. */
  function FragmentsOf(es: seq<Event>, index: nat): seq<string>
  {
    if es == [] then []
    else FragmentsOf(es[..|es| - 1], index) + FragmentIn(es[|es| - 1], index)
  }

  /** The text or thinking sent for one block. */
  function BlockText(es: seq<Event>, index: nat): string
  {
    if es == [] then ""
    else BlockText(es[..|es| - 1], index) + BlockTextIn(es[|es| - 1], index)
  }

  predicate Starts(es: seq<Event>, kind: Kind)
  {
    exists p :: 0 <= p < |es| && es[p].BlockStart? && es[p].kind == kind
  }

  predicate StartsAt(es: seq<Event>, kind: Kind, index: nat)
  {
    exists p :: 0 <= p < |es| && es[p].BlockStart? && es[p].kind == kind && es[p].index == index
  }

  function StartIndices(es: seq<Event>): seq<nat>
  {
    if es == [] then []
    else StartIndices(es[..|es| - 1]) + StartIn(es[|es| - 1])
  }

  function StopCount(es: seq<Event>, index: nat): nat
  {
    if es == [] then 0
    else StopCount(es[..|es| - 1], index) + StopIn(es[|es| - 1], index)
  }

  // ---- one more event ----

  lemma ReplaySnoc(l: Ledger, es: seq<Event>, e: Event)
    ensures Replay(l, es + [e]) == if Replay(l, es).Some? then Step(Replay(l, es).value, e) else None
    ensures TextOf(es + [e]) == TextOf(es) + TextIn(e)
    ensures ReasoningOf(es + [e]) == ReasoningOf(es) + ReasoningIn(e)
    ensures StartIndices(es + [e]) == StartIndices(es) + StartIn(e)
  {
    hide Step;
    assert (es + [e])[..|es|] == es;
  }

  lemma SnocBlock(es: seq<Event>, e: Event, index: nat)
    ensures FragmentsOf(es + [e], index) == FragmentsOf(es, index) + FragmentIn(e, index)
    ensures BlockText(es + [e], index) == BlockText(es, index) + BlockTextIn(e, index)
    ensures StopCount(es + [e], index) == StopCount(es, index) + StopIn(e, index)
  {
    assert (es + [e])[..|es|] == es;
  }

  lemma StartsSnoc(es: seq<Event>, e: Event, kind: Kind)
    ensures Starts(es + [e], kind) <==> Starts(es, kind) || (e.BlockStart? && e.kind == kind)
  {
    if Starts(es, kind) {
      var p :| 0 <= p < |es| && es[p].BlockStart? && es[p].kind == kind;
      assert (es + [e])[p] == es[p];
    }
    if e.BlockStart? && e.kind == kind {
      assert (es + [e])[|es|] == e;
    }
  }

  lemma StartsAtSnoc(es: seq<Event>, e: Event, kind: Kind, index: nat)
    ensures StartsAt(es + [e], kind, index) <==>
            StartsAt(es, kind, index)
            || (e.BlockStart? && e.kind == kind && e.index == index)
    ensures StartsAt(es, kind, index) ==> Starts(es, kind)
  {
    if StartsAt(es, kind, index) {
      var p :| 0 <= p < |es| && es[p].BlockStart? && es[p].kind == kind && es[p].index == index;
      assert (es + [e])[p] == es[p];
    }
    if e.BlockStart? && e.kind == kind && e.index == index {
      assert (es + [e])[|es|] == e;
    }
  }

  // ---- what acceptance by the ledger means ----

  lemma {:induction false} ReplayPrefix(l: Ledger, es: seq<Event>, n: nat)
    requires n <= |es| && Replay(l, es).Some?
    ensures Replay(l, es[..n]).Some?
    decreases |es|
  {
    hide Step;
    if n < |es| {
      ReplayPrefix(l, es[..|es| - 1], n);
      assert es[..|es| - 1][..n] == es[..n];
    } else {
      assert es[..n] == es;
    }
  }

  /** Each event of an accepted trace is one step from the ledger before it. */
  lemma ReplayAt(l: Ledger, es: seq<Event>, n: nat)
    requires n < |es| && Replay(l, es).Some?
    ensures Replay(l, es[..n]).Some? && Replay(l, es[..n + 1]).Some?
    ensures Replay(l, es[..n + 1]) == Step(Replay(l, es[..n]).value, es[n])
  {
    hide Step;
    ReplayPrefix(l, es, n);
    ReplayPrefix(l, es, n + 1);
    assert es[..n + 1][..n] == es[..n];
  }

  /** What one accepted event does to the ledger. */
  lemma StepEffect(l: Ledger, e: Event)
    requires Step(l, e).Some?
    ensures var m := Step(l, e).value;
            m.next == l.next + (if e.BlockStart? then 1 else 0)
            && (forall i :: i in m.open <==> (i in l.open && e != BlockStop(i)) || (e.BlockStart? && e.index == i))
            && (forall i :: i in m.open ==> m.open[i] == if e.BlockStart? && e.index == i then e.kind else l.open[i])
            && (e.BlockStart? ==> e.index == l.next)
  {
  }

  ghost predicate OpenBelowNext(l: Ledger)
  {
    forall i :: i in l.open ==> i < l.next
  }

  lemma {:induction false} StaysBelowNext(l: Ledger, es: seq<Event>)
    requires OpenBelowNext(l) && Replay(l, es).Some?
    ensures OpenBelowNext(Replay(l, es).value) && l.next <= Replay(l, es).value.next
  {
    if es != [] {
      var es' := es[..|es| - 1];
      StaysBelowNext(l, es');
      StepEffect(Replay(l, es').value, es[|es| - 1]);
    }
  }

  /** Block indices count up from the origin without a gap. */
  lemma {:induction false} StartsConsecutive(l: Ledger, es: seq<Event>)
    requires Replay(l, es).Some?
    ensures |StartIndices(es)| == Replay(l, es).value.next - l.next
    ensures forall k :: 0 <= k < |StartIndices(es)| ==> StartIndices(es)[k] == l.next + k
  {
    hide Step;
    if es != [] {
      var es' := es[..|es| - 1];
      StartsConsecutive(l, es');
      StepEffect(Replay(l, es').value, es[|es| - 1]);
    }
  }

  /** An index the ledger has not handed out yet does not occur. */
  lemma {:induction false} FutureIndexUntouched(l: Ledger, es: seq<Event>, i: nat)
    requires OpenBelowNext(l) && Replay(l, es).Some? && Replay(l, es).value.next <= i
    ensures FragmentsOf(es, i) == [] && BlockText(es, i) == "" && StopCount(es, i) == 0
  {
    if es != [] {
      var es', e := es[..|es| - 1], es[|es| - 1];
      StaysBelowNext(l, es');
      StepEffect(Replay(l, es').value, e);
      FutureIndexUntouched(l, es', i);
    }
  }

  /** The block is started at p, and no event before the end of es stops it. */
  predicate OpenedAt(es: seq<Event>, p: nat, i: nat, kind: Kind)
  {
    && p < |es| && es[p].BlockStart? && es[p].index == i && es[p].kind == kind
    && forall q :: p < q < |es| ==> es[q] != BlockStop(i)
  }

  /** A block the ledger holds open was started in the trace and not stopped since. */
  lemma {:induction false} OpenWasStarted(l: Ledger, es: seq<Event>, i: nat) returns (p: nat)
    requires l.open == map[] && Replay(l, es).Some? && i in Replay(l, es).value.open
    ensures OpenedAt(es, p, i, Replay(l, es).value.open[i])
  {
    hide Step;
    var es', e := es[..|es| - 1], es[|es| - 1];
    StepEffect(Replay(l, es').value, e);
    if e.BlockStart? && e.index == i {
      p := |es| - 1;
    } else {
      p := OpenWasStarted(l, es', i);
      assert forall q :: 0 <= q < |es'| ==> es[q] == es'[q];
    }
  }

  /** Every delta of an accepted trace lands in a block of its kind that is started and not yet stopped. */
  lemma DeltaHitsOpenBlock(l: Ledger, es: seq<Event>, n: nat) returns (p: nat)
    requires l.open == map[] && Replay(l, es).Some? && n < |es| && DeltaKind(es[n]).Some?
    ensures p < n && OpenedAt(es[..n], p, es[n].index, DeltaKind(es[n]).value)
  {
    ReplayAt(l, es, n);
    p := OpenWasStarted(l, es[..n], es[n].index);
  }

  /** Every block that has been started is stopped once, unless it is still open. */
  lemma {:induction false} StoppedOnce(l: Ledger, es: seq<Event>, i: nat)
    requires l.open == map[] && Replay(l, es).Some?
    ensures var m := Replay(l, es).value;
            StopCount(es, i) == if l.next <= i < m.next && i !in m.open then 1 else 0
  {
    hide Step;
    if es != [] {
      var es', e := es[..|es| - 1], es[|es| - 1];
      var m := Replay(l, es').value;
      StoppedOnce(l, es', i);
      OriginBelow(l, es');
      StepEffect(m, e);
      StopNeedsOpen(m, e);
    }
  }

  lemma StopNeedsOpen(l: Ledger, e: Event)
    requires Step(l, e).Some?
    ensures e.BlockStop? ==> e.index in l.open
  {
  }

  lemma {:induction false} OriginBelow(l: Ledger, es: seq<Event>)
    requires l.open == map[] && Replay(l, es).Some?
    ensures var m := Replay(l, es).value; l.next <= m.next && forall i :: i in m.open ==> l.next <= i < m.next
  {
    hide Step;
    if es != [] {
      OriginBelow(l, es[..|es| - 1]);
      StepEffect(Replay(l, es[..|es| - 1]).value, es[|es| - 1]);
    }
  }

  /** A block starts only when no text or thinking block is open. */
  lemma StartsInTheClear(l: Ledger, es: seq<Event>, n: nat)
    requires Replay(l, es).Some? && n < |es| && es[n].BlockStart?
    ensures Replay(l, es[..n]).Some? && NoContentOpen(Replay(l, es[..n]).value.open)
  {
    ReplayAt(l, es, n);
  }

  predicate OneContentOpen(open: map<nat, Kind>)
  {
    forall i, j :: i in open && j in open && open[i] != ToolBlock && open[j] != ToolBlock ==> i == j
  }

  /** A text and a thinking block are never open together, nor two of either. */
  lemma {:induction false} NeverBothOpen(l: Ledger, es: seq<Event>)
    requires OneContentOpen(l.open) && Replay(l, es).Some?
    ensures OneContentOpen(Replay(l, es).value.open)
  {
    if es != [] {
      NeverBothOpen(l, es[..|es| - 1]);
    }
  }

  /** message_delta comes when every block is stopped, and only message_stop follows it. */
  lemma {:induction false} EndsOnce(l: Ledger, es: seq<Event>, n: nat)
    requires l.open == map[] && Replay(l, es).Some? && n < |es| && es[n].MessageDelta?
    ensures Replay(l, es[..n]).Some?
    ensures forall i: nat :: StopCount(es[..n], i) == if l.next <= i < Replay(l, es[..n]).value.next then 1 else 0
    ensures |es| <= n + 2 && (|es| == n + 2 ==> es[n + 1] == MessageStop)
  {
    ReplayAt(l, es, n);
    forall i: nat ensures StopCount(es[..n], i) == if l.next <= i < Replay(l, es[..n]).value.next then 1 else 0 {
      StoppedOnce(l, es[..n], i);
    }
    if |es| > n + 1 {
      ReplayAt(l, es, n + 1);
      if |es| > n + 2 {
        ReplayAt(l, es, n + 2);
      }
    }
  }
}
