/**
 * The events of one Responses stream, and a ledger that reads them: at most one output item is under way, its
 * id is its own, and its events carry the number of items finished before it.
 */
module Items {
  import opened Wrappers

  datatype Kind = Reasoning | Message | Call

  /**
   * An output item; ids are fresh, so a serial number stands for
   * each. `text` is its summary, its text or its arguments.
   */
  datatype Item = Item(kind: Kind, id: nat, callID: string, name: string, text: string)

  datatype Status = Completed | Incomplete(reason: string) | Failed

  datatype Event =
    | Created
    | InProgress
    | ItemAdded(index: nat, item: Item)
    | PartAdded(kind: Kind, id: nat, index: nat)
    | Delta(kind: Kind, id: nat, index: nat, text: string)
    | TextDone(kind: Kind, id: nat, index: nat, text: string)
    | PartDone(kind: Kind, id: nat, index: nat, text: string)
    | ItemDone(index: nat, item: Item)
    | Terminal(status: Status, output: seq<Item>)

  datatype Phase = Unborn | Born | Running | Over

  /** The item under way; `ended` once its text is final. */
  datatype Open = Open(item: Item, ended: bool)

  /** `thought`, `said` and `args` are the deltas so far: of all reasoning, of all text, of the open call. */
  datatype Ledger = Ledger(phase: Phase, open: Option<Open>, done: seq<Item>, thought: string, said: string,
                           args: string, strays: nat)

  const BLANK: Ledger := Ledger(Unborn, None, [], "", "", "", 0)

  predicate IsOpen(l: Ledger, kind: Kind, id: nat)
  {
    l.phase == Running && l.open.Some? && l.open.value.item.kind == kind && l.open.value.item.id == id
  }

  /** What an item of this kind would say if it were finished now. */
  function Sum(l: Ledger, kind: Kind): string
  {
    match kind
    case Reasoning => l.thought
    case Message => l.said
    case Call => l.args
  }

  function Heard(l: Ledger, kind: Kind, text: string): Ledger
  {
    match kind
    case Reasoning => l.(thought := l.thought + text)
    case Message => l.(said := l.said + text)
    case Call => l.(args := l.args + text)
  }

  /** A call has an id to answer to. */
  predicate Identified(item: Item)
  {
    item.kind == Call ==> item.callID != ""
  }

  predicate IsNew(l: Ledger, id: nat)
  {
    forall item <- l.done :: item.id != id
  }

  /**
   * One event against the ledger. A delta of arguments for a call that is not under way is let through, and counted.
   */
  function Step(l: Ledger, e: Event): Option<Ledger>
  {
    match e
    case Created => if l.phase == Unborn then Some(l.(phase := Born)) else None
    case InProgress => if l.phase == Born then Some(l.(phase := Running)) else None
    case ItemAdded(i, item) =>
      if l.phase == Running && l.open == None && i == |l.done| && item.text == "" && Identified(item)
          && IsNew(l, item.id) then
        Some(l.(open := Some(Open(item, false)), args := ""))
      else None
    case PartAdded(kind, id, i) => if IsOpen(l, kind, id) && kind != Call && i == |l.done| && !l.open.value.ended then
        Some(l) else None
    case Delta(kind, id, i, text) =>
      if l.phase != Running || i != |l.done| then None
      else if IsOpen(l, kind, id) && !l.open.value.ended then Some(Heard(l, kind, text))
      else if kind == Call then Some(l.(strays := l.strays + 1))
      else None
    case TextDone(kind, id, i, text) =>
      if IsOpen(l, kind, id) && i == |l.done| && !l.open.value.ended && text == Sum(l, kind) then
        Some(l.(open := Some(l.open.value.(ended := true))))
      else None
    case PartDone(kind, id, i, text) =>
      if IsOpen(l, kind, id) && kind != Call && i == |l.done| && l.open.value.ended && text == Sum(l, kind) then Some(l)
          else None
    case ItemDone(i, item) =>
      if IsOpen(l, item.kind, item.id) && item.callID == l.open.value.item.callID && i == |l.done|
         && l.open.value.ended && item.text == Sum(l, item.kind) then
        Some(l.(open := None, done := l.done + [item]))
      else None
    case Terminal(_, output) =>
      if l.phase == Running && l.open == None && output == l.done then Some(l.(phase := Over)) else None
  }

  function Replay(l: Ledger, es: seq<Event>): Option<Ledger>
  {
    if es == [] then Some(l)
    else
      var r := Replay(l, es[..|es| - 1]);
      if r.Some? then Step(r.value, es[|es| - 1]) else None
  }

  lemma ReplaySnoc(l: Ledger, es: seq<Event>, e: Event)
    ensures Replay(l, es + [e]) == if Replay(l, es).Some? then Step(Replay(l, es).value, e) else None
  {
    hide Step;
    assert (es + [e])[..|es|] == es;
  }

  lemma {:induction false} ReplayPrefix(l: Ledger, es: seq<Event>, n: nat)
    requires n <= |es| && Replay(l, es).Some?
    ensures Replay(l, es[..n]).Some?
    decreases |es|
  {
    hide Step;
    if n < |es| {
      ReplayPrefix(l, es[..|es| - 1], n);
      assert es[..|es| - 1][..n] == es[..n];
    } else {
      assert es[..n] == es;
    }
  }

  lemma ReplayAt(l: Ledger, es: seq<Event>, n: nat)
    requires n < |es| && Replay(l, es).Some?
    ensures Replay(l, es[..n]).Some? && Replay(l, es[..n + 1]).Some?
            && Replay(l, es[..n + 1]) == Step(Replay(l, es[..n]).value, es[n])
  {
    hide Step;
    ReplayPrefix(l, es, n);
    ReplayPrefix(l, es, n + 1);
    assert es[..n + 1][..n] == es[..n];
  }

  // ---- what acceptance means ----

  function DoneIn(e: Event): seq<Item>
  {
    if e.ItemDone? then [e.item] else []
  }

  /** The items a trace finishes, in order. */
  function DoneItems(es: seq<Event>): seq<Item>
  {
    if es == [] then [] else DoneItems(es[..|es| - 1]) + DoneIn(es[|es| - 1])
  }

  lemma {:induction false} DoneIsDone(es: seq<Event>)
    requires Replay(BLANK, es).Some?
    ensures Replay(BLANK, es).value.done == DoneItems(es)
  {
    hide IsOpen, Sum, Heard;
    if es != [] {
      DoneIsDone(es[..|es| - 1]);
      StepDone(Replay(BLANK, es[..|es| - 1]).value, es[|es| - 1]);
    }
  }

  lemma StepDone(l: Ledger, e: Event)
    requires Step(l, e).Some?
    ensures Step(l, e).value.done == l.done + DoneIn(e)
    ensures l.phase != Over && (e.Terminal? ==> Step(l, e).value.phase == Over && e.output == l.done)
  {
    assert l.done + [] == l.done;
  }

  /** An item stays under way, unchanged, until it is finished. */
  lemma StepOpen(l: Ledger, e: Event)
    requires Step(l, e).Some?
    ensures var m := Step(l, e).value;
            if e.ItemAdded? then m.open == Some(Open(e.item, false)) && e.index == |l.done| == |m.done|
            else m.open.Some? ==> l.open.Some? && l.open.value.item == m.open.value.item && m.done == l.done
    ensures e.ItemDone? ==>
            l.open.Some? && l.open.value.item.id == e.item.id && l.open.value.item.kind == e.item.kind
            && e.index == |l.done|
  {
  }

  /** `added` and `done` of an item carry the number of items finished before it, and nothing is finished in between. */
  lemma AddedMeetsDone(es: seq<Event>, n: nat) returns (p: nat)
    requires Replay(BLANK, es).Some? && n < |es| && es[n].ItemDone?
    ensures p < n && es[p].ItemAdded? && es[p].item.id == es[n].item.id && es[p].item.kind == es[n].item.kind
    ensures es[p].index == es[n].index == |DoneItems(es[..p])| == |DoneItems(es[..n])|
  {
    hide Step, Replay, DoneItems;
    ReplayAt(BLANK, es, n);
    StepOpen(Replay(BLANK, es[..n]).value, es[n]);
    DoneIsDone(es[..n]);
    p := OpenWasAdded(es[..n]);
    assert es[..n][..p] == es[..p] && es[..n][p] == es[p];
    ReplayAt(BLANK, es, p);
    StepOpen(Replay(BLANK, es[..p]).value, es[p]);
    DoneIsDone(es[..p]);
  }

  /** The item under way was added when as many items were finished as now. */
  lemma {:induction false} OpenWasAdded(es: seq<Event>) returns (p: nat)
    requires Replay(BLANK, es).Some? && Replay(BLANK, es).value.open.Some?
    ensures var l := Replay(BLANK, es).value;
            p < |es| && es[p].ItemAdded? && es[p].item == l.open.value.item && es[p].index == |l.done|
  {
    hide Step;
    var es', e := es[..|es| - 1], es[|es| - 1];
    assert es' != [] || Replay(BLANK, es').value.open == None;
    StepOpen(Replay(BLANK, es').value, e);
    if e.ItemAdded? {
      p := |es| - 1;
    } else {
      p := OpenWasAdded(es');
      assert es[p] == es'[p];
    }
  }

  /** Nothing follows the terminal event, and it carries every finished item. */
  lemma TerminalIsLast(es: seq<Event>, n: nat)
    requires Replay(BLANK, es).Some? && n < |es| && es[n].Terminal?
    ensures n == |es| - 1 && es[n].output == DoneItems(es[..n])
  {
    hide Step, Replay, DoneItems;
    ReplayAt(BLANK, es, n);
    StepDone(Replay(BLANK, es[..n]).value, es[n]);
    DoneIsDone(es[..n]);
    if n + 1 < |es| {
      ReplayAt(BLANK, es, n + 1);
      StepDone(Replay(BLANK, es[..n + 1]).value, es[n + 1]);
    }
  }

  /** No two items have the same id. */
  predicate Distinct(items: seq<Item>)
  {
    forall i, j :: 0 <= i < j < |items| ==> items[i].id != items[j].id
  }

  predicate Apart(l: Ledger)
  {
    Distinct(l.done) && (l.open.Some? ==> IsNew(l, l.open.value.item.id))
  }

  lemma {:induction false} DoneAreDistinct(es: seq<Event>)
    requires Replay(BLANK, es).Some?
    ensures Distinct(Replay(BLANK, es).value.done) && Distinct(DoneItems(es))
    ensures Apart(Replay(BLANK, es).value)
  {
    hide Step;
    if es != [] {
      DoneAreDistinct(es[..|es| - 1]);
      StepApart(Replay(BLANK, es[..|es| - 1]).value, es[|es| - 1]);
    }
    DoneIsDone(es);
  }

  lemma StepApart(l: Ledger, e: Event)
    requires Step(l, e).Some? && Apart(l)
    ensures Apart(Step(l, e).value) && Distinct(Step(l, e).value.done)
  {
  }

  /** Every finished call can be answered. */
  lemma {:induction false} DoneAreIdentified(es: seq<Event>)
    requires Replay(BLANK, es).Some?
    ensures var l := Replay(BLANK, es).value;
            (forall item <- l.done :: Identified(item)) && (l.open.Some? ==> Identified(l.open.value.item))
  {
    hide Step, Identified;
    if es == [] {
    } else {
      DoneAreIdentified(es[..|es| - 1]);
      StepIdentified(Replay(BLANK, es[..|es| - 1]).value, es[|es| - 1]);
    }
  }

  lemma StepIdentified(l: Ledger, e: Event)
    requires Step(l, e).Some? && (forall item <- l.done :: Identified(item))
             && (l.open.Some? ==> Identified(l.open.value.item))
    ensures var m := Step(l, e).value;
            (forall item <- m.done :: Identified(item)) && (m.open.Some? ==> Identified(m.open.value.item))
  {
  }

  // ---- what the items say together ----

  /** The texts of the items of one kind. */
  function TextsOf(items: seq<Item>, kind: Kind): seq<string>
  {
    if items == [] then []
    else TextsOf(items[..|items| - 1], kind) + (if items[|items| - 1].kind == kind then [items[|items| - 1].text]
          else [])
  }

  function Joined(texts: seq<string>): string
  {
    if texts == [] then "" else Joined(texts[..|texts| - 1]) + texts[|texts| - 1]
  }

  /** Each text continues the one before it, and the last is all there is, unless an item of this kind is under way. */
  ghost predicate Growing(texts: seq<string>, whole: string, underWay: bool)
  {
    && (forall i :: 0 <= i < |texts| - 1 ==> texts[i] <= texts[i + 1])
    && (texts != [] ==> texts[|texts| - 1] <= whole)
    && (!underWay ==> whole == if texts == [] then "" else texts[|texts| - 1])
  }

  predicate UnderWay(l: Ledger, kind: Kind)
  {
    l.open.Some? && l.open.value.item.kind == kind
  }

  ghost predicate Accumulates(l: Ledger, kind: Kind)
  {
    Growing(TextsOf(l.done, kind), Sum(l, kind), UnderWay(l, kind))
  }

  lemma GrowingNext(texts: seq<string>, whole: string, more: string)
    requires Growing(texts, whole, true)
    ensures Growing(texts, whole + more, true) && Growing(texts + [whole], whole, false)
  {
  }

  lemma StepSays(l: Ledger, e: Event, kind: Kind)
    requires Step(l, e).Some? && kind != Call
    ensures var m := Step(l, e).value;
            if e.ItemDone? && e.item.kind == kind then
              TextsOf(m.done, kind) == TextsOf(l.done, kind) + [Sum(l, kind)] && Sum(m, kind) == Sum(l, kind)
                  && UnderWay(l, kind) && !UnderWay(m, kind)
            else
              && TextsOf(m.done, kind) == TextsOf(l.done, kind) && (UnderWay(l, kind) ==> UnderWay(m, kind))
              && (Sum(m, kind) == Sum(l, kind)
                   || (e.Delta? && UnderWay(l, kind) && Sum(m, kind) == Sum(l, kind) + e.text))
  {
    hide IsNew, TextsOf;
    if e.ItemDone? {
      TextsSnoc(l.done, e.item, kind);
    }
  }

  lemma TextsSnoc(items: seq<Item>, item: Item, kind: Kind)
    ensures TextsOf(items + [item], kind) == if item.kind == kind then TextsOf(items, kind) + [item.text]
            else TextsOf(items, kind)
  {
    assert (items + [item])[..|items|] == items;
  }

  lemma StepAccumulates(l: Ledger, e: Event, kind: Kind)
    requires Accumulates(l, kind) && Step(l, e).Some? && kind != Call
    ensures Accumulates(Step(l, e).value, kind)
  {
    hide Step, TextsOf, Sum, UnderWay;
    StepSays(l, e, kind);
    if UnderWay(l, kind) {
      GrowingNext(TextsOf(l.done, kind), Sum(l, kind), if e.Delta? then e.text else "");
    }
  }

  lemma {:induction false} AllAccumulate(es: seq<Event>, kind: Kind)
    requires Replay(BLANK, es).Some? && kind != Call
    ensures Accumulates(Replay(BLANK, es).value, kind)
  {
    hide Step, Accumulates, TextsOf;
    if es == [] {
      NothingAccumulates(kind);
    } else {
      AllAccumulate(es[..|es| - 1], kind);
      StepAccumulates(Replay(BLANK, es[..|es| - 1]).value, es[|es| - 1], kind);
    }
  }

  lemma NothingAccumulates(kind: Kind)
    requires kind != Call
    ensures Accumulates(BLANK, kind)
  {
  }

  /**
   * The items of a finished response say together what was streamed if and only if no item but the last of its
   * kind has said anything: each one repeats all that came before it.
   */
  lemma ItemsRepeat(es: seq<Event>, kind: Kind)
    requires Replay(BLANK, es).Some? && Replay(BLANK, es).value.open == None && kind != Call
    ensures var l, texts := Replay(BLANK, es).value, TextsOf(DoneItems(es), kind);
            && (forall i, j :: 0 <= i < j < |texts| ==> texts[i] <= texts[j])
            && (Joined(texts) == Sum(l, kind) <==> forall i :: 0 <= i < |texts| - 1 ==> texts[i] == "")
  {
    hide TextsOf, Replay, DoneItems, Joined;
    AllAccumulate(es, kind);
    DoneIsDone(es);
    var l, texts := Replay(BLANK, es).value, TextsOf(DoneItems(es), kind);
    Prefixes(texts);
    if texts == [] {
      assert Joined(texts) == "" by { NothingJoined(); }
    } else {
      JoinedLast(texts);
      JoinedEmpty(texts[..|texts| - 1]);
    }
  }

  lemma NothingJoined()
    ensures Joined([]) == ""
  {
  }

  lemma JoinedLast(texts: seq<string>)
    requires texts != []
    ensures Joined(texts) == Joined(texts[..|texts| - 1]) + texts[|texts| - 1]
  {
  }

  lemma {:induction false} JoinedEmpty(texts: seq<string>)
    ensures Joined(texts) == "" <==> forall i :: 0 <= i < |texts| ==> texts[i] == ""
  {
    if texts != [] {
      JoinedEmpty(texts[..|texts| - 1]);
    }
  }

  lemma {:induction false} Prefixes(texts: seq<string>)
    requires forall i :: 0 <= i < |texts| - 1 ==> texts[i] <= texts[i + 1]
    ensures forall i, j :: 0 <= i < j < |texts| ==> texts[i] <= texts[j]
  {
    if |texts| > 1 {
      var before, n := texts[..|texts| - 1], |texts| - 1;
      Prefixes(before);
      forall i | 0 <= i < n ensures texts[i] <= texts[n] {
        assert texts[n - 1] <= texts[n - 1 + 1];
        assert i < n - 1 ==> before[i] <= before[n - 1];
      }
      assert forall i, j :: 0 <= i < j < n ==> before[i] == texts[i] && before[j] == texts[j];
    }
  }
}
