/**
 * The SSE pump of the Messages route (internal/proxy/server.go): a goroutine that moves the stream's events
 * into a channel, and a loop that writes them, pings in between, and gives up when the client is gone. The
 * two are steps of one transition system, in any interleaving.
 */
module Pump {
  import opened Wrappers

  const CAPACITY: nat := 64

  datatype Line = Event(text: string) | ErrorLine(text: string)

  datatype Write = Ping | Data(line: Line)

  datatype Reason = Completed | UpstreamAbort | ClientAbort

  /** Where the pump goroutine is. */
  datatype PumpAt =
    | Reading                  // asking the stream for its next event
    | Offering(line: Line)     // waiting for room in the channel, or for the client to leave
    | Failing(text: string)    // the stream has ended with an error
    | Closing                  // about to close the channel
    | Signalling               // about to say that it is done
    | Exited

  datatype LoopAt = Selecting | Left | Joining | Finished

  datatype State = State(
    pump: PumpAt, loop: LoopAt,
    yielded: seq<string>, ended: Option<Option<string>>,  // what the stream has produced, and how it ended
    queue: seq<Line>, closed: bool,
    cancelled: bool, aborted: bool, reason: Reason,
    writes: seq<Write>, dumps: seq<Reason>)

  const INITIAL: State := State(Reading, Selecting, [], None, [], false, false, false, Completed, [], [])

  datatype Action =
    | Yield(text: string) | StreamEnds(error: Option<string>)  // the stream
    | Push | GiveUp | Classify | CloseChannel | SignalDone     // the pump
    | Tick | Receive | SeeClosed | SeeCancelled | CloseBody | Join  // the loop
    | Cancel                                                   // the client leaves

  /** One step; None when it cannot be taken. */
  function Step(s: State, a: Action): Option<State>
  {
    match a
    case Yield(text) => if s.pump == Reading then Some(s.(pump := Offering(Event(text)), yielded := s.yielded + [text]))
        else None
    case StreamEnds(error) =>
      if s.pump == Reading then
        Some(s.(pump := if error.Some? then Failing(error.value) else Closing, ended := Some(error)))
      else None
    case Push =>
      if s.pump.Offering? && |s.queue| < CAPACITY then
        Some(s.(queue := s.queue + [s.pump.line], pump := if s.pump.line.Event? then Reading else Closing))
      else None
    case GiveUp => if s.pump.Offering? && s.cancelled then Some(s.(pump := Closing)) else None
    case Classify =>
      if !s.pump.Failing? then None
      else if s.aborted then Some(s.(pump := Closing))
      else Some(s.(reason := UpstreamAbort, pump := Offering(ErrorLine(s.pump.text))))
    case CloseChannel => if s.pump == Closing then Some(s.(closed := true, pump := Signalling)) else None
    case SignalDone => if s.pump == Signalling then Some(s.(pump := Exited)) else None
    case Tick =>
      if s.loop != Selecting then None
      else if s.aborted then Some(s)
      else Some(s.(writes := s.writes + [Ping]))
    case Receive =>
      if s.loop == Selecting && s.queue != [] then
          Some(s.(writes := s.writes + [Data(s.queue[0])], queue := s.queue[1..])) else None
    case SeeClosed => if s.loop == Selecting && s.queue == [] && s.closed then Some(s.(loop := Left)) else None
    case SeeCancelled =>
      if s.loop == Selecting && s.cancelled then Some(s.(aborted := true, reason := ClientAbort, loop := Left))
          else None
    case CloseBody => if s.loop == Left then Some(s.(loop := Joining)) else None
    case Join => if s.loop == Joining && s.pump == Exited then Some(s.(dumps := s.dumps + [s.reason], loop := Finished))
        else None
    case Cancel => Some(s.(cancelled := true))
  }

  function Run(actions: seq<Action>): Option<State>
  {
    if actions == [] then Some(INITIAL)
    else
      var r := Run(actions[..|actions| - 1]);
      if r.Some? then Step(r.value, actions[|actions| - 1]) else None
  }

  // ---- what was written ----

  function LinesIn(writes: seq<Write>): seq<Line>
  {
    if writes == [] then []
    else LinesIn(writes[..|writes| - 1]) + (if writes[|writes| - 1].Data? then [writes[|writes| - 1].line] else [])
  }

  function Events(texts: seq<string>): seq<Line>
  {
    if texts == [] then [] else Events(texts[..|texts| - 1]) + [Event(texts[|texts| - 1])]
  }

  /** What the stream's end adds to its events. */
  function Epilogue(ended: Option<Option<string>>): seq<Line>
  {
    if ended.Some? && ended.value.Some? then [ErrorLine(ended.value.value)] else []
  }

  /** Everything that could be written of what the stream has done so far. */
  function Script(s: State): seq<Line>
  {
    Events(s.yielded) + Epilogue(s.ended)
  }

  /** What has gone into the channel. */
  function Moved(s: State): seq<Line>
  {
    LinesIn(s.writes) + s.queue
  }

  lemma LinesSnoc(writes: seq<Write>, w: Write)
    ensures LinesIn(writes + [w]) == LinesIn(writes) + (if w.Data? then [w.line] else [])
  {
    assert (writes + [w])[..|writes|] == writes;
  }

  lemma EventsSnoc(texts: seq<string>, text: string)
    ensures Events(texts + [text]) == Events(texts) + [Event(text)]
  {
    assert (texts + [text])[..|texts|] == texts;
  }

  // ---- what every step keeps ----

  /** The channel has taken everything but what the pump holds or has let go of. */
  ghost predicate InOrder(s: State)
  {
    && Moved(s) <= Script(s)
    && (s.pump == Reading ==> s.ended == None && Moved(s) == Events(s.yielded))
    && (s.pump.Offering? ==> Moved(s) + [s.pump.line] == Script(s))
    && (s.pump.Offering? && s.pump.line.Event? ==> s.ended == None)
    && (s.pump.Failing? ==> s.ended == Some(Some(s.pump.text)) && Moved(s) == Events(s.yielded))
    && (s.pump in {Closing, Signalling, Exited} && !s.cancelled ==> Moved(s) == Script(s))
  }

  /** The flags agree with where the two are. */
  ghost predicate Consistent(s: State)
  {
    && (s.closed <==> s.pump in {Signalling, Exited})
    && (s.aborted ==> s.cancelled && s.reason == ClientAbort && s.loop != Selecting)
    && (s.reason == ClientAbort ==> s.aborted)
    && (s.loop != Selecting && !s.aborted ==> s.queue == [] && s.closed)
    && (s.loop == Finished ==> s.pump == Exited && s.dumps == [s.reason])
    && (s.loop != Finished ==> s.dumps == [])
    && (s.reason == UpstreamAbort ==> s.ended.Some? && s.ended.value.Some?)
    && (s.reason == Completed && !s.pump.Failing? ==> s.ended.None? || s.ended.value == None)
    && (s.pump.Offering? && s.pump.line.ErrorLine? ==> s.ended.Some?)
    && (s.ended == None && !s.cancelled ==> s.pump == Reading || s.pump.Offering?)
  }

  lemma StepKeepsOrder(s: State, a: Action)
    requires InOrder(s) && Consistent(s) && Step(s, a).Some?
    ensures InOrder(Step(s, a).value)
  {
    hide LinesIn, Events, Consistent;
    assert Events(s.yielded) + [] == Events(s.yielded);
    ClassifyNeedsCancel(s);
    match a {
      case Yield(text) => YieldKeepsOrder(s, text);
      case Push => MovesKeepOrder(s, a);
      case Receive => MovesKeepOrder(s, a);
      case Tick => MovesKeepOrder(s, a);
      case _ =>
    }
  }

  lemma YieldKeepsOrder(s: State, text: string)
    requires InOrder(s) && s.pump == Reading
    ensures InOrder(Step(s, Yield(text)).value)
  {
    hide LinesIn, Events;
    EventsSnoc(s.yielded, text);
    assert Events(s.yielded) + [] == Events(s.yielded) && Events(s.yielded + [text]) + [] == Events(s.yielded + [text]);
  }

  /** The pump's line goes into the channel. */
  lemma PushMoves(s: State)
    requires Step(s, Push).Some?
    ensures Moved(Step(s, Push).value) == Moved(s) + [s.pump.line] && Script(Step(s, Push).value) == Script(s)
  {
    hide LinesIn, Events;
    assert LinesIn(s.writes) + (s.queue + [s.pump.line]) == LinesIn(s.writes) + s.queue + [s.pump.line];
  }

  /** A write takes from the channel what it puts out. */
  lemma WriteMoves(s: State, a: Action)
    requires (a == Receive || a == Tick) && Step(s, a).Some?
    ensures Moved(Step(s, a).value) == Moved(s) && Script(Step(s, a).value) == Script(s)
  {
    hide LinesIn, Events;
    LinesSnoc(s.writes, Ping);
    assert LinesIn(s.writes) + [] == LinesIn(s.writes);
    if a == Receive {
      LinesSnoc(s.writes, Data(s.queue[0]));
      assert s.queue == [s.queue[0]] + s.queue[1..];
      assert LinesIn(s.writes) + [s.queue[0]] + s.queue[1..] == LinesIn(s.writes) + ([s.queue[0]] + s.queue[1..]);
    }
  }

  lemma MovesKeepOrder(s: State, a: Action)
    requires InOrder(s) && a in {Push, Receive, Tick} && Step(s, a).Some?
    ensures InOrder(Step(s, a).value)
  {
    hide LinesIn, Events, Moved;
    assert Events(s.yielded) + [] == Events(s.yielded);
    if a == Push { PushMoves(s); } else { WriteMoves(s, a); }
  }

  lemma ClassifyNeedsCancel(s: State)
    requires Consistent(s)
    ensures s.aborted ==> s.cancelled
  {
  }

  lemma StepKeepsConsistent(s: State, a: Action)
    requires InOrder(s) && Consistent(s) && Step(s, a).Some?
    ensures Consistent(Step(s, a).value)
  {
    hide LinesIn, Events, Moved, Script;
    assert [] + [s.reason] == [s.reason];
  }

  /** Every state any interleaving reaches. */
  lemma {:induction false} Reached(actions: seq<Action>)
    requires Run(actions).Some?
    ensures InOrder(Run(actions).value) && Consistent(Run(actions).value)
  {
    hide Step, InOrder, Consistent;
    if actions == [] {
      InitialHolds();
    } else {
      Reached(actions[..|actions| - 1]);
      StepKeepsOrder(Run(actions[..|actions| - 1]).value, actions[|actions| - 1]);
      StepKeepsConsistent(Run(actions[..|actions| - 1]).value, actions[|actions| - 1]);
    }
  }

  lemma InitialHolds()
    ensures InOrder(INITIAL) && Consistent(INITIAL)
  {
  }

  // ---- what follows for every run ----

  /** Apart from pings, the writes are a prefix of the stream's events and at most one error line behind them. */
  lemma WritesArePrefix(actions: seq<Action>)
    requires Run(actions).Some?
    ensures LinesIn(Run(actions).value.writes) <= Script(Run(actions).value)
  {
    hide LinesIn, Script, Step, Run;
    Reached(actions);
    var s := Run(actions).value;
    assert LinesIn(s.writes) <= Moved(s) <= Script(s);
  }

  /** When the client stays, a finished run has written everything. */
  lemma AllWritten(actions: seq<Action>)
    requires Run(actions).Some? && Run(actions).value.loop == Finished && !Run(actions).value.cancelled
    ensures var s := Run(actions).value;
            LinesIn(s.writes) == Script(s) && s.ended.Some?
                && s.dumps == [if s.ended.value.Some? then UpstreamAbort else Completed]
  {
    hide LinesIn, Script, Step, Run;
    Reached(actions);
    var s := Run(actions).value;
    assert LinesIn(s.writes) + [] == LinesIn(s.writes);
  }

  /**
   * The dump is written once, after the pump has exited; once the
   * client has been seen to leave it says so, whatever the pump stored.
   */
  lemma DumpedOnce(actions: seq<Action>)
    requires Run(actions).Some?
    ensures var s := Run(actions).value;
            && |s.dumps| <= 1 && (s.dumps != [] ==> s.pump == Exited && s.loop == Finished)
            && (s.aborted && s.dumps != [] ==> s.dumps == [ClientAbort])
            && (s.dumps == [ClientAbort] ==> s.aborted)
            && (s.dumps == [UpstreamAbort] ==> s.ended.Some? && s.ended.value.Some?)
  {
    hide LinesIn, Script, Step, Run, InOrder;
    Reached(actions);
  }

  /** Once the client has been seen to leave, no step writes anything. */
  lemma SilentAfterAbort(actions: seq<Action>, a: Action)
    requires Run(actions).Some? && Run(actions).value.aborted && Step(Run(actions).value, a).Some?
    ensures Step(Run(actions).value, a).value.writes == Run(actions).value.writes
  {
    hide InOrder, Run;
    Reached(actions);
  }

  /** The step that is always possible until the run has finished; what the stream does next is up to the stream. */
  function Enabled(s: State): Action
  {
    if s.pump == Reading then StreamEnds(None)
    else if s.pump.Failing? then Classify
    else if s.pump == Closing then CloseChannel
    else if s.pump == Signalling then SignalDone
    else if s.pump.Offering? && |s.queue| < CAPACITY then Push
    else if s.pump.Offering? && s.cancelled then GiveUp
    else if s.loop == Selecting then (if s.queue != [] then Receive else SeeClosed)
    else if s.loop == Left then CloseBody
    else Join
  }

  /** No interleaving gets stuck: neither side ever waits for the other in vain. */
  lemma NeverStuck(actions: seq<Action>)
    requires Run(actions).Some? && Run(actions).value.loop != Finished
    ensures Step(Run(actions).value, Enabled(Run(actions).value)).Some?
  {
    hide Run, InOrder;
    Reached(actions);
  }

  /**
   * A run whose dump says "completed" need not have written
   * everything: the closed channel can win over the client's leaving.
   */
  lemma CompletedIsNoPromise() returns (actions: seq<Action>)
    ensures Run(actions).Some? && Run(actions).value.dumps == [Completed]
    ensures LinesIn(Run(actions).value.writes) == [] && Run(actions).value.yielded == ["data"]
  {
    hide Run;
    actions := [];
    var s := INITIAL;
    RunNothing();
    actions, s := OneMore(actions, s, Yield("data"));
    actions, s := OneMore(actions, s, Cancel);
    actions, s := OneMore(actions, s, GiveUp);
    actions, s := OneMore(actions, s, CloseChannel);
    actions, s := OneMore(actions, s, SignalDone);
    actions, s := OneMore(actions, s, SeeClosed);
    actions, s := OneMore(actions, s, CloseBody);
    actions, s := OneMore(actions, s, Join);
  }

  /** The pump that gives up keeps one line back; one that does not has moved everything by the time it closes. */
  ghost predicate Moves(s: State, gaveUp: bool)
  {
    && (gaveUp ==> s.pump in {Closing, Signalling, Exited} && Moved(s) != Script(s))
    && (!gaveUp && !s.aborted && s.pump in {Closing, Signalling, Exited} ==> Moved(s) == Script(s))
  }

  lemma StepMoves(s: State, a: Action, gaveUp: bool)
    requires InOrder(s) && Consistent(s) && Moves(s, gaveUp) && Step(s, a).Some?
    ensures Moves(Step(s, a).value, gaveUp || a == GiveUp)
  {
    hide LinesIn, Events, Consistent;
    assert Events(s.yielded) + [] == Events(s.yielded);
    match a {
      case Push => PushMoves(s);
      case Receive => WriteMoves(s, a);
      case Tick => WriteMoves(s, a);
      case _ =>
    }
  }

  lemma {:induction false} ReachedMoves(actions: seq<Action>)
    requires Run(actions).Some?
    ensures Moves(Run(actions).value, GiveUp in actions)
  {
    hide Step, InOrder, Consistent, Moves;
    if actions == [] {
      NothingMoved();
    } else {
      var before, a := actions[..|actions| - 1], actions[|actions| - 1];
      assert actions == before + [a];
      Reached(before);
      ReachedMoves(before);
      StepMoves(Run(before).value, a, GiveUp in before);
    }
  }

  lemma NothingMoved()
    ensures Moves(INITIAL, false)
  {
  }

  /**
   * When the client was not seen to leave, a finished run has written everything if and only if the pump never
   * took the client's leaving for an answer.
   */
  lemma DeliveredUnlessGivenUp(actions: seq<Action>)
    requires Run(actions).Some? && Run(actions).value.loop == Finished && Run(actions).value.dumps != [ClientAbort]
    ensures LinesIn(Run(actions).value.writes) == Script(Run(actions).value) <==> GiveUp !in actions
  {
    hide LinesIn, Script, Step, Run, InOrder;
    Reached(actions);
    ReachedMoves(actions);
    var s := Run(actions).value;
    assert LinesIn(s.writes) + [] == LinesIn(s.writes);
  }

  lemma RunNothing()
    ensures Run([]) == Some(INITIAL)
  {
  }

  lemma OneMore(actions: seq<Action>, s: State, a: Action) returns (actions': seq<Action>, s': State)
    requires Run(actions) == Some(s) && Step(s, a).Some?
    ensures Run(actions') == Some(s') && s' == Step(s, a).value
  {
    hide Step;
    actions', s' := actions + [a], Step(s, a).value;
    assert actions'[..|actions|] == actions;
  }
}
