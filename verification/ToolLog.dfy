/**
 * What the tool call fragments of one stream say about each call, and how the streamer's state for
 * the call keeps up with it (internal/stream/stream.go, processToolCall).
 */
module ToolLog {
  import opened Wrappers
  import opened Strings
  import B = Builder
  import Json

  datatype ToolCallDelta = ToolCallDelta(index: nat, id: Option<string>, name: Option<string>, args: Option<string>)

  const TASK: string := "Task"

  function Text(s: Option<string>): string
  {
    if s.Some? then s.value else ""
  }

  /** All argument fragments received for a call, in order. */
  function ArgsFor(log: seq<ToolCallDelta>, t: nat): string
  {
    if log == [] then ""
    else
      var d := log[|log| - 1];
      ArgsFor(log[..|log| - 1], t) + (if d.index == t then Text(d.args) else "")
  }

  /** The name a call has grown to. */
  function NameFor(log: seq<ToolCallDelta>, t: nat): string
  {
    if log == [] then ""
    else
      var d := log[|log| - 1];
      var prev := NameFor(log[..|log| - 1], t);
      if d.index == t && d.name.Some? then B.ExtendName(prev, d.name.value) else prev
  }

  function Resolved(log: seq<ToolCallDelta>, t: nat): string
  {
    TrimSpace(NameFor(log, t))
  }

  /** At some fragment of the call its name was "Task". */
  predicate EverTask(log: seq<ToolCallDelta>, t: nat)
  {
    log != [] && (EverTask(log[..|log| - 1], t) || (log[|log| - 1].index == t && Resolved(log, t) == TASK))
  }

  /** At some fragment of the call its name was known and was not "Task". */
  predicate EverOther(log: seq<ToolCallDelta>, t: nat)
  {
    log != [] && (EverOther(log[..|log| - 1], t)
          || (log[|log| - 1].index == t && Resolved(log, t) != "" && Resolved(log, t) != TASK))
  }

  /** The name of a call when it was first known; its block starts with it. */
  function FirstName(log: seq<ToolCallDelta>, t: nat): string
  {
    if log == [] then ""
    else
      var first := FirstName(log[..|log| - 1], t);
      if first != "" then first else Resolved(log, t)
  }

  function InferToolNameByIndex(toolNames: seq<Option<string>>, toolIndex: nat): string
  {
    if toolIndex < |toolNames| && toolNames[toolIndex].Some? then TrimSpace(toolNames[toolIndex].value) else ""
  }

  /** Fragments came for the call, but never a name. */
  predicate Nameless(log: seq<ToolCallDelta>, t: nat)
  {
    Resolved(log, t) == "" && (ArgsFor(log, t) != "" || NameFor(log, t) != "")
  }

  /** A nameless call that takes the name of the request's tool of its index. */
  predicate Adopted(toolNames: seq<Option<string>>, log: seq<ToolCallDelta>, t: nat)
  {
    Nameless(log, t) && InferToolNameByIndex(toolNames, t) != ""
  }

  /** A nameless call no tool of the request has the index of. */
  predicate Dropped(toolNames: seq<Option<string>>, log: seq<ToolCallDelta>, t: nat)
  {
    Nameless(log, t) && InferToolNameByIndex(toolNames, t) == ""
  }

  function StartName(toolNames: seq<Option<string>>, log: seq<ToolCallDelta>, t: nat): string
  {
    if FirstName(log, t) != "" then FirstName(log, t) else InferToolNameByIndex(toolNames, t)
  }

  /** Arguments of a Task call that parsed at some point, forced into the foreground. */
  ghost predicate TaskParsed(codec: Json.Codec, args: string, sent: string)
  {
    exists p: string :: p <= args && codec.decode(p).Some?
        && sent == codec.canonical(B.Foreground(codec.decode(p).value))
  }

  /** Until they parse, the arguments of a Task call are held. */
  ghost predicate TaskShape(codec: Json.Codec, emitted: bool, buffer: string, contents: seq<string>, args: string)
  {
    if emitted then args != "" && |contents| == 1 && TaskParsed(codec, args, contents[0])
    else contents == [] && buffer == args && (args != "" ==> codec.decode(args) == None)
  }

  /** At the end a Task call with arguments has sent one delta: the object they are, or "{}" when they are none. */
  ghost predicate TaskSettled(codec: Json.Codec, contents: seq<string>, args: string)
  {
    if args == "" then contents == []
    else |contents| == 1 && (TaskParsed(codec, args, contents[0])
          || (codec.decode(args) == None && contents[0] == "{}"))
  }

  /**
   * The arguments of a call: those it got ahead of being a Task, as a
   * Task, and after that; and what went out for the Task's.
   */
  datatype Phases = Phases(before: string, task: string, sent: Option<string>, after: string)

  const SILENT: Phases := Phases("", "", None, "")

  function Heard(codec: Json.Codec, p: Phases, resolved: string, args: string): Phases
  {
    if args == "" then p
    else if resolved == TASK then
      var parsed := codec.decode(p.task + args);
      p.(task := p.task + args,
         sent := if p.sent == None && parsed.Some? then Some(codec.canonical(B.Foreground(parsed.value))) else p.sent)
    else if p.task == "" then p.(before := p.before + args)
    else p.(after := p.after + args)
  }

  /** What came ahead of the name counts under the first name. */
  function PhasesOf(codec: Json.Codec, log: seq<ToolCallDelta>, t: nat): Phases
  {
    if log == [] then SILENT
    else
      var d, was := log[|log| - 1], log[..|log| - 1];
      var p, r := PhasesOf(codec, was, t), Resolved(log, t);
      if d.index != t || r == "" then p
      else Heard(codec, if Resolved(was, t) == "" then Heard(codec, p, r, ArgsFor(was, t)) else p, r, Text(d.args))
  }

  /** The deltas sent so far: a Task's arguments are one delta, in the place they had when they parsed. */
  ghost predicate Phased(codec: Json.Codec, st: B.ToolCallState, p: Phases)
  {
    && (st.taskArgsEmitted <==> p.sent.Some?)
    && st.taskArgBuffer == (if p.sent.Some? then "" else p.task)
    && Join(st.contents) == p.before + Text(p.sent) + p.after
    && (p.sent == None && p.task != "" ==> codec.decode(p.task) == None)
    && (p.task == "" ==> p.sent == None && p.after == "")
  }

  /** What holds of a call whose name is known. */
  ghost predicate Faithful(codec: Json.Codec, st: B.ToolCallState, log: seq<ToolCallDelta>, t: nat)
  {
    Resolved(log, t) != "" ==>
      && st.started
      && (!EverTask(log, t) ==> Join(st.contents) == ArgsFor(log, t) && st.taskArgBuffer == "")
      && (!EverOther(log, t) ==> TaskShape(codec, st.taskArgsEmitted, st.taskArgBuffer, st.contents, ArgsFor(log, t)))
      && Phased(codec, st, PhasesOf(codec, log, t))
  }

  /** The state of a call agrees with the log; only a call with a name has started. */
  ghost predicate Tracks(codec: Json.Codec, st: B.ToolCallState, log: seq<ToolCallDelta>, t: nat)
  {
    && st.name == NameFor(log, t)
    && (st.started <==> Resolved(log, t) != "")
    && (!st.started ==>
         st.preStartArgs == ArgsFor(log, t) && st.contents == [] && !st.taskArgsEmitted
         && st.taskArgBuffer == "")
    && Faithful(codec, st, log, t)
  }

  // ---- what one fragment does to the state of its call ----

  /** Task arguments are buffered until they parse, and then sent once. */
  function TakeTask(codec: Json.Codec, st: B.ToolCallState, args: string): B.ToolCallState
  {
    if st.taskArgsEmitted then st
    else
      var buffer := st.taskArgBuffer + args;
      var parsed := codec.decode(buffer);
      if parsed == None then st.(taskArgBuffer := buffer)
      else st.(taskArgBuffer := "", taskArgsEmitted := true,
               contents := st.contents + [codec.canonical(B.Foreground(parsed.value))])
  }

  function Give(codec: Json.Codec, st: B.ToolCallState, resolved: string, args: string): B.ToolCallState
  {
    if args == "" then st
    else if resolved == TASK then TakeTask(codec, st, args)
    else st.(contents := st.contents + [args])
  }

  function Named(st: B.ToolCallState, d: ToolCallDelta, id: string): B.ToolCallState
  {
    st.(toolID := id, name := if d.name.Some? then B.ExtendName(st.name, d.name.value) else st.name)
  }

  /** Start the block and send what was held back. */
  function Begun(codec: Json.Codec, st: B.ToolCallState, block: nat, id: string): B.ToolCallState
  {
    Give(codec, st.(started := true, blockIndex := block, toolID := id, preStartArgs := ""), TrimSpace(st.name),
         st.preStartArgs)
  }

  /** From the state with its new id and name on. */
  function Advance(codec: Json.Codec, st: B.ToolCallState, block: nat, id: string, args: string): B.ToolCallState
  {
    var r := TrimSpace(st.name);
    if st.started || r != "" then
      Give(codec, if st.started then st else Begun(codec, st, block, id), r, args)
    else st.(preStartArgs := st.preStartArgs + args)
  }

  lemma LogSnoc(log: seq<ToolCallDelta>, d: ToolCallDelta, t: nat)
    ensures ArgsFor(log + [d], t) == ArgsFor(log, t) + (if d.index == t then Text(d.args) else "")
    ensures NameFor(log + [d], t) == if d.index == t && d.name.Some? then B.ExtendName(NameFor(log, t), d.name.value)
            else NameFor(log, t)
    ensures EverTask(log + [d], t) <==> EverTask(log, t) || (d.index == t && Resolved(log + [d], t) == TASK)
    ensures EverOther(log + [d], t) <==>
            EverOther(log, t) || (d.index == t && Resolved(log + [d], t) != "" && Resolved(log + [d], t) != TASK)
  {
    hide TrimSpace, B.ExtendName;
    assert (log + [d])[..|log|] == log;
  }

  lemma PhasesSnoc(codec: Json.Codec, log: seq<ToolCallDelta>, d: ToolCallDelta, t: nat)
    ensures var (p, r) := (PhasesOf(codec, log, t), Resolved(log + [d], t));
            PhasesOf(codec, log + [d], t) ==
            if d.index != t || r == "" then p
            else Heard(codec, if Resolved(log, t) == "" then Heard(codec, p, r, ArgsFor(log, t))
                  else p, r, Text(d.args))
  {
    hide Resolved, ArgsFor, Heard;
    assert (log + [d])[..|log|] == log;
  }

  lemma GivePhased(codec: Json.Codec, st: B.ToolCallState, p: Phases, r: string, args: string)
    requires Phased(codec, st, p) && (r == TASK ==> p.after == "")
    ensures Phased(codec, Give(codec, st, r, args), Heard(codec, p, r, args))
  {
    if args != "" {
      assert r != TASK ==> Give(codec, st, r, args).contents == st.contents + [args];
      JoinAppend(st.contents, args);
      if r == TASK && p.sent == None && codec.decode(p.task + args).Some? {
        JoinAppend(st.contents, codec.canonical(B.Foreground(codec.decode(p.task + args).value)));
      }
      assert p.before + Text(p.sent) + p.after + args == p.before + Text(p.sent) + (p.after + args);
      assert p.before + "" + "" + args == p.before + args + "" + "";
    }
  }

  /** The name begins with "Task", white space aside. */
  predicate BeginsTask(name: string)
  {
    TASK <= TrimLeft(name)
  }

  /** A name that begins with "Task" goes on doing so, and once it is longer it stays so. */
  lemma LongerStays(prev: string, name: string)
    requires BeginsTask(prev)
    ensures var next := B.ExtendName(prev, name);
            BeginsTask(next) && (TrimSpace(prev) != TASK ==> TrimSpace(next) != TASK)
  {
    hide TrimLeft, TrimRight;
    var next := B.ExtendName(prev, name);
    TrimLeftExtends(prev, next[|prev|..]);
    assert prev + next[|prev|..] == next;
    var left := TrimLeft(next);
    TrimRightIsTask(TrimLeft(prev));
    TrimRightIsTask(left);
    assert forall i :: 0 <= i < |TrimLeft(prev)| ==> left[i] == TrimLeft(prev)[i];
  }

  lemma {:induction false} TrimLeftExtends(s: string, u: string)
    requires TrimLeft(s) != ""
    ensures TrimLeft(s + u) == TrimLeft(s) + u
  {
    if IsSpace(s[0]) {
      assert (s + u)[1..] == s[1..] + u;
      TrimLeftExtends(s[1..], u);
    }
  }

  lemma {:induction false} TrimRightIsTask(s: string)
    requires TASK <= s
    ensures TrimRight(s) == TASK <==> forall i :: |TASK| <= i < |s| ==> IsSpace(s[i])
  {
    if |s| > |TASK| && IsSpace(s[|s| - 1]) {
      TrimRightIsTask(s[..|s| - 1]);
    }
  }

  /** Arguments that came after a Task's are those of a longer name, and it never is "Task" again. */
  lemma {:induction false} NoWayBack(codec: Json.Codec, log: seq<ToolCallDelta>, t: nat)
    ensures PhasesOf(codec, log, t).task != "" ==> BeginsTask(NameFor(log, t))
    ensures PhasesOf(codec, log, t).task == "" ==> PhasesOf(codec, log, t).after == ""
    ensures PhasesOf(codec, log, t).after != "" ==> Resolved(log, t) != TASK
  {
    hide TrimLeft, TrimRight, B.ExtendName, ArgsFor;
    if log != [] {
      var d, was := log[|log| - 1], log[..|log| - 1];
      NoWayBack(codec, was, t);
      if BeginsTask(NameFor(was, t)) && d.name.Some? { LongerStays(NameFor(was, t), d.name.value); }
      TrimRightIsPrefix(TrimLeft(NameFor(log, t)));
    }
  }

  /** The next fragment of a call with a name. */
  lemma NamedPhased(codec: Json.Codec, st: B.ToolCallState, log: seq<ToolCallDelta>, d: ToolCallDelta)
    requires Resolved(log, d.index) != "" && Resolved(log + [d], d.index) != ""
    requires Phased(codec, st, PhasesOf(codec, log, d.index))
    ensures var r := Resolved(log + [d], d.index);
            Phased(codec, Give(codec, st, r, Text(d.args)), PhasesOf(codec, log + [d], d.index))
  {
    hide Resolved, Phased, Give, Heard, ArgsFor;
    var t, r := d.index, Resolved(log + [d], d.index);
    PhasesSnoc(codec, log, d, t);
    if r == TASK { NotPast(codec, log, d); }
    GivePhased(codec, st, PhasesOf(codec, log, t), r, Text(d.args));
  }

  lemma NotPast(codec: Json.Codec, log: seq<ToolCallDelta>, d: ToolCallDelta)
    requires Resolved(log + [d], d.index) == TASK
    ensures PhasesOf(codec, log, d.index).after == ""
  {
    hide TrimSpace, BeginsTask, B.ExtendName, ArgsFor, EverTask, EverOther, PhasesOf;
    LogSnoc(log, d, d.index);
    NoWayBack(codec, log, d.index);
    if BeginsTask(NameFor(log, d.index)) && d.name.Some? { LongerStays(NameFor(log, d.index), d.name.value); }
  }

  /** The fragment that gives a call its name; what came ahead of it is heard first. */
  lemma FirstPhased(codec: Json.Codec, ready: B.ToolCallState, log: seq<ToolCallDelta>, d: ToolCallDelta)
    requires Resolved(log, d.index) == "" && Resolved(log + [d], d.index) != ""
    requires ready.contents == [] && !ready.taskArgsEmitted && ready.taskArgBuffer == ""
    ensures var r := Resolved(log + [d], d.index);
            Phased(codec, Give(codec, Give(codec, ready, r, ArgsFor(log, d.index)), r, Text(d.args)),
                   PhasesOf(codec, log + [d], d.index))
  {
    hide Resolved, Phased, Give, ArgsFor;
    var t, r := d.index, Resolved(log + [d], d.index);
    PhasesSnoc(codec, log, d, t);
    SilentBefore(codec, log, t);
    assert Phased(codec, ready, SILENT) by { NothingPhased(codec, ready); }
    GivePhased(codec, ready, SILENT, r, ArgsFor(log, t));
    GivePhased(codec, Give(codec, ready, r, ArgsFor(log, t)), Heard(codec, SILENT, r, ArgsFor(log, t)), r,
               Text(d.args));
  }

  lemma NothingPhased(codec: Json.Codec, st: B.ToolCallState)
    requires st.contents == [] && !st.taskArgsEmitted && st.taskArgBuffer == ""
    ensures Phased(codec, st, SILENT)
  {
  }

  lemma RenamedPhased(codec: Json.Codec, st: B.ToolCallState, d: ToolCallDelta, id: string, p: Phases)
    ensures Phased(codec, Named(st, d, id), p) <==> Phased(codec, st, p)
  {
  }

  /** Before a call has a name nothing was heard of it. */
  lemma {:induction false} SilentBefore(codec: Json.Codec, log: seq<ToolCallDelta>, t: nat)
    requires Resolved(log, t) == ""
    ensures PhasesOf(codec, log, t) == SILENT
  {
    hide TrimSpace, B.ExtendName, ArgsFor, Heard;
    if log != [] {
      var d, was := log[|log| - 1], log[..|log| - 1];
      if Resolved(was, t) != "" && d.name.Some? { StaysNamed(NameFor(was, t), d.name.value); }
      SilentBefore(codec, was, t);
    }
  }

  /** A fragment of another call changes nothing. */
  lemma TracksOther(codec: Json.Codec, st: B.ToolCallState, log: seq<ToolCallDelta>, d: ToolCallDelta, t: nat)
    requires Tracks(codec, st, log, t) && d.index != t
    ensures Tracks(codec, st, log + [d], t)
  {
    hide TrimSpace, TaskShape, ArgsFor, NameFor, EverTask, EverOther, Phased;
    LogSnoc(log, d, t);
    assert ArgsFor(log, t) + "" == ArgsFor(log, t);
  }

  /** A name that is not blank stays so. */
  lemma StaysNamed(prev: string, name: string)
    requires TrimSpace(prev) != ""
    ensures TrimSpace(B.ExtendName(prev, name)) != ""
  {
    hide TrimSpace;
    var r := B.ExtendName(prev, name);
    BlankIsAllSpace(prev);
    BlankIsAllSpace(r);
    assert prev <= r;
    assert forall i :: 0 <= i < |prev| ==> r[i] == prev[i];
  }

  lemma GiveToTask(codec: Json.Codec, st: B.ToolCallState, args: string)
    ensures Give(codec, st, TASK, args) == if args == "" then st else TakeTask(codec, st, args)
  {
  }

  lemma GiveTask(codec: Json.Codec, st: B.ToolCallState, before: string, args: string)
    requires TaskShape(codec, st.taskArgsEmitted, st.taskArgBuffer, st.contents, before)
    ensures var g := Give(codec, st, TASK, args);
            TaskShape(codec, g.taskArgsEmitted, g.taskArgBuffer, g.contents, before + args)
  {
    if args == "" {
      assert before + args == before;
    } else if st.taskArgsEmitted {
      var p :| p <= before && codec.decode(p).Some?
          && st.contents[0] == codec.canonical(B.Foreground(codec.decode(p).value));
      assert p <= before + args;
    } else {
      assert before + args <= before + args;
      assert before + args != "";
    }
  }

  lemma GivePlain(codec: Json.Codec, st: B.ToolCallState, resolved: string, args: string)
    requires resolved != TASK
    ensures Join(Give(codec, st, resolved, args).contents) == Join(st.contents) + args
    ensures Give(codec, st, resolved, args).taskArgBuffer == st.taskArgBuffer
  {
    JoinAppend(st.contents, args);
    assert args == "" ==> Join(st.contents) + args == Join(st.contents);
  }

  /** The state keeps agreeing with the log as its call's next fragment is processed. */
  lemma AdvanceTracks(codec: Json.Codec, st: B.ToolCallState, log: seq<ToolCallDelta>, d: ToolCallDelta, id: string,
                      block: nat, id': string)
    requires Tracks(codec, st, log, d.index)
    ensures Tracks(codec, Advance(codec, Named(st, d, id), block, id', Text(d.args)), log + [d], d.index)
  {
    hide TrimSpace, TaskShape, ArgsFor, NameFor, EverTask, EverOther, Give, B.ExtendName, Join, Phased, PhasesOf;
    var t, args := d.index, Text(d.args);
    LogSnoc(log, d, t);
    var named := Named(st, d, id);
    var r := TrimSpace(named.name);
    assert named.name == NameFor(log + [d], t) && r == Resolved(log + [d], t);
    if st.started {
      if d.name.Some? { StaysNamed(st.name, d.name.value); }
      RenamedPhased(codec, st, d, id, PhasesOf(codec, log, t));
      GiveOne(codec, named, r, args, log, d);
    } else if r != "" {
      NeverBefore(codec, log, t);
      var ready := named.(started := true, blockIndex := block, toolID := id', preStartArgs := "");
      var begun := Give(codec, ready, r, named.preStartArgs);
      if r == TASK {
        FreshTask(codec, ready);
        GiveTask(codec, ready, "", named.preStartArgs);
        GiveTask(codec, begun, "" + named.preStartArgs, args);
        assert "" + named.preStartArgs == named.preStartArgs;
      } else {
        GivePlain(codec, ready, r, named.preStartArgs);
        GivePlain(codec, begun, r, args);
        JoinNothing(ready);
      }
      GiveKeeps(codec, ready, r, named.preStartArgs);
      GiveKeeps(codec, begun, r, args);
      FirstPhased(codec, ready, log, d);
    }
  }

  lemma FreshTask(codec: Json.Codec, st: B.ToolCallState)
    requires st.contents == [] && !st.taskArgsEmitted && st.taskArgBuffer == ""
    ensures TaskShape(codec, st.taskArgsEmitted, st.taskArgBuffer, st.contents, "")
  {
  }

  lemma JoinNothing(st: B.ToolCallState)
    requires st.contents == []
    ensures forall a: string, b: string :: Join(st.contents) + a + b == a + b
  {
  }

  lemma GiveKeeps(codec: Json.Codec, st: B.ToolCallState, r: string, args: string)
    ensures var g := Give(codec, st, r, args);
            g.name == st.name && g.started == st.started && g.blockIndex == st.blockIndex
                && g.preStartArgs == st.preStartArgs && g.toolID == st.toolID
  {
  }

  /** Before a call has a name it was neither a Task nor anything else. */
  lemma {:induction false} NeverBefore(codec: Json.Codec, log: seq<ToolCallDelta>, t: nat)
    requires Resolved(log, t) == ""
    ensures !EverTask(log, t) && !EverOther(log, t)
  {
    hide TrimSpace, B.ExtendName;
    if log != [] {
      var d, log' := log[|log| - 1], log[..|log| - 1];
      if Resolved(log', t) != "" {
        if d.name.Some? { StaysNamed(NameFor(log', t), d.name.value); }
      }
      NeverBefore(codec, log', t);
    }
  }

  lemma GiveOne(codec: Json.Codec, named: B.ToolCallState, r: string, args: string, log: seq<ToolCallDelta>,
                d: ToolCallDelta)
    requires named.started && r == TrimSpace(named.name) && r != "" && args == Text(d.args)
    requires named.name == NameFor(log + [d], d.index) && r == Resolved(log + [d], d.index)
    requires Faithful(codec, named, log, d.index) && Resolved(log, d.index) != ""
    ensures Tracks(codec, Give(codec, named, r, args), log + [d], d.index)
  {
    hide TrimSpace, TaskShape, ArgsFor, NameFor, EverTask, EverOther, Give, B.ExtendName, Join, Phased, PhasesOf;
    LogSnoc(log, d, d.index);
    GiveKeeps(codec, named, r, args);
    if r == TASK {
      if !EverOther(log, d.index) { GiveTask(codec, named, ArgsFor(log, d.index), args); }
    } else {
      GivePlain(codec, named, r, args);
    }
    NamedPhased(codec, named, log, d);
  }

  // ---- all calls at once ----

  ghost predicate AllTrack(codec: Json.Codec, states: map<nat, B.ToolCallState>, log: seq<ToolCallDelta>)
  {
    forall t: nat :: Tracks(codec, B.ToolAt(states, t), log, t)
  }

  /** The two maps agree on every tool index but t. */
  ghost predicate OnlyAt(a: map<nat, B.ToolCallState>, b: map<nat, B.ToolCallState>, t: nat)
  {
    forall u: nat :: u != t ==> B.ToolAt(b, u) == B.ToolAt(a, u)
  }

  lemma AllTrackNext(codec: Json.Codec, states: map<nat, B.ToolCallState>, log: seq<ToolCallDelta>,
                     states': map<nat, B.ToolCallState>,
                     d: ToolCallDelta, id: string, block: nat, id': string)
    requires AllTrack(codec, states, log) && OnlyAt(states, states', d.index)
    requires B.ToolAt(states', d.index) == Advance(codec, Named(B.ToolAt(states, d.index), d, id), block, id',
               Text(d.args))
    ensures AllTrack(codec, states', log + [d])
  {
    hide Tracks, Advance, Named;
    forall t: nat ensures Tracks(codec, B.ToolAt(states', t), log + [d], t) {
      assert Tracks(codec, B.ToolAt(states, t), log, t);
      if t == d.index {
        AdvanceTracks(codec, B.ToolAt(states, t), log, d, id, block, id');
      } else {
        TracksOther(codec, B.ToolAt(states, t), log, d, t);
      }
    }
  }

  lemma NothingTracked(codec: Json.Codec)
    ensures AllTrack(codec, map[], [])
  {
    hide TaskShape;
    assert TrimSpace("") == "";
  }

  // ---- the arguments still held when the turn ends ----

  function Repaired(codec: Json.Codec, defend: bool, args: string): string
  {
    if defend then codec.repair(args) else args
  }

  /** The state of a call once its held arguments, if any, have been sent. */
  function AfterFlush(codec: Json.Codec, defend: bool, st: B.ToolCallState): B.ToolCallState
  {
    if B.HoldsTask(st) then
      B.Flushed(st).(contents := st.contents + [Repaired(codec, defend, B.TaskFallback(codec, st.taskArgBuffer))])
    else st
  }

  /** What holds of a call whose name is known when the turn has ended. */
  ghost predicate Settled(codec: Json.Codec, st: B.ToolCallState, log: seq<ToolCallDelta>, t: nat)
  {
    Resolved(log, t) != "" ==>
      && st.started
      && (!EverTask(log, t) ==> Join(st.contents) == ArgsFor(log, t))
      && (!EverOther(log, t) ==> TaskSettled(codec, st.contents, ArgsFor(log, t)))
      && Join(st.contents) == SentOf(PhasesOf(codec, log, t))
  }

  /** What a call's deltas join to in the end: a Task's arguments that never parsed are "{}", and come last. */
  function SentOf(p: Phases): string
  {
    p.before + Text(p.sent) + p.after + (if p.task != "" && p.sent == None then "{}" else "")
  }

  lemma FlushedPhased(codec: Json.Codec, defend: bool, st: B.ToolCallState, p: Phases)
    requires Json.Lawful(codec) && Phased(codec, st, p)
    ensures Join(AfterFlush(codec, defend, st).contents) == SentOf(p)
  {
    assert codec.decode("{}").Some?;
    assert codec.repair("{}") == "{}";
    JoinAppend(st.contents, "{}");
  }

  /**
   * The fragments of a named call are its three phases in order; the
   * Task's text went out once a beginning of it parsed.
   */
  lemma {:induction false} PhasesJoin(codec: Json.Codec, log: seq<ToolCallDelta>, t: nat)
    requires Resolved(log, t) != ""
    ensures var p := PhasesOf(codec, log, t);
            && ArgsFor(log, t) == p.before + p.task + p.after
            && (p.task == "" ==> p.sent == None && p.after == "")
            && (p.sent.Some? ==> TaskParsed(codec, p.task, p.sent.value))
            && (p.sent == None && p.task != "" ==> codec.decode(p.task) == None)
  {
    hide Resolved, PhasesOf, Heard, ArgsFor, TaskParsed;
    if log == [] {
      NothingResolved(t);
    } else {
      var d, was := log[|log| - 1], log[..|log| - 1];
      assert log == was + [d];
      var r := Resolved(log, t);
      PhasesSnoc(codec, was, d, t);
      ArgsSnoc(was, d, t);
      if Resolved(was, t) != "" {
        PhasesJoin(codec, was, t);
        if d.index == t {
          if r == TASK { NotPast(codec, was, d); }
          HeardJoins(codec, PhasesOf(codec, was, t), r, Text(d.args), ArgsFor(was, t));
        }
      } else {
        OnlyItsOwn(was, d, t);
        SilentBefore(codec, was, t);
        HeardJoins(codec, SILENT, r, ArgsFor(was, t), "");
        HeardJoins(codec, Heard(codec, SILENT, r, ArgsFor(was, t)), r, Text(d.args), ArgsFor(was, t));
      }
    }
  }

  lemma NothingResolved(t: nat)
    ensures Resolved([], t) == ""
  {
    BlankIsAllSpace("");
  }

  lemma ArgsSnoc(log: seq<ToolCallDelta>, d: ToolCallDelta, t: nat)
    ensures ArgsFor(log + [d], t) == ArgsFor(log, t) + (if d.index == t then Text(d.args) else "")
  {
    assert (log + [d])[..|log|] == log;
  }

  /** Only a fragment of its own gives a call its name. */
  lemma OnlyItsOwn(log: seq<ToolCallDelta>, d: ToolCallDelta, t: nat)
    ensures d.index != t ==> Resolved(log + [d], t) == Resolved(log, t)
  {
    hide TrimSpace;
    assert (log + [d])[..|log|] == log;
  }

  /** One piece heard joins on, unless it is a Task's after other text. */
  lemma HeardJoins(codec: Json.Codec, p: Phases, r: string, args: string, all: string)
    requires all == p.before + p.task + p.after && (p.task == "" ==> p.sent == None && p.after == "")
    requires p.sent.Some? ==> TaskParsed(codec, p.task, p.sent.value)
    requires p.sent == None && p.task != "" ==> codec.decode(p.task) == None
    requires r == TASK ==> p.after == ""
    ensures var h := Heard(codec, p, r, args);
            && all + args == h.before + h.task + h.after
            && (h.task == "" ==> h.sent == None && h.after == "")
            && (h.sent.Some? ==> TaskParsed(codec, h.task, h.sent.value))
            && (h.sent == None && h.task != "" ==> codec.decode(h.task) == None)
            && (r == TASK ==> h.after == "")
  {
    var h := Heard(codec, p, r, args);
    if args == "" {
      assert all + args == all;
    } else if r == TASK {
      assert p.before + p.task + "" + args == p.before + (p.task + args) + "";
      if p.sent.Some? {
        var q :| q <= p.task && codec.decode(q).Some?
            && p.sent.value == codec.canonical(B.Foreground(codec.decode(q).value));
        assert q <= h.task;
      } else if h.sent.Some? {
        assert h.task <= h.task && codec.decode(h.task).Some?;
      }
    } else {
      assert p.before + p.task + p.after + args == p.before + p.task + (p.after + args);
      assert p.before + "" + "" + args == p.before + args + "" + "";
    }
  }

  /** The call's deltas join to its fragments: it had nothing to say as a Task, or that was the one delta made of it. */
  predicate Unharmed(p: Phases)
  {
    || p.task == ""
    || (if p.sent.Some? then p.sent.value == p.task else p.task == "}{" && Swapped(p.after))
  }

  /** "}", "}{}", "}{}{}" and so on: the texts that "}{" ahead and "{}" behind extend alike. */
  predicate Swapped(s: string)
  {
    s == "}" || (2 <= |s| && s[..2] == "}{" && Swapped(s[2..]))
  }

  /** Under whatever names a call came, its deltas join to its fragments exactly then. */
  lemma JoinsExactly(codec: Json.Codec, st: B.ToolCallState, log: seq<ToolCallDelta>, t: nat)
    requires Json.Lawful(codec) && Settled(codec, st, log, t) && Resolved(log, t) != ""
    ensures Join(st.contents) == ArgsFor(log, t) <==> Unharmed(PhasesOf(codec, log, t))
  {
    hide Resolved, PhasesOf, ArgsFor, TaskParsed, EverTask, EverOther, TaskSettled, Join, Swapped;
    var p := PhasesOf(codec, log, t);
    PhasesJoin(codec, log, t);
    assert codec.decode("{}").Some?;
    if p.task == "" {
      assert p.before + "" + "" + "" == p.before + "" + "";
    } else if p.sent.Some? {
      assert p.before + p.sent.value + p.after + "" == p.before + p.sent.value + p.after;
      Between(p.before, p.sent.value, p.task, p.after);
    } else {
      assert p.before + "" + p.after + "{}" == p.before + (p.after + "{}");
      assert p.before + p.task + p.after == p.before + (p.task + p.after);
      Between(p.before, p.after + "{}", p.task + p.after, "");
      assert p.before + (p.after + "{}") + "" == p.before + (p.after + "{}");
      assert p.before + (p.task + p.after) + "" == p.before + (p.task + p.after);
      SwappedOnly(p.task, p.after);
    }
  }

  lemma Between(a: string, x: string, y: string, b: string)
    ensures a + x + b == a + y + b <==> x == y
  {
    if a + x + b == a + y + b {
      assert |a + x + b| == |a| + |x| + |b| && |a + y + b| == |a| + |y| + |b|;
      assert x == (a + x + b)[|a|..|a| + |x|];
      assert y == (a + y + b)[|a|..|a| + |y|];
    }
  }

  lemma {:induction false} SwappedOnly(task: string, after: string)
    requires task != "{}"
    ensures after + "{}" == task + after <==> task == "}{" && Swapped(after)
  {
    var l, r := after + "{}", task + after;
    if |task| == 2 && 2 <= |after| {
      assert r[..2] == task && l[..2] == after[..2];
      SwappedOnly(task, after[2..]);
      if after[..2] == task {
        assert after == task + after[2..];
        assert l == task + (after[2..] + "{}") && r == task + (task + after[2..]);
        assert l[2..] == after[2..] + "{}" && r[2..] == task + after[2..];
      }
    } else if |task| == 2 && |after| == 1 {
      assert l == [after[0], '{', '}'] && r == [task[0], task[1], after[0]];
      assert task == [task[0], task[1]] && after == [after[0]];
    } else if |task| == 2 {
      assert after == "" && l == "{}" && r == task;
    } else {
      assert |l| != |r|;
    }
  }

  lemma NothingSaid(t: nat)
    ensures ArgsFor([], t) == ""
  {
  }

  lemma FallsBack(codec: Json.Codec, defend: bool, args: string)
    requires Json.Lawful(codec) && codec.decode(args) == None
    ensures Repaired(codec, defend, B.TaskFallback(codec, args)) == "{}"
  {
  }

  lemma NamesAreTrimmed()
    ensures TrimSpace("Task") == "Task" && TrimSpace("TaskOutput") == "TaskOutput"
  {
    TrimNothing("Task");
    TrimNothing("TaskOutput");
  }

  /**
   * A call that is "Task" while it gets x, which does not parse, and
   * "TaskOutput" while it gets y: y goes out, and then "{}".
   */
  lemma TaskOutputLoses(codec: Json.Codec, defend: bool, block: nat, id: string, x: string, y: string)
    requires Json.Lawful(codec) && x != "" && y != "" && codec.decode(x) == None
    ensures var d0 := ToolCallDelta(0, Some(id), Some("Task"), Some(x));
            var d1 := ToolCallDelta(0, None, Some("Output"), Some(y));
            var s0 := Advance(codec, Named(B.NEW_TOOL, d0, id), block, id, x);
            var s1 := AfterFlush(codec, defend, Advance(codec, Named(s0, d1, id), block, id, y));
            s1.name == "TaskOutput" && s1.contents == [y, "{}"] && ArgsFor([d0, d1], 0) == x + y
  {
    hide TrimSpace, IsSpace, ArgsFor, Repaired;
    var d0 := ToolCallDelta(0, Some(id), Some("Task"), Some(x));
    var d1 := ToolCallDelta(0, None, Some("Output"), Some(y));
    NamesAreTrimmed();
    assert ArgsFor([], 0) == "" by { NothingSaid(0); }
    assert [] + [d0] == [d0] && [d0] + [d1] == [d0, d1];
    ArgsSnoc([], d0, 0);
    ArgsSnoc([d0], d1, 0);
    assert codec.repair("{}") == "{}" && codec.decode("{}").Some?;
    var s0 := Advance(codec, Named(B.NEW_TOOL, d0, id), block, id, x);
    assert "" + x == x;
    assert s0.name == "Task" && s0.started && s0.contents == [] && s0.taskArgBuffer == x && !s0.taskArgsEmitted;
    var s1 := Advance(codec, Named(s0, d1, id), block, id, y);
    assert !("Task" <= "Output") && !("Output" <= "Task") by { assert "Task"[0] != "Output"[0]; }
    assert "Task" + "Output" == "TaskOutput" && [] + [y] == [y];
    assert s1.name == "TaskOutput" && s1.contents == [y] && s1.taskArgBuffer == x && !s1.taskArgsEmitted;
    FallsBack(codec, defend, x);
  }

  /** Task arguments that never parsed go out as "{}". */
  lemma FlushedTask(codec: Json.Codec, defend: bool, st: B.ToolCallState, args: string)
    requires Json.Lawful(codec) && TaskShape(codec, st.taskArgsEmitted, st.taskArgBuffer, st.contents, args)
    ensures TaskSettled(codec, AfterFlush(codec, defend, st).contents, args)
  {
    hide TaskParsed;
    assert codec.decode("{}").Some?;
    assert codec.repair("{}") == "{}";
  }

  lemma FlushedSettles(codec: Json.Codec, defend: bool, st: B.ToolCallState, log: seq<ToolCallDelta>, t: nat)
    requires Json.Lawful(codec) && Faithful(codec, st, log, t)
    ensures Settled(codec, AfterFlush(codec, defend, st), log, t)
  {
    hide TrimSpace, TaskSettled, TaskShape, Repaired, B.TaskFallback, Json.Lawful, EverTask, EverOther, ArgsFor,
         NameFor, Phased, PhasesOf, SentOf;
    if Resolved(log, t) != "" && !EverOther(log, t) {
      FlushedTask(codec, defend, st, ArgsFor(log, t));
    }
    if Resolved(log, t) != "" { FlushedPhased(codec, defend, st, PhasesOf(codec, log, t)); }
  }

  /** Before the held arguments go out: the nameless calls have been given a name or dropped. */
  ghost predicate Answered(codec: Json.Codec, defend: bool, toolNames: seq<Option<string>>, st: B.ToolCallState,
                           log: seq<ToolCallDelta>, t: nat)
  {
    && (st.started <==> Resolved(log, t) != "" || Adopted(toolNames, log, t))
    && Faithful(codec, st, log, t)
    && (Adopted(toolNames, log, t) ==>
          if InferToolNameByIndex(toolNames, t) == TASK then
              TaskShape(codec, st.taskArgsEmitted, st.taskArgBuffer, st.contents, ArgsFor(log, t))
          else st.contents == RepairedArgs(codec, defend, ArgsFor(log, t)) && st.taskArgBuffer == "")
  }

  /** Nothing came of the call but an id. */
  predicate Unused(st: B.ToolCallState)
  {
    st.name == "" && st.preStartArgs == "" && st.contents == [] && !st.taskArgsEmitted && st.taskArgBuffer == ""
  }

  /** The arguments held for a call that was not a Task, repaired while defending. */
  function RepairedArgs(codec: Json.Codec, defend: bool, args: string): seq<string>
  {
    if args == "" then [] else [Repaired(codec, defend, args)]
  }

  /** Start a nameless call under a name of the request and send what was held back. */
  function Adopt(codec: Json.Codec, defend: bool, st: B.ToolCallState, block: nat, id: string,
                 name: string): B.ToolCallState
  {
    var ready := st.(started := true, blockIndex := block, toolID := id, preStartArgs := "");
    if st.preStartArgs == "" then ready
    else if name == TASK then TakeTask(codec, ready, st.preStartArgs)
    else ready.(contents := ready.contents + [Repaired(codec, defend, st.preStartArgs)])
  }

  lemma AdoptedAnswers(codec: Json.Codec, defend: bool, toolNames: seq<Option<string>>, st: B.ToolCallState,
                       log: seq<ToolCallDelta>, t: nat,
                       block: nat, id: string)
    requires Tracks(codec, st, log, t) && Adopted(toolNames, log, t)
    ensures Answered(codec, defend, toolNames, Adopt(codec, defend, st, block, id, InferToolNameByIndex(toolNames, t)),
                     log, t)
    ensures Adopt(codec, defend, st, block, id, InferToolNameByIndex(toolNames, t)).started
  {
    hide TrimSpace, TaskShape, ArgsFor, NameFor, EverTask, EverOther, InferToolNameByIndex, Repaired, Give;
    var ready := st.(started := true, blockIndex := block, toolID := id, preStartArgs := "");
    FreshTask(codec, ready);
    GiveTask(codec, ready, "", st.preStartArgs);
    assert "" + st.preStartArgs == st.preStartArgs
        && [] + [Repaired(codec, defend, st.preStartArgs)] == [Repaired(codec, defend, st.preStartArgs)];
    assert Give(codec, ready, TASK, st.preStartArgs) == if st.preStartArgs == "" then ready
        else TakeTask(codec, ready, st.preStartArgs) by {
      GiveToTask(codec, ready, st.preStartArgs);
    }
  }

  /** A call that has a name, or of which nothing came, needs no answer; a dropped one is forgotten. */
  lemma OthersAnswer(codec: Json.Codec, defend: bool, toolNames: seq<Option<string>>, st: B.ToolCallState,
                     log: seq<ToolCallDelta>, t: nat)
    ensures Tracks(codec, st, log, t) && !Nameless(log, t) ==>
            Answered(codec, defend, toolNames, st, log, t)
            && (!st.started ==> Unused(st))
    ensures Dropped(toolNames, log, t) ==> Answered(codec, defend, toolNames, B.NEW_TOOL, log, t)
  {
    hide TrimSpace, TaskShape, ArgsFor, NameFor, EverTask, EverOther, InferToolNameByIndex, Repaired;
  }

  ghost predicate AllAnswered(codec: Json.Codec, defend: bool, toolNames: seq<Option<string>>,
                              states: map<nat, B.ToolCallState>, log: seq<ToolCallDelta>)
  {
    forall t: nat :: Answered(codec, defend, toolNames, B.ToolAt(states, t), log, t)
  }

  /** The calls of a finished turn: which have a block, and what was sent to it. */
  ghost predicate Delivered(codec: Json.Codec, defend: bool, toolNames: seq<Option<string>>, st: B.ToolCallState,
                            log: seq<ToolCallDelta>, t: nat)
  {
    && (st.started <==> Resolved(log, t) != "" || Adopted(toolNames, log, t))
    && Settled(codec, st, log, t)
    && (Adopted(toolNames, log, t) ==>
          if InferToolNameByIndex(toolNames, t) == TASK then TaskSettled(codec, st.contents, ArgsFor(log, t))
          else st.contents == RepairedArgs(codec, defend, ArgsFor(log, t)))
  }

  ghost predicate AllDelivered(codec: Json.Codec, defend: bool, toolNames: seq<Option<string>>,
                               states: map<nat, B.ToolCallState>, log: seq<ToolCallDelta>)
  {
    forall t: nat :: Delivered(codec, defend, toolNames, B.ToolAt(states, t), log, t)
  }

  lemma FlushedDelivers(codec: Json.Codec, defend: bool, toolNames: seq<Option<string>>, st: B.ToolCallState,
                        log: seq<ToolCallDelta>, t: nat)
    requires Json.Lawful(codec) && Answered(codec, defend, toolNames, st, log, t)
    ensures Delivered(codec, defend, toolNames, AfterFlush(codec, defend, st), log, t)
  {
    hide TrimSpace, TaskSettled, TaskShape, Repaired, B.TaskFallback, Json.Lawful, EverTask, EverOther, ArgsFor,
         NameFor, Nameless, Settled, InferToolNameByIndex;
    FlushedSettles(codec, defend, st, log, t);
    if Adopted(toolNames, log, t) && InferToolNameByIndex(toolNames, t) == TASK {
      FlushedTask(codec, defend, st, ArgsFor(log, t));
    }
  }

  /** Sending the Task arguments that never parsed delivers every call. */
  lemma FlushedIsDelivered(codec: Json.Codec, defend: bool, toolNames: seq<Option<string>>,
                           states: map<nat, B.ToolCallState>,
                           log: seq<ToolCallDelta>, states': map<nat, B.ToolCallState>)
    requires Json.Lawful(codec) && AllAnswered(codec, defend, toolNames, states, log)
    requires forall t: nat :: B.ToolAt(states', t) == AfterFlush(codec, defend, B.ToolAt(states, t))
    ensures AllDelivered(codec, defend, toolNames, states', log)
  {
    hide Json.Lawful, AfterFlush, Answered, Delivered;
    forall t: nat ensures Delivered(codec, defend, toolNames, B.ToolAt(states', t), log, t) {
      assert Answered(codec, defend, toolNames, B.ToolAt(states, t), log, t);
      FlushedDelivers(codec, defend, toolNames, B.ToolAt(states, t), log, t);
    }
  }

  /** When no call has come to anything, the next fragments are the first. */
  lemma UnusedTracks(codec: Json.Codec, states: map<nat, B.ToolCallState>)
    requires forall t: nat :: !B.ToolAt(states, t).started && Unused(B.ToolAt(states, t))
    ensures AllTrack(codec, states, [])
  {
    hide Faithful, Unused;
    forall t: nat ensures Tracks(codec, B.ToolAt(states, t), [], t) {
      NoneTracks(codec, B.ToolAt(states, t), t);
    }
  }

  lemma NoneTracks(codec: Json.Codec, st: B.ToolCallState, t: nat)
    requires Unused(st) && !st.started
    ensures Tracks(codec, st, [], t)
  {
    assert TrimSpace("") == "" by { BlankIsAllSpace(""); }
  }

  /** Nameless calls that nobody names stay without a block; the others are answered as they are. */
  lemma TrackedAnswers(codec: Json.Codec, defend: bool, states: map<nat, B.ToolCallState>, log: seq<ToolCallDelta>)
    requires AllTrack(codec, states, log)
    ensures AllAnswered(codec, defend, [], states, log)
  {
    hide Faithful, Nameless;
    forall t: nat ensures Answered(codec, defend, [], B.ToolAt(states, t), log, t) {
      assert Tracks(codec, B.ToolAt(states, t), log, t);
    }
  }

  lemma TrackedNames(codec: Json.Codec, states: map<nat, B.ToolCallState>, names: map<nat, string>,
                     toolNames: seq<Option<string>>, log: seq<ToolCallDelta>)
    requires AllTrack(codec, states, log) && AllNamed(states, names, toolNames, log)
    ensures AllNamed(states, names, [], log)
  {
    hide Faithful, FirstName, Resolved;
    forall t | t in states && states[t].started ensures B.NameAt(names, t) == StartName([], log, t) {
      assert Tracks(codec, B.ToolAt(states, t), log, t);
      NamedOnce(log, t);
    }
  }

  // ---- names ----

  lemma FirstNameSnoc(log: seq<ToolCallDelta>, d: ToolCallDelta, t: nat)
    ensures FirstName(log + [d], t) == if FirstName(log, t) != "" then FirstName(log, t) else Resolved(log + [d], t)
  {
    hide Resolved;
    assert (log + [d])[..|log|] == log;
  }

  /** A call has a first name as soon as it has any, and keeps having one. */
  lemma {:induction false} NamedOnce(log: seq<ToolCallDelta>, t: nat)
    ensures FirstName(log, t) != "" <==> Resolved(log, t) != ""
  {
    hide TrimSpace, B.ExtendName;
    if log != [] {
      var d, log' := log[|log| - 1], log[..|log| - 1];
      NamedOnce(log', t);
      if Resolved(log', t) != "" && d.name.Some? { StaysNamed(NameFor(log', t), d.name.value); }
    } else {
      assert TrimSpace("") == "" by { BlankIsAllSpace(""); }
    }
  }

  /** Every started call's block was started with its name. */
  ghost predicate AllNamed(states: map<nat, B.ToolCallState>, names: map<nat, string>, toolNames: seq<Option<string>>,
                           log: seq<ToolCallDelta>)
  {
    forall t :: t in states && states[t].started ==> B.NameAt(names, t) == StartName(toolNames, log, t)
  }

  /** The name a fragment's call has when its block starts with the fragment. */
  lemma NamedNext(codec: Json.Codec, states: map<nat, B.ToolCallState>, names: map<nat, string>,
                  toolNames: seq<Option<string>>, log: seq<ToolCallDelta>,
                  states': map<nat, B.ToolCallState>, names': map<nat, string>, d: ToolCallDelta)
    requires AllTrack(codec, states, log) && AllTrack(codec, states', log + [d])
             && AllNamed(states, names, toolNames, log)
    requires OnlyAt(states, states', d.index)
    requires names' == if !B.ToolAt(states, d.index).started && B.ToolAt(states', d.index).started then
             names[d.index := TrimSpace(B.ToolAt(states', d.index).name)]
                       else names
    ensures AllNamed(states', names', toolNames, log + [d])
  {
    hide TrimSpace, Faithful, NameFor, ArgsFor, InferToolNameByIndex, FirstName;
    forall t | t in states' && states'[t].started ensures B.NameAt(names', t) == StartName(toolNames, log + [d], t) {
      FirstNameSnoc(log, d, t);
      NamedOnce(log, t);
      assert Tracks(codec, B.ToolAt(states, t), log, t);
      assert Tracks(codec, B.ToolAt(states', t), log + [d], t);
      if t != d.index {
        assert B.ToolAt(states', t) == B.ToolAt(states, t);
        assert t in states;
      }
    }
  }

  /** The first i of the held calls have had their delta sent. */
  ghost predicate PartlyFlushed(codec: Json.Codec, defend: bool, was: map<nat, B.ToolCallState>,
                                now: map<nat, B.ToolCallState>,
                                results: seq<(nat, string)>, i: nat)
    requires i <= |results|
  {
    forall t: nat :: B.ToolAt(now, t) ==
      if Among(results, i, t) then AfterFlush(codec, defend, B.ToolAt(was, t)) else B.Flushed(B.ToolAt(was, t))
  }

  predicate Among(results: seq<(nat, string)>, i: nat, t: nat)
    requires i <= |results|
  {
    exists j :: 0 <= j < i && results[j].0 == t
  }

  lemma NoneFlushed(codec: Json.Codec, defend: bool, was: map<nat, B.ToolCallState>, results: seq<(nat, string)>)
    ensures PartlyFlushed(codec, defend, was, B.FlushedStates(was), results, 0)
  {
    assert B.Flushed(B.NEW_TOOL) == B.NEW_TOOL;
  }

  lemma OneFlushed(codec: Json.Codec, defend: bool, was: map<nat, B.ToolCallState>, now: map<nat, B.ToolCallState>,
                   results: seq<(nat, string)>, i: nat)
    requires i < |results| && PartlyFlushed(codec, defend, was, now, results, i)
    requires forall j, k :: 0 <= j < k < |results| ==> results[j].0 != results[k].0
    requires var x := results[i];
             x.0 in was && was[x.0].started && B.HoldsTask(was[x.0])
                 && x.1 == B.TaskFallback(codec, was[x.0].taskArgBuffer)
    ensures var (t, args) := results[i];
            && t in now && now[t].started
            && PartlyFlushed(codec, defend, was,
                             now[t := now[t].(contents := now[t].contents + [Repaired(codec, defend, args)])], results,
               i + 1)
  {
    hide B.HoldsTask, B.TaskFallback, Repaired;
    var t := results[i].0;
    assert !Among(results, i, t);
    assert B.ToolAt(now, t) == B.Flushed(was[t]);
    assert t in now;
    forall u: nat ensures Among(results, i + 1, u) <==> Among(results, i, u) || u == t {
    }
  }

  lemma AllFlushed(codec: Json.Codec, defend: bool, order: seq<nat>, was: map<nat, B.ToolCallState>,
                   now: map<nat, B.ToolCallState>)
    requires B.Ordered(order, was)
    requires var r := B.FlushResults(codec, order, was); PartlyFlushed(codec, defend, was, now, r, |r|)
    ensures forall t: nat :: B.ToolAt(now, t) == AfterFlush(codec, defend, B.ToolAt(was, t))
  {
    hide B.TaskFallback, Repaired, B.FlushResults;
    var r := B.FlushResults(codec, order, was);
    B.FlushResultsOnce(codec, order, was);
    forall t: nat ensures B.ToolAt(now, t) == AfterFlush(codec, defend, B.ToolAt(was, t)) {
      if t in was && B.HoldsTask(was[t]) {
        assert t in order;
        var j :| 0 <= j < |r| && r[j] == (t, B.TaskFallback(codec, was[t].taskArgBuffer));
        assert Among(r, |r|, t);
      }
    }
  }

  // ---- ids ----

  predicate MintedAs(uuid: nat -> string, id: string, n: nat)
  {
    id == "toolu_" + uuid(n) || id == "tool_" + uuid(n)
  }

  /** Every call with an id has one of the proxy's own, made from a random number no other call has. */
  ghost predicate AllMinted(uuid: nat -> string, states: map<nat, B.ToolCallState>, serials: map<nat, nat>, minted: nat)
  {
    && (forall t :: t in states && states[t].toolID != "" ==>
         t in serials && MintedAs(uuid, states[t].toolID, serials[t]))
    && (forall t :: t in serials ==> serials[t] < minted)
    && (forall t, u :: t in serials && u in serials && t != u ==> serials[t] != serials[u])
  }

  /** A call keeps its id, loses it, or gets one from the next random number. */
  function NextSerials(serials: map<nat, nat>, was: string, id: string, t: nat, minted: nat): map<nat, nat>
  {
    if id == "" || id == was then serials else serials[t := minted]
  }

  lemma MintedNext(uuid: nat -> string, states: map<nat, B.ToolCallState>, serials: map<nat, nat>, minted: nat,
                   states': map<nat, B.ToolCallState>, t: nat, minted': nat)
    requires AllMinted(uuid, states, serials, minted) && OnlyAt(states, states', t) && minted <= minted'
    requires var id := B.ToolAt(states', t).toolID;
             id == "" || id == B.ToolAt(states, t).toolID || (MintedAs(uuid, id, minted) && minted < minted')
    ensures AllMinted(uuid, states', NextSerials(serials, B.ToolAt(states, t).toolID, B.ToolAt(states', t).toolID, t,
                                                 minted), minted')
  {
    hide MintedAs;
    var serials' := NextSerials(serials, B.ToolAt(states, t).toolID, B.ToolAt(states', t).toolID, t, minted);
    forall u | u in states' && states'[u].toolID != ""
        ensures u in serials' && MintedAs(uuid, states'[u].toolID, serials'[u]) {
      assert B.ToolAt(states', u) == states'[u];
      if u != t { assert B.ToolAt(states, u) == states'[u]; }
    }
  }

  lemma MintedSame(uuid: nat -> string, states: map<nat, B.ToolCallState>, serials: map<nat, nat>, minted: nat,
                   states': map<nat, B.ToolCallState>)
    requires AllMinted(uuid, states, serials, minted)
    requires forall t: nat :: B.ToolAt(states', t).toolID == B.ToolAt(states, t).toolID
    ensures AllMinted(uuid, states', serials, minted)
  {
    hide MintedAs;
    forall u | u in states' && states'[u].toolID != ""
        ensures u in serials && MintedAs(uuid, states'[u].toolID, serials[u]) {
      assert B.ToolAt(states', u) == states'[u];
      assert B.ToolAt(states, u).toolID == states'[u].toolID;
    }
  }

  ghost predicate Minted(uuid: nat -> string, states: map<nat, B.ToolCallState>)
  {
    exists serials: map<nat, nat>, minted: nat :: AllMinted(uuid, states, serials, minted)
  }

  /** Different random numbers are written differently. */
  ghost predicate Random(uuid: nat -> string)
  {
    forall m: nat, n: nat :: m != n ==> uuid(m) != uuid(n)
  }

  /** No two calls share an id. */
  lemma MintedIDsDiffer(uuid: nat -> string, states: map<nat, B.ToolCallState>, serials: map<nat, nat>, minted: nat,
                        t: nat, u: nat)
    requires AllMinted(uuid, states, serials, minted) && Random(uuid)
    requires t in states && u in states && t != u && states[t].toolID != "" && states[u].toolID != ""
    ensures states[t].toolID != states[u].toolID
  {
    var a, b := uuid(serials[t]), uuid(serials[u]);
    assert a != b;
    assert ("toolu_" + a)[6..] == a && ("tool_" + a)[5..] == a && ("toolu_" + b)[6..] == b && ("tool_" + b)[5..] == b;
    assert ("toolu_" + a)[4] == 'u' && ("tool_" + a)[4] == '_' && ("toolu_" + b)[4] == 'u' && ("tool_" + b)[4] == '_';
  }

  /** Whatever a Task call sent, it reads back as an object that does not run in the background, or as an empty one. */
  lemma TaskStaysForeground(codec: Json.Codec, contents: seq<string>, args: string)
    requires Json.Lawful(codec) && TaskSettled(codec, contents, args) && args != ""
    ensures |contents| == 1
    ensures exists o: Json.Object ::
            codec.decode(contents[0]) == Some(o)
            && (o == map[] || (B.RUN_IN_BACKGROUND in o && o[B.RUN_IN_BACKGROUND] == Json.Bool(false)))
  {
    assert codec.decode("{}") == Some(map[]);
    if TaskParsed(codec, args, contents[0]) {
      var p: string :| p <= args && codec.decode(p).Some?
          && contents[0] == codec.canonical(B.Foreground(codec.decode(p).value));
      var o := B.Foreground(codec.decode(p).value);
      assert codec.decode(codec.canonical(o)) == Some(o);
      assert B.RUN_IN_BACKGROUND in o && o[B.RUN_IN_BACKGROUND] == Json.Bool(false);
    }
  }
}
