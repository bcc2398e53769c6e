/**
 * What holds of the text parser on any input (internal/parsers/heuristictool.go): what it leaves alone, what it
 * keeps, and what a flush loses.
 */
module HeuristicLaws {
  import opened Wrappers
  import opened Strings
  import opened HeuristicTool
  import Json

  // ---- input the other two defences leave alone ----

  /** Nothing the other two defences of the parser react to. */
  ghost predicate Plain(strip: bool, s: string)
  {
    (strip ==> forall i :: !OccursAt(s, "<|", i)) && forall i: nat :: WebNameLength(s, i) == 0
  }

  ghost predicate NoControl(strip: bool, s: string)
  {
    strip ==> forall i :: !OccursAt(s, "<|", i)
  }

  lemma NoControlSuffix(strip: bool, s: string, k: nat)
    requires NoControl(strip, s) && k <= |s|
    ensures NoControl(strip, s[k..])
  {
    forall i: nat ensures OccursAt(s[k..], "<|", i) ==> OccursAt(s, "<|", k + i) {
      OccursDrop(s, "<|", k, i);
    }
  }

  /** The other two defences leave plain input alone. */
  lemma {:induction false} StripLeavesPlain(s: string)
    requires forall i :: !OccursAt(s, "<|", i)
    ensures StripControl(s) == s
  {
    if s != "" {
      assert !OccursAt(s, "<|", 0);
      forall i: nat ensures !OccursAt(s[1..], "<|", i) {
        OccursDrop(s, "<|", 1, i);
        assert !OccursAt(s, "<|", 1 + i);
      }
      StripLeavesPlain(s[1..]);
    }
  }

  /** The inside of a control token. */
  predicate TokenName(t: string)
  {
    1 <= |t| <= 80 && '|' !in t && '>' !in t
  }

  /** The text begins with a control token. */
  ghost predicate TokenAhead(s: string)
  {
    exists t :: TokenName(t) && "<|" + t + "|>" <= s
  }

  lemma {:induction false} RunIs(s: string, i: nat, t: string)
    requires i + |t| < |s| && s[i..i + |t|] == t && '|' !in t && '>' !in t && (s[i + |t|] == '|' || s[i + |t|] == '>')
    ensures RunLength(s, i) == |t|
    decreases |t|
  {
    if t != "" {
      assert s[i] == s[i..i + |t|][0] == t[0] && t[0] in t;
      assert s[i + 1..i + 1 + |t[1..]|] == t[1..];
      RunIs(s, i + 1, t[1..]);
    }
  }

  lemma TokenLengthIs(s: string, t: string)
    requires TokenName(t) && "<|" + t + "|>" <= s
    ensures ControlToken(s) == |t| + 4
  {
    hide RunLength;
    var tok := "<|" + t + "|>";
    assert forall i :: 0 <= i < |tok| ==> s[i] == tok[i];
    assert s[..2] == "<|" && s[2..2 + |t|] == t && s[2 + |t|..2 + |t| + 2] == "|>";
    RunIs(s, 2, t);
  }

  lemma {:induction false} RunStops(s: string, i: nat)
    requires i <= |s|
    ensures var n := RunLength(s, i);
            '|' !in s[i..i + n] && '>' !in s[i..i + n]
    decreases |s| - i
  {
    if i < |s| && s[i] != '|' && s[i] != '>' {
      RunStops(s, i + 1);
      assert s[i..i + RunLength(s, i)] == [s[i]] + s[i + 1..i + RunLength(s, i)];
    }
  }

  lemma NoTokenLength(s: string)
    ensures ControlToken(s) != 0 ==> TokenAhead(s)
  {
    hide RunLength;
    if OccursAt(s, "<|", 0) {
      var m := RunLength(s, 2);
      RunStops(s, 2);
      var t := s[2..2 + m];
      if 1 <= m <= 80 && OccursAt(s, "|>", 2 + m) {
        assert s[..m + 4] == s[..2] + t + s[2 + m..2 + m + 2];
        assert "<|" + t + "|>" <= s;
        assert TokenName(t);
        assert TokenAhead(s);
      }
    }
  }

  /** A control token goes, and what is behind it is looked at anew; anything else that begins like one stays. */
  lemma {:induction false} StripsTokens(a: string, b: string)
    requires forall i :: !OccursAt(a, "<|", i)
    ensures forall t :: TokenName(t) ==> StripControl(a + ("<|" + t + "|>" + b)) == a + StripControl(b)
    ensures !TokenAhead("<|" + b) ==> StripControl(a + ("<|" + b)) == a + ("<" + StripControl("|" + b))
    decreases |a|
  {
    hide ControlToken, TokenName, TokenAhead;
    if a == "" {
      forall t | TokenName(t) ensures StripControl("" + ("<|" + t + "|>" + b)) == "" + StripControl(b) {
        StripsToken(t, b);
      }
      if !TokenAhead("<|" + b) { KeepsOther(b); }
    } else {
      var a' := a[1..];
      forall i: nat ensures !OccursAt(a', "<|", i) {
        OccursDrop(a, "<|", 1, i);
        assert !OccursAt(a, "<|", 1 + i);
      }
      StripsTokens(a', b);
      forall t | TokenName(t) ensures StripControl(a + ("<|" + t + "|>" + b)) == a + StripControl(b) {
        StripsOne(a, "<|" + t + "|>" + b);
      }
      StripsOne(a, "<|" + b);
    }
  }

  lemma StripsToken(t: string, b: string)
    requires TokenName(t)
    ensures StripControl("" + ("<|" + t + "|>" + b)) == "" + StripControl(b)
  {
    hide ControlToken;
    var s := "<|" + t + "|>" + b;
    assert "" + s == s && s[|t| + 4..] == b && "<|" + t + "|>" <= s;
    TokenLengthIs(s, t);
    assert "" + StripControl(b) == StripControl(b);
  }

  lemma KeepsOther(b: string)
    requires !TokenAhead("<|" + b)
    ensures StripControl("" + ("<|" + b)) == "" + ("<" + StripControl("|" + b))
  {
    hide ControlToken;
    var s := "<|" + b;
    NoTokenLength(s);
    assert "" + s == s && s[1..] == "|" + b && [s[0]] == "<";
  }

  /** A character that begins no control token stays. */
  lemma StripsOne(a: string, u: string)
    requires a != "" && u != "" && u[0] == '<' && !OccursAt(a, "<|", 0)
    ensures StripControl(a + u) == [a[0]] + StripControl(a[1..] + u)
  {
    var s := a + u;
    assert s[1..] == a[1..] + u;
    assert !OccursAt(s, "<|", 0) by {
      if |a| == 1 { assert s[1] == '<'; } else { assert s[..2] == a[..2]; }
    }
  }

  lemma NoWebCalls(codec: Json.Codec, s: string, from: nat, serial: nat)
    requires forall i: nat :: WebNameLength(s, i) == 0
    ensures WebCalls(codec, s, from, serial) == []
  {
    hide WebNameLength;
    assert FindWebName(s, from) == -1;
  }

  lemma PlainSuffix(strip: bool, s: string, k: nat)
    requires Plain(strip, s) && k <= |s|
    ensures Plain(strip, s[k..])
  {
    NoControlSuffix(strip, s, k);
    forall i: nat ensures WebNameLength(s[k..], i) == 0 {
      assert WebNameLength(s, k + i) == 0;
      WebShift(s, s[k..], k, i, "webfetch");
      WebShift(s, s[k..], k, i, "websearch");
    }
  }

  lemma WebShift(s: string, t: string, k: nat, i: nat, p: string)
    requires k + |t| <= |s| && t == s[k..k + |t|]
    ensures FoldsTo(t, p, i) ==> FoldsTo(s, p, k + i)
  {
    if FoldsTo(t, p, i) {
      forall j | 0 <= j < |p| ensures Fold(s[k + i + j]) == p[j] {
        assert t[i + j] == s[k + i + j];
        assert Fold(t[i + j]) == p[j];
      }
    }
  }

  lemma PlainPrefix(strip: bool, s: string, u: string)
    requires Plain(strip, s + u)
    ensures Plain(strip, s)
  {
    forall i ensures OccursAt(s, "<|", i) ==> OccursAt(s + u, "<|", i) {
      if OccursAt(s, "<|", i) { OccursWithin(s, u, "<|", i); }
    }
    forall i: nat ensures WebNameLength(s, i) == 0 {
      assert WebNameLength(s + u, 0 + i) == 0;
      assert s == (s + u)[0..|s|];
      WebShift(s + u, s, 0, i, "webfetch");
      WebShift(s + u, s, 0, i, "websearch");
    }
  }

  lemma PlainFeed(codec: Json.Codec, st: State, x: string)
    requires Plain(st.strip, st.buffer + x)
    ensures FeedSpec(codec, st, x) == Drive(st.(buffer := st.buffer + x))
  {
    hide Drive, StripControl, WebCalls, WebNameLength;
    var b := st.buffer + x;
    if st.strip { StripLeavesPlain(b); }
    NoWebCalls(codec, b, 0, st.serial);
    PrefixNothing(Drive(st.(buffer := b)));
  }

  lemma PlainIsClean(st: State)
    requires Plain(st.strip, st.buffer)
    ensures Cleaned(st, "") == st.buffer
  {
    hide StripControl;
    assert st.buffer + "" == st.buffer;
    if st.strip { StripLeavesPlain(st.buffer); }
  }

  /** Without 'w' there is no name of a web tool, without '|' no control token. */
  predicate Dull(s: string)
  {
    '|' !in s && 'w' !in s && 'W' !in s
  }

  lemma DullConcat(s: string, t: string)
    requires Dull(s) && Dull(t)
    ensures Dull(s + t)
  {
  }

  lemma QuietText(strip: bool, s: string)
    requires Dull(s)
    ensures Plain(strip, s)
  {
    forall i ensures !OccursAt(s, "<|", i) {
      if OccursAt(s, "<|", i) { OccursChar(s, "<|", i, 1); }
    }
    forall i: nat ensures WebNameLength(s, i) == 0 {
      if FoldsTo(s, "webfetch", i) { FoldedStart(s, "webfetch", i); }
      if FoldsTo(s, "websearch", i) { FoldedStart(s, "websearch", i); }
    }
  }

  lemma FoldedStart(s: string, p: string, i: nat)
    requires p != "" && p[0] == 'w' && FoldsTo(s, p, i)
    ensures 'w' in s || 'W' in s
  {
    assert s[i] in s && Fold(s[i + 0]) == p[0];
  }

  // ---- the automaton and its buffer ----

  predicate IsSuffix(t: string, s: string)
  {
    |t| <= |s| && t == s[|s| - |t|..]
  }

  lemma SuffixOfSuffix(t: string, s: string, k: nat)
    requires k <= |s| && IsSuffix(t, s[k..])
    ensures IsSuffix(t, s)
  {
  }

  /** The automaton only ever drops from the front of its buffer. */
  lemma {:induction false} DriveSuffix(st: State)
    ensures IsSuffix(Drive(st).state.buffer, st.buffer)
    decreases |st.buffer|, Rank(st.mode)
  {
    hide FindHeader, TakeParams, EndOfCall, IndexChar, IsSuffix, SplitControlTail;
    match st.mode
    case TextMode =>
      var idx := IndexChar(st.buffer, BULLET, 0);
      if idx != -1 {
        DriveSuffix(st.(mode := MatchingFunction, buffer := st.buffer[idx..]));
        SuffixOfSuffix(Drive(st).state.buffer, st.buffer, idx);
      } else {
        SplitSuffix(st);
      }
    case MatchingFunction =>
      var m := FindHeader(st.buffer, 0);
      if m.Some? {
        DriveSuffix(EnterCall(st, m.value));
        SuffixOfSuffix(Drive(st).state.buffer, st.buffer, m.value.end);
      } else if |st.buffer| > HEADER_LIMIT {
        DriveSuffix(st.(mode := TextMode, buffer := st.buffer[1..]));
        SuffixOfSuffix(Drive(st).state.buffer, st.buffer, 1);
      } else {
        assert st.buffer[0..] == st.buffer;
        assert IsSuffix(st.buffer, st.buffer) by { SuffixRefl(st.buffer); }
      }
    case ParsingParameters =>
      var r := TakeParams(st.buffer, st.params);
      var e := EndOfCall(r.1);
      AfterCallSuffix(st.buffer, st.params);
      if e.2 && st.toolID.Some? && st.name != "" {
        DriveSuffix(st.(buffer := e.1, params := r.2, mode := TextMode));
        SuffixOfSuffix(Drive(st).state.buffer, st.buffer, |st.buffer| - |e.1|);
      }
  }

  lemma SuffixRefl(s: string)
    ensures IsSuffix(s, s)
  {
  }

  lemma SplitSuffix(st: State)
    ensures IsSuffix(SplitControlTail(st).1, st.buffer)
  {
  }

  lemma AfterCallSuffix(b: string, done: map<string, string>)
    ensures var e := EndOfCall(TakeParams(b, done).1).1; IsSuffix(e, b) && e == b[|b| - |e|..]
  {
    hide TakeParams;
    TakeSuffix(b, done);
    EndSuffix(TakeParams(b, done).1);
    SuffixOfSuffix(EndOfCall(TakeParams(b, done).1).1, b, |b| - |TakeParams(b, done).1|);
  }

  lemma EndSuffix(b: string)
    ensures IsSuffix(EndOfCall(b).1, b)
  {
    hide TrimSpace, Contains;
  }

  lemma {:induction false} TakeSuffix(b: string, done: map<string, string>)
    ensures var r := TakeParams(b, done).1; r == b[|b| - |r|..]
    decreases |b|
  {
    hide FindParam, Contains, TrimSpace;
    var m := FindParam(b, 0);
    if ParamClosed(b, m) {
      var done' := done[m.value.Key(b) := m.value.Value(b)];
      TakeSuffix(b[m.value.end..], done');
      SliceOfSlice(b, m.value.end, TakeParams(b[m.value.end..], done').1);
    }
  }

  lemma SliceOfSlice(b: string, k: nat, r: string)
    requires k <= |b| && |r| <= |b| - k && r == b[k..][|b| - k - |r|..]
    ensures r == b[|b| - |r|..]
  {
  }

  lemma {:induction false} DriveKeepsStrip(st: State)
    ensures Drive(st).state.strip == st.strip
    decreases |st.buffer|, Rank(st.mode)
  {
    hide FindHeader, TakeParams, EndOfCall, IndexChar, SplitControlTail;
    match st.mode
    case TextMode =>
      var idx := IndexChar(st.buffer, BULLET, 0);
      if idx != -1 { DriveKeepsStrip(st.(mode := MatchingFunction, buffer := st.buffer[idx..])); }
    case MatchingFunction =>
      var m := FindHeader(st.buffer, 0);
      if m.Some? { DriveKeepsStrip(EnterCall(st, m.value)); }
      else if |st.buffer| > HEADER_LIMIT { DriveKeepsStrip(st.(mode := TextMode, buffer := st.buffer[1..])); }
    case ParsingParameters =>
      var r := TakeParams(st.buffer, st.params);
      var e := EndOfCall(r.1);
      if e.2 && st.toolID.Some? && st.name != "" {
        DriveKeepsStrip(st.(buffer := e.1, params := r.2, mode := TextMode));
      }
  }

  // ---- input without a call ----

  function Fresh(strip: bool): State
  {
    State(TextMode, "", None, "", map[], strip, 0)
  }

  datatype Op = FeedOp(text: string) | FlushOp

  function Input(ops: seq<Op>): string
  {
    if ops == [] then "" else OpText(ops[0]) + Input(ops[1..])
  }

  function OpText(op: Op): string
  {
    if op.FeedOp? then op.text else ""
  }

  function RunOp(codec: Json.Codec, st: State, op: Op): Output
  {
    match op
    case FeedOp(x) => FeedSpec(codec, st, x)
    case FlushOp => FlushSpec(st)
  }

  function RunOps(codec: Json.Codec, st: State, ops: seq<Op>): Output
    decreases |ops|
  {
    if ops == [] then Output(st, "", [])
    else
      var o := RunOp(codec, st, ops[0]);
      Prefix(o.text, o.tools, RunOps(codec, o.state, ops[1..]))
  }

  lemma NoFunctionNoHeader(b: string)
    requires !Contains(b, FUNCTION)
    ensures FindHeader(b, 0) == None
  {
    hide FindHeader, Contains;
    forall i | 0 <= i < |b| ensures HeaderAt(b, i) == None {
    }
  }

  /** Outside a call the automaton splits its buffer into text and what it keeps; nothing is lost. */
  lemma {:induction false} DriveConserves(st: State)
    requires st.mode != ParsingParameters && !Contains(st.buffer, FUNCTION)
    ensures var o := Drive(st);
            o.tools == [] && o.text + o.state.buffer == st.buffer && o.state.mode != ParsingParameters
                && o.state.strip == st.strip
    decreases |st.buffer|, Rank(st.mode)
  {
    hide FindHeader, Contains, IndexChar, TakeParams, EndOfCall, SplitControlTail, EnterCall;
    var b := st.buffer;
    match st.mode
    case TextMode =>
      var idx := IndexChar(b, BULLET, 0);
      if idx != -1 {
        NoFunctionSuffix(b, idx);
        var st' := st.(mode := MatchingFunction, buffer := b[idx..]);
        DriveConserves(st');
        ConservesSplit(b, idx, Drive(st'));
      } else {
        SplitConserves(st);
      }
    case MatchingFunction =>
      NoFunctionNoHeader(b);
      if |b| > HEADER_LIMIT {
        NoFunctionSuffix(b, 1);
        var st' := st.(mode := TextMode, buffer := b[1..]);
        DriveConserves(st');
        ConservesSplit(b, 1, Drive(st'));
      }
  }

  lemma SplitConserves(st: State)
    ensures SplitControlTail(st).0 + SplitControlTail(st).1 == st.buffer
  {
  }

  lemma ConservesSplit(b: string, k: nat, o: Output)
    requires k <= |b| && o.tools == [] && o.text + o.state.buffer == b[k..]
    ensures Prefix(b[..k], [], o).tools == [] && Prefix(b[..k], [], o).text + o.state.buffer == b
  {
    assert b[..k] + o.text + o.state.buffer == b[..k] + (o.text + o.state.buffer);
  }

  lemma NoFunctionSuffix(b: string, k: nat)
    requires k <= |b| && !Contains(b, FUNCTION)
    ensures !Contains(b[k..], FUNCTION)
  {
    hide Contains;
    if Contains(b[k..], FUNCTION) {
      assert b[k..] == b[k..|b|];
      ContainsInner(b, k, |b|, FUNCTION);
    }
  }

  /**
   * Input free of headers, control tokens and web tool names comes out unchanged, whatever way feeds
   * and flushes are interleaved, and no call is ever made up.
   */
  lemma {:induction false} Passthrough(codec: Json.Codec, st: State, ops: seq<Op>)
    requires st.mode != ParsingParameters
    requires Plain(st.strip, st.buffer + Input(ops)) && !Contains(st.buffer + Input(ops), FUNCTION)
    ensures var o := RunOps(codec, st, ops);
            o.tools == [] && o.text + o.state.buffer == st.buffer + Input(ops)
    decreases |ops|
  {
    hide Plain, Contains, RunOp, OpText;
    if ops == [] {
      assert "" + st.buffer == st.buffer + Input(ops);
    } else {
      var s, more := st.buffer + Input(ops), Input(ops[1..]);
      var o := RunOp(codec, st, ops[0]);
      StepConserves(codec, st, ops[0], more);
      assert s == st.buffer + OpText(ops[0]) + more == o.text + (o.state.buffer + more);
      assert o.state.buffer + more == s[|o.text|..];
      PlainSuffix(st.strip, s, |o.text|);
      NoFunctionSuffix(s, |o.text|);
      Passthrough(codec, o.state, ops[1..]);
      JoinsUp(o, RunOps(codec, o.state, ops[1..]), more);
    }
  }

  lemma JoinsUp(o: Output, r: Output, more: string)
    requires o.tools == [] && r.tools == [] && r.text + r.state.buffer == o.state.buffer + more
    ensures var p := Prefix(o.text, o.tools, r);
            p.tools == [] && p.text + p.state.buffer == o.text + (o.state.buffer + more)
  {
    assert o.text + r.text + r.state.buffer == o.text + (r.text + r.state.buffer);
  }

  lemma StepConserves(codec: Json.Codec, st: State, op: Op, more: string)
    requires st.mode != ParsingParameters
    requires var s := st.buffer + (OpText(op) + more); Plain(st.strip, s) && !Contains(s, FUNCTION)
    ensures var o := RunOp(codec, st, op);
            o.tools == [] && o.state.mode != ParsingParameters && o.state.strip == st.strip
            && o.text + o.state.buffer == st.buffer + OpText(op)
  {
    hide Contains, Drive, StripControl, FeedSpec, Plain;
    var b := st.buffer + OpText(op);
    assert st.buffer + (OpText(op) + more) == b + more;
    PlainPrefix(st.strip, b, more);
    match op
    case FeedOp(x) =>
      PlainFeed(codec, st, x);
      if Contains(b, FUNCTION) { PrefixContains(b, more, FUNCTION); }
      DriveConserves(st.(buffer := b));
    case FlushOp =>
      assert b == st.buffer;
      FlushConserves(st);
  }

  lemma PrefixContains(b: string, more: string, p: string)
    requires Contains(b, p)
    ensures Contains(b + more, p)
  {
    hide Contains;
    assert (b + more)[0..|b|] == b;
    ContainsInner(b + more, 0, |b|, p);
  }

  lemma FlushConserves(st: State)
    requires st.mode != ParsingParameters && Plain(st.strip, st.buffer)
    ensures FlushSpec(st) == Output(st.(buffer := ""), st.buffer, [])
  {
    hide StripControl;
    assert st.buffer + "" == st.buffer;
    if st.strip { StripLeavesPlain(st.buffer); }
  }

  // ---- what a flush loses ----

  predicate OpensParam(b: string)
  {
    OccursAt(b, PARAMETER, 0) && IndexChar(b, '>', |PARAMETER|) > |PARAMETER|
  }

  predicate HasParam(u: ToolUse, k: string, v: string)
  {
    k in u.input && u.input[k] == Json.Str(v)
  }

  /** All of the buffer has come out: as text, or as a parameter of the call that is built. */
  ghost predicate Returned(b: string, o: Output)
  {
    o.text == b || (exists k: string, v: string ::
      k != "" && '>' !in k && b == PARAMETER + k + ">" + v && |o.tools| == 1
          && HasParam(o.tools[0], TrimSpace(k), TrimSpace(v)))
  }

  /**
   * A flush loses text if and only if a call is being read and what is buffered is neither nothing nor one open
   * parameter, or the call has a blank name.
   */
  lemma FlushLoses(st: State)
    ensures var b := Cleaned(st, "");
            !Returned(b, FlushSpec(st)) <==>
              st.mode == ParsingParameters && b != "" && !(OpensParam(b) && st.toolID.Some? && st.name != "")
  {
    hide StripControl, TrimSpace, FindParam;
    var b, o := Cleaned(st, ""), FlushSpec(st);
    if st.mode == ParsingParameters && b != "" {
      if OpensParam(b) && st.toolID.Some? && st.name != "" {
        ParamReturned(st, b);
      } else {
        NotReturned(b, o);
      }
    }
  }

  lemma ParamReturned(st: State, b: string)
    requires st.mode == ParsingParameters && st.toolID.Some? && st.name != "" && b == Cleaned(st, "") && OpensParam(b)
    ensures Returned(b, FlushSpec(st))
  {
    hide StripControl, TrimSpace, IndexFrom;
    var e := IndexChar(b, '>', 11);
    var m := ParamAt(b, 0);
    assert FindParam(b, 0) == m;
    var k, v := b[11..e], b[e + 1..];
    assert b == PARAMETER + k + ">" + v;
    var u := FlushSpec(st).tools[0];
    assert HasParam(u, TrimSpace(k), TrimSpace(v));
  }

  lemma NotReturned(b: string, o: Output)
    requires b != "" && o.text == "" && (o.tools == [] || !OpensParam(b))
    ensures !Returned(b, o)
  {
    hide TrimSpace, HasParam;
    forall k: string, v: string | k != "" && '>' !in k && b == PARAMETER + k + ">" + v ensures OpensParam(b) {
      Opening(k, v);
    }
  }

  lemma Opening(k: string, v: string)
    requires k != "" && '>' !in k
    ensures OpensParam(PARAMETER + k + ">" + v)
  {
    var b := PARAMETER + k + ">" + v;
    assert b[0..11] == PARAMETER;
    assert b[11 + |k|] == '>' && forall i :: 11 <= i < 11 + |k| ==> b[i] == k[i - 11];
  }

  // ---- a blank name ----

  lemma BlankStays(st: State)
    requires st.mode == ParsingParameters && st.name == ""
    ensures Drive(st).tools == [] && Drive(st).state.mode == ParsingParameters && Drive(st).state.name == ""
  {
    hide TakeParams, EndOfCall;
  }

  /** A call with a blank name is lost, and so is every call after it: the parser never leaves it. */
  lemma {:induction false} BlankLosesCalls(codec: Json.Codec, st: State, ops: seq<Op>)
    requires st.mode == ParsingParameters && st.name == "" && Plain(st.strip, st.buffer + Input(ops))
    ensures RunOps(codec, st, ops).tools == []
    decreases |ops|
  {
    hide Plain, FeedSpec, FlushSpec;
    if ops != [] {
      var s, more, o := st.buffer + Input(ops), Input(ops[1..]), RunOp(codec, st, ops[0]);
      assert s == st.buffer + OpText(ops[0]) + more;
      BlankStep(codec, st, ops[0], more);
      BlankLosesCalls(codec, o.state, ops[1..]);
    }
  }

  lemma BlankStep(codec: Json.Codec, st: State, op: Op, more: string)
    requires st.mode == ParsingParameters && st.name == "" && Plain(st.strip, st.buffer + OpText(op) + more)
    ensures var o := RunOp(codec, st, op);
            o.tools == [] && o.state.mode == ParsingParameters && o.state.name == ""
                && Plain(o.state.strip, o.state.buffer + more)
  {
    hide Plain, Drive, FeedSpec, StripControl, FindParam;
    var b := st.buffer + OpText(op);
    match op
    case FeedOp(x) =>
      PlainPrefix(st.strip, b, more);
      PlainFeed(codec, st, x);
      var st1 := st.(buffer := b);
      BlankStays(st1);
      DriveSuffix(st1);
      DriveKeepsStrip(st1);
      var b' := Drive(st1).state.buffer;
      assert b' + more == (b + more)[|b| - |b'|..];
      PlainSuffix(st.strip, b + more, |b| - |b'|);
    case FlushOp =>
      assert (b + more)[|b|..] == more && "" + more == more;
      PlainSuffix(st.strip, b + more, |b|);
  }

  // ---- the ids of the calls ----

  function CallBeingRead(st: State): Option<nat>
  {
    if st.mode == ParsingParameters then st.toolID else None
  }

  predicate DistinctIDs(us: seq<ToolUse>)
  {
    forall i, j :: 0 <= i < j < |us| ==> us[i].id != us[j].id
  }

  /** No two calls so far have the same id, the call that is being read has one of its own, and the next one is new. */
  predicate Numbered(us: seq<ToolUse>, st: State)
  {
    && DistinctIDs(us) && (forall u <- us :: u.id < st.serial)
    && var k := CallBeingRead(st); k.Some? ==> k.value < st.serial && forall u <- us :: u.id != k.value
  }

  lemma {:induction false} DriveNumbers(us: seq<ToolUse>, st: State)
    requires Numbered(us, st)
    ensures Numbered(us + Drive(st).tools, Drive(st).state)
    decreases |st.buffer|, Rank(st.mode)
  {
    hide FindHeader, TakeParams, EndOfCall, IndexChar, SplitControlTail, Numbered, BuildTool, EnterCall;
    assert us + [] == us;
    match st.mode
    case TextMode =>
      var idx := IndexChar(st.buffer, BULLET, 0);
      if idx != -1 {
        var st' := st.(mode := MatchingFunction, buffer := st.buffer[idx..]);
        NumberedOutside(us, st, st');
        DriveNumbers(us, st');
        assert [] + Drive(st').tools == Drive(st').tools;
      } else {
        var (text, rest) := SplitControlTail(st);
        NumberedOutside(us, st, st.(buffer := rest));
        assert Drive(st) == Output(st.(buffer := rest), text, []);
      }
    case MatchingFunction =>
      var m := FindHeader(st.buffer, 0);
      if m.Some? {
        NumberedEntered(us, st, m.value);
        DriveNumbers(us, EnterCall(st, m.value));
      } else if |st.buffer| > HEADER_LIMIT {
        var st' := st.(mode := TextMode, buffer := st.buffer[1..]);
        NumberedOutside(us, st, st');
        DriveNumbers(us, st');
        assert [] + Drive(st').tools == Drive(st').tools;
      }
    case ParsingParameters =>
      var r := TakeParams(st.buffer, st.params);
      var e := EndOfCall(r.1);
      var st' := st.(buffer := e.1, params := r.2);
      NumberedStill(us, st, st');
      if e.2 && st.toolID.Some? && st.name != "" {
        var st'' := st'.(mode := TextMode);
        NumberedBuilt(us, st', st'');
        DriveNumbers(us + [BuildTool(st')], st'');
        assert us + ([BuildTool(st')] + Drive(st'').tools) == us + [BuildTool(st')] + Drive(st'').tools;
      }
  }

  lemma NumberedOutside(us: seq<ToolUse>, st: State, st': State)
    requires Numbered(us, st) && st'.mode != ParsingParameters && st'.serial == st.serial
    ensures Numbered(us, st')
  {
  }

  lemma NumberedStill(us: seq<ToolUse>, st: State, st': State)
    requires Numbered(us, st) && st' == st.(buffer := st'.buffer, params := st'.params)
    ensures Numbered(us, st')
  {
  }

  lemma NumberedEntered(us: seq<ToolUse>, st: State, m: Span)
    requires Numbered(us, st) && m.Fits(st.buffer)
    ensures Numbered(us, EnterCall(st, m)) && EnterCall(st, m).mode == ParsingParameters
            && |EnterCall(st, m).buffer| < |st.buffer|
  {
    hide TrimSpace;
  }

  lemma NumberedBuilt(us: seq<ToolUse>, st: State, st': State)
    requires Numbered(us, st) && st.mode == ParsingParameters && st.toolID.Some? && st'.mode != ParsingParameters
             && st'.serial == st.serial
    ensures Numbered(us + [BuildTool(st)], st')
  {
    hide Strings2Values;
  }

  /** Calls numbered from serial on. */
  predicate Consecutive(us: seq<ToolUse>, serial: nat)
  {
    forall i :: 0 <= i < |us| ==> us[i].id == serial + i
  }

  lemma {:induction false} WebNumbers(codec: Json.Codec, s: string, from: nat, serial: nat)
    ensures Consecutive(WebCalls(codec, s, from, serial), serial)
    decreases |s| - from
  {
    hide FindWebName, IndexChar, WebNameLength, Consecutive;
    NoneConsecutive(serial);
    var q := FindWebName(s, from);
    if q != -1 {
      var open := IndexChar(s, '{', q + WebNameLength(s, q));
      if open != -1 {
        var close := IndexChar(s, '}', open + 1);
        if close != -1 {
          WebNumbers(codec, s, close + 1, serial + 1);
          WebNumbers(codec, s, close + 1, serial);
          OneConsecutive(WebCalls(codec, s, close + 1, serial + 1), serial);
        }
      }
    }
  }

  lemma NoneConsecutive(serial: nat)
    ensures Consecutive([], serial)
  {
  }

  lemma OneConsecutive(us: seq<ToolUse>, serial: nat)
    requires Consecutive(us, serial + 1)
    ensures forall name: string, input: Json.Object :: Consecutive([ToolUse(serial, name, input)] + us, serial)
  {
  }

  lemma FeedNumbers(codec: Json.Codec, us: seq<ToolUse>, st: State, x: string)
    requires Numbered(us, st)
    ensures Numbered(us + FeedSpec(codec, st, x).tools, FeedSpec(codec, st, x).state)
  {
    hide Drive, StripControl, WebCalls, Numbered, Consecutive;
    var b := Cleaned(st, x);
    var web := WebCalls(codec, b, 0, st.serial);
    var st' := st.(buffer := if web == [] then b else "", serial := st.serial + |web|);
    WebNumbers(codec, b, 0, st.serial);
    MoreNumbers(us, web, st, st');
    DriveNumbers(us + web, st');
    assert us + (web + Drive(st').tools) == us + web + Drive(st').tools;
  }

  lemma MoreNumbers(us: seq<ToolUse>, web: seq<ToolUse>, st: State, st': State)
    requires Numbered(us, st) && Consecutive(web, st.serial)
    requires CallBeingRead(st') == CallBeingRead(st) && st'.serial == st.serial + |web|
    ensures Numbered(us + web, st')
  {
    var all := us + web;
    forall i | 0 <= i < |all| ensures all[i].id == if i < |us| then us[i].id else st.serial + (i - |us|) {
    }
    assert forall i :: 0 <= i < |us| ==> us[i] in us;
    forall u | u in all ensures u.id < st'.serial && (CallBeingRead(st').Some? ==> u.id != CallBeingRead(st').value) {
      var i :| 0 <= i < |all| && all[i] == u;
    }
  }

  lemma FlushNumbers(us: seq<ToolUse>, st: State)
    requires Numbered(us, st)
    ensures Numbered(us + FlushSpec(st).tools, FlushSpec(st).state)
  {
    hide StripControl, FindParam, TrimSpace;
    assert us + [] == us;
  }
}
