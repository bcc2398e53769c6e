/** Tool calls written as plain text (internal/parsers/heuristictool.go). */
module HeuristicTool {
  import opened Wrappers
  import opened Strings
  import Json

  const BULLET: char := '\U{25CF}'
  const FUNCTION: string := "<function="
  const PARAMETER: string := "<parameter="
  const PARAMETER_END: string := "</parameter>"
  const HEADER_LIMIT: nat := 100

  datatype Mode = TextMode | MatchingFunction | ParsingParameters

  datatype ToolUse = ToolUse(id: nat, name: string, input: Json.Object)

  /** The fields of the parser; `serial` numbers the random ids it mints. */
  datatype State = State(mode: Mode, buffer: string, toolID: Option<nat>, name: string,
                         params: map<string, string>, strip: bool, serial: nat)

  datatype Output = Output(state: State, text: string, tools: seq<ToolUse>)

  // ---- the regular expressions, as recognisers ----

  /** The class \s of Go's regular expressions. */
  predicate IsRegexSpace(c: char)
  {
    c in "\t\n\U{0C}\r "
  }

  function SkipSpaces(s: string, i: nat): (j: nat)
    requires i <= |s|
    ensures i <= j <= |s|
    decreases |s| - i
  {
    if i < |s| && IsRegexSpace(s[i]) then SkipSpaces(s, i + 1) else i
  }

  /** The first position >= from holding c, or -1. */
  function IndexChar(s: string, c: char, from: nat): (r: int)
    ensures r != -1 ==> from <= r < |s| && s[r] == c && forall i :: from <= i < r ==> s[i] != c
    ensures r == -1 ==> forall i :: from <= i < |s| ==> s[i] != c
    decreases |s| - from
  {
    if from >= |s| then -1
    else if s[from] == c then from
    else IndexChar(s, c, from + 1)
  }

  function RunLength(s: string, i: nat): (n: nat)
    requires i <= |s|
    ensures i + n <= |s|
    decreases |s| - i
  {
    if i < |s| && s[i] != '|' && s[i] != '>' then 1 + RunLength(s, i + 1) else 0
  }

  /** The length of the control token <|...|> at the front of s, or 0. */
  function ControlToken(s: string): (n: nat)
    ensures n <= |s|
    ensures n != 0 ==> OccursAt(s, "<|", 0)
  {
    if !OccursAt(s, "<|", 0) then 0
    else
      var m := RunLength(s, 2);
      if 1 <= m <= 80 && OccursAt(s, "|>", 2 + m) then m + 4 else 0
  }

  function StripControl(s: string): string
  {
    if s == "" then ""
    else
      var n := ControlToken(s);
      if n > 0 then StripControl(s[n..]) else [s[0]] + StripControl(s[1..])
  }

  function Fold(c: char): char
  {
    if 'A' <= c <= 'Z' then (c as int + 32) as char
    else if c == '\U{17F}' then 's'
    else if c == '\U{212A}' then 'k'
    else c
  }

  predicate FoldsTo(s: string, p: string, i: nat)
  {
    i + |p| <= |s| && forall j :: 0 <= j < |p| ==> Fold(s[i + j]) == p[j]
  }

  /** The length of a WebFetch or WebSearch, in any case, at position i; 0 when there is none. */
  function WebNameLength(s: string, i: nat): (n: nat)
    ensures i + n <= |s| || n == 0
  {
    if FoldsTo(s, "webfetch", i) then 8
    else if FoldsTo(s, "websearch", i) then 9
    else 0
  }

  predicate IsWord(c: char)
  {
    '0' <= c <= '9' || 'A' <= c <= 'Z' || 'a' <= c <= 'z' || c == '_'
  }

  predicate WordBoundary(s: string, i: nat)
  {
    (0 < i <= |s| && IsWord(s[i - 1])) != (i < |s| && IsWord(s[i]))
  }

  function FindWebName(s: string, from: nat): (r: int)
    ensures r != -1 ==> from <= r && WebNameLength(s, r) > 0
    decreases |s| - from
  {
    if from >= |s| then -1
    else if WebNameLength(s, from) > 0 && WordBoundary(s, from) && WordBoundary(s, from + WebNameLength(s, from)) then
        from
    else FindWebName(s, from + 1)
  }

  /** Inline `WebFetch {...}` and `WebSearch {...}` calls; a leading "use " never changes what is captured. */
  function WebCalls(codec: Json.Codec, s: string, from: nat, serial: nat): seq<ToolUse>
    decreases |s| - from
  {
    var q := FindWebName(s, from);
    if q == -1 then []
    else
      var nameEnd := q + WebNameLength(s, q);
      var open := IndexChar(s, '{', nameEnd);
      if open == -1 then []
      else
        var close := IndexChar(s, '}', open + 1);
        if close == -1 then []
        else
          var obj := codec.decode(s[open..close + 1]);
          var name := s[q..nameEnd];
          if obj.Some? && (name == "WebFetch" ==> "url" in obj.value)
              && (name == "WebSearch" ==> "query" in obj.value) then
            [ToolUse(serial, name, obj.value)] + WebCalls(codec, s, close + 1, serial + 1)
          else
            WebCalls(codec, s, close + 1, serial)
  }

  /** A match: where it starts and ends, and where its key and its value lie. */
  datatype Span = Span(start: nat, keyStart: nat, keyEnd: nat, valueEnd: nat, end: nat)
  {
    predicate Fits(s: string) {
      start < keyStart < keyEnd < valueEnd <= end <= |s|
    }

    function Key(s: string): string requires Fits(s) { TrimSpace(s[keyStart..keyEnd]) }

    function Value(s: string): string requires Fits(s) { TrimSpace(s[keyEnd + 1..valueEnd]) }

    function ValueToEnd(s: string): string requires Fits(s) { TrimSpace(s[keyEnd + 1..]) }
  }

  /** A function header at i: a bullet, white space, `<function=`, a name without '>', '>'. */
  function HeaderAt(s: string, i: nat): (r: Option<Span>)
    ensures r.Some? ==> r.value.start == i && r.value.Fits(s)
    ensures r.Some? ==> s[i] == BULLET && '>' in s[i..]
  {
    if i < |s| && s[i] == BULLET then
      var j := SkipSpaces(s, i + 1);
      if OccursAt(s, FUNCTION, j) then
        var k := j + |FUNCTION|;
        var e := IndexChar(s, '>', k);
        if e > k then assert s[i..][e - i] == '>'; Some(Span(i, k, e, e + 1, e + 1)) else None
      else None
    else None
  }

  function FindHeader(s: string, from: nat): (r: Option<Span>)
    ensures r.Some? ==> from <= r.value.start && HeaderAt(s, r.value.start) == r
    ensures r.Some? ==> r.value.Fits(s)
    ensures r.Some? ==> forall i :: from <= i < r.value.start ==> HeaderAt(s, i) == None
    ensures r == None ==> forall i :: from <= i < |s| ==> HeaderAt(s, i) == None
    decreases |s| - from
  {
    if from >= |s| then None
    else if HeaderAt(s, from).Some? then HeaderAt(s, from)
    else FindHeader(s, from + 1)
  }

  /** A parameter at i, closed by `</parameter>` or running to the end of the text. */
  function ParamAt(s: string, i: nat): (r: Option<Span>)
    ensures r.Some? ==> r.value.start == i && r.value.Fits(s)
  {
    if OccursAt(s, PARAMETER, i) then
      var k := i + |PARAMETER|;
      var e := IndexChar(s, '>', k);
      if e > k then
        var c := IndexFrom(s, PARAMETER_END, e + 1);
        if c == -1 then Some(Span(i, k, e, |s|, |s|))
        else Some(Span(i, k, e, c, c + |PARAMETER_END|))
      else None
    else None
  }

  function FindParam(s: string, from: nat): (r: Option<Span>)
    ensures r.Some? ==> from <= r.value.start && ParamAt(s, r.value.start) == r
    ensures r.Some? ==> r.value.Fits(s)
    ensures r == None ==> forall i :: from <= i < |s| ==> ParamAt(s, i) == None
    decreases |s| - from
  {
    if from >= |s| then None
    else if ParamAt(s, from).Some? then ParamAt(s, from)
    else FindParam(s, from + 1)
  }

  // ---- one transition of each state ----

  /** No bullet yet: an unclosed control token at the end stays behind and the text before it may go. */
  function SplitControlTail(st: State): (string, string)
  {
    var start := LastControlStart(st.buffer);
    if !st.strip || start == -1 || Contains(st.buffer[start..], "|>") then ("", st.buffer)
    else (st.buffer[..start], st.buffer[start..])
  }

  /** strings.LastIndex of "<|". */
  function LastControlStart(s: string): (r: int)
    ensures r == -1 || OccursAt(s, "<|", r)
    ensures forall i :: r < i ==> !OccursAt(s, "<|", i)
  {
    LastControlStartBelow(s, |s|)
  }

  function LastControlStartBelow(s: string, n: nat): (r: int)
    ensures -1 <= r <= n && (r == -1 || OccursAt(s, "<|", r))
    ensures forall i :: r < i <= n ==> !OccursAt(s, "<|", i)
  {
    if OccursAt(s, "<|", n) then n
    else if n == 0 then -1
    else LastControlStartBelow(s, n - 1)
  }

  predicate ParamClosed(s: string, m: Option<Span>)
    requires m.Some? ==> m.value.Fits(s)
  {
    m.Some? && Contains(s[m.value.start..m.value.end], PARAMETER_END)
  }

  function Ahead(text: string, r: (string, string, map<string, string>)): (string, string, map<string, string>)
  {
    (text + r.0, r.1, r.2)
  }

  lemma AheadNothing(r: (string, string, map<string, string>))
    ensures Ahead("", r) == r
  {
    assert "" + r.0 == r.0;
  }

  lemma AheadTwice(a: string, b: string, r: (string, string, map<string, string>))
    ensures Ahead(a, Ahead(b, r)) == Ahead(a + b, r)
  {
    assert a + b + r.0 == a + (b + r.0);
  }

  /** Take every closed parameter off the buffer; text in front of one is passed on. */
  function TakeParams(buffer: string, params: map<string, string>): (r: (string, string, map<string, string>))
    ensures |r.1| <= |buffer|
    decreases |buffer|
  {
    var m := FindParam(buffer, 0);
    if ParamClosed(buffer, m) then
      var sp := m.value;
      var rest := TakeParams(buffer[sp.end..],
                             params[sp.Key(buffer) := sp.Value(buffer)]);
      Ahead(buffer[..sp.start], rest)
    else ("", buffer, params)
  }

  /** What follows the last closed parameter: text to pass on, what stays, and whether the call is over. */
  function EndOfCall(buffer: string): (r: (string, string, bool))
    ensures |r.1| <= |buffer|
  {
    var idx := IndexChar(buffer, BULLET, 0);
    if idx != -1 then (buffer[..idx], buffer[idx..], true)
    else if buffer != "" && !("<" <= TrimSpace(buffer)) && !Contains(buffer, PARAMETER) then (buffer, "", true)
    else ("", buffer, false)
  }

  function Strings2Values(params: map<string, string>): Json.Object
  {
    map k | k in params :: Json.Str(params[k])
  }

  function BuildTool(st: State): ToolUse
    requires st.toolID.Some?
  {
    ToolUse(st.toolID.value, st.name, Strings2Values(st.params))
  }

  function Rank(m: Mode): nat
  {
    match m case ParsingParameters => 2 case TextMode => 1 case MatchingFunction => 0
  }

  /** Run the automaton until it waits for more input. */
  function Drive(st: State): Output
    decreases |st.buffer|, Rank(st.mode)
  {
    match st.mode
    case TextMode =>
      var idx := IndexChar(st.buffer, BULLET, 0);
      if idx == -1 then
        var (text, rest) := SplitControlTail(st);
        Output(st.(buffer := rest), text, [])
      else
        Prefix(st.buffer[..idx], [], Drive(st.(mode := MatchingFunction, buffer := st.buffer[idx..])))
    case MatchingFunction =>
      var m := FindHeader(st.buffer, 0);
      if m.Some? then Drive(EnterCall(st, m.value))
      else if |st.buffer| > HEADER_LIMIT then
        Prefix(st.buffer[..1], [], Drive(st.(mode := TextMode, buffer := st.buffer[1..])))
      else Output(st, "", [])
    case ParsingParameters =>
      var (text, b, ps) := TakeParams(st.buffer, st.params);
      var (tail, b', over) := EndOfCall(b);
      var st' := st.(buffer := b', params := ps);
      if over && st.toolID.Some? && st.name != "" then
        Prefix(text + tail, [BuildTool(st')], Drive(st'.(mode := TextMode)))
      else Output(st', text + tail, [])
  }

  function EnterCall(st: State, m: Span): State
    requires m.Fits(st.buffer)
  {
    State(ParsingParameters, st.buffer[m.end..], Some(st.serial), m.Key(st.buffer),
          map[], st.strip, st.serial + 1)
  }

  function Prefix(text: string, tools: seq<ToolUse>, o: Output): Output
  {
    Output(o.state, text + o.text, tools + o.tools)
  }

  function Cleaned(st: State, text: string): string
  {
    if st.strip then StripControl(st.buffer + text) else st.buffer + text
  }

  function FeedSpec(codec: Json.Codec, st: State, text: string): Output
  {
    var b := Cleaned(st, text);
    var web := WebCalls(codec, b, 0, st.serial);
    var b' := if web == [] then b else "";
    Prefix("", web, Drive(st.(buffer := b', serial := st.serial + |web|)))
  }

  function FlushSpec(st: State): Output
  {
    var b := Cleaned(st, "");
    match st.mode
    case ParsingParameters =>
      if st.toolID.Some? && st.name != "" then
        var m := FindParam(b, 0);
        var ps := if m.Some? then st.params[m.value.Key(b) := m.value.ValueToEnd(b)]
                  else st.params;
        var st' := st.(params := ps, buffer := "");
        Output(st'.(mode := TextMode), "", [BuildTool(st')])
      else Output(st.(buffer := ""), "", [])
    case _ => Output(st.(buffer := ""), b, [])
  }

  // ---- the parser ----

  class HeuristicToolParser {
    const codec: Json.Codec
    var mode: Mode
    var buffer: string
    var currentToolID: Option<nat>
    var currentFunctionName: string
    var currentParameters: map<string, string>
    var stripControlTokens: bool
    var serial: nat

    constructor (codec: Json.Codec, strip: bool, serial: nat)
      ensures this.codec == codec
      ensures Now() == State(TextMode, "", None, "", map[], strip, serial)
    {
      this.codec, this.serial := codec, serial;
      mode, buffer, currentToolID, currentFunctionName := TextMode, "", None, "";
      currentParameters, stripControlTokens := map[], strip;
    }

    function Now(): State
      reads this
    {
      State(mode, buffer, currentToolID, currentFunctionName, currentParameters, stripControlTokens, serial)
    }

    method Feed(text: string) returns (filtered: string, tools: seq<ToolUse>)
      modifies this`mode, this`buffer, this`currentToolID, this`currentFunctionName, this`currentParameters, this`serial
      ensures Output(Now(), filtered, tools) == FeedSpec(codec, old(Now()), text)
    {
      hide Drive, StripControl, WebCalls;
      buffer := buffer + text;
      if stripControlTokens {
        buffer := StripControl(buffer);
      }
      tools := WebCalls(codec, buffer, 0, serial);
      serial := serial + |tools|;
      if tools != [] {
        buffer := "";
      }
      filtered := "";
      ghost var start, web := Now(), tools;
      var more := true;
      PrefixNothing(Drive(start));
      PrefixTwice("", web, "", [], Drive(start));
      while more
        invariant Prefix("", web, Drive(start)) ==
                  if more then Prefix(filtered, tools, Drive(Now())) else Output(Now(), filtered, tools)
        decreases more, |buffer|, Rank(mode)
      {
        ghost var before := Now();
        var text, found;
        match mode {
          case TextMode => text, more := FromText(); found := [];
          case MatchingFunction => text, more := FromMatching(); found := [];
          case ParsingParameters => text, found, more := FromParameters();
        }
        PrefixTwice(filtered, tools, text, found, if more then Drive(Now()) else Output(Now(), "", []));
        filtered := filtered + text;
        tools := tools + found;
      }
    }

    /** Plain text: up to the first bullet, or all but an unclosed control token's prefix stays buffered. */
    method FromText() returns (out: string, more: bool)
      requires mode == TextMode
      modifies this`mode, this`buffer, this`currentToolID, this`currentFunctionName, this`currentParameters, this`serial
      ensures Drive(old(Now())) == Prefix(out, [], if more then Drive(Now()) else Output(Now(), "", []))
      ensures more ==> |buffer| <= |old(buffer)| && Rank(mode) < Rank(old(mode))
    {
      var idx := IndexChar(buffer, BULLET, 0);
      if idx != -1 {
        out := buffer[..idx];
        buffer := buffer[idx..];
        mode := MatchingFunction;
        return out, true;
      }
      var (safe, rest) := SplitControlTail(Now());
      buffer := rest;
      return safe, false;
    }

    /** After a bullet: enter the call, or drain one character of an overlong header. */
    method FromMatching() returns (out: string, more: bool)
      requires mode == MatchingFunction
      modifies this`mode, this`buffer, this`currentToolID, this`currentFunctionName, this`currentParameters, this`serial
      ensures Drive(old(Now())) == Prefix(out, [], if more then Drive(Now()) else Output(Now(), "", []))
      ensures more ==> |buffer| < |old(buffer)|
    {
      hide FindHeader, TrimSpace, TakeParams, EndOfCall, SplitControlTail, IndexChar;
      var m := FindHeader(buffer, 0);
      PrefixNothing(Drive(if m.Some? then EnterCall(Now(), m.value) else Now()));
      if m.Some? {
        currentFunctionName := m.value.Key(buffer);
        currentToolID, serial := Some(serial), serial + 1;
        currentParameters := map[];
        buffer := buffer[m.value.end..];
        mode := ParsingParameters;
        return "", true;
      } else if |buffer| > HEADER_LIMIT {
        out := buffer[..1];
        buffer := buffer[1..];
        mode := TextMode;
        return out, true;
      }
      return "", false;
    }

    /** The inner loop: every closed parameter is stored, the text in front of it passed on. */
    method CollectParameters() returns (out: string)
      modifies this`buffer, this`currentParameters
      ensures (out, buffer, currentParameters) == TakeParams(old(buffer), old(currentParameters))
    {
      hide TrimSpace, Contains;
      ghost var whole := TakeParams(buffer, currentParameters);
      out := "";
      AheadNothing(whole);
      var m := FindParam(buffer, 0);
      while ParamClosed(buffer, m)
        invariant m == FindParam(buffer, 0)
        invariant whole == Ahead(out, TakeParams(buffer, currentParameters))
        decreases |buffer|
      {
        var sp := m.value;
        AheadTwice(out, buffer[..sp.start],
                   TakeParams(buffer[sp.end..], currentParameters[sp.Key(buffer) := sp.Value(buffer)]));
        out := out + buffer[..sp.start];
        currentParameters := currentParameters[sp.Key(buffer) := sp.Value(buffer)];
        buffer := buffer[sp.end..];
        m := FindParam(buffer, 0);
      }
      assert out + "" == out;
    }

    /** Inside a call: collect closed parameters until the call is over or more input is needed. */
    method FromParameters() returns (out: string, found: seq<ToolUse>, more: bool)
      requires mode == ParsingParameters
      modifies this`mode, this`buffer, this`currentToolID, this`currentFunctionName, this`currentParameters, this`serial
      ensures Drive(old(Now())) == Prefix(out, found, if more then Drive(Now()) else Output(Now(), "", []))
      ensures more ==> |buffer| <= |old(buffer)| && Rank(mode) < Rank(old(mode))
    {
      hide TakeParams, EndOfCall;
      out := CollectParameters();
      var (tail, rest, over) := EndOfCall(buffer);
      out := out + tail;
      buffer := rest;
      found := [];
      more := false;
      if over && currentToolID.Some? && currentFunctionName != "" {
        found := [BuildTool(Now())];
        mode := TextMode;
        more := true;
      }
      PrefixTwice(out, found, "", [], Output(Now(), "", []));
    }

    method Flush() returns (remaining: string, tools: seq<ToolUse>)
      modifies this`mode, this`buffer, this`currentToolID, this`currentFunctionName, this`currentParameters, this`serial
      ensures Output(Now(), remaining, tools) == FlushSpec(old(Now()))
    {
      hide FindParam, StripControl, TrimSpace;
      if stripControlTokens {
        buffer := StripControl(buffer);
      }
      assert buffer == Cleaned(old(Now()), "") by { assert old(buffer) + "" == old(buffer); }
      remaining, tools := "", [];
      match mode {
        case ParsingParameters =>
          if currentToolID.Some? && currentFunctionName != "" {
            var m := FindParam(buffer, 0);
            if m.Some? {
              currentParameters := currentParameters[m.value.Key(buffer) := m.value.ValueToEnd(buffer)];
            }
            tools := [BuildTool(Now())];
            mode := TextMode;
          }
        case _ =>
          remaining := buffer;
      }
      buffer := "";
    }
  }

  lemma PrefixNothing(o: Output)
    ensures Prefix("", [], o) == o
  {
    assert "" + o.text == o.text && [] + o.tools == o.tools;
  }

  lemma PrefixTwice(a: string, x: seq<ToolUse>, b: string, y: seq<ToolUse>, o: Output)
    ensures Prefix(a, x, Prefix(b, y, o)) == Prefix(a + b, x + y, o)
    ensures Prefix(a, x, Output(o.state, "", [])) == Output(o.state, a, x)
  {
    assert a + b + o.text == a + (b + o.text) && x + y + o.tools == x + (y + o.tools);
    assert a + "" == a && x + [] == x;
  }
}
