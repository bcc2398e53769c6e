/**
 * Inline `WebFetch {...}` and `WebSearch {...}` calls (internal/parsers/heuristictool.go): which of them are found, and
 * what becomes of the text around them.
 */
module HeuristicWeb {
  import opened Wrappers
  import opened HeuristicTool
  import Json
  import R = HeuristicLaws

  // ---- mentions of the two tools ----

  /** One of the two names, in any case and as a word of its own, n characters from i on. */
  predicate NameAt(s: string, i: nat, n: nat)
  {
    && ((n == 8 && FoldsTo(s, "webfetch", i)) || (n == 9 && FoldsTo(s, "websearch", i)))
    && WordBoundary(s, i) && WordBoundary(s, i + n)
  }

  /** A name and the braces that follow it. */
  datatype Mention = Mention(start: nat, nameEnd: nat, open: nat, close: nat)
  {
    predicate Fits(s: string) {
      start < nameEnd <= open < close < |s|
    }

    function Name(s: string): string requires Fits(s) { s[start..nameEnd] }

    function Body(s: string): string requires Fits(s) { s[open..close + 1] }
  }

  /** The first name from `from` on, the first '{' behind it, and the first '}' behind that. */
  ghost predicate FirstMention(s: string, from: nat, m: Mention)
  {
    && m.Fits(s) && from <= m.start && NameAt(s, m.start, m.nameEnd - m.start)
    && (forall i, n :: from <= i < m.start ==> !NameAt(s, i, n))
    && s[m.open] == '{' && (forall i :: m.nameEnd <= i < m.open ==> s[i] != '{')
    && s[m.close] == '}' && (forall i :: m.open < i < m.close ==> s[i] != '}')
  }

  ghost predicate Unmentioned(s: string, from: nat)
  {
    forall m :: !FirstMention(s, from, m)
  }

  /** These are all mentions from `from` on, in order and none within another. */
  ghost predicate Mentions(s: string, from: nat, ms: seq<Mention>)
    decreases |ms|
  {
    if ms == [] then Unmentioned(s, from)
    else FirstMention(s, from, ms[0]) && Mentions(s, ms[0].close + 1, ms[1..])
  }

  /** The body is an object with the field that the named tool asks for. */
  predicate Accepted(codec: Json.Codec, s: string, m: Mention)
    requires m.Fits(s)
  {
    var obj := codec.decode(m.Body(s));
    && obj.Some?
    && (m.Name(s) == "WebFetch" ==> "url" in obj.value)
    && (m.Name(s) == "WebSearch" ==> "query" in obj.value)
  }

  /** The mentions that are calls. */
  function Calls(codec: Json.Codec, s: string, ms: seq<Mention>): seq<Mention>
    decreases |ms|
  {
    if ms == [] then []
    else (if ms[0].Fits(s) && Accepted(codec, s, ms[0]) then [ms[0]] else []) + Calls(codec, s, ms[1..])
  }

  /** Each call has its name as it was written, its object, and the next number. */
  ghost predicate Makes(codec: Json.Codec, s: string, calls: seq<Mention>, serial: nat, tools: seq<ToolUse>)
  {
    && |tools| == |calls|
    && forall k :: 0 <= k < |calls| ==>
         && calls[k].Fits(s) && codec.decode(calls[k].Body(s)).Some?
         && tools[k] == ToolUse(serial + k, calls[k].Name(s), codec.decode(calls[k].Body(s)).value)
  }

  lemma NameLengthIs(s: string, i: nat, n: nat)
    ensures NameAt(s, i, n) <==> n == WebNameLength(s, i) && n > 0 && WordBoundary(s, i) && WordBoundary(s, i + n)
  {
    NotBoth(s, i);
  }

  lemma NotBoth(s: string, i: nat)
    ensures !(FoldsTo(s, "webfetch", i) && FoldsTo(s, "websearch", i))
  {
    FoldsAt(s, "webfetch", i, 3);
    FoldsAt(s, "websearch", i, 3);
  }

  lemma FoldsAt(s: string, p: string, i: nat, j: nat)
    requires j < |p|
    ensures FoldsTo(s, p, i) ==> i + j < |s| && Fold(s[i + j]) == p[j]
  {
  }

  lemma {:induction false} FirstName(s: string, from: nat)
    ensures var q := FindWebName(s, from);
            if q == -1 then forall i, n :: from <= i ==> !NameAt(s, i, n)
            else from <= q && NameAt(s, q, WebNameLength(s, q)) && forall i, n :: from <= i < q ==> !NameAt(s, i, n)
    decreases |s| - from
  {
    hide WebNameLength, NameAt, WordBoundary;
    if from < |s| {
      forall n ensures NameAt(s, from, n) <==>
          n == WebNameLength(s, from) && n > 0 && WordBoundary(s, from) && WordBoundary(s, from + n) {
        NameLengthIs(s, from, n);
      }
      FirstName(s, from + 1);
    } else {
      forall i, n | from <= i ensures !NameAt(s, i, n) { TooFar(s, i, n); }
    }
  }

  lemma TooFar(s: string, i: nat, n: nat)
    requires |s| <= i
    ensures !NameAt(s, i, n)
  {
  }

  /** The next match of the regular expression. */
  function Next(s: string, from: nat): Option<Mention>
  {
    var q := FindWebName(s, from);
    if q == -1 then None
    else
      var nameEnd := q + WebNameLength(s, q);
      var open := IndexChar(s, '{', nameEnd);
      if open == -1 then None
      else
        var close := IndexChar(s, '}', open + 1);
        if close == -1 then None else Some(Mention(q, nameEnd, open, close))
  }

  /** It is the first mention, if there is one. */
  lemma NextMention(s: string, from: nat)
    ensures if Next(s, from) == None then Unmentioned(s, from) else FirstMention(s, from, Next(s, from).value)
  {
    hide WebNameLength, FoldsTo, WordBoundary;
    FirstName(s, from);
    var q := FindWebName(s, from);
    if q != -1 {
      var n := WebNameLength(s, q);
      forall m | FirstMention(s, from, m) ensures m.start == q && m.nameEnd == q + n { SameName(s, from, q, n, m); }
    }
  }

  lemma NoneNext(codec: Json.Codec, s: string, from: nat, serial: nat)
    requires Next(s, from) == None
    ensures WebCalls(codec, s, from, serial) == []
  {
    hide FindWebName, WebNameLength, IndexChar;
  }

  lemma OneNext(codec: Json.Codec, s: string, from: nat, serial: nat, m: Mention)
    requires Next(s, from) == Some(m) && m.Fits(s)
    ensures var obj, name := codec.decode(s[m.open..m.close + 1]), s[m.start..m.nameEnd];
            WebCalls(codec, s, from, serial) ==
            if obj.Some? && (name == "WebFetch" ==> "url" in obj.value)
                && (name == "WebSearch" ==> "query" in obj.value) then
              [ToolUse(serial, name, obj.value)] + WebCalls(codec, s, m.close + 1, serial + 1)
            else WebCalls(codec, s, m.close + 1, serial)
  {
    hide FindWebName, WebNameLength, IndexChar, NameAt, FoldsTo, WordBoundary;
  }

  lemma WebCallsNext(codec: Json.Codec, s: string, from: nat, serial: nat, m: Mention)
    requires Next(s, from) == Some(m) && m.Fits(s)
    ensures WebCalls(codec, s, from, serial) ==
            if Accepted(codec, s, m) then
              [ToolUse(serial, m.Name(s), codec.decode(m.Body(s)).value)] + WebCalls(codec, s, m.close + 1, serial + 1)
            else WebCalls(codec, s, m.close + 1, serial)
  {
    hide FindWebName, WebNameLength, WebCalls, Next;
    OneNext(codec, s, from, serial, m);
    AcceptedIs(codec, s, m);
  }

  lemma SameName(s: string, from: nat, q: nat, n: nat, m: Mention)
    requires from <= q && NameAt(s, q, n) && (forall i, k :: from <= i < q ==> !NameAt(s, i, k))
             && FirstMention(s, from, m)
    requires n == WebNameLength(s, q)
    ensures m.start == q && m.nameEnd == q + n
  {
    hide WebNameLength, FoldsTo, WordBoundary;
    NameLengthIs(s, q, m.nameEnd - m.start);
  }

  lemma OnlyFirst(s: string, from: nat, m: Mention, m': Mention)
    requires FirstMention(s, from, m) && FirstMention(s, from, m')
    ensures m == m'
  {
    hide NameAt, FoldsTo, WordBoundary;
    assert NameAt(s, m.start, m.nameEnd - m.start) && NameAt(s, m'.start, m'.nameEnd - m'.start);
    assert m.start == m'.start;
    NameLengthIs(s, m.start, m.nameEnd - m.start);
    NameLengthIs(s, m.start, m'.nameEnd - m'.start);
  }

  /** Every text has its mentions. */
  lemma {:induction false} EveryText(s: string, from: nat) returns (ms: seq<Mention>)
    ensures Mentions(s, from, ms)
    decreases |s| - from
  {
    hide NameAt, FoldsTo, WordBoundary;
    if m :| FirstMention(s, from, m) {
      var rest := EveryText(s, m.close + 1);
      ms := [m] + rest;
      assert ms[1..] == rest;
    } else {
      ms := [];
    }
  }

  /** The calls found are the accepted mentions, in order, whatever lies between them. */
  lemma {:induction false} WebCallsAre(codec: Json.Codec, s: string, from: nat, serial: nat, ms: seq<Mention>)
    requires Mentions(s, from, ms)
    ensures Makes(codec, s, Calls(codec, s, ms), serial, WebCalls(codec, s, from, serial))
    decreases |ms|
  {
    hide FirstMention, Accepted, WebCalls, Makes, Next;
    NextMention(s, from);
    if ms == [] {
      assert Next(s, from) == None;
      NoneNext(codec, s, from, serial);
      assert Makes(codec, s, [], serial, []) by { MakesNothing(codec, s, serial); }
    } else {
      var m := ms[0];
      MentionFits(s, from, m);
      if Next(s, from).Some? { OnlyFirst(s, from, m, Next(s, from).value); }
      WebCallsNext(codec, s, from, serial, m);
      var serial' := if Accepted(codec, s, m) then serial + 1 else serial;
      WebCallsAre(codec, s, m.close + 1, serial', ms[1..]);
      var calls, tools := Calls(codec, s, ms[1..]), WebCalls(codec, s, m.close + 1, serial');
      if Accepted(codec, s, m) {
        AcceptedIs(codec, s, m);
        MakesOne(codec, s, m, calls, serial, tools);
      } else {
        assert [] + calls == calls;
      }
    }
  }

  lemma MakesNothing(codec: Json.Codec, s: string, serial: nat)
    ensures Makes(codec, s, [], serial, [])
  {
  }

  lemma MakesOne(codec: Json.Codec, s: string, m: Mention, calls: seq<Mention>, serial: nat, tools: seq<ToolUse>)
    requires Makes(codec, s, calls, serial + 1, tools) && m.Fits(s) && codec.decode(m.Body(s)).Some?
    ensures Makes(codec, s, [m] + calls, serial, [ToolUse(serial, m.Name(s), codec.decode(m.Body(s)).value)] + tools)
  {
    var all, made := [m] + calls, [ToolUse(serial, m.Name(s), codec.decode(m.Body(s)).value)] + tools;
    forall k | 0 <= k < |all|
        ensures all[k].Fits(s) && codec.decode(all[k].Body(s)).Some?
                && made[k] == ToolUse(serial + k, all[k].Name(s), codec.decode(all[k].Body(s)).value) {
      if k > 0 {
        assert all[k] == calls[k - 1] && made[k] == tools[k - 1];
      }
    }
  }

  lemma MentionFits(s: string, from: nat, m: Mention)
    requires FirstMention(s, from, m)
    ensures m.Fits(s)
  {
    hide NameAt;
  }

  lemma AcceptedIs(codec: Json.Codec, s: string, m: Mention)
    requires m.Fits(s)
    ensures var obj, name := codec.decode(s[m.open..m.close + 1]), s[m.start..m.nameEnd];
            Accepted(codec, s, m) <==> obj.Some? && (name == "WebFetch" ==> "url" in obj.value)
                                       && (name == "WebSearch" ==> "query" in obj.value)
  {
  }

  /**
   * What a feed makes of text with mentions, while plain text is read: the calls come out and everything around them is
   * gone; without a call the automaton runs on the text as it is.
   */
  lemma FeedFinds(codec: Json.Codec, st: State, text: string, ms: seq<Mention>)
    requires st.mode == TextMode && R.NoControl(st.strip, st.buffer + text) && Mentions(st.buffer + text, 0, ms)
    ensures var s, out := st.buffer + text, FeedSpec(codec, st, text);
            var calls := Calls(codec, s, ms);
            if calls == [] then out == Drive(st.(buffer := s))
            else Makes(codec, s, calls, st.serial, out.tools) && out.text == ""
                 && out.state == st.(buffer := "", serial := st.serial + |calls|)
  {
    hide *;
    var s := st.buffer + text;
    WebCallsAre(codec, s, 0, st.serial, ms);
    var web := WebCalls(codec, s, 0, st.serial);
    SameMany(codec, s, Calls(codec, s, ms), st.serial, web);
    FeedIs(codec, st, text);
    assert web + [] == web;
    if web != [] { DriveNothing(st.(buffer := "", serial := st.serial + |web|)); }
  }

  lemma SameMany(codec: Json.Codec, s: string, calls: seq<Mention>, serial: nat, tools: seq<ToolUse>)
    requires Makes(codec, s, calls, serial, tools)
    ensures |calls| == |tools|
  {
  }

  lemma FeedIs(codec: Json.Codec, st: State, text: string)
    requires R.NoControl(st.strip, st.buffer + text)
    ensures var web := WebCalls(codec, st.buffer + text, 0, st.serial);
            var o := Drive(st.(buffer := if web == [] then st.buffer + text else "", serial := st.serial + |web|));
            FeedSpec(codec, st, text) == Output(o.state, o.text, web + o.tools)
  {
    hide Drive, WebCalls, StripControl;
    var s := st.buffer + text;
    if st.strip { R.StripLeavesPlain(s); }
    var web := WebCalls(codec, s, 0, st.serial);
    var o := Drive(st.(buffer := if web == [] then s else "", serial := st.serial + |web|));
    assert "" + o.text == o.text;
  }

  lemma DriveNothing(st: State)
    requires st.mode == TextMode && st.buffer == ""
    ensures Drive(st) == Output(st, "", [])
  {
    assert IndexChar("", BULLET, 0) == -1;
    assert LastControlStart("") == -1;
  }

  /** Text without a bullet and without a control token waits, whole, until it is flushed. */
  lemma TextWaits(st: State)
    requires st.mode == TextMode && BULLET !in st.buffer && R.NoControl(st.strip, st.buffer)
    ensures Drive(st) == Output(st, "", [])
  {
    assert IndexChar(st.buffer, BULLET, 0) == -1;
    assert st.strip ==> LastControlStart(st.buffer) == -1;
  }

  // ---- a text with one mention ----

  predicate NoW(s: string)
  {
    forall c <- s :: Fold(c) != 'w'
  }

  /**
   * A new parser and one tool: the name as a word of its own, nothing like it ahead of it or behind, and the braces
   * closest to it. It is a call if and only if the braces hold an
   * object with the tool's field; otherwise the text waits.
   */
  lemma OneMention(codec: Json.Codec, strip: bool, serial: nat, pre: string, name: string, mid: string, inner: string,
                   post: string)
    requires name == "WebFetch" || name == "WebSearch"
    requires NoW(pre) && NoW(post) && (pre != "" ==> !IsWord(pre[|pre| - 1])) && mid != "" && !IsWord(mid[0])
    requires '{' !in mid && '}' !in inner
    ensures var s := pre + name + mid + "{" + inner + "}" + post;
            R.NoControl(strip, s) && BULLET !in s ==>
              var st := State(TextMode, "", None, "", map[], strip, serial);
              var out, obj := FeedSpec(codec, st, s), codec.decode("{" + inner + "}");
              if obj.Some? && (if name == "WebFetch" then "url" in obj.value else "query" in obj.value) then
                out == Output(st.(serial := serial + 1), "", [ToolUse(serial, name, obj.value)])
              else out == Output(st.(buffer := s), "", [])
  {
    hide *;
    var s := pre + name + mid + "{" + inner + "}" + post;
    var a := |pre|;
    var m := Mention(a, a + |name|, a + |name| + |mid|, a + |name| + |mid| + 1 + |inner|);
    OneIsMentioned(s, pre, name, mid, inner, post, m);
    Placed(s, pre, name, mid, inner, post, m);
    AcceptedBy(codec, s, m);
    if R.NoControl(strip, s) && BULLET !in s { OneFeed(codec, strip, serial, s, m); }
  }

  lemma AcceptedBy(codec: Json.Codec, s: string, m: Mention)
    requires m.Fits(s) && (m.Name(s) == "WebFetch" || m.Name(s) == "WebSearch")
    ensures var obj := codec.decode(m.Body(s));
            Accepted(codec, s, m) <==> obj.Some? && if m.Name(s) == "WebFetch" then "url" in obj.value
                else "query" in obj.value
  {
    assert "WebFetch"[3] != "WebSearch"[3];
  }

  lemma OneFeed(codec: Json.Codec, strip: bool, serial: nat, s: string, m: Mention)
    requires R.NoControl(strip, s) && BULLET !in s && Mentions(s, 0, [m]) && m.Fits(s)
    ensures var st := State(TextMode, "", None, "", map[], strip, serial);
            FeedSpec(codec, st, s) ==
            if Accepted(codec, s, m) then
              Output(st.(serial := serial + 1), "",
                     if codec.decode(m.Body(s)).Some? then [ToolUse(serial, m.Name(s), codec.decode(m.Body(s)).value)]
                         else [])
            else Output(st.(buffer := s), "", [])
  {
    hide FeedSpec, Drive, Mentions, R.NoControl, Accepted, Calls;
    var st := State(TextMode, "", None, "", map[], strip, serial);
    assert "" + s == s;
    OneCall(codec, s, m);
    FeedFinds(codec, st, s, [m]);
    TextWaits(st.(buffer := s));
    if Accepted(codec, s, m) {
      var out := FeedSpec(codec, st, s);
      AcceptedIs(codec, s, m);
      assert out.tools == [ToolUse(serial, m.Name(s), codec.decode(m.Body(s)).value)];
    }
  }

  lemma OneCall(codec: Json.Codec, s: string, m: Mention)
    requires m.Fits(s)
    ensures Calls(codec, s, [m]) == if Accepted(codec, s, m) then [m] else []
  {
    hide Accepted;
    assert [m][1..] == [];
    assert Calls(codec, s, []) == [];
  }

  lemma Placed(s: string, pre: string, name: string, mid: string, inner: string, post: string, m: Mention)
    requires s == pre + name + mid + "{" + inner + "}" + post && name != ""
    requires m == Mention(|pre|, |pre| + |name|, |pre| + |name| + |mid|, |pre| + |name| + |mid| + 1 + |inner|)
    ensures m.Fits(s) && m.Name(s) == name && m.Body(s) == "{" + inner + "}"
    ensures forall i :: 0 <= i < |mid| ==> s[m.nameEnd + i] == mid[i]
    ensures forall i :: 0 <= i < |inner| ==> s[m.open + 1 + i] == inner[i]
    ensures forall i :: 0 <= i < |pre| ==> s[i] == pre[i]
    ensures forall i :: 0 <= i < |post| ==> s[m.close + 1 + i] == post[i]
    ensures forall i :: 0 <= i < |name| ==> s[m.start + i] == name[i]
    ensures s[m.open] == '{' && s[m.close] == '}' && |s| == m.close + 1 + |post|
  {
  }

  lemma OneIsMentioned(s: string, pre: string, name: string, mid: string, inner: string, post: string, m: Mention)
    requires name == "WebFetch" || name == "WebSearch"
    requires s == pre + name + mid + "{" + inner + "}" + post
    requires NoW(pre) && NoW(post) && (pre != "" ==> !IsWord(pre[|pre| - 1])) && mid != "" && !IsWord(mid[0])
    requires '{' !in mid && '}' !in inner
    requires m == Mention(|pre|, |pre| + |name|, |pre| + |name| + |mid|, |pre| + |name| + |mid| + 1 + |inner|)
    ensures Mentions(s, 0, [m])
  {
    hide *;
    Placed(s, pre, name, mid, inner, post, m);
    NameStands(s, m.start, name);
    forall i, n | 0 <= i < m.start ensures !NameAt(s, i, n) { NoNameAt(s, pre, 0, i, n); }
    MidAndInner(s, mid, inner, m);
    Stands(s, m);
    NothingMentioned(s, post, m.close + 1);
    OneMentioned(s, m);
  }

  lemma MidAndInner(s: string, mid: string, inner: string, m: Mention)
    requires m.Fits(s) && '{' !in mid && '}' !in inner
    requires m.open == m.nameEnd + |mid| && m.close == m.open + 1 + |inner|
    requires forall i :: 0 <= i < |mid| ==> s[m.nameEnd + i] == mid[i]
    requires forall i :: 0 <= i < |inner| ==> s[m.open + 1 + i] == inner[i]
    ensures forall i :: m.nameEnd <= i < m.open ==> s[i] != '{'
    ensures forall i :: m.open < i < m.close ==> s[i] != '}'
  {
    forall i | m.nameEnd <= i < m.open ensures s[i] != '{' {
      assert s[m.nameEnd + (i - m.nameEnd)] == mid[i - m.nameEnd];
    }
    forall i | m.open < i < m.close ensures s[i] != '}' {
      assert s[m.open + 1 + (i - m.open - 1)] == inner[i - m.open - 1];
    }
  }

  lemma OneMentioned(s: string, m: Mention)
    requires FirstMention(s, 0, m) && Unmentioned(s, m.close + 1)
    ensures Mentions(s, 0, [m])
  {
    hide FirstMention, Unmentioned;
    assert [m][1..] == [];
  }

  lemma Stands(s: string, m: Mention)
    requires m.Fits(s) && NameAt(s, m.start, m.nameEnd - m.start)
    requires forall i, n :: 0 <= i < m.start ==> !NameAt(s, i, n)
    requires s[m.open] == '{' && (forall i :: m.nameEnd <= i < m.open ==> s[i] != '{')
    requires s[m.close] == '}' && (forall i :: m.open < i < m.close ==> s[i] != '}')
    ensures FirstMention(s, 0, m)
  {
    hide NameAt;
  }

  lemma NothingMentioned(s: string, post: string, at: nat)
    requires at + |post| == |s| && NoW(post) && forall k :: 0 <= k < |post| ==> s[at + k] == post[k]
    ensures Unmentioned(s, at)
  {
    hide NameAt, NoW;
    forall m ensures !FirstMention(s, at, m) {
      if FirstMention(s, at, m) { NoNameAt(s, post, at, m.start, m.nameEnd - m.start); }
    }
  }

  lemma NameStands(s: string, i: nat, name: string)
    requires name == "WebFetch" || name == "WebSearch"
    requires i + |name| < |s| && (forall k :: 0 <= k < |name| ==> s[i + k] == name[k])
    requires (i > 0 ==> !IsWord(s[i - 1])) && !IsWord(s[i + |name|])
    ensures NameAt(s, i, |name|)
  {
    assert s[i] == name[0] && s[i + |name| - 1] == name[|name| - 1];
    Folded(name);
  }

  lemma Folded(name: string)
    ensures name == "WebFetch" ==> forall k :: 0 <= k < 8 ==> Fold(name[k]) == "webfetch"[k]
    ensures name == "WebSearch" ==> forall k :: 0 <= k < 9 ==> Fold(name[k]) == "websearch"[k]
  {
  }

  lemma NoNameAt(s: string, part: string, at: nat, i: nat, n: nat)
    requires at <= i < at + |part| <= |s| || |s| <= i
    requires NoW(part) && forall k :: 0 <= k < |part| && at + k < |s| ==> s[at + k] == part[k]
    ensures !NameAt(s, i, n)
  {
    if i < |s| {
      assert s[i] == part[i - at] && part[i - at] in part;
      assert Fold(s[i]) != 'w';
      assert "webfetch"[0] == 'w' && "websearch"[0] == 'w';
    }
  }
}
