/** The ways an upstream may send a call's name, and what the proxy makes of them (internal/sse/builder.go). */
module ToolNames {
  import opened Wrappers
  import opened Strings
  import opened ToolLog
  import B = Builder

  /** The name fragments of one call, in order. */
  function NamesOf(log: seq<ToolCallDelta>, t: nat): seq<string>
  {
    if log == [] then []
    else
      var d := log[|log| - 1];
      NamesOf(log[..|log| - 1], t) + (if d.index == t && d.name.Some? then [d.name.value] else [])
  }

  lemma NamesSnoc(log: seq<ToolCallDelta>, t: nat, name: string)
    requires log != [] && log[|log| - 1].index == t && log[|log| - 1].name == Some(name)
    ensures NamesOf(log, t) == NamesOf(log[..|log| - 1], t) + [name]
    ensures NameFor(log, t) == B.ExtendName(NameFor(log[..|log| - 1], t), name)
  {
  }

  lemma SameName(log: seq<ToolCallDelta>, t: nat)
    requires log != [] && !(log[|log| - 1].index == t && log[|log| - 1].name.Some?)
    ensures NamesOf(log, t) == NamesOf(log[..|log| - 1], t) && NameFor(log, t) == NameFor(log[..|log| - 1], t)
  {
    assert NamesOf(log[..|log| - 1], t) + [] == NamesOf(log[..|log| - 1], t);
  }

  lemma PrefixesCompare(a: string, b: string, whole: string)
    requires a <= whole && b <= whole
    ensures a <= b || b <= a
  {
    if |a| <= |b| {
      assert a == whole[..|a|] && b == whole[..|b|] && whole[..|b|][..|a|] == whole[..|a|];
    } else {
      assert a == whole[..|a|] && b == whole[..|b|] && whole[..|a|][..|b|] == whole[..|b|];
    }
  }

  /** A name that comes as snapshots, each as much of it as is known, is the longest snapshot. */
  lemma {:induction false} Snapshots(log: seq<ToolCallDelta>, t: nat, whole: string)
    requires forall name <- NamesOf(log, t) :: name <= whole
    ensures NameFor(log, t) <= whole && forall name <- NamesOf(log, t) :: name <= NameFor(log, t)
    ensures NameFor(log, t) == "" || NameFor(log, t) in NamesOf(log, t)
  {
    if log != [] {
      var before, d := log[..|log| - 1], log[|log| - 1];
      if d.index == t && d.name.Some? {
        NamesSnoc(log, t, d.name.value);
        assert d.name.value in NamesOf(log, t) && forall name <- NamesOf(before, t) :: name in NamesOf(log, t);
        Snapshots(before, t, whole);
        PrefixesCompare(NameFor(before, t), d.name.value, whole);
      } else {
        SameName(log, t);
        Snapshots(before, t, whole);
      }
    }
  }

  /** However often a name is sent whole, and whatever parts of it besides, it is the call's name. */
  lemma SentWhole(log: seq<ToolCallDelta>, t: nat, whole: string)
    requires whole in NamesOf(log, t) && forall name <- NamesOf(log, t) :: name <= whole
    ensures NameFor(log, t) == whole
  {
    Snapshots(log, t, whole);
  }

  /** No piece begins what came before it, or begins with it. */
  predicate Apart(pieces: seq<string>)
  {
    pieces == [] ||
    var before, piece := Join(pieces[..|pieces| - 1]), pieces[|pieces| - 1];
    Apart(pieces[..|pieces| - 1]) && (before == "" || piece == "" || (!(before <= piece) && !(piece <= before)))
  }

  /** A name that comes in pieces is put together exactly when no piece can be taken for a snapshot. */
  lemma {:induction false} Pieces(log: seq<ToolCallDelta>, t: nat)
    ensures |NameFor(log, t)| <= |Join(NamesOf(log, t))|
    ensures NameFor(log, t) == Join(NamesOf(log, t)) <==> Apart(NamesOf(log, t))
  {
    hide NameFor, NamesOf;
    if log == [] {
      NoNames(t);
    } else {
      var before, d := log[..|log| - 1], log[|log| - 1];
      Pieces(before, t);
      if d.index == t && d.name.Some? {
        NamesSnoc(log, t, d.name.value);
        OnePiece(NameFor(before, t), NamesOf(before, t), d.name.value);
      } else {
        SameName(log, t);
      }
    }
  }

  lemma NoNames(t: nat)
    ensures NameFor([], t) == "" && NamesOf([], t) == []
  {
  }

  lemma OnePiece(prev: string, pieces: seq<string>, piece: string)
    requires |prev| <= |Join(pieces)| && (prev == Join(pieces) <==> Apart(pieces))
    ensures |B.ExtendName(prev, piece)| <= |Join(pieces + [piece])|
    ensures B.ExtendName(prev, piece) == Join(pieces + [piece]) <==> Apart(pieces + [piece])
  {
    JoinAppend(pieces, piece);
    assert (pieces + [piece])[..|pieces|] == pieces;
    var now, whole := B.ExtendName(prev, piece), Join(pieces) + piece;
    assert piece == "" ==> whole == Join(pieces);
    assert Join(pieces) == "" ==> whole == piece;
    if now == whole {
      LengthsTell(prev, piece, Join(pieces));
    }
  }

  lemma LengthsTell(prev: string, piece: string, whole: string)
    requires |prev| <= |whole| && B.ExtendName(prev, piece) == whole + piece
    ensures prev == whole && (prev == "" || piece == "" || (!(prev <= piece) && !(piece <= prev)))
  {
    if |prev| == |whole| && prev + piece == whole + piece {
      assert prev == (prev + piece)[..|prev|] == (whole + piece)[..|whole|] == whole;
    }
  }
}
