/** Collecting what the elements of a sequence contribute, in order. */
module Sequences {

  function Gather<T, R>(f: T -> seq<R>, s: seq<T>): seq<R>
  {
    if s == [] then [] else Gather(f, s[..|s| - 1]) + f(s[|s| - 1])
  }

  lemma GatherSnoc<T, R>(f: T -> seq<R>, s: seq<T>, x: T)
    ensures Gather(f, s + [x]) == Gather(f, s) + f(x)
  {
    assert (s + [x])[..|s|] == s;
  }

  lemma GatherOne<T, R>(f: T -> seq<R>, x: T)
    ensures Gather(f, [x]) == f(x)
  {
    assert [x][..0] == [];
    assert [] + f(x) == f(x);
  }

  lemma {:induction false} GatherConcat<T, R>(f: T -> seq<R>, a: seq<T>, b: seq<T>)
    ensures Gather(f, a + b) == Gather(f, a) + Gather(f, b)
  {
    if b == [] {
      assert a + b == a;
      assert Gather(f, a) + [] == Gather(f, a);
    } else {
      var b', x := b[..|b| - 1], b[|b| - 1];
      assert a + b == (a + b') + [x];
      GatherSnoc(f, a + b', x);
      GatherConcat(f, a, b');
      assert Gather(f, a) + Gather(f, b') + f(x) == Gather(f, a) + (Gather(f, b') + f(x));
    }
  }

  /** An element that contributes nothing can go. */
  lemma GatherWithout<T, R>(f: T -> seq<R>, s: seq<T>, i: nat)
    requires i < |s| && f(s[i]) == []
    ensures Gather(f, s[..i] + s[i + 1..]) == Gather(f, s)
  {
    hide Gather;
    assert s == s[..i] + [s[i]] + s[i + 1..];
    GatherConcat(f, s[..i] + [s[i]], s[i + 1..]);
    GatherSnoc(f, s[..i], s[i]);
    GatherConcat(f, s[..i], s[i + 1..]);
    assert Gather(f, s[..i]) + [] == Gather(f, s[..i]);
  }

  function Total<T>(f: T -> nat, s: seq<T>): nat
  {
    if s == [] then 0 else Total(f, s[..|s| - 1]) + f(s[|s| - 1])
  }

  lemma TotalSnoc<T>(f: T -> nat, s: seq<T>, x: T)
    ensures Total(f, s + [x]) == Total(f, s) + f(x)
  {
    assert (s + [x])[..|s|] == s;
  }

  lemma {:induction false} TotalNothing<T>(f: T -> nat, s: seq<T>)
    ensures Total(f, s) == 0 <==> forall x <- s :: f(x) == 0
  {
    if s != [] {
      TotalNothing(f, s[..|s| - 1]);
      assert s == s[..|s| - 1] + [s[|s| - 1]];
    }
  }

  lemma {:induction false} GatherSame<T, R>(f: T -> seq<R>, s: seq<T>, t: seq<T>)
    requires |s| == |t| && forall i :: 0 <= i < |s| ==> f(s[i]) == f(t[i])
    ensures Gather(f, s) == Gather(f, t)
  {
    if s != [] {
      GatherSame(f, s[..|s| - 1], t[..|t| - 1]);
    }
  }
}
