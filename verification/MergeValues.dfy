/**
 * Whose value is at a path of a merged object (internal/config/merge.go): the source's where it has one, the target's
 * where the source says nothing, and none that neither has.
 */
module MergeValues {
  import opened Wrappers
  import opened Json
  import opened Merge

  predicate Ordinary(path: seq<string>)
  {
    forall k <- path :: k != "$delete" && k != "$default"
  }

  /** What the source has at the front of the path, as an object. */
  function ObjectAt(s: Value, path: seq<string>, i: nat): Option<Object>
    requires i <= |path|
  {
    var v := Get(s, path[..i]);
    if v.Some? && v.value.Obj? then Some(v.value.fields) else None
  }

  /** No "$delete" of the source, at any level of the path, leads to it. */
  ghost predicate Undeleted(s: Value, path: seq<string>)
  {
    forall i, d :: 0 <= i < |path| && ObjectAt(s, path, i).Some? && d in Deletes(ObjectAt(s, path, i).value) ==>
      !(Split(d) <= path[i..])
  }

  /** No "$default" of the source, at any level of the path, leads beyond it. */
  ghost predicate NotBelow(s: Value, path: seq<string>)
  {
    forall i, p :: 0 <= i < |path| && ObjectAt(s, path, i).Some? && p in Defaults(ObjectAt(s, path, i).value) ==>
      !(path[i..] < Split(p))
  }

  /** Nor to a part of it, or to the path itself. */
  ghost predicate NotAbove(s: Value, path: seq<string>)
  {
    forall i, p :: 0 <= i < |path| && ObjectAt(s, path, i).Some? && p in Defaults(ObjectAt(s, path, i).value) ==>
      !(Split(p) <= path[i..])
  }

  /** The source says nothing of the path: one of its objects on the way lacks the next key. */
  ghost predicate Silent(s: Value, path: seq<string>)
  {
    exists i :: 0 <= i < |path| && ObjectAt(s, path, i).Some? && path[i] !in ObjectAt(s, path, i).value
  }

  /** There is a value at the path, and nothing is below it. */
  predicate LeafAt(v: Value, path: seq<string>, x: Value)
  {
    Get(v, path) == Some(x) && !x.Obj?
  }

  // ---- setting and deleting elsewhere ----

  lemma OneKey(v: Value, keys: seq<string>)
    requires |keys| == 1 ==> v.Obj? && keys[0] in v.fields
    ensures |keys| == 1 ==> Get(v, keys) == Some(v.fields[keys[0]])
  {
  }

  lemma {:induction false} SetKeepsLeaf(v: Value, keys: seq<string>, y: Value, path: seq<string>, x: Value)
    requires keys != [] && path != [] && LeafAt(v, path, x) && Get(v, keys) == None && !(path < keys)
    ensures LeafAt(Set(v, keys, y), path, x)
    decreases |keys|
  {
    if keys[0] == path[0] {
      assert keys == [keys[0]] + keys[1..] && path == [path[0]] + path[1..];
      OneKey(v, keys);
      assert |path| == 1 && |keys| > 1 ==> path < keys;
      if |keys| > 1 && |path| > 1 { SetKeepsLeaf(v.fields[keys[0]], keys[1..], y, path[1..], x); }
    }
  }

  lemma {:induction false} DeleteKeepsLeaf(v: Value, keys: seq<string>, path: seq<string>, x: Value)
    requires keys != [] && path != [] && LeafAt(v, path, x) && !(keys <= path)
    ensures LeafAt(Delete(v, keys), path, x)
    decreases |keys|
  {
    if keys[0] == path[0] {
      assert keys == [keys[0]] + keys[1..] && path == [path[0]] + path[1..];
      OneKey(v, path);
      if |keys| > 1 && |path| > 1 && v.fields[keys[0]].Obj? {
        DeleteKeepsLeaf(v.fields[keys[0]], keys[1..], path[1..], x);
      }
    }
  }

  lemma {:induction false} SetKeepsNothing(v: Value, keys: seq<string>, y: Value, path: seq<string>)
    requires keys != [] && path != [] && Get(v, path) == None && !(path <= keys) && !(keys <= path)
    ensures Get(Set(v, keys, y), path) == None
    decreases |keys|
  {
    if keys[0] == path[0] {
      assert keys == [keys[0]] + keys[1..] && path == [path[0]] + path[1..];
      if |keys| > 1 && |path| > 1 { SetKeepsNothing(Child(v, keys[0]), keys[1..], y, path[1..]); }
    }
  }

  lemma {:induction false} DefaultsKeepLeaf(v: Value, order: seq<string>, defaults: Object, path: seq<string>, x: Value)
    requires (forall p <- order :: p in defaults) && path != [] && LeafAt(v, path, x)
    requires forall p <- order :: !(path < Split(p))
    ensures LeafAt(DefaultAll(v, order, defaults), path, x)
    decreases |order|
  {
    hide LeafAt, Set, Split;
    if order != [] {
      var last, before := order[|order| - 1], order[..|order| - 1];
      assert last in order;
      DefaultsKeepLeaf(v, before, defaults, path, x);
      var w := DefaultAll(v, before, defaults);
      if Get(w, Split(last)) == None { SetKeepsLeaf(w, Split(last), defaults[last], path, x); }
    }
  }

  lemma {:induction false} DefaultsKeepNothing(v: Value, order: seq<string>, defaults: Object, path: seq<string>)
    requires (forall p <- order :: p in defaults) && path != [] && Get(v, path) == None
    requires forall p <- order :: !(path < Split(p)) && !(Split(p) <= path)
    ensures Get(DefaultAll(v, order, defaults), path) == None
    decreases |order|
  {
    hide Get, Set, Split;
    if order != [] {
      var last, before := order[|order| - 1], order[..|order| - 1];
      assert last in order;
      DefaultsKeepNothing(v, before, defaults, path);
      var w := DefaultAll(v, before, defaults);
      if Get(w, Split(last)) == None {
        assert path <= Split(last) ==> path < Split(last) || path == Split(last);
        SetKeepsNothing(w, Split(last), defaults[last], path);
      }
    }
  }

  lemma {:induction false} DeletesKeepLeaf(v: Value, paths: seq<string>, path: seq<string>, x: Value)
    requires path != [] && LeafAt(v, path, x) && forall d <- paths :: !(Split(d) <= path)
    ensures LeafAt(DeleteAll(v, paths), path, x)
    decreases |paths|
  {
    hide LeafAt, Delete, Split;
    if paths != [] {
      assert paths[|paths| - 1] in paths;
      DeletesKeepLeaf(v, paths[..|paths| - 1], path, x);
      DeleteKeepsLeaf(DeleteAll(v, paths[..|paths| - 1]), Split(paths[|paths| - 1]), path, x);
    }
  }

  lemma {:induction false} DeletesKeepNothing(v: Value, paths: seq<string>, path: seq<string>)
    requires Get(v, path) == None
    ensures Get(DeleteAll(v, paths), path) == None
    decreases |paths|
  {
    hide Get, Delete, Split;
    if paths != [] {
      DeletesKeepNothing(v, paths[..|paths| - 1], path);
      DeleteKeepsAbsent(DeleteAll(v, paths[..|paths| - 1]), Split(paths[|paths| - 1]), path);
    }
  }

  // ---- one level down ----

  lemma GetUnder(v: Value, path: seq<string>)
    requires path != []
    ensures Get(v, path) == if v.Obj? && path[0] in v.fields then Get(v.fields[path[0]], path[1..]) else None
  {
  }

  lemma GetHere(v: Value)
    ensures Get(v, []) == Some(v)
  {
  }

  /** The objects on the way below the first key are those of the field. */
  lemma ObjectUnder(s: Value, path: seq<string>, i: nat)
    requires path != [] && s.Obj? && path[0] in s.fields && i < |path|
    ensures ObjectAt(s, path, i + 1) == ObjectAt(s.fields[path[0]], path[1..], i)
    ensures path[i + 1..] == path[1..][i..]
  {
    assert path[..i + 1][0] == path[0] && path[..i + 1][1..] == path[1..][..i];
    GetUnder(s, path[..i + 1]);
  }

  lemma TopIsObject(s: Value, path: seq<string>)
    requires s.Obj?
    ensures ObjectAt(s, path, 0) == Some(s.fields)
  {
    assert path[..0] == [];
  }

  lemma UndeletedUnder(s: Value, path: seq<string>)
    requires s.Obj? && path != []
    ensures Undeleted(s, path) ==> forall d <- Deletes(s.fields) :: !(Split(d) <= path)
    ensures NotBelow(s, path) ==> forall p :: p in Defaults(s.fields) ==> !(path < Split(p))
    ensures NotAbove(s, path) ==> forall p :: p in Defaults(s.fields) ==> !(Split(p) <= path)
    ensures path[0] in s.fields && Undeleted(s, path) ==> Undeleted(s.fields[path[0]], path[1..])
    ensures path[0] in s.fields && NotBelow(s, path) ==> NotBelow(s.fields[path[0]], path[1..])
    ensures path[0] in s.fields && NotAbove(s, path) ==> NotAbove(s.fields[path[0]], path[1..])
  {
    hide ObjectAt, Deletes, Defaults, Split;
    TopIsObject(s, path);
    assert path[0..] == path;
    if path[0] in s.fields {
      forall i: nat | i < |path| - 1
          ensures ObjectAt(s, path, i + 1) == ObjectAt(s.fields[path[0]], path[1..], i)
                  && path[i + 1..] == path[1..][i..] {
        ObjectUnder(s, path, i);
      }
    }
  }

  lemma SilentUnder(s: Value, path: seq<string>)
    requires s.Obj? && path != [] && path[0] in s.fields && Silent(s, path)
    ensures |path| > 1 && s.fields[path[0]].Obj? && Silent(s.fields[path[0]], path[1..])
  {
    hide ObjectAt;
    TopIsObject(s, path);
    var i :| 0 <= i < |path| && ObjectAt(s, path, i).Some? && path[i] !in ObjectAt(s, path, i).value;
    assert i > 0;
    ObjectUnder(s, path, i - 1);
    assert path[i] == path[1..][i - 1];
    ObjectAbove(s.fields[path[0]], path[1..], i - 1);
  }

  lemma ObjectAbove(s: Value, path: seq<string>, i: nat)
    requires i <= |path| && ObjectAt(s, path, i).Some?
    ensures s.Obj?
  {
    if i > 0 { GetUnder(s, path[..i]); }
  }

  /** What the merge of the fields has at the path, before defaults and deletions. */
  lemma FieldLeads(t: Value, s: Value, r: Value, base: Object, order: seq<string>, path: seq<string>)
    requires t.Obj? && s.Obj? && MergedBy(t, s, r, base, order) && path != [] && Ordinary(path)
    ensures path[0] !in base <==> path[0] !in t.fields && path[0] !in s.fields
    ensures path[0] in base ==> MergedField(t, s, path[0], base[path[0]])
  {
    hide MergedField, DeleteAll, DefaultAll;
    assert path[0] in path;
  }

  lemma {:induction false} Finishes(t: Value, s: Value, r: Value, base: Object, order: seq<string>, path: seq<string>,
                                    x: Value)
    requires t.Obj? && s.Obj? && MergedBy(t, s, r, base, order) && path != []
    requires LeafAt(Obj(base), path, x) && Undeleted(s, path) && NotBelow(s, path)
    ensures LeafAt(r, path, x)
  {
    hide LeafAt, MergedField, Undeleted, NotBelow, DeleteAll, DefaultAll, Deletes, Defaults, Split;
    UndeletedUnder(s, path);
    DefaultsKeepLeaf(Obj(base), order, Defaults(s.fields), path, x);
    DeletesKeepLeaf(DefaultAll(Obj(base), order, Defaults(s.fields)), Deletes(s.fields), path, x);
  }

  lemma LeafUnder(v: Value, path: seq<string>, x: Value)
    requires path != [] && v.Obj?
    ensures LeafAt(v, path, x) <==> path[0] in v.fields && LeafAt(v.fields[path[0]], path[1..], x)
  {
  }

  lemma NoLeafBelow(v: Value, x: Value, path: seq<string>)
    requires LeafAt(v, path, x)
    ensures path != [] <==> v.Obj?
  {
  }

  /**
   * The source wins: at every path of ordinary keys where it has a value that is no object, the merged object has that
   * value, unless a deleted path leads to it or a default leads beyond it.
   */
  lemma {:induction false} SourceWins(t: Value, s: Value, r: Value, path: seq<string>, x: Value)
    requires t.Obj? && s.Obj? && Merges(t, s, r) && path != [] && Ordinary(path)
    requires LeafAt(s, path, x) && Undeleted(s, path) && NotBelow(s, path)
    ensures LeafAt(r, path, x)
    decreases |path|
  {
    hide LeafAt, MergedBy, Undeleted, NotBelow, Ordinary;
    var base, order :| MergedBy(t, s, r, base, order);
    var k := path[0];
    FieldLeads(t, s, r, base, order, path);
    LeafUnder(s, path, x);
    LeafUnder(Obj(base), path, x);
    OrdinaryUnder(path);
    if k in t.fields && t.fields[k].Obj? && s.fields[k].Obj? {
      NoLeafBelow(s.fields[k], x, path[1..]);
      UndeletedUnder(s, path);
      SourceWins(t.fields[k], s.fields[k], base[k], path[1..], x);
    }
    Finishes(t, s, r, base, order, path, x);
  }

  lemma OrdinaryUnder(path: seq<string>)
    requires Ordinary(path) && path != []
    ensures path[0] != DELETE && path[0] != DEFAULT && Ordinary(path[1..])
  {
    assert path[0] in path && forall k <- path[1..] :: k in path;
  }

  /** Where the source says nothing, the target's value stays, under the same proviso. */
  lemma {:induction false} TargetStays(t: Value, s: Value, r: Value, path: seq<string>, x: Value)
    requires t.Obj? && s.Obj? && Merges(t, s, r) && path != [] && Ordinary(path)
    requires LeafAt(t, path, x) && Silent(s, path) && Undeleted(s, path) && NotBelow(s, path)
    ensures LeafAt(r, path, x)
    decreases |path|
  {
    hide LeafAt, MergedBy, Undeleted, NotBelow, Ordinary, Silent;
    var base, order :| MergedBy(t, s, r, base, order);
    var k := path[0];
    FieldLeads(t, s, r, base, order, path);
    LeafUnder(t, path, x);
    LeafUnder(Obj(base), path, x);
    OrdinaryUnder(path);
    if k in s.fields {
      SilentUnder(s, path);
      NoLeafBelow(t.fields[k], x, path[1..]);
      UndeletedUnder(s, path);
      TargetStays(t.fields[k], s.fields[k], base[k], path[1..], x);
    }
    Finishes(t, s, r, base, order, path, x);
  }

  /** A first key that the source does not mention is the simplest case of its silence. */
  lemma UnmentionedIsSilent(s: Value, path: seq<string>)
    requires s.Obj? && path != [] && path[0] !in s.fields
    ensures Silent(s, path)
  {
    TopIsObject(s, path);
  }

  /** Nothing comes out of nowhere: a path that neither has, and that no default leads to or through, is absent. */
  lemma {:induction false} NothingNew(t: Value, s: Value, r: Value, path: seq<string>)
    requires t.Obj? && s.Obj? && Merges(t, s, r) && path != [] && Ordinary(path)
    requires Get(t, path) == None && Get(s, path) == None && NotBelow(s, path) && NotAbove(s, path)
    ensures Get(r, path) == None
    decreases |path|
  {
    hide Get, MergedBy, NotBelow, NotAbove, Ordinary;
    var base, order :| MergedBy(t, s, r, base, order);
    var k := path[0];
    FieldLeads(t, s, r, base, order, path);
    GetUnder(t, path);
    GetUnder(s, path);
    GetUnder(Obj(base), path);
    OrdinaryUnder(path);
    UndeletedUnder(s, path);
    if k in t.fields && k in s.fields && t.fields[k].Obj? && s.fields[k].Obj? {
      GetHere(t.fields[k]);
      NothingNew(t.fields[k], s.fields[k], base[k], path[1..]);
    }
    NothingAdded(t, s, r, base, order, path);
  }

  lemma NothingAdded(t: Value, s: Value, r: Value, base: Object, order: seq<string>, path: seq<string>)
    requires t.Obj? && s.Obj? && MergedBy(t, s, r, base, order) && path != []
    requires Get(Obj(base), path) == None && NotBelow(s, path) && NotAbove(s, path)
    ensures Get(r, path) == None
  {
    hide Get, MergedField, NotBelow, NotAbove, DeleteAll, DefaultAll, Deletes, Defaults, Split;
    UndeletedUnder(s, path);
    DefaultsKeepNothing(Obj(base), order, Defaults(s.fields), path);
    DeletesKeepNothing(DefaultAll(Obj(base), order, Defaults(s.fields)), Deletes(s.fields), path);
  }

  /** Before the source's own defaults and deletions nothing is at a path that neither has. */
  lemma FieldsLack(t: Value, s: Value, r: Value, base: Object, order: seq<string>, path: seq<string>)
    requires t.Obj? && s.Obj? && MergedBy(t, s, r, base, order) && path != [] && Ordinary(path)
    requires Get(t, path) == None && Get(s, path) == None
    requires path[0] in s.fields ==> NotBelow(s.fields[path[0]], path[1..]) && NotAbove(s.fields[path[0]], path[1..])
    ensures Get(Obj(base), path) == None
  {
    hide Get, MergedBy, NotBelow, NotAbove, Ordinary;
    var k := path[0];
    FieldLeads(t, s, r, base, order, path);
    GetUnder(t, path);
    GetUnder(s, path);
    GetUnder(Obj(base), path);
    OrdinaryUnder(path);
    if k in t.fields && k in s.fields && t.fields[k].Obj? && s.fields[k].Obj? {
      GetHere(t.fields[k]);
      NothingNew(t.fields[k], s.fields[k], base[k], path[1..]);
    }
  }

  lemma {:induction false} DefaultTaken(v: Value, order: seq<string>, defaults: Object, p: string)
    requires (forall q <- order :: q in defaults) && p in order && Get(v, Split(p)) == None && !defaults[p].Obj?
    requires forall i, j :: 0 <= i < j < |order| ==> order[i] != order[j]
    requires forall q <- order :: !(Split(p) < Split(q)) && (q != p ==> !(Split(q) <= Split(p)))
    ensures LeafAt(DefaultAll(v, order, defaults), Split(p), defaults[p])
    decreases |order|
  {
    hide Get, Set, Split;
    var last, before := order[|order| - 1], order[..|order| - 1];
    assert last in order && forall q <- before :: q in order;
    var w := DefaultAll(v, before, defaults);
    if last == p {
      DefaultsKeepNothing(v, before, defaults, Split(p));
      SetExists(w, Split(p), defaults[p]);
    } else {
      DefaultTaken(v, before, defaults, p);
      if Get(w, Split(last)) == None { SetKeepsLeaf(w, Split(last), defaults[last], Split(p), defaults[p]); }
    }
  }

  /**
   * A default takes effect where neither has a value: the merged object has it, unless a deleted path leads there or
   * another default leads to the path, through it or beyond it.
   */
  lemma DefaultWins(t: Value, s: Value, r: Value, p: string)
    requires t.Obj? && s.Obj? && Merges(t, s, r) && p in Defaults(s.fields) && !Defaults(s.fields)[p].Obj?
    requires var path := Split(p);
             && Ordinary(path) && Get(t, path) == None && Get(s, path) == None
             && (path[0] in s.fields ==>
                   NotBelow(s.fields[path[0]], path[1..]) && NotAbove(s.fields[path[0]], path[1..]))
             && (forall q :: q in Defaults(s.fields) && q != p ==> !(path <= Split(q)) && !(Split(q) <= path))
             && (forall d <- Deletes(s.fields) :: !(Split(d) <= path))
    ensures Get(r, Split(p)) == Some(Defaults(s.fields)[p])
  {
    hide Get, Split, MergedField, NotBelow, NotAbove, Ordinary, Deletes, Defaults, DeleteAll, DefaultAll;
    var base, order :| MergedBy(t, s, r, base, order);
    FieldsLack(t, s, r, base, order, Split(p));
    DefaultTaken(Obj(base), order, Defaults(s.fields), p);
    DeletesKeepLeaf(DefaultAll(Obj(base), order, Defaults(s.fields)), Deletes(s.fields), Split(p),
                    Defaults(s.fields)[p]);
  }

  // ---- what a written path means ----

  function Joined(segments: seq<string>): string
  {
    if segments == [] then "" else if |segments| == 1 then segments[0]
    else Joined(segments[..|segments| - 1]) + "." + segments[|segments| - 1]
  }

  /** A written path is cut at its dots: no segment holds one, and with a dot between them they spell the path. */
  lemma {:induction false} SplitMeans(path: string)
    ensures Joined(Split(path)) == path && forall k <- Split(path) :: '.' !in k
  {
    if path != "" {
      var before, c := path[..|path| - 1], path[|path| - 1];
      SplitMeans(before);
      var head := Split(before);
      assert before + [c] == path;
      if c == '.' {
        assert (head + [""])[..|head|] == head;
      } else {
        var last := head[|head| - 1] + [c];
        assert head[|head| - 1] in head;
        assert head[|head| - 1 := last][..|head| - 1] == head[..|head| - 1];
        forall k | k in head[|head| - 1 := last] ensures '.' !in k {
          assert k == last || k in head;
        }
        JoinedLast(head[..|head| - 1], head[|head| - 1], c);
        assert head == head[..|head| - 1] + [head[|head| - 1]];
        assert head[|head| - 1 := last] == head[..|head| - 1] + [last];
      }
    }
  }

  lemma JoinedLast(init: seq<string>, last: string, c: char)
    ensures Joined(init + [last + [c]]) == Joined(init + [last]) + [c]
  {
    assert (init + [last + [c]])[..|init|] == init && (init + [last])[..|init|] == init;
  }
}
