/**
 * Merging configuration objects (internal/config/merge.go): nested
 * objects are merged, then "$default" and "$delete" paths are applied.
 */
module Merge {
  import opened Wrappers
  import opened Json

  const DELETE: string := "$delete"
  const DEFAULT: string := "$default"

  // ---- paths into a value ----

  /** strings.Split at dots: at least one segment. */
  function Split(path: string): (r: seq<string>)
    ensures r != []
  {
    if path == "" then [""]
    else
      var head := Split(path[..|path| - 1]);
      if path[|path| - 1] == '.' then head + [""]
      else head[|head| - 1 := head[|head| - 1] + [path[|path| - 1]]]
  }

  function FieldsOf(v: Value): Object
  {
    if v.Obj? then v.fields else map[]
  }

  function Get(v: Value, keys: seq<string>): Option<Value>
    decreases |keys|
  {
    if keys == [] then Some(v)
    else if v.Obj? && keys[0] in v.fields then Get(v.fields[keys[0]], keys[1..])
    else None
  }

  /** What is under a key, or nothing. */
  function Child(v: Value, key: string): Value
  {
    if v.Obj? && key in v.fields && v.fields[key].Obj? then v.fields[key] else Obj(map[])
  }

  /** Objects are created on the way, over whatever is there. */
  function Set(v: Value, keys: seq<string>, x: Value): (r: Value)
    requires keys != []
    ensures r.Obj?
    decreases |keys|
  {
    Obj(FieldsOf(v)[keys[0] := if |keys| == 1 then x else Set(Child(v, keys[0]), keys[1..], x)])
  }

  /** Nothing happens unless the way there is all objects. */
  function Delete(v: Value, keys: seq<string>): (r: Value)
    requires keys != []
    ensures v.Obj? ==> r.Obj?
    decreases |keys|
  {
    if !v.Obj? then v
    else if |keys| == 1 then Obj(v.fields - {keys[0]})
    else if keys[0] in v.fields && v.fields[keys[0]].Obj? then
        Obj(v.fields[keys[0] := Delete(v.fields[keys[0]], keys[1..])])
    else v
  }

  lemma {:induction false} SetExists(v: Value, keys: seq<string>, x: Value)
    requires keys != []
    ensures Get(Set(v, keys, x), keys) == Some(x)
    decreases |keys|
  {
    if |keys| == 1 {
      assert keys[1..] == [];
    } else {
      SetExists(Child(v, keys[0]), keys[1..], x);
    }
  }

  /** Setting a path that is not there keeps the paths that are. */
  lemma {:induction false} SetKeeps(v: Value, keys: seq<string>, x: Value, other: seq<string>)
    requires keys != [] && Get(v, keys) == None && Get(v, other).Some?
    ensures Get(Set(v, keys, x), other).Some?
    decreases |keys|
  {
    assert |keys| == 1 ==> keys[1..] == [];
    if other != [] && other[0] == keys[0] && other[1..] != [] && |keys| > 1 && v.fields[keys[0]].Obj? {
      SetKeeps(v.fields[keys[0]], keys[1..], x, other[1..]);
    }
  }

  lemma {:induction false} DeleteAbsent(v: Value, keys: seq<string>)
    requires keys != []
    ensures Get(Delete(v, keys), keys) == None
    decreases |keys|
  {
    if |keys| > 1 && v.Obj? && keys[0] in v.fields {
      DeleteAbsent(v.fields[keys[0]], keys[1..]);
    }
  }

  lemma {:induction false} DeleteKeepsAbsent(v: Value, keys: seq<string>, other: seq<string>)
    requires keys != [] && Get(v, other) == None
    ensures Get(Delete(v, keys), other) == None
    decreases |keys|
  {
    if |keys| > 1 && v.Obj? && keys[0] in v.fields && v.fields[keys[0]].Obj? && other[0] == keys[0] {
      DeleteKeepsAbsent(v.fields[keys[0]], keys[1..], other[1..]);
    }
  }

  /** Deleting a path keeps every path it does not lead to. */
  lemma {:induction false} DeleteKeeps(v: Value, keys: seq<string>, other: seq<string>)
    requires keys != [] && Get(v, other).Some? && !(keys <= other)
    ensures Get(Delete(v, keys), other).Some?
    decreases |keys|
  {
    if |keys| > 1 && other != [] && v.Obj? && keys[0] in v.fields && v.fields[keys[0]].Obj? && other[0] == keys[0] {
      assert keys == [keys[0]] + keys[1..] && other == [other[0]] + other[1..];
      DeleteKeeps(v.fields[keys[0]], keys[1..], other[1..]);
    }
  }

  // ---- what a merge may give ----

  function StringsIn(es: seq<Value>): seq<string>
  {
    if es == [] then [] else StringsIn(es[..|es| - 1]) + (if es[|es| - 1].Str? then [es[|es| - 1].s] else [])
  }

  /** The paths to delete. */
  function Deletes(s: Object): seq<string>
  {
    if DELETE in s && s[DELETE].Arr? then StringsIn(s[DELETE].elements) else []
  }

  function Defaults(s: Object): Object
  {
    if DEFAULT in s && s[DEFAULT].Obj? then s[DEFAULT].fields else map[]
  }

  function DefaultOne(v: Value, path: string, x: Value): Value
  {
    if Get(v, Split(path)).Some? then v else Set(v, Split(path), x)
  }

  /** The defaults in a given order. */
  function DefaultAll(v: Value, order: seq<string>, defaults: Object): Value
    requires forall p <- order :: p in defaults
    decreases |order|
  {
    if order == [] then v
    else
      assert order[|order| - 1] in defaults;
      DefaultOne(DefaultAll(v, order[..|order| - 1], defaults), order[|order| - 1], defaults[order[|order| - 1]])
  }

  function DeleteAll(v: Value, paths: seq<string>): Value
    decreases |paths|
  {
    if paths == [] then v else Delete(DeleteAll(v, paths[..|paths| - 1]), Split(paths[|paths| - 1]))
  }

  ghost predicate Lists(order: seq<string>, m: Object)
  {
    && (forall i, j :: 0 <= i < j < |order| ==> order[i] != order[j])
    && (forall p :: p in order <==> p in m)
  }

  /** The field under a key after the regular merge. */
  ghost predicate MergedField(t: Value, s: Value, key: string, x: Value)
    requires t.Obj? && s.Obj?
    decreases s, 0
  {
    if key !in s.fields || key == DELETE || key == DEFAULT then key in t.fields && x == t.fields[key]
    else if key in t.fields && t.fields[key].Obj? && s.fields[key].Obj? then Merges(t.fields[key], s.fields[key], x)
    else x == s.fields[key]
  }

  ghost predicate MergedBy(t: Value, s: Value, r: Value, base: Object, order: seq<string>)
    requires t.Obj? && s.Obj?
    decreases s, 1
  {
    && base.Keys == t.fields.Keys + (s.fields.Keys - {DELETE, DEFAULT})
    && (forall key :: key in base ==> MergedField(t, s, key, base[key]))
    && Lists(order, Defaults(s.fields))
    && r == DeleteAll(DefaultAll(Obj(base), order, Defaults(s.fields)), Deletes(s.fields))
  }

  /** r is a merge of s into t, for one of the orders the defaults can be visited in. */
  ghost predicate Merges(t: Value, s: Value, r: Value)
    requires t.Obj? && s.Obj?
    decreases s, 2
  {
    exists base, order :: MergedBy(t, s, r, base, order)
  }

  // ---- what holds of every merge ----

  lemma {:induction false} DeleteAllAbsent(v: Value, paths: seq<string>, path: string)
    ensures path in paths ==> Get(DeleteAll(v, paths), Split(path)) == None
    decreases |paths|
  {
    hide Get, Delete, Split;
    if paths != [] {
      var paths', last := paths[..|paths| - 1], paths[|paths| - 1];
      DeleteAllAbsent(v, paths', path);
      var w := DeleteAll(v, paths');
      DeleteAbsent(w, Split(last));
      assert paths == paths' + [last];
      if path in paths' {
        DeleteKeepsAbsent(w, Split(last), Split(path));
      }
    }
  }

  lemma {:induction false} DeleteAllKeeps(v: Value, paths: seq<string>, keys: seq<string>)
    requires Get(v, keys).Some? && forall p <- paths :: !(Split(p) <= keys)
    ensures Get(DeleteAll(v, paths), keys).Some?
    decreases |paths|
  {
    hide Get, Delete, Split;
    if paths != [] {
      assert paths[|paths| - 1] in paths;
      DeleteAllKeeps(v, paths[..|paths| - 1], keys);
      DeleteKeeps(DeleteAll(v, paths[..|paths| - 1]), Split(paths[|paths| - 1]), keys);
    }
  }

  lemma {:induction false} DefaultAllExists(v: Value, order: seq<string>, defaults: Object, path: string)
    requires (forall p <- order :: p in defaults) && path in order
    ensures Get(DefaultAll(v, order, defaults), Split(path)).Some?
    decreases |order|
  {
    hide Get, Set, Split;
    var order', last := order[..|order| - 1], order[|order| - 1];
    assert order == order' + [last];
    var w := DefaultAll(v, order', defaults);
    if path in order' {
      DefaultAllExists(v, order', defaults, path);
      if Get(w, Split(last)) == None {
        SetKeeps(w, Split(last), defaults[last], Split(path));
      }
    } else {
      assert path == last;
      SetExists(w, Split(last), defaults[last]);
    }
  }

  /**
   * Whatever the order: no deleted path is left, and every default path is there unless a deleted path leads
   * to it.
   */
  lemma MergeApplies(t: Value, s: Value, r: Value)
    requires t.Obj? && s.Obj? && Merges(t, s, r)
    ensures forall d <- Deletes(s.fields) :: Get(r, Split(d)) == None
    ensures forall p :: p in Defaults(s.fields) ==>
            Get(r, Split(p)).Some?
            || exists d <- Deletes(s.fields) :: Split(d) <= Split(p)
  {
    hide Get, Split, DeleteAll, DefaultAll, Deletes, Defaults, MergedField;
    var base, order :| MergedBy(t, s, r, base, order);
    var v, paths := DefaultAll(Obj(base), order, Defaults(s.fields)), Deletes(s.fields);
    forall d | d in paths ensures Get(r, Split(d)) == None {
      DeleteAllAbsent(v, paths, d);
    }
    forall p | p in Defaults(s.fields) ensures Get(r, Split(p)).Some? || exists d <- paths :: Split(d) <= Split(p) {
      DefaultAllExists(Obj(base), order, Defaults(s.fields), p);
      if !exists d <- paths :: Split(d) <= Split(p) {
        DeleteAllKeeps(v, paths, Split(p));
      }
    }
  }

  // ---- objects on the heap ----

  class Node {
    var fields: map<string, Slot>

    constructor (fields: map<string, Slot>)
      ensures this.fields == fields
    {
      this.fields := fields;
    }
  }

  /** A field: an object, or a value nothing here looks into. */
  datatype Slot = Leaf(value: Value) | Ref(node: Node)

  /** The slot holds the value, by way of the nodes in `nodes`. */
  ghost predicate Holds(slot: Slot, v: Value, nodes: set<Node>)
    reads nodes
    decreases v
  {
    match slot
    case Leaf(x) => x == v && !v.Obj?
    case Ref(n) => v.Obj? && n in nodes && n.fields.Keys == v.fields.Keys && forall k :: k in v.fields ==>
        Holds(n.fields[k], v.fields[k], nodes)
  }

  /** A node that is not among `nodes`, with fields that are. */
  ghost predicate Root(n: Node, v: Value, nodes: set<Node>)
    reads n, nodes
  {
    n !in nodes && v.Obj? && n.fields.Keys == v.fields.Keys && forall k :: k in v.fields ==>
        Holds(n.fields[k], v.fields[k], nodes)
  }

  lemma {:induction false} HoldsMore(slot: Slot, v: Value, nodes: set<Node>, more: set<Node>)
    requires Holds(slot, v, nodes) && nodes <= more
    ensures Holds(slot, v, more)
    decreases v
  {
    if slot.Ref? {
      forall k | k in v.fields ensures Holds(slot.node.fields[k], v.fields[k], more) {
        HoldsMore(slot.node.fields[k], v.fields[k], nodes, more);
      }
    }
  }

  /** A root becomes one of the nodes. */
  lemma RootHolds(n: Node, v: Value, nodes: set<Node>, more: set<Node>)
    requires Root(n, v, nodes) && nodes + {n} <= more
    ensures Holds(Ref(n), v, more)
  {
    forall k | k in v.fields ensures Holds(n.fields[k], v.fields[k], more) {
      HoldsMore(n.fields[k], v.fields[k], nodes, more);
    }
  }

  lemma RootMore(n: Node, v: Value, nodes: set<Node>, more: set<Node>)
    requires Root(n, v, nodes) && nodes <= more && n !in more
    ensures Root(n, v, more)
  {
    forall k | k in v.fields ensures Holds(n.fields[k], v.fields[k], more) {
      HoldsMore(n.fields[k], v.fields[k], nodes, more);
    }
  }

  /** The value at a path is looked up node by node. */
  method PathGet(obj: Node, keys: seq<string>, ghost v: Value, ghost nodes: set<Node>) returns (exists_: bool)
    requires Root(obj, v, nodes) && keys != []
    ensures exists_ == Get(v, keys).Some?
  {
    var cur := Ref(obj);
    ghost var at := v;
    var i := 0;
    assert keys[0..] == keys;
    RootHolds(obj, v, nodes, nodes + {obj});
    while i < |keys|
      invariant 0 <= i <= |keys| && Holds(cur, at, nodes + {obj})
      invariant Get(v, keys) == Get(at, keys[i..])
    {
      if cur.Leaf? || keys[i] !in cur.node.fields {
        return false;
      }
      assert keys[i..][1..] == keys[i + 1..] && keys[i..][0] == keys[i];
      at := at.fields[keys[i]];
      cur := cur.node.fields[keys[i]];
      i := i + 1;
    }
    exists_ := true;
  }

  // ---- writing along a path, on copies ----

  /** The nodes from the root down a path: each but the last refers to the next, and holds the rest of its value. */
  ghost predicate Chain(owned: seq<Node>, vs: seq<Value>, keys: seq<string>, nodes: set<Node>)
    reads owned, nodes
  {
    && |owned| == |vs| >= 1 && |owned| <= |keys| + 1
    && (forall i, j :: 0 <= i < j < |owned| ==> owned[i] != owned[j])
    && (forall j :: 0 <= j < |owned| ==> owned[j] !in nodes && vs[j].Obj?)
    && forall j :: 0 <= j < |owned| - 1 ==> Link(owned[j], vs[j], keys[j], owned[j + 1], nodes)
  }

  ghost predicate Link(n: Node, v: Value, key: string, next: Node, nodes: set<Node>)
    requires v.Obj?
    reads n, nodes
  {
    && n.fields.Keys == v.fields.Keys + {key} && n.fields[key] == Ref(next)
    && forall k :: k in v.fields && k != key ==> Holds(n.fields[k], v.fields[k], nodes)
  }

  /** The value of the root once the last node holds w. */
  function Plug(vs: seq<Value>, keys: seq<string>, w: Value): Value
    requires 1 <= |vs| <= |keys| + 1
    decreases |vs|
  {
    if |vs| == 1 then w else Obj(FieldsOf(vs[0])[keys[0] := Plug(vs[1..], keys[1..], w)])
  }

  function SetOf(owned: seq<Node>): set<Node>
  {
    set n | n in owned
  }

  lemma {:induction false} Ascend(owned: seq<Node>, vs: seq<Value>, keys: seq<string>, nodes: set<Node>, w: Value)
    requires Chain(owned, vs, keys, nodes) && Root(owned[|owned| - 1], w, nodes)
    ensures Root(owned[0], Plug(vs, keys, w), nodes + SetOf(owned[1..]))
    decreases |owned|
  {
    if |owned| > 1 {
      var rest := owned[1..];
      assert forall j :: 0 <= j < |rest| ==> rest[j] == owned[j + 1];
      forall j | 0 <= j < |rest| - 1 ensures Link(rest[j], vs[1..][j], keys[1..][j], rest[j + 1], nodes) {
        assert Link(owned[j + 1], vs[j + 1], keys[j + 1], owned[j + 2], nodes);
      }
      Ascend(rest, vs[1..], keys[1..], nodes, w);
      AscendOne(owned, vs[0], keys[0], nodes, Plug(vs[1..], keys[1..], w));
    } else {
      assert nodes + SetOf(owned[1..]) == nodes;
    }
  }

  lemma AscendOne(owned: seq<Node>, v: Value, key: string, nodes: set<Node>, w: Value)
    requires |owned| > 1 && v.Obj? && Link(owned[0], v, key, owned[1], nodes) && owned[0] !in nodes
    requires forall i, j :: 0 <= i < j < |owned| ==> owned[i] != owned[j]
    requires Root(owned[1], w, nodes + SetOf(owned[1..][1..]))
    ensures Root(owned[0], Obj(v.fields[key := w]), nodes + SetOf(owned[1..]))
  {
    var all := nodes + SetOf(owned[1..]);
    assert owned[1] in owned[1..];
    assert forall n :: n in owned[1..][1..] ==> n in owned[1..];
    RootHolds(owned[1], w, nodes + SetOf(owned[1..][1..]), all);
    forall k | k in v.fields && k != key ensures Holds(owned[0].fields[k], v.fields[k], all) {
      HoldsMore(owned[0].fields[k], v.fields[k], nodes, all);
    }
    assert owned[0] !in SetOf(owned[1..]);
  }

  /** The values from v down a path, creating objects on the way. */
  ghost predicate Descends(vs: seq<Value>, keys: seq<string>, v: Value)
  {
    && 1 <= |vs| <= |keys| + 1 && vs[0] == v
    && forall j :: 0 <= j < |vs| - 1 ==> vs[j + 1] == Child(vs[j], keys[j])
  }

  lemma {:induction false} PlugSets(vs: seq<Value>, keys: seq<string>, v: Value, x: Value)
    requires Descends(vs, keys, v) && |vs| == |keys|
    ensures Plug(vs, keys, Obj(FieldsOf(vs[|vs| - 1])[keys[|keys| - 1] := x])) == Set(v, keys, x)
    decreases |vs|
  {
    if |vs| > 1 {
      PlugSets(vs[1..], keys[1..], Child(v, keys[0]), x);
    }
  }

  /** The way so far is all objects. */
  predicate Solid(vs: seq<Value>, keys: seq<string>)
  {
    |vs| <= |keys| + 1 && forall j :: 0 <= j < |vs| - 1 ==> keys[j] in FieldsOf(vs[j]) && FieldsOf(vs[j])[keys[j]].Obj?
  }

  /** Deleting below objects that are all there. */
  lemma {:induction false} PlugDeletes(vs: seq<Value>, keys: seq<string>, v: Value)
    requires Descends(vs, keys, v) && |vs| == |keys| && v.Obj?
    requires Solid(vs, keys)
    ensures Plug(vs, keys, Obj(FieldsOf(vs[|vs| - 1]) - {keys[|keys| - 1]})) == Delete(v, keys)
    decreases |vs|
  {
    if |vs| > 1 {
      PlugDeletes(vs[1..], keys[1..], Child(v, keys[0]));
    }
  }

  /** The way to the path breaks off: the copies made so far change nothing, and neither does deleting. */
  lemma {:induction false} PlugSame(vs: seq<Value>, keys: seq<string>, v: Value)
    requires Descends(vs, keys, v) && |vs| < |keys| && v.Obj?
    requires Solid(vs, keys)
    requires var w := vs[|vs| - 1]; w.Obj? && !(keys[|vs| - 1] in w.fields && w.fields[keys[|vs| - 1]].Obj?)
    ensures Plug(vs, keys, vs[|vs| - 1]) == v == Delete(v, keys)
    decreases |vs|
  {
    if |vs| > 1 {
      PlugSame(vs[1..], keys[1..], Child(v, keys[0]));
      assert v.fields[keys[0] := v.fields[keys[0]]] == v.fields;
    }
  }

  /** One node further down: the copy takes the place of what was there. */
  lemma ChainNext(owned: seq<Node>, vs: seq<Value>, keys: seq<string>, nodes: set<Node>, m: Node)
    requires |owned| == |vs| >= 1 && |owned| <= |keys| && m !in nodes && m !in owned
    requires (forall i, j :: 0 <= i < j < |owned| ==> owned[i] != owned[j])
    requires forall j :: 0 <= j < |owned| ==> owned[j] !in nodes && vs[j].Obj?
    requires forall j :: 0 <= j < |owned| - 1 ==> Link(owned[j], vs[j], keys[j], owned[j + 1], nodes)
    requires Link(owned[|owned| - 1], vs[|owned| - 1], keys[|owned| - 1], m, nodes)
    ensures Chain(owned + [m], vs + [Child(vs[|vs| - 1], keys[|vs| - 1])], keys, nodes)
  {
    var os, ws := owned + [m], vs + [Child(vs[|vs| - 1], keys[|vs| - 1])];
    forall j | 0 <= j < |os| - 1 ensures Link(os[j], ws[j], keys[j], os[j + 1], nodes) {
      if j < |owned| - 1 {
        assert Link(owned[j], vs[j], keys[j], owned[j + 1], nodes);
      }
    }
  }

  /** A copy of the object under a key, or a new one, goes under that key. */
  method CloneChild(cur: Node, key: string, ghost v: Value, ghost nodes: set<Node>) returns (m: Node)
    requires Root(cur, v, nodes)
    modifies cur
    ensures fresh(m) && Root(m, Child(v, key), nodes) && Link(cur, v, key, m, nodes)
  {
    var copied: map<string, Slot> := map[];
    if key in cur.fields && cur.fields[key].Ref? {
      assert Holds(cur.fields[key], v.fields[key], nodes);
      copied := cur.fields[key].node.fields;
    } else if key in cur.fields {
      assert Holds(cur.fields[key], v.fields[key], nodes);
    }
    m := new Node(copied);
    cur.fields := cur.fields[key := Ref(m)];
  }

  /** One step down the path, onto a copy. */
  method StepDown(cur: Node, keys: seq<string>, i: nat, ghost owned: seq<Node>, ghost vs: seq<Value>,
                  ghost nodes: set<Node>) returns (m: Node)
    requires Chain(owned, vs, keys, nodes) && |owned| == i + 1 && i < |keys| && cur == owned[i]
             && Root(cur, vs[i], nodes)
    modifies cur
    ensures fresh(m) && Chain(owned + [m], vs + [Child(vs[i], keys[i])], keys, nodes)
            && Root(m, Child(vs[i], keys[i]), nodes)
  {
    hide Holds, Link, Child;
    m := CloneChild(cur, keys[i], vs[i], nodes);
    assert forall j :: 0 <= j < i ==> owned[j] != cur && Link(owned[j], vs[j], keys[j], owned[j + 1], nodes);
    ChainNext(owned, vs, keys, nodes, m);
  }

  /** New fields for the last node of a chain: the root then holds the value with w in its place. */
  method PutLast(cur: Node, fields: map<string, Slot>, ghost w: Value, keys: seq<string>, ghost owned: seq<Node>,
                 ghost vs: seq<Value>, ghost nodes: set<Node>)
    requires Chain(owned, vs, keys, nodes) && cur == owned[|owned| - 1] && w.Obj? && fields.Keys == w.fields.Keys
    requires forall k :: k in w.fields ==> Holds(fields[k], w.fields[k], nodes)
    modifies cur
    ensures Root(owned[0], Plug(vs, keys, w), nodes + SetOf(owned[1..]))
  {
    hide Holds, Link, Plug;
    cur.fields := fields;
    assert forall j :: 0 <= j < |owned| - 1 ==> owned[j] != cur && Link(owned[j], vs[j], keys[j], owned[j + 1], nodes);
    Ascend(owned, vs, keys, nodes, w);
  }

  /** Set the value at a path of an owned object; whatever it shares with others is copied before it is written. */
  method PathSet(obj: Node, keys: seq<string>, x: Slot, ghost v: Value, ghost xv: Value, ghost nodes: set<Node>)
      returns (ghost more: set<Node>)
    requires Root(obj, v, nodes) && Holds(x, xv, nodes) && keys != []
    modifies obj
    ensures nodes <= more && fresh(more - nodes) && Root(obj, Set(v, keys, xv), more)
  {
    hide Get, Set, Delete, Plug, Holds, Link, Child;
    var cur, i := obj, 0;
    ghost var owned, vs := [obj], [v];
    while i < |keys| - 1
      invariant 0 <= i < |keys| && |owned| == i + 1 && owned[0] == obj && cur == owned[i]
      invariant forall j :: 1 <= j < |owned| ==> fresh(owned[j])
      invariant Chain(owned, vs, keys, nodes) && Descends(vs, keys, v) && Root(cur, vs[i], nodes)
      invariant Holds(x, xv, nodes)
    {
      var m := StepDown(cur, keys, i, owned, vs, nodes);
      owned, vs := owned + [m], vs + [Child(vs[i], keys[i])];
      cur := m;
      i := i + 1;
    }
    PutLast(cur, cur.fields[keys[i] := x], Obj(FieldsOf(vs[i])[keys[i] := xv]), keys, owned, vs, nodes);
    PlugSets(vs, keys, v, xv);
    more := nodes + SetOf(owned[1..]);
    assert forall n :: n in owned[1..] ==> fresh(n);
  }

  /** Remove the value at a path of an owned object, if the way there is all objects. */
  method PathDelete(obj: Node, keys: seq<string>, ghost v: Value, ghost nodes: set<Node>)
      returns (ghost more: set<Node>)
    requires Root(obj, v, nodes) && keys != []
    modifies obj
    ensures nodes <= more && fresh(more - nodes) && Root(obj, Delete(v, keys), more)
  {
    hide Get, Set, Delete, Plug, Holds, Link, Child, Solid;
    var cur, i := obj, 0;
    ghost var owned, vs := [obj], [v];
    SolidStart(v, keys);
    while i < |keys| - 1
      invariant 0 <= i < |keys| && |owned| == i + 1 && owned[0] == obj && cur == owned[i]
      invariant forall j :: 1 <= j < |owned| ==> fresh(owned[j])
      invariant Chain(owned, vs, keys, nodes) && Descends(vs, keys, v) && Root(cur, vs[i], nodes)
      invariant Solid(vs, keys)
    {
      if keys[i] !in cur.fields || cur.fields[keys[i]].Leaf? {
        NoObjectThere(cur, keys[i], vs[i], nodes);
        BreaksOff(owned, vs, keys, nodes, v);
        more := nodes + SetOf(owned[1..]);
        assert forall n :: n in owned[1..] ==> fresh(n);
        return;
      }
      ObjectThere(cur, keys[i], vs[i], nodes);
      SolidNext(vs, keys);
      var m := StepDown(cur, keys, i, owned, vs, nodes);
      owned, vs := owned + [m], vs + [Child(vs[i], keys[i])];
      cur := m;
      i := i + 1;
    }
    PutLast(cur, cur.fields - {keys[i]}, Obj(FieldsOf(vs[i]) - {keys[i]}), keys, owned, vs, nodes);
    PlugDeletes(vs, keys, v);
    more := nodes + SetOf(owned[1..]);
    assert forall n :: n in owned[1..] ==> fresh(n);
  }

  lemma NoObjectThere(n: Node, key: string, v: Value, nodes: set<Node>)
    requires Root(n, v, nodes) && (key !in n.fields || n.fields[key].Leaf?)
    ensures !(key in v.fields && v.fields[key].Obj?)
  {
    if key in v.fields {
      assert Holds(n.fields[key], v.fields[key], nodes);
    }
  }

  lemma ObjectThere(n: Node, key: string, v: Value, nodes: set<Node>)
    requires Root(n, v, nodes) && key in n.fields && n.fields[key].Ref?
    ensures key in v.fields && v.fields[key].Obj?
  {
    assert Holds(n.fields[key], v.fields[key], nodes);
  }

  lemma SolidStart(v: Value, keys: seq<string>)
    ensures Solid([v], keys)
  {
  }

  lemma SolidNext(vs: seq<Value>, keys: seq<string>)
    requires Solid(vs, keys) && 1 <= |vs| <= |keys| && keys[|vs| - 1] in FieldsOf(vs[|vs| - 1])
             && FieldsOf(vs[|vs| - 1])[keys[|vs| - 1]].Obj?
    ensures forall x :: Solid(vs + [x], keys)
  {
  }

  lemma BreaksOff(owned: seq<Node>, vs: seq<Value>, keys: seq<string>, nodes: set<Node>, v: Value)
    requires Chain(owned, vs, keys, nodes) && Descends(vs, keys, v) && v.Obj? && Solid(vs, keys) && |vs| < |keys|
    requires var w := vs[|vs| - 1];
             Root(owned[|owned| - 1], w, nodes) && !(keys[|vs| - 1] in w.fields && w.fields[keys[|vs| - 1]].Obj?)
    ensures Root(owned[0], Delete(v, keys), nodes + SetOf(owned[1..]))
  {
    hide Holds, Link, Plug, Delete;
    Ascend(owned, vs, keys, nodes, vs[|vs| - 1]);
    PlugSame(vs, keys, v);
  }

  // ---- the merge ----

  /** Each slot of a map holds the value under the same key. */
  ghost predicate AllHold(slots: map<string, Slot>, values: Object, nodes: set<Node>)
    reads nodes
  {
    slots.Keys == values.Keys && forall k :: k in values ==> Holds(slots[k], values[k], nodes)
  }

  lemma AllHoldMore(slots: map<string, Slot>, values: Object, nodes: set<Node>, more: set<Node>)
    requires AllHold(slots, values, nodes) && nodes <= more
    ensures AllHold(slots, values, more)
  {
    forall k | k in values ensures Holds(slots[k], values[k], more) {
      HoldsMore(slots[k], values[k], nodes, more);
    }
  }

  /** The strings of a "$delete" list. */
  method DeletePaths(src: Node, ghost sv: Value, ghost nodes: set<Node>) returns (paths: seq<string>)
    requires AllHold(src.fields, FieldsOf(sv), nodes)
    ensures paths == Deletes(FieldsOf(sv))
  {
    paths := [];
    if DELETE in src.fields {
      assert Holds(src.fields[DELETE], FieldsOf(sv)[DELETE], nodes);
      if src.fields[DELETE].Leaf? && src.fields[DELETE].value.Arr? {
        var es := src.fields[DELETE].value.elements;
        for i := 0 to |es|
          invariant paths == StringsIn(es[..i])
        {
          assert es[..i + 1][..i] == es[..i];
          if es[i].Str? {
            paths := paths + [es[i].s];
          }
        }
        assert es[..|es|] == es;
      }
    }
  }

  method DefaultsOf(src: Node, ghost sv: Value, ghost nodes: set<Node>) returns (defaults: map<string, Slot>)
    requires AllHold(src.fields, FieldsOf(sv), nodes)
    ensures AllHold(defaults, Defaults(FieldsOf(sv)), nodes)
  {
    defaults := map[];
    if DEFAULT in src.fields {
      assert Holds(src.fields[DEFAULT], FieldsOf(sv)[DEFAULT], nodes);
      if src.fields[DEFAULT].Ref? {
        defaults := src.fields[DEFAULT].node.fields;
      }
    }
  }

  /** What the regular merge has made of the fields whose keys are done. */
  ghost predicate PartlyMerged(t: Value, s: Value, done: set<string>, base: Object)
    requires t.Obj? && s.Obj?
  {
    && done <= s.fields.Keys - {DELETE, DEFAULT} && base.Keys == t.fields.Keys + done
    && forall key :: key in base ==>
         if key in done then MergedField(t, s, key, base[key]) else key in t.fields && base[key] == t.fields[key]
  }

  /** The regular merge, field by field in any order. */
  method MergeFields(result: Node, src: Node, ghost tv: Value, ghost sv: Value, ghost nodes: set<Node>)
      returns (ghost base: Object, ghost more: set<Node>)
    requires Root(result, tv, nodes) && sv.Obj? && src in nodes && AllHold(src.fields, sv.fields, nodes)
    modifies result
    ensures nodes <= more && fresh(more - nodes) && Root(result, Obj(base), more)
    ensures PartlyMerged(tv, sv, sv.fields.Keys - {DELETE, DEFAULT}, base)
    decreases sv, 0
  {
    hide Holds, MergedField, PartlyMerged;
    NothingMerged(tv, sv);
    var remaining := src.fields.Keys - {DELETE, DEFAULT};
    ghost var done: set<string> := {};
    base, more := tv.fields, nodes;
    while remaining != {}
      invariant remaining + done == sv.fields.Keys - {DELETE, DEFAULT} && remaining !! done
      invariant nodes <= more && fresh(more - nodes) && Root(result, Obj(base), more)
                && AllHold(src.fields, sv.fields, more)
      invariant PartlyMerged(tv, sv, done, base)
      decreases remaining
    {
      var key :| key in remaining;
      var slot;
      ghost var x;
      slot, x, more := MergeField(result, src, key, tv, sv, base, done, more);
      PartlyNext(tv, sv, done, base, key, x);
      result.fields := result.fields[key := slot];
      base := base[key := x];
      done := done + {key};
      remaining := remaining - {key};
    }
    assert done == sv.fields.Keys - {DELETE, DEFAULT};
  }

  lemma NothingMerged(t: Value, s: Value)
    requires t.Obj? && s.Obj?
    ensures PartlyMerged(t, s, {}, t.fields)
  {
    hide MergedField;
  }

  lemma PartlyNext(t: Value, s: Value, done: set<string>, base: Object, key: string, x: Value)
    requires t.Obj? && s.Obj? && PartlyMerged(t, s, done, base) && key in s.fields && key != DELETE && key != DEFAULT
    requires MergedField(t, s, key, x)
    ensures PartlyMerged(t, s, done + {key}, base[key := x])
  {
    hide MergedField;
  }

  /** One field: two objects are merged, anything else is taken from the source. */
  method MergeField(result: Node, src: Node, key: string, ghost tv: Value, ghost sv: Value, ghost base: Object,
                    ghost done: set<string>, ghost nodes: set<Node>)
      returns (slot: Slot, ghost x: Value, ghost more: set<Node>)
    requires Root(result, Obj(base), nodes) && tv.Obj? && sv.Obj? && AllHold(src.fields, sv.fields, nodes)
    requires PartlyMerged(tv, sv, done, base) && key in sv.fields && key !in done && key != DELETE && key != DEFAULT
    ensures nodes <= more && fresh(more - nodes) && Root(result, Obj(base), more)
            && AllHold(src.fields, sv.fields, more)
    ensures Holds(slot, x, more) && MergedField(tv, sv, key, x)
    decreases sv, 0, key
  {
    slot, x, more := src.fields[key], sv.fields[key], nodes;
    assert Holds(slot, x, nodes);
    if key in result.fields && result.fields[key].Ref? && slot.Ref? {
      assert Holds(result.fields[key], base[key], nodes);
      assert base[key] == tv.fields[key];
      var sub;
      sub, x, more := DeepMerge(result.fields[key].node, slot.node, tv.fields[key], sv.fields[key], nodes);
      ghost var all := more + {sub};
      RootHolds(sub, x, more, all);
      RootMore(result, Obj(base), nodes, all);
      AllHoldMore(src.fields, sv.fields, nodes, all);
      slot, more := Ref(sub), all;
    } else {
      assert key in base ==> Holds(result.fields[key], base[key], nodes);
    }
  }

  /** The defaults, in any order: a path that is there is left alone. */
  method ApplyDefaults(result: Node, defaults: map<string, Slot>, ghost base: Value, ghost values: Object,
                       ghost nodes: set<Node>)
      returns (ghost order: seq<string>, ghost more: set<Node>)
    requires Root(result, base, nodes) && AllHold(defaults, values, nodes)
    modifies result
    ensures Lists(order, values)
    ensures nodes <= more && fresh(more - nodes) && Root(result, DefaultAll(base, order, values), more)
  {
    hide Holds, Set, Get, Split;
    var remaining := defaults.Keys;
    order, more := [], nodes;
    ghost var v := base;
    while remaining != {}
      invariant remaining <= defaults.Keys && forall p :: p in order <==> p in values && p !in remaining
      invariant forall i, j :: 0 <= i < j < |order| ==> order[i] != order[j]
      invariant v == DefaultAll(base, order, values)
      invariant nodes <= more && fresh(more - nodes) && Root(result, v, more) && AllHold(defaults, values, more)
      decreases remaining
    {
      var path :| path in remaining;
      assert path in values;
      var found := PathGet(result, Split(path), v, more);
      if !found {
        ghost var before := more;
        more := PathSet(result, Split(path), defaults[path], v, values[path], more);
        AllHoldMore(defaults, values, before, more);
        v := Set(v, Split(path), values[path]);
      }
      DefaultSnoc(base, order, values, path);
      order := order + [path];
      remaining := remaining - {path};
    }
  }

  lemma DefaultSnoc(v: Value, order: seq<string>, defaults: Object, path: string)
    requires (forall p <- order :: p in defaults) && path in defaults
    ensures forall p <- order + [path] :: p in defaults
    ensures DefaultAll(v, order + [path], defaults) == DefaultOne(DefaultAll(v, order, defaults), path, defaults[path])
  {
    assert (order + [path])[..|order|] == order;
  }

  method ApplyDeletes(result: Node, paths: seq<string>, ghost v: Value, ghost nodes: set<Node>)
      returns (ghost more: set<Node>)
    requires Root(result, v, nodes)
    modifies result
    ensures nodes <= more && fresh(more - nodes) && Root(result, DeleteAll(v, paths), more)
  {
    hide Holds, Delete, Split;
    more := nodes;
    var i := 0;
    while i < |paths|
      invariant 0 <= i <= |paths|
      invariant nodes <= more && fresh(more - nodes) && Root(result, DeleteAll(v, paths[..i]), more)
    {
      assert paths[..i + 1][..i] == paths[..i];
      more := PathDelete(result, Split(paths[i]), DeleteAll(v, paths[..i]), more);
      i := i + 1;
    }
    assert paths[..i] == paths;
  }

  /**
   * Merge src into a copy of target. Nothing that exists before the call is written to; the result is a merge
   * of the two values, whatever order the fields and the defaults are visited in.
   */
  method DeepMerge(target: Node, src: Node, ghost tv: Value, ghost sv: Value, ghost nodes: set<Node>)
      returns (result: Node, ghost rv: Value, ghost more: set<Node>)
    requires Holds(Ref(target), tv, nodes) && Holds(Ref(src), sv, nodes)
    ensures fresh(result) && nodes <= more && fresh(more - nodes) && Root(result, rv, more)
    ensures Merges(tv, sv, rv)
    decreases sv, 1
  {
    hide Holds, MergedField, MergedBy, Merges, AllHold, PartlyMerged, DeleteAll, DefaultAll, Deletes, Defaults, Root;
    Fields(target, tv, nodes);
    Fields(src, sv, nodes);
    var deletePaths := DeletePaths(src, sv, nodes);
    var defaults := DefaultsOf(src, sv, nodes);
    result := new Node(target.fields);
    NewRoot(result, tv, nodes);
    ghost var base, order, m1, m2;
    base, m1 := MergeFields(result, src, tv, sv, nodes);
    AllHoldMore(defaults, Defaults(sv.fields), nodes, m1);
    order, m2 := ApplyDefaults(result, defaults, Obj(base), Defaults(sv.fields), m1);
    more := ApplyDeletes(result, deletePaths, DefaultAll(Obj(base), order, Defaults(sv.fields)), m2);
    rv := DeleteAll(DefaultAll(Obj(base), order, Defaults(sv.fields)), Deletes(sv.fields));
    MergeIs(tv, sv, base, order);
  }

  lemma NewRoot(n: Node, v: Value, nodes: set<Node>)
    requires v.Obj? && n !in nodes && AllHold(n.fields, v.fields, nodes)
    ensures Root(n, v, nodes)
  {
    hide Holds;
  }

  lemma MergeIs(t: Value, s: Value, base: Object, order: seq<string>)
    requires t.Obj? && s.Obj? && PartlyMerged(t, s, s.fields.Keys - {DELETE, DEFAULT}, base)
             && Lists(order, Defaults(s.fields))
    ensures Merges(t, s, DeleteAll(DefaultAll(Obj(base), order, Defaults(s.fields)), Deletes(s.fields)))
  {
    hide DeleteAll, DefaultAll, Deletes, Defaults;
    var r := DeleteAll(DefaultAll(Obj(base), order, Defaults(s.fields)), Deletes(s.fields));
    forall key | key in base ensures MergedField(t, s, key, base[key]) {
    }
    assert MergedBy(t, s, r, base, order);
  }

  lemma Fields(n: Node, v: Value, nodes: set<Node>)
    requires Holds(Ref(n), v, nodes)
    ensures n in nodes && v.Obj? && AllHold(n.fields, v.fields, nodes)
  {
  }
}
