/** Filling a user's payload with default values, recursively and in place (utils/utils.go). */
module MergeMaps {

  /** A Go `map[string]interface{}`: a reference to entries that can change. */
  class MapRef {
    var entries: map<string, Value>

    constructor ()
      ensures entries == map[]
    {
      entries := map[];
    }
  }

  datatype Value = Null | Scalar(text: string) | Nested(ref: MapRef)

  /** What a value looks like with everything below it, references included. */
  datatype Tree = Nil | Leaf(text: string) | Node(ref: MapRef, kids: map<string, Tree>)

  // ---- Merging, on trees ----

  /** The merge gets through key `k`: the default is not nil, and if the user has a value there that
      is not a map, the default is not a map with entries (writing them would hit a nil map). */
  predicate KeyFits(u: Tree, d: Tree, k: string)
    requires u.Node? && d.Node? && k in d.kids
    decreases d, 0
  {
    && d.kids[k] != Nil
    && (k in u.kids && d.kids[k].Node? ==>
          if u.kids[k].Node? then Compatible(u.kids[k], d.kids[k]) else d.kids[k].kids == map[])
  }

  predicate Compatible(u: Tree, d: Tree)
    requires u.Node? && d.Node?
    decreases d, 1
  {
    forall k | k in d.kids :: KeyFits(u, d, k)
  }

  /** User entries stay, defaults fill what is missing, maps on both sides are merged. */
  function Merge(u: Tree, d: Tree): Tree
    decreases d
  {
    if u.Node? && d.Node? then
      Node(u.ref, map k | k in u.kids.Keys + d.kids.Keys ::
        if k !in d.kids then u.kids[k] else if k !in u.kids then d.kids[k] else Merge(u.kids[k], d.kids[k]))
    else u
  }

  // ---- What the merge is for ----

  datatype Lookup = Absent | At(tree: Tree)

  /** What a path of keys leads to. */
  function Find(t: Tree, path: seq<string>): Lookup
    decreases |path|
  {
    if path == [] then At(t)
    else if t.Node? && path[0] in t.kids then Find(t.kids[path[0]], path[1..])
    else Absent
  }

  /** At every path: what the user set stays, and what the user did not set is what the default
      is there, map references included. So nothing else appears. */
  lemma {:induction false} MergedAtEveryPath(u: Tree, d: Tree, path: seq<string>)
    requires u.Node? && d.Node? && Compatible(u, d)
    ensures Find(u, path) == Absent ==> Find(Merge(u, d), path) == Find(d, path)
    ensures Find(u, path).At? && !Find(u, path).tree.Node? ==> Find(Merge(u, d), path) == Find(u, path)
    ensures Find(u, path).At? && Find(u, path).tree.Node? ==>
              && Find(Merge(u, d), path).At? && Find(Merge(u, d), path).tree.Node?
              && Find(Merge(u, d), path).tree.ref == Find(u, path).tree.ref
    decreases |path|
  {
    if path != [] && path[0] in u.kids && path[0] in d.kids {
      var k := path[0];
      assert KeyFits(u, d, k);
      if u.kids[k].Node? && d.kids[k].Node? {
        MergedAtEveryPath(u.kids[k], d.kids[k], path[1..]);
      } else {
        assert Merge(u.kids[k], d.kids[k]) == u.kids[k];
      }
    }
  }

  /** A path that the merge comes to: the user has a map at its end but one. */
  predicate Visited(u: Tree, path: seq<string>) {
    path != [] && Find(u, path[..|path| - 1]).At? && Find(u, path[..|path| - 1]).tree.Node?
  }

  /** The default at the path is nil, or a map with entries against something else of the user. */
  predicate Panics(u: Tree, d: Tree, path: seq<string>) {
    && Find(d, path).At?
    && var v := Find(d, path).tree;
       || v == Nil
       || (v.Node? && v.kids != map[] && Find(u, path).At? && !Find(u, path).tree.Node?)
  }

  /** In terms of paths: the merge gets through if and only if it comes to no such default. */
  lemma {:induction false} CompatibleByPaths(u: Tree, d: Tree)
    requires u.Node? && d.Node?
    ensures Compatible(u, d) <==> forall path :: Visited(u, path) ==> !Panics(u, d, path)
    decreases d
  {
    if Compatible(u, d) {
      forall path | Visited(u, path) ensures !Panics(u, d, path) { CompatiblePath(u, d, path); }
    } else {
      var path := PanicPath(u, d);
    }
  }

  lemma {:induction false} CompatiblePath(u: Tree, d: Tree, path: seq<string>)
    requires u.Node? && d.Node? && Compatible(u, d) && Visited(u, path)
    ensures !Panics(u, d, path)
    decreases |path|
  {
    if path[0] in d.kids {
      assert KeyFits(u, d, path[0]);
      if |path| > 1 {
        var k, rest := path[0], path[1..];
        var most := path[..|path| - 1];
        assert most[0] == k && most[1..] == rest[..|rest| - 1];
        assert Find(u, most) == Find(u.kids[k], rest[..|rest| - 1]);
        assert Find(d, path) == Find(d.kids[k], rest) && Find(u, path) == Find(u.kids[k], rest);
        if d.kids[k].Node? { CompatiblePath(u.kids[k], d.kids[k], rest); }
      } else {
        assert path[1..] == [] && Find(d, path) == At(d.kids[path[0]]);
        if path[0] in u.kids { assert Find(u, path) == At(u.kids[path[0]]); }
      }
    }
  }

  lemma {:induction false} PanicPath(u: Tree, d: Tree) returns (path: seq<string>)
    requires u.Node? && d.Node? && !Compatible(u, d)
    ensures Visited(u, path) && Panics(u, d, path)
    decreases d
  {
    var k :| k in d.kids && !KeyFits(u, d, k);
    path := [k];
    assert path[..0] == [] && path[1..] == [];
    if d.kids[k] != Nil && u.kids[k].Node? {
      var rest := PanicPath(u.kids[k], d.kids[k]);
      path := [k] + rest;
      assert path[1..] == rest && path[..|path| - 1] == [k] + rest[..|rest| - 1];
      assert ([k] + rest[..|rest| - 1])[1..] == rest[..|rest| - 1];
    }
  }

  predicate NoNil(t: Tree) {
    t != Nil && (t.Node? ==> forall k | k in t.kids :: NoNil(t.kids[k]))
  }

  lemma {:induction false} MergeWithItself(t: Tree)
    ensures Merge(t, t) == t
    ensures t.Node? ==> (Compatible(t, t) <==> NoNil(t))
  {
    if t.Node? {
      forall k | k in t.kids
        ensures Merge(t.kids[k], t.kids[k]) == t.kids[k] && (KeyFits(t, t, k) <==> NoNil(t.kids[k]))
      {
        MergeWithItself(t.kids[k]);
      }
      assert Merge(t, t).kids == t.kids;
    }
  }

  /** Merging the same defaults again changes nothing, and gets through exactly if no default
      is nil at any depth: a nil below a default map is copied unseen the first time. */
  lemma {:induction false} MergingAgain(u: Tree, d: Tree)
    requires u.Node? && d.Node? && Compatible(u, d)
    ensures Merge(Merge(u, d), d) == Merge(u, d)
    ensures Compatible(Merge(u, d), d) <==> NoNil(d)
    decreases d
  {
    var m := Merge(u, d);
    forall k | k in d.kids
      ensures Merge(m.kids[k], d.kids[k]) == m.kids[k]
      ensures KeyFits(m, d, k) <==> NoNil(d.kids[k])
    {
      assert KeyFits(u, d, k);
      if k !in u.kids {
        MergeWithItself(d.kids[k]);
      } else if u.kids[k].Node? && d.kids[k].Node? {
        MergingAgain(u.kids[k], d.kids[k]);
      }
    }
    assert Merge(m, d).kids == m.kids;
  }

  /** For example, the first merge copies a default map with a nil in it, the second one meets it. */
  lemma NilBreaksSecondMerge(a: MapRef, b: MapRef, c: MapRef)
    ensures var u, d := Node(a, map[]), Node(b, map["k" := Node(c, map["x" := Nil])]);
            Compatible(u, d) && !Compatible(Merge(u, d), d)
  {
    var u, d := Node(a, map[]), Node(b, map["k" := Node(c, map["x" := Nil])]);
    assert !KeyFits(d.kids["k"], d.kids["k"], "x");
    assert !Compatible(d.kids["k"], d.kids["k"]);
    assert !KeyFits(Merge(u, d), d, "k");
  }

  // ---- Trees in memory ----

  ghost function Refs(t: Tree): set<MapRef> {
    if t.Node? then {t.ref} + set k, r | k in t.kids && r in Refs(t.kids[k]) :: r else {}
  }

  predicate Matches(v: Value, t: Tree) {
    match v
    case Null => t == Nil
    case Scalar(x) => t == Leaf(x)
    case Nested(r) => t.Node? && t.ref == r
  }

  /** Memory looks like the tree. */
  ghost predicate Holds(t: Tree)
    reads Refs(t)
  {
    t.Node? ==>
      && t.ref.entries.Keys == t.kids.Keys
      && forall k | k in t.kids :: Matches(t.ref.entries[k], t.kids[k]) && Holds(t.kids[k])
  }

  /** Whatever a tree refers to exists. */
  lemma {:induction false} Known(t: Tree)
    ensures forall r | r in Refs(t) :: allocated(r)
  {
    if t.Node? { forall k | k in t.kids ensures forall r | r in Refs(t.kids[k]) :: allocated(r) { Known(t.kids[k]); } }
  }

  /** No map is reached along two ways. */
  ghost predicate Separate(t: Tree) {
    t.Node? ==>
      && (forall k | k in t.kids :: t.ref !in Refs(t.kids[k]) && Separate(t.kids[k]))
      && (forall j, k | j in t.kids && k in t.kids && j != k :: Refs(t.kids[j]) !! Refs(t.kids[k]))
  }

  lemma {:induction false} RefsOfMerge(u: Tree, d: Tree)
    ensures Refs(Merge(u, d)) <= Refs(u) + Refs(d)
    decreases d
  {
    if u.Node? && d.Node? {
      var m := Merge(u, d);
      forall r | r in Refs(m) ensures r in Refs(u) + Refs(d) {
        if r != m.ref {
          var k :| k in m.kids && r in Refs(m.kids[k]);
          if k in u.kids && k in d.kids { RefsOfMerge(u.kids[k], d.kids[k]); }
        }
      }
    }
  }

  /** The merge with only the keys in `done` looked at. */
  ghost function Partly(u: Tree, d: Tree, done: set<string>): Tree
    requires u.Node? && d.Node? && done <= d.kids.Keys
  {
    Node(u.ref, map k | k in u.kids.Keys + done ::
      if k !in done then u.kids[k] else if k !in u.kids then d.kids[k] else Merge(u.kids[k], d.kids[k]))
  }

  lemma RefsOfKid(t: Tree, k: string)
    requires t.Node? && k in t.kids
    ensures Refs(t.kids[k]) <= Refs(t)
  {}

  lemma RefsOfPart(u: Tree, d: Tree, done: set<string>, j: string)
    requires u.Node? && d.Node? && done <= d.kids.Keys && j in Partly(u, d, done).kids
    ensures Refs(Partly(u, d, done).kids[j]) <= Refs(d) + if j in u.kids then Refs(u.kids[j]) else {}
  {
    if j in d.kids { RefsOfKid(d, j); }
    if j in u.kids && j in done { RefsOfMerge(u.kids[j], d.kids[j]); }
  }

  /** The user's maps that a merge may write: those met on the way that are not themselves the
      default they meet. */
  ghost function Own(u: Tree, d: Tree): set<MapRef>
    decreases d
  {
    if !u.Node? || !d.Node? || u == d then {}
    else {u.ref} + set k, r | k in u.kids && k in d.kids && r in Own(u.kids[k], d.kids[k]) :: r
  }

  /** The maps written below `k` are not reached in any other way. */
  ghost predicate KeptApart(u: Tree, d: Tree, k: string)
    requires u.Node? && d.Node? && k in u.kids && k in d.kids
  {
    var own := Own(u.kids[k], d.kids[k]);
    own !! Refs(d) && u.ref !in own && forall j | j in u.kids && j != k :: own !! Refs(u.kids[j])
  }

  /** What a merge in memory starts from. The user's tree may already hold defaults, each at its own
      path; but what is going to be written is neither part of the defaults nor reached twice. */
  ghost predicate Ready(u: Tree, d: Tree)
    decreases d
  {
    && u.Node? && d.Node?
    && (u == d || (
          && u.ref !in Refs(d)
          && (forall k | k in u.kids :: u.ref !in Refs(u.kids[k]))
          && forall k | k in u.kids && k in d.kids ::
               KeptApart(u, d, k) && (u.kids[k].Node? && d.kids[k].Node? ==> Ready(u.kids[k], d.kids[k]))))
  }

  lemma {:induction false} OwnIsMine(u: Tree, d: Tree)
    ensures Own(u, d) <= Refs(u)
    decreases d
  {
    if u.Node? && d.Node? && u != d {
      forall r | r in Own(u, d) ensures r in Refs(u) {
        if r != u.ref {
          var k :| k in u.kids && k in d.kids && r in Own(u.kids[k], d.kids[k]);
          OwnIsMine(u.kids[k], d.kids[k]);
        }
      }
    }
  }

  /** A user tree all of its own and defaults elsewhere will do. */
  lemma {:induction false} SeparateIsReady(u: Tree, d: Tree)
    requires u.Node? && d.Node? && Separate(u) && Refs(u) !! Refs(d)
    ensures Ready(u, d)
    decreases d
  {
    forall k | k in u.kids && k in d.kids
      ensures KeptApart(u, d, k) && (u.kids[k].Node? && d.kids[k].Node? ==> Ready(u.kids[k], d.kids[k]))
    {
      RefsOfKid(u, k);
      RefsOfKid(d, k);
      OwnIsMine(u.kids[k], d.kids[k]);
      if u.kids[k].Node? && d.kids[k].Node? { SeparateIsReady(u.kids[k], d.kids[k]); }
    }
  }

  lemma {:induction false} OwnOfMerge(u: Tree, d: Tree)
    requires u.Node? && d.Node?
    ensures Own(Merge(u, d), d) <= Own(u, d)
    decreases d
  {
    var m := Merge(u, d);
    if u == d {
      MergeWithItself(d);
    } else {
      forall r | r in Own(m, d) ensures r in Own(u, d) {
        if r != u.ref {
          var k :| k in m.kids && k in d.kids && r in Own(m.kids[k], d.kids[k]);
          OwnOfMergedKid(u, d, k);
        }
      }
    }
  }

  lemma {:induction false} OwnOfMergedKid(u: Tree, d: Tree, k: string)
    requires u.Node? && d.Node? && k in d.kids
    ensures Own(Merge(u, d).kids[k], d.kids[k]) <= if k in u.kids then Own(u.kids[k], d.kids[k]) else {}
    decreases d, 0
  {
    if k in u.kids && u.kids[k].Node? && d.kids[k].Node? { OwnOfMerge(u.kids[k], d.kids[k]); }
  }

  /** After a merge the user's tree is ready for the same defaults again. */
  lemma {:induction false} ReadyAgain(u: Tree, d: Tree)
    requires Ready(u, d)
    ensures Ready(Merge(u, d), d)
    decreases d
  {
    var m := Merge(u, d);
    if u == d {
      MergeWithItself(d);
    } else {
      forall j | j in m.kids ensures Refs(m.kids[j]) <= Refs(d) + (if j in u.kids then Refs(u.kids[j]) else {}) {
        RefsOfMergedKid(u, d, j);
      }
      forall k | k in m.kids && k in d.kids
        ensures KeptApart(m, d, k) && (m.kids[k].Node? && d.kids[k].Node? ==> Ready(m.kids[k], d.kids[k]))
      {
        OwnOfMergedKid(u, d, k);
        if k in u.kids {
          assert KeptApart(u, d, k);
          if u.kids[k].Node? && d.kids[k].Node? { ReadyAgain(u.kids[k], d.kids[k]); }
        }
      }
    }
  }

  lemma RefsOfMergedKid(u: Tree, d: Tree, j: string)
    requires u.Node? && d.Node? && j in Merge(u, d).kids
    ensures Refs(Merge(u, d).kids[j]) <= Refs(d) + (if j in u.kids then Refs(u.kids[j]) else {})
  {
    if j in d.kids { RefsOfKid(d, j); }
    if j in u.kids && j in d.kids { RefsOfMerge(u.kids[j], d.kids[j]); }
  }

  lemma ReadyBelow(u: Tree, d: Tree, k: string)
    requires Ready(u, d) && k in u.kids && k in d.kids && u.kids[k].Node? && d.kids[k].Node?
    ensures Ready(u.kids[k], d.kids[k]) && Own(u.kids[k], d.kids[k]) <= Own(u, d)
    ensures u != d ==> KeptApart(u, d, k)
  {}

  /** What putting a default into the user's map does to the tree. */
  lemma WithDefault(u: Tree, d: Tree, done: set<string>, k: string)
    requires Ready(u, d) && done <= d.kids.Keys && k in d.kids && k !in u.kids && k !in done
    ensures u != d && Partly(u, d, done + {k}) == Node(u.ref, Partly(u, d, done).kids[k := d.kids[k]])
    ensures u.ref !in Refs(d) && Refs(d.kids[k]) <= Refs(d)
    ensures forall j | j in Partly(u, d, done).kids :: u.ref !in Refs(Partly(u, d, done).kids[j])
  {
    RefsOfKid(d, k);
    forall j | j in Partly(u, d, done).kids { RefsOfPart(u, d, done, j); }
    assert Partly(u, d, done + {k}).kids == Partly(u, d, done).kids[k := d.kids[k]];
  }

  /** A default that the user does not have is put into the user's map, reference and all. */
  method Insert(a: MapRef, k: string, v: Value, ghost u: Tree, ghost d: Tree, ghost done: set<string>)
    requires Ready(u, d) && u.ref == a && Holds(d) && done <= d.kids.Keys
    requires k in d.kids && k !in u.kids && k !in done && Matches(v, d.kids[k])
    requires Holds(Partly(u, d, done))
    modifies a
    ensures Holds(d) && Holds(Partly(u, d, done + {k}))
  {
    WithDefault(u, d, done, k);
    AddKid(a, k, v, Partly(u, d, done), d.kids[k], d);
  }

  /** A tree gets one more kid; no other map changes. */
  method AddKid(a: MapRef, k: string, v: Value, ghost p: Tree, ghost kid: Tree, ghost d: Tree)
    requires p.Node? && p.ref == a && k !in p.kids && Holds(p) && Matches(v, kid)
    requires a !in Refs(kid) && a !in Refs(d) && Holds(kid) && Holds(d)
    requires forall j | j in p.kids :: a !in Refs(p.kids[j])
    modifies a
    ensures Holds(Node(a, p.kids[k := kid])) && Holds(d)
  {
    a.entries := a.entries[k := v];
  }

  lemma WithKid(p: Tree, k: string, m: Tree)
    requires p.Node? && k in p.kids && p.ref.entries.Keys == p.kids.Keys
    requires forall j | j in p.kids && j != k :: Matches(p.ref.entries[j], p.kids[j]) && Holds(p.kids[j])
    requires Matches(p.ref.entries[k], m) && Holds(m)
    ensures Holds(Node(p.ref, p.kids[k := m]))
  {}

  /** Two maps under the same key are merged; the rest of the tree `p` stays as it is. */
  method Descend(ghost p: Tree, ghost k: string, a: MapRef, b: MapRef, ghost d: Tree) returns (ok: bool)
    requires p.Node? && k in p.kids && Holds(p) && Holds(d)
    requires Ready(p.kids[k], d) && p.kids[k].ref == a && d.ref == b
    requires p.ref !in Own(p.kids[k], d) && forall j | j in p.kids && j != k :: Own(p.kids[k], d) !! Refs(p.kids[j])
    modifies Own(p.kids[k], d)
    ensures ok <==> Compatible(p.kids[k], d)
    ensures ok ==> Holds(Node(p.ref, p.kids[k := Merge(p.kids[k], d)]))
    decreases d, 3
  {
    ghost var mine := Own(p.kids[k], d);
    Known(p);
    forall j | j in p.kids ensures Refs(p.kids[j]) <= Refs(p) && Holds(p.kids[j]) { RefsOfKid(p, j); }
    label before:
    ok := MergeMaps(a, b, p.kids[k], d);
    forall j | j in p.kids && j != k ensures Holds(p.kids[j]) && Matches(p.ref.entries[j], p.kids[j]) {
      assert Refs(p.kids[j]) !! mine;
      assert unchanged@before(Refs(p.kids[j]));
    }
    if ok {
      WithKid(p, k, Merge(p.kids[k], d));
    }
  }

  lemma PartlyAtKey(u: Tree, d: Tree, done: set<string>, k: string)
    requires Ready(u, d) && done <= d.kids.Keys && k in d.kids && k in u.kids && k !in done
    ensures Partly(u, d, done).kids[k] == u.kids[k]
    ensures Partly(u, d, done + {k}) == Node(u.ref, Partly(u, d, done).kids[k := Merge(u.kids[k], d.kids[k])])
  {
    var before, after := Partly(u, d, done).kids, Partly(u, d, done + {k}).kids;
    assert after.Keys == before.Keys;
    assert after == before[k := Merge(u.kids[k], d.kids[k])];
  }

  /** What is written below `k` is not part of the partial merge elsewhere. */
  lemma OthersApart(u: Tree, d: Tree, done: set<string>, k: string)
    requires Ready(u, d) && done <= d.kids.Keys && k in u.kids && k in d.kids && u.kids[k].Node? && d.kids[k].Node?
    ensures var own := Own(u.kids[k], d.kids[k]);
            && u.ref !in own && own <= Own(u, d) && own !! Refs(d)
            && forall j | j in Partly(u, d, done).kids && j != k :: own !! Refs(Partly(u, d, done).kids[j])
  {
    ReadyBelow(u, d, k);
    if u == d {
      assert Own(u.kids[k], d.kids[k]) == {};
    } else {
      forall j | j in Partly(u, d, done).kids && j != k
        ensures Own(u.kids[k], d.kids[k]) !! Refs(Partly(u, d, done).kids[j])
      {
        RefsOfPart(u, d, done, j);
      }
    }
  }

  /** A key with maps on both sides. */
  method MergeBoth(a: MapRef, b: MapRef, k: string, ghost u: Tree, ghost d: Tree, ghost done: set<string>) returns (ok: bool)
    requires Ready(u, d) && Holds(d) && done <= d.kids.Keys && Holds(Partly(u, d, done))
    requires k in d.kids && k in u.kids && k !in done
    requires Matches(Nested(a), u.kids[k]) && Matches(Nested(b), d.kids[k])
    modifies Own(u.kids[k], d.kids[k])
    ensures Holds(d)
    ensures ok <==> KeyFits(u, d, k)
    ensures ok ==> Holds(Partly(u, d, done + {k}))
    decreases d, 0
  {
    PartlyAtKey(u, d, done, k);
    OthersApart(u, d, done, k);
    RefsOfKid(d, k);
    ReadyBelow(u, d, k);
    Known(d);
    label before:
    ok := Descend(Partly(u, d, done), k, a, b, d.kids[k]);
    assert unchanged@before(Refs(d));
  }

  /** What memory says about a key that the user has. */
  lemma LooksAtKey(u: Tree, d: Tree, done: set<string>, k: string)
    requires Ready(u, d) && Holds(d) && done <= d.kids.Keys && Holds(Partly(u, d, done))
    requires k in d.kids && k in u.kids && k !in done
    ensures u.kids[k].Node? && d.kids[k].Node? ==> Own(u.kids[k], d.kids[k]) <= Own(u, d)
    ensures Matches(d.ref.entries[k], d.kids[k]) && k in u.ref.entries && Matches(u.ref.entries[k], u.kids[k])
    ensures d.kids[k].Node? ==> d.kids[k].ref.entries.Keys == d.kids[k].kids.Keys
    ensures !(u.kids[k].Node? && d.kids[k].Node?) ==> Partly(u, d, done + {k}) == Partly(u, d, done)
  {
    PartlyAtKey(u, d, done, k);
    assert Holds(d.kids[k]);
    if u.kids[k].Node? && d.kids[k].Node? {
      ReadyBelow(u, d, k);
    } else {
      assert Merge(u.kids[k], d.kids[k]) == u.kids[k];
      assert Partly(u, d, done + {k}).kids == Partly(u, d, done).kids;
    }
  }

  /** One default, by its kind and by what the user has under the same key. */
  method MergeKey(a: MapRef, b: MapRef, k: string, ghost u: Tree, ghost d: Tree, ghost done: set<string>) returns (ok: bool)
    requires Ready(u, d) && u.ref == a && d.ref == b && Holds(d) && done <= d.kids.Keys
    requires k in d.kids && k !in done && Holds(Partly(u, d, done))
    modifies Own(u, d)
    ensures Holds(d)
    ensures ok <==> KeyFits(u, d, k)
    ensures ok ==> Holds(Partly(u, d, done + {k}))
    decreases d, 1
  {
    var v := b.entries[k];
    if v == Null {
      return false;
    } else if k !in a.entries {
      Insert(a, k, v, u, d, done);
      return true;
    }
    LooksAtKey(u, d, done, k);
    if v.Nested? && a.entries[k].Nested? {
      ok := MergeBoth(a.entries[k].ref, v.ref, k, u, d, done);
    } else {
      ok := !v.Nested? || v.ref.entries == map[];
    }
  }

  /** `mergeMapsRecursive`: the user's maps are written in place, in whatever order the defaults
      are visited; the maps of the defaults are not. `ok` is false if Go would have panicked. */
  method MergeMaps(a: MapRef, b: MapRef, ghost u: Tree, ghost d: Tree) returns (ok: bool)
    requires Ready(u, d) && u.ref == a && d.ref == b && Holds(u) && Holds(d)
    modifies Own(u, d)
    ensures Holds(d)
    ensures ok <==> Compatible(u, d)
    ensures ok ==> Holds(Merge(u, d))
    decreases d, 2
  {
    var todo := b.entries.Keys;
    ghost var done := {};
    assert Partly(u, d, {}).kids == u.kids;
    ok := true;
    while todo != {}
      invariant done + todo == d.kids.Keys && done !! todo && Holds(d)
      invariant Holds(Partly(u, d, done))
      invariant forall k | k in done :: KeyFits(u, d, k)
      decreases todo
    {
      var k :| k in todo;
      ok := MergeKey(a, b, k, u, d, done);
      if !ok {
        return;
      }
      todo, done := todo - {k}, done + {k};
    }
    assert done == d.kids.Keys;
    assert Partly(u, d, done) == Merge(u, d);
    return true;
  }

  /** The same defaults twice over: the second time nothing changes, though the user's maps by now
      hold the maps of the defaults, and all goes well unless a default is nil at some depth. */
  method MergeTwice(a: MapRef, b: MapRef, ghost u: Tree, ghost d: Tree) returns (first: bool, second: bool)
    requires Ready(u, d) && u.ref == a && d.ref == b && Holds(u) && Holds(d)
    modifies Own(u, d)
    ensures Holds(d)
    ensures first <==> Compatible(u, d)
    ensures first ==> (second <==> NoNil(d))
    ensures first && second ==> Holds(Merge(u, d))
  {
    OwnOfMerge(u, d);
    first := MergeMaps(a, b, u, d);
    second := false;
    if first {
      ReadyAgain(u, d);
      MergingAgain(u, d);
      second := MergeMaps(a, b, Merge(u, d), d);
    }
  }
}
