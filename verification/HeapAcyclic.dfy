/** Checking succeeds exactly on acyclic graphs whose unfolding is within the budget, shared objects included. */
module HeapAcyclic {
  import opened Results
  import opened HeapWalks
  import opened HeapFacts

  // An object does not occur in its own unfolding.

  /** Whatever object is met has an unfolding of its own, no larger. */
  lemma {:induction false} MetUnfolds(l: Limits, h: Heap, v: Val, t: Tree, a: Address) returns (u: Tree)
    requires Unfolds(l, h, v, t) && a in Met(h, v, t)
    ensures Unfolds(l, h, Ref(a), u) && Size(u) <= Size(t)
    decreases t, 0
  {
    hide CellOk;
    if a == v.address {
      u := t;
    } else {
      u := MetAllUnfolds(l, h, Values(h[v.address]), t.children, a);
    }
  }

  lemma {:induction false} MetAllUnfolds(l: Limits, h: Heap, vs: seq<Val>, ts: seq<Tree>, a: Address) returns (u: Tree)
    requires UnfoldsAll(l, h, vs, ts) && a in MetAll(h, vs, ts)
    ensures Unfolds(l, h, Ref(a), u) && Size(u) <= Sizes(ts)
    decreases ts, 1
  {
    hide Unfolds, Met;
    var n := |ts| - 1;
    if a in Met(h, vs[n], ts[n]) {
      u := MetUnfolds(l, h, vs[n], ts[n], a);
    } else {
      u := MetAllUnfolds(l, h, vs[..n], ts[..n], a);
    }
  }

  lemma NotBelowItself(l: Limits, h: Heap, a: Address, t: Tree)
    requires Unfolds(l, h, Ref(a), t)
    ensures UnfoldsAll(l, h, Values(h[a]), t.children) && a !in MetAll(h, Values(h[a]), t.children)
  {
    hide Unfolds, MetAll, Sizes;
    ObjectUnfolds(l, h, a, t);
    if a in MetAll(h, Values(h[a]), t.children) {
      var u := MetAllUnfolds(l, h, Values(h[a]), t.children, a);
      UnfoldsOnce(l, h, Ref(a), t, u);
    }
  }

  // The checking walk.

  predicate Apart(xs: seq<Address>, seen: set<Address>) {
    forall i :: 0 <= i < |xs| ==> xs[i] !in seen
  }

  lemma ApartJoined(xs: seq<Address>, ys: seq<Address>, seen: set<Address>)
    ensures Apart(xs + ys, seen) <==> Apart(xs, seen) && Apart(ys, seen)
  {
    assert forall i :: 0 <= i < |xs| ==> (xs + ys)[i] == xs[i];
    assert forall i :: 0 <= i < |ys| ==> (xs + ys)[|xs| + i] == ys[i];
  }

  /** What is apart from the objects above and from the object itself. */
  lemma ApartBelow(xs: seq<Address>, seen: set<Address>, a: Address)
    ensures Apart(xs, seen + {a}) <==> Apart(xs, seen) && a !in xs
    ensures Apart([a], seen) <==> a !in seen
    ensures Apart([], seen)
  {
    assert [a][0] == a;
  }

  lemma {:induction false} CheckUnfolds(l: Limits, h: Heap, v: Val, seen: set<Address>, nodes: nat, depth: nat)
    returns (t: Tree)
    requires Check(l, h, v, seen, nodes, depth).Checked?
    ensures Unfolds(l, h, v, t) && Apart(Met(h, v, t), seen)
    ensures Check(l, h, v, seen, nodes, depth).nodes == nodes + Size(t) <= l.nodes && depth + Depth(t) <= l.depth
    decreases if depth > l.depth then 0 else l.depth + 1 - depth, 0
  {
    hide CellOk, Apart;
    match v
    case Atom(text) =>
      t := Leaf(text);
      ApartBelow([], seen, 0);
    case Ref(a) =>
      var ts := CheckAllUnfolds(l, h, Values(h[a]), seen + {a}, nodes + 1, depth + 1);
      t := Node(h[a].ArrayCell?, Keys(h[a]), ts);
      ApartBelow(MetAll(h, Values(h[a]), ts), seen, a);
      ApartJoined([a], MetAll(h, Values(h[a]), ts), seen);
  }

  lemma {:induction false} CheckAllUnfolds(l: Limits, h: Heap, vs: seq<Val>, seen: set<Address>, nodes: nat, depth: nat)
    returns (ts: seq<Tree>)
    requires CheckAll(l, h, vs, seen, nodes, depth).Checked?
    ensures UnfoldsAll(l, h, vs, ts) && Apart(MetAll(h, vs, ts), seen)
    ensures CheckAll(l, h, vs, seen, nodes, depth).nodes == nodes + Sizes(ts)
    ensures vs != [] ==> nodes + Sizes(ts) <= l.nodes && depth + Depths(ts) <= l.depth
    decreases if depth > l.depth then 0 else l.depth + 1 - depth, 1 + |vs|
  {
    hide CellOk, Apart, Check, Unfolds, UnfoldsAll, Met, Size, Depth;
    if vs == [] {
      ts := [];
      NoValues(l, h, seen);
      ApartBelow([], seen, 0);
    } else {
      var init, v := vs[..|vs| - 1], vs[|vs| - 1];
      var us := CheckAllUnfolds(l, h, init, seen, nodes, depth);
      var t := CheckUnfolds(l, h, v, seen, nodes + Sizes(us), depth);
      ts := us + [t];
      assert |us| == |init| by { SameLengths(l, h, init, us); }
      Longer(l, h, init, us, v, t);
      ApartJoined(MetAll(h, init, us), Met(h, v, t), seen);
      assert vs == init + [v];
    }
  }

  lemma SameLengths(l: Limits, h: Heap, vs: seq<Val>, ts: seq<Tree>)
    requires UnfoldsAll(l, h, vs, ts)
    ensures |vs| == |ts|
  {
  }

  /** And conversely: whatever unfolds within the budget passes. */
  lemma {:induction false} UnfoldsCheck(l: Limits, h: Heap, v: Val, seen: set<Address>, nodes: nat, depth: nat, t: Tree)
    requires Unfolds(l, h, v, t) && Apart(Met(h, v, t), seen)
    requires nodes + Size(t) <= l.nodes && depth + Depth(t) <= l.depth
    ensures Check(l, h, v, seen, nodes, depth) == Checked(nodes + Size(t))
    decreases t, 0
  {
    hide CellOk, Apart, Unfolds, UnfoldsAll, Met, MetAll, Sizes, Depths, CheckAll, Values, Keys;
    match v
    case Ref(a) =>
      ObjectUnfolds(l, h, a, t);
      NotBelowItself(l, h, a, t);
      var vs, ts := Values(h[a]), t.children;
      SameLengths(l, h, vs, ts);
      ApartJoined([a], MetAll(h, vs, ts), seen);
      ApartBelow(MetAll(h, vs, ts), seen, a);
      UnfoldsCheckAll(l, h, vs, seen + {a}, nodes + 1, depth + 1, ts);
    case Atom(text) => AtomUnfolds(l, h, text, t, seen);
    case Unsafe => AtomUnfolds(l, h, "", t, seen);
  }

  lemma {:induction false} UnfoldsCheckAll(l: Limits, h: Heap, vs: seq<Val>, seen: set<Address>, nodes: nat, depth: nat,
                                           ts: seq<Tree>)
    requires UnfoldsAll(l, h, vs, ts) && Apart(MetAll(h, vs, ts), seen)
    requires nodes + Sizes(ts) <= l.nodes && (ts != [] ==> depth + Depths(ts) <= l.depth)
    ensures CheckAll(l, h, vs, seen, nodes, depth) == Checked(nodes + Sizes(ts))
    decreases ts, 1
  {
    hide CellOk, Apart, Check, Unfolds, Met, MetAll, Size, Sizes, Depth, Depths;
    if ts == [] {
      NoValues(l, h, seen);
    } else {
      var init, v := vs[..|vs| - 1], vs[|vs| - 1];
      var us, t := ts[..|ts| - 1], ts[|ts| - 1];
      assert ts == us + [t] && vs == init + [v];
      Longer(l, h, init, us, v, t);
      ApartJoined(MetAll(h, init, us), Met(h, v, t), seen);
      UnfoldsCheckAll(l, h, init, seen, nodes, depth, us);
      UnfoldsCheck(l, h, v, seen, nodes + Sizes(us), depth, t);
    }
  }

  ghost predicate UnfoldsWithin(l: Limits, h: Heap, v: Val, t: Tree) {
    Unfolds(l, h, v, t) && Size(t) <= l.nodes && Depth(t) <= l.depth
  }

  /** `assertPlain` passes exactly if the value unfolds within the budget: shared objects are no obstacle. */
  lemma CheckSucceeds(h: Heap, v: Val)
    ensures Check(PLAIN_LIMITS, h, v, {}, 0, 0).Checked? <==> exists t :: UnfoldsWithin(PLAIN_LIMITS, h, v, t)
  {
    hide Check, Unfolds, Size, Depth, Met;
    if Check(PLAIN_LIMITS, h, v, {}, 0, 0).Checked? {
      var t := CheckUnfolds(PLAIN_LIMITS, h, v, {}, 0, 0);
      assert UnfoldsWithin(PLAIN_LIMITS, h, v, t);
    }
    if t :| UnfoldsWithin(PLAIN_LIMITS, h, v, t) {
      UnfoldsCheck(PLAIN_LIMITS, h, v, {}, 0, 0, t);
    }
  }

  // Unfolding is being acyclic and plain.

  /** A walk along references, from the object `v` refers to. */
  predicate Chain(h: Heap, v: Val, ps: seq<Address>) {
    && ps != [] && v == Ref(ps[0])
    && (forall i :: 0 <= i < |ps| ==> ps[i] in h)
    && forall i :: 0 < i < |ps| ==> Ref(ps[i]) in Values(h[ps[i - 1]])
  }

  /** No walk comes back to an object. */
  ghost predicate Acyclic(h: Heap, v: Val) {
    forall ps :: Chain(h, v, ps) ==> Distinct(ps)
  }

  predicate ValOk(h: Heap, v: Val) {
    match v case Atom(_) => true case Unsafe => false case Ref(a) => a in h
  }

  predicate PlainCell(l: Limits, h: Heap, a: Address)
    requires a in h
  {
    CellOk(l, h[a]) && forall w :: w in Values(h[a]) ==> ValOk(h, w)
  }

  /** Everything that can be walked to is plain data within the limits on shapes. */
  ghost predicate PlainFrom(l: Limits, h: Heap, v: Val) {
    ValOk(h, v) && forall ps :: Chain(h, v, ps) ==> PlainCell(l, h, ps[|ps| - 1])
  }

  lemma ValUnfolds(l: Limits, h: Heap, v: Val, t: Tree)
    requires Unfolds(l, h, v, t)
    ensures ValOk(h, v) && (v.Ref? ==> PlainCell(l, h, v.address))
  {
    if v.Ref? {
      forall w | w in Values(h[v.address]) ensures ValOk(h, w) {
        var i :| 0 <= i < |t.children| && Values(h[v.address])[i] == w;
        assert Unfolds(l, h, w, t.children[i]);
      }
    }
  }

  lemma {:induction false} SizeOfChild(ts: seq<Tree>, i: nat)
    requires i < |ts|
    ensures Size(ts[i]) <= Sizes(ts)
  {
    if i < |ts| - 1 {
      SizeOfChild(ts[..|ts| - 1], i);
    }
  }

  /** Along a chain unfoldings get smaller. */
  lemma {:induction false} ChainShrinks(l: Limits, h: Heap, v: Val, t: Tree, ps: seq<Address>) returns (u: Tree)
    requires Unfolds(l, h, v, t) && Chain(h, v, ps)
    ensures Unfolds(l, h, Ref(ps[|ps| - 1]), u) && Size(u) <= Size(t) && (|ps| > 1 ==> Size(u) < Size(t))
    decreases |ps|
  {
    hide CellOk;
    if |ps| == 1 {
      u := t;
    } else {
      var a := ps[0];
      assert Ref(ps[1]) in Values(h[a]);
      var i :| 0 <= i < |Values(h[a])| && Values(h[a])[i] == Ref(ps[1]);
      u := ChainShrinks(l, h, Ref(ps[1]), t.children[i], ps[1..]);
      SizeOfChild(t.children, i);
    }
  }

  lemma UnfoldsAcyclic(l: Limits, h: Heap, v: Val, t: Tree)
    requires Unfolds(l, h, v, t)
    ensures Acyclic(h, v) && PlainFrom(l, h, v)
  {
    hide Unfolds, CellOk, Size, PlainCell;
    ValUnfolds(l, h, v, t);
    forall ps | Chain(h, v, ps) ensures Distinct(ps) && PlainCell(l, h, ps[|ps| - 1]) {
      var last := ChainShrinks(l, h, v, t, ps);
      ValUnfolds(l, h, Ref(ps[|ps| - 1]), last);
      forall i, j | 0 <= i < j < |ps| ensures ps[i] != ps[j] {
        var u := ChainShrinks(l, h, v, t, ps[..i + 1]);
        var w := ChainShrinks(l, h, Ref(ps[i]), u, ps[i..j + 1]);
        if ps[i] == ps[j] {
          UnfoldsOnce(l, h, Ref(ps[i]), u, w);
        }
      }
    }
  }

  /** `v` is at the end of a walk from `root`. */
  ghost predicate ReachedBy(h: Heap, root: Val, path: seq<Address>, v: Val) {
    if path == [] then v == root else Chain(h, root, path) && v in Values(h[path[|path| - 1]])
  }

  lemma {:induction false} DistinctFew(ps: seq<Address>, keys: set<Address>)
    requires Distinct(ps) && forall i :: 0 <= i < |ps| ==> ps[i] in keys
    ensures |ps| <= |keys|
  {
    if ps != [] {
      var n := |ps| - 1;
      DistinctFew(ps[..n], keys - {ps[n]});
    }
  }

  lemma {:induction false} AcyclicUnfolds(l: Limits, h: Heap, root: Val, path: seq<Address>, v: Val) returns (t: Tree)
    requires Acyclic(h, root) && PlainFrom(l, h, root) && ReachedBy(h, root, path, v) && ValOk(h, v)
             && |path| <= |h.Keys|
    ensures Unfolds(l, h, v, t)
    decreases |h.Keys| - |path|, 0
  {
    hide CellOk, Values, Keys;
    match v
    case Atom(text) => t := Leaf(text);
    case Ref(a) =>
      var ps := path + [a];
      assert Chain(h, root, ps) by {
        assert forall i :: 0 <= i < |path| ==> ps[i] == path[i];
      }
      DistinctFew(ps, h.Keys);
      assert ps[|ps| - 1] == a;
      assert PlainCell(l, h, a);
      var ts := AllUnfold(l, h, root, ps, Values(h[a]));
      t := Node(h[a].ArrayCell?, Keys(h[a]), ts);
  }

  lemma {:induction false} AllUnfold(l: Limits, h: Heap, root: Val, path: seq<Address>, vs: seq<Val>)
    returns (ts: seq<Tree>)
    requires Acyclic(h, root) && PlainFrom(l, h, root) && |path| <= |h.Keys|
    requires forall i :: 0 <= i < |vs| ==> ReachedBy(h, root, path, vs[i]) && ValOk(h, vs[i])
    ensures UnfoldsAll(l, h, vs, ts)
    decreases |h.Keys| - |path|, 1 + |vs|
  {
    hide Unfolds, Acyclic, PlainFrom, ReachedBy, ValOk;
    if vs == [] {
      ts := [];
    } else {
      var us := AllUnfold(l, h, root, path, vs[..|vs| - 1]);
      var t := AcyclicUnfolds(l, h, root, path, vs[|vs| - 1]);
      ts := us + [t];
    }
  }

  /** A value unfolds exactly if everything walked to from it is plain and no walk comes back. */
  lemma UnfoldsIffAcyclic(l: Limits, h: Heap, v: Val)
    ensures (exists t :: Unfolds(l, h, v, t)) <==> Acyclic(h, v) && PlainFrom(l, h, v)
  {
    hide Unfolds, Acyclic, Chain;
    if t :| Unfolds(l, h, v, t) {
      UnfoldsAcyclic(l, h, v, t);
    }
    if Acyclic(h, v) && PlainFrom(l, h, v) {
      var t := AcyclicUnfolds(l, h, v, [], v);
    }
  }
}
