/**
 What the walks accept: copying succeeds exactly on trees, checking exactly on acyclic graphs, each
 within its budget. Both are said by the unfolding of a value: the finite tree it stands for.
 */
module HeapFacts {
  import opened Results
  import opened HeapWalks

  /** `t` is the value that `v` stands for, all of its objects within the limits on their shape. */
  ghost predicate Unfolds(l: Limits, h: Heap, v: Val, t: Tree)
    decreases t
  {
    match v
    case Atom(text) => t == Leaf(text)
    case Unsafe => false
    case Ref(a) =>
      && a in h && CellOk(l, h[a]) && t.Node?
      && t.isArray == h[a].ArrayCell? && t.keys == Keys(h[a])
      && |t.children| == |Values(h[a])|
      && forall i :: 0 <= i < |t.children| ==> Unfolds(l, h, Values(h[a])[i], t.children[i])
  }

  ghost predicate UnfoldsAll(l: Limits, h: Heap, vs: seq<Val>, ts: seq<Tree>) {
    |ts| == |vs| && forall i :: 0 <= i < |ts| ==> Unfolds(l, h, vs[i], ts[i])
  }

  function Size(t: Tree): nat {
    if t.Leaf? then 1 else 1 + Sizes(t.children)
  }

  function Sizes(ts: seq<Tree>): nat {
    if ts == [] then 0 else Sizes(ts[..|ts| - 1]) + Size(ts[|ts| - 1])
  }

  function Depth(t: Tree): nat {
    if t.Leaf? || t.children == [] then 0 else 1 + Depths(t.children)
  }

  function Depths(ts: seq<Tree>): nat {
    if ts == [] then 0
    else Max(Depths(ts[..|ts| - 1]), Depth(ts[|ts| - 1]))
  }

  function Max(a: nat, b: nat): nat {
    if a < b then b else a
  }

  /** The objects met while unfolding, once for every time they are met. */
  function Met(h: Heap, v: Val, t: Tree): seq<Address>
    decreases t, 0
  {
    if !v.Ref? || v.address !in h || t.Leaf? || |Values(h[v.address])| != |t.children| then []
    else [v.address] + MetAll(h, Values(h[v.address]), t.children)
  }

  function MetAll(h: Heap, vs: seq<Val>, ts: seq<Tree>): seq<Address>
    requires |vs| == |ts|
    decreases ts, 1
  {
    if ts == [] then [] else MetAll(h, vs[..|vs| - 1], ts[..|ts| - 1]) + Met(h, vs[|vs| - 1], ts[|ts| - 1])
  }

  predicate Distinct(xs: seq<Address>) {
    forall i, j :: 0 <= i < j < |xs| ==> xs[i] != xs[j]
  }

  function SetOf(xs: seq<Address>): set<Address> {
    set x | x in xs
  }

  /** A value has one unfolding at most. */
  lemma {:induction false} UnfoldsOnce(l: Limits, h: Heap, v: Val, t: Tree, u: Tree)
    requires Unfolds(l, h, v, t) && Unfolds(l, h, v, u)
    ensures t == u
    decreases t
  {
    if v.Ref? {
      forall i | 0 <= i < |t.children| ensures t.children[i] == u.children[i] {
        UnfoldsOnce(l, h, Values(h[v.address])[i], t.children[i], u.children[i]);
      }
      assert t.children == u.children;
    }
  }

  // Copying.

  /** The copy of `v` is its unfolding, met without repetition and without anything seen before, within the budget. */
  ghost predicate CopyIs(l: Limits, h: Heap, v: Val, seen: set<Address>, nodes: nat, depth: nat, r: Cloned) {
    r.Cloned? ==>
      && Unfolds(l, h, v, r.tree) && Fresh(Met(h, v, r.tree), seen)
      && r.seen == seen + SetOf(Met(h, v, r.tree)) && r.nodes == nodes + Size(r.tree) <= l.nodes
      && depth + Depth(r.tree) <= l.depth
  }

  ghost predicate CopiesAre(l: Limits, h: Heap, vs: seq<Val>, seen: set<Address>, nodes: nat, depth: nat,
                            r: ClonedList) {
    r.ClonedList? ==>
      && UnfoldsAll(l, h, vs, r.trees)
      && var met := MetAll(h, vs, r.trees);
      && Fresh(met, seen) && r.seen == seen + SetOf(met)
      && r.nodes == nodes + Sizes(r.trees) && (vs != [] ==> r.nodes <= l.nodes && depth + Depths(r.trees) <= l.depth)
  }

  /** No repetition, and nothing seen before. */
  predicate Fresh(xs: seq<Address>, seen: set<Address>) {
    Distinct(xs) && forall i :: 0 <= i < |xs| ==> xs[i] !in seen
  }

  lemma SetJoined(xs: seq<Address>, ys: seq<Address>, seen: set<Address>)
    ensures seen + SetOf(xs + ys) == seen + SetOf(xs) + SetOf(ys)
    ensures seen + SetOf([]) == seen
  {
  }

  lemma Joined(xs: seq<Address>, ys: seq<Address>, seen: set<Address>)
    ensures Fresh(xs + ys, seen) <==> Fresh(xs, seen) && Fresh(ys, seen + SetOf(xs))
    ensures seen + SetOf(xs + ys) == seen + SetOf(xs) + SetOf(ys)
  {
    var all := xs + ys;
    SetJoined(xs, ys, seen);
    if Fresh(all, seen) {
      assert forall i :: 0 <= i < |xs| ==> all[i] == xs[i];
      assert forall i :: 0 <= i < |ys| ==> all[|xs| + i] == ys[i];
    }
    if Fresh(xs, seen) && Fresh(ys, seen + SetOf(xs)) {
      forall i, j | 0 <= i < j < |all| ensures all[i] != all[j] {
        if i < |xs| <= j {
          assert all[i] in xs && all[j] == ys[j - |xs|];
        }
      }
    }
  }

  lemma NothingMet(seen: set<Address>)
    ensures Fresh([], seen)
  {
  }

  lemma OneMet(a: Address, seen: set<Address>)
    ensures SetOf([a]) == {a} && (Fresh([a], seen) <==> a !in seen)
  {
    assert [a][0] == a;
  }

  /** One more value behind a list. */
  lemma Longer(l: Limits, h: Heap, vs: seq<Val>, ts: seq<Tree>, v: Val, t: Tree)
    requires |vs| == |ts|
    ensures MetAll(h, vs + [v], ts + [t]) == MetAll(h, vs, ts) + Met(h, v, t)
    ensures Sizes(ts + [t]) == Sizes(ts) + Size(t)
    ensures Depths(ts + [t]) == Max(Depths(ts), Depth(t)) && (ts == [] ==> Depths(ts) == 0)
    ensures UnfoldsAll(l, h, vs + [v], ts + [t]) <==> UnfoldsAll(l, h, vs, ts) && Unfolds(l, h, v, t)
  {
    hide Met, Size, Depth, Unfolds, UnfoldsAll;
    assert (ts + [t])[..|ts|] == ts && (vs + [v])[..|vs|] == vs;
    LongerUnfolds(l, h, vs, ts, v, t);
  }

  lemma LongerUnfolds(l: Limits, h: Heap, vs: seq<Val>, ts: seq<Tree>, v: Val, t: Tree)
    requires |vs| == |ts|
    ensures UnfoldsAll(l, h, vs + [v], ts + [t]) <==> UnfoldsAll(l, h, vs, ts) && Unfolds(l, h, v, t)
  {
    hide Unfolds;
    var us, ws := ts + [t], vs + [v];
    if UnfoldsAll(l, h, ws, us) {
      assert forall i :: 0 <= i < |ts| ==> us[i] == ts[i] && ws[i] == vs[i];
      assert us[|ts|] == t && ws[|ts|] == v;
    }
  }

  lemma {:induction false} CloneCopies(l: Limits, h: Heap, v: Val, seen: set<Address>, nodes: nat, depth: nat)
    ensures CopyIs(l, h, v, seen, nodes, depth, Clone(l, h, v, seen, nodes, depth))
    decreases if depth > l.depth then 0 else l.depth + 1 - depth, 0
  {
    hide CellOk, Fresh, SetOf;
    SetJoined([], [], seen);
    NothingMet(seen);
    if nodes + 1 <= l.nodes && depth <= l.depth && v.Ref? && v.address in h && v.address !in seen
       && CellOk(l, h[v.address]) {
      var a := v.address;
      CloneAllCopies(l, h, Values(h[a]), seen + {a}, nodes + 1, depth + 1);
      var r := CloneAll(l, h, Values(h[a]), seen + {a}, nodes + 1, depth + 1);
      if r.ClonedList? {
        var met := MetAll(h, Values(h[a]), r.trees);
        OneMet(a, seen);
        Joined([a], met, seen);
      }
    }
  }

  lemma {:induction false} CloneAllCopies(l: Limits, h: Heap, vs: seq<Val>, seen: set<Address>, nodes: nat, depth: nat)
    ensures CopiesAre(l, h, vs, seen, nodes, depth, CloneAll(l, h, vs, seen, nodes, depth))
    decreases if depth > l.depth then 0 else l.depth + 1 - depth, 1 + |vs|
  {
    hide CellOk, Clone, Fresh, SetOf, Unfolds, UnfoldsAll, Size, Depth, Met, MetAll, Sizes, Depths;
    if vs == [] {
      NoCopies(l, h, seen, nodes, depth);
    } else {
      var init, v := vs[..|vs| - 1], vs[|vs| - 1];
      CloneAllCopies(l, h, init, seen, nodes, depth);
      var r := CloneAll(l, h, init, seen, nodes, depth);
      if r.ClonedList? {
        CloneCopies(l, h, v, r.seen, r.nodes, depth);
        var last := Clone(l, h, v, r.seen, r.nodes, depth);
        if last.Cloned? {
          CopiesExtend(l, h, init, v, seen, nodes, depth, r, last);
          assert init + [v] == vs;
        }
      }
    }
  }

  lemma NoCopies(l: Limits, h: Heap, seen: set<Address>, nodes: nat, depth: nat)
    ensures CopiesAre(l, h, [], seen, nodes, depth, CloneAll(l, h, [], seen, nodes, depth))
  {
    hide Fresh, SetOf, Unfolds, MetAll;
    NoValues(l, h, seen);
  }

  lemma NoValues(l: Limits, h: Heap, seen: set<Address>)
    ensures UnfoldsAll(l, h, [], []) && Fresh(MetAll(h, [], []), seen) && seen + SetOf(MetAll(h, [], [])) == seen
            && Sizes([]) == 0
  {
  }

  lemma CopiesExtend(l: Limits, h: Heap, vs: seq<Val>, v: Val, seen: set<Address>, nodes: nat, depth: nat,
                     r: ClonedList, last: Cloned)
    requires r.ClonedList? && CopiesAre(l, h, vs, seen, nodes, depth, r)
    requires last.Cloned? && CopyIs(l, h, v, r.seen, r.nodes, depth, last)
    ensures CopiesAre(l, h, vs + [v], seen, nodes, depth, ClonedList(r.trees + [last.tree], last.seen, last.nodes))
  {
    hide Fresh, SetOf, Unfolds, Met, MetAll, Size, Sizes, Depth, Depths;
    Longer(l, h, vs, r.trees, v, last.tree);
    Joined(MetAll(h, vs, r.trees), Met(h, v, last.tree), seen);
  }

  /** The unfolding of an object. */
  lemma ObjectUnfolds(l: Limits, h: Heap, a: Address, t: Tree)
    requires Unfolds(l, h, Ref(a), t)
    ensures a in h && CellOk(l, h[a]) && UnfoldsAll(l, h, Values(h[a]), t.children)
    ensures t == Node(h[a].ArrayCell?, Keys(h[a]), t.children)
    ensures Met(h, Ref(a), t) == [a] + MetAll(h, Values(h[a]), t.children)
    ensures Size(t) == 1 + Sizes(t.children)
    ensures Depth(t) == if t.children == [] then 0 else 1 + Depths(t.children)
  {
    hide MetAll, Sizes, Depths;
  }

  /** And conversely: whatever unfolds like that is copied. */
  lemma {:induction false} CopiesClone(l: Limits, h: Heap, v: Val, seen: set<Address>, nodes: nat, depth: nat, t: Tree)
    requires Unfolds(l, h, v, t) && Fresh(Met(h, v, t), seen)
    requires nodes + Size(t) <= l.nodes && depth + Depth(t) <= l.depth
    ensures Clone(l, h, v, seen, nodes, depth) == Cloned(t, seen + SetOf(Met(h, v, t)), nodes + Size(t))
    decreases t, 0
  {
    hide CellOk, Fresh, SetOf, Unfolds, Met, MetAll, Sizes, Depths, CloneAll, Values, Keys;
    match v
    case Ref(a) =>
      ObjectUnfolds(l, h, a, t);
      var vs, ts := Values(h[a]), t.children;
      OneMet(a, seen);
      Joined([a], MetAll(h, vs, ts), seen);
      CopiesCloneAll(l, h, vs, seen + {a}, nodes + 1, depth + 1, ts);
    case Atom(text) => AtomUnfolds(l, h, text, t, seen);
    case Unsafe => AtomUnfolds(l, h, "", t, seen);
  }

  lemma AtomUnfolds(l: Limits, h: Heap, text: string, t: Tree, seen: set<Address>)
    ensures Unfolds(l, h, Atom(text), t) <==> t == Leaf(text)
    ensures !Unfolds(l, h, Unsafe, t)
    ensures Met(h, Atom(text), t) == [] && seen + SetOf([]) == seen
  {
  }

  lemma {:induction false} CopiesCloneAll(l: Limits, h: Heap, vs: seq<Val>, seen: set<Address>, nodes: nat, depth: nat,
                                          ts: seq<Tree>)
    requires UnfoldsAll(l, h, vs, ts) && Fresh(MetAll(h, vs, ts), seen)
    requires nodes + Sizes(ts) <= l.nodes && (ts != [] ==> depth + Depths(ts) <= l.depth)
    ensures CloneAll(l, h, vs, seen, nodes, depth) == ClonedList(ts, seen + SetOf(MetAll(h, vs, ts)), nodes + Sizes(ts))
    decreases ts, 1
  {
    hide CellOk, Clone, Fresh, SetOf, Unfolds, Size, Depth, Met, MetAll, Sizes, Depths;
    if ts == [] {
      NoValues(l, h, seen);
    } else {
      var init, v := vs[..|vs| - 1], vs[|vs| - 1];
      var us, t := ts[..|ts| - 1], ts[|ts| - 1];
      assert ts == us + [t] && vs == init + [v];
      Longer(l, h, init, us, v, t);
      var met := MetAll(h, init, us);
      Joined(met, Met(h, v, t), seen);
      CopiesCloneAll(l, h, init, seen, nodes, depth, us);
      CopiesClone(l, h, v, seen + SetOf(met), nodes + Sizes(us), depth, t);
    }
  }

  /** `clonePlainData` gives the value of `v` exactly if `v` unfolds within the budget and no object is met twice. */
  lemma CloneSucceeds(h: Heap, v: Val, t: Tree)
    ensures (var r := Clone(CLONE_LIMITS, h, v, {}, 0, 0); r.Cloned? && r.tree == t) <==>
            && Unfolds(CLONE_LIMITS, h, v, t) && Distinct(Met(h, v, t))
            && Size(t) <= CLONE_LIMITS.nodes && Depth(t) <= CLONE_LIMITS.depth
  {
    hide Clone, Unfolds, Met, Size, Depth, SetOf;
    CloneCopies(CLONE_LIMITS, h, v, {}, 0, 0);
    if Unfolds(CLONE_LIMITS, h, v, t) && Distinct(Met(h, v, t)) && Size(t) <= CLONE_LIMITS.nodes
       && Depth(t) <= CLONE_LIMITS.depth {
      CopiesClone(CLONE_LIMITS, h, v, {}, 0, 0, t);
    }
  }
}
