/** Meeting no object twice is being a tree: every object has one place only. */
module HeapTrees {
  import opened Results
  import opened HeapWalks
  import opened HeapFacts
  import opened HeapAcyclic

  /** What is found at a place: the place is the list of the positions to go down. */
  function At(h: Heap, v: Val, place: seq<nat>): Option<Val>
    decreases |place|
  {
    if place == [] then Some(v)
    else if !v.Ref? || v.address !in h || place[0] >= |Values(h[v.address])| then None
    else At(h, Values(h[v.address])[place[0]], place[1..])
  }

  predicate ObjectAt(h: Heap, v: Val, place: seq<nat>, a: Address) {
    At(h, v, place) == Some(Ref(a))
  }

  /** No object is found at two places. */
  ghost predicate IsTree(h: Heap, v: Val) {
    forall p, q, a :: ObjectAt(h, v, p, a) && ObjectAt(h, v, q, a) ==> p == q
  }

  predicate Disjoint(xs: seq<Address>, ys: seq<Address>) {
    forall x :: x in xs ==> x !in ys
  }

  lemma DistinctJoined(xs: seq<Address>, ys: seq<Address>)
    ensures Distinct(xs + ys) <==> Distinct(xs) && Distinct(ys) && Disjoint(xs, ys)
  {
    var all := xs + ys;
    if Distinct(all) {
      assert forall i :: 0 <= i < |xs| ==> all[i] == xs[i];
      assert forall i :: 0 <= i < |ys| ==> all[|xs| + i] == ys[i];
    }
    if Distinct(xs) && Distinct(ys) && Disjoint(xs, ys) {
      forall i, j | 0 <= i < j < |all| ensures all[i] != all[j] {
        if i < |xs| <= j {
          assert all[i] in xs && all[j] == ys[j - |xs|];
        }
      }
    }
  }

  /** What is met in a list is met in one of its values; it is distinct if each is and no two share anything. */
  lemma {:induction false} MetInList(h: Heap, vs: seq<Val>, ts: seq<Tree>)
    requires |vs| == |ts|
    ensures forall a :: a in MetAll(h, vs, ts) <==> exists i :: 0 <= i < |ts| && a in Met(h, vs[i], ts[i])
  {
    hide Met;
    if ts != [] {
      var n := |ts| - 1;
      var us, t := ts[..n], ts[n];
      var ws, v := vs[..n], vs[n];
      MetInList(h, ws, us);
      assert forall i :: 0 <= i < n ==> ws[i] == vs[i] && us[i] == ts[i];
      forall a ensures a in MetAll(h, vs, ts) <==> exists i :: 0 <= i < |ts| && a in Met(h, vs[i], ts[i]) {
        if i :| 0 <= i < |ts| && a in Met(h, vs[i], ts[i]) {
          assert i < n ==> a in Met(h, ws[i], us[i]);
        }
        if a in MetAll(h, ws, us) {
          var i :| 0 <= i < n && a in Met(h, ws[i], us[i]);
          assert a in Met(h, vs[i], ts[i]);
        }
      }
    }
  }

  /** The values of a list meet distinct objects exactly if each of them does and no two of them meet one. */
  lemma {:induction false} DistinctInList(h: Heap, vs: seq<Val>, ts: seq<Tree>)
    requires |vs| == |ts|
    ensures Distinct(MetAll(h, vs, ts)) <==>
            && (forall i :: 0 <= i < |ts| ==> Distinct(Met(h, vs[i], ts[i])))
            && forall i, j :: 0 <= i < j < |ts| ==> Disjoint(Met(h, vs[i], ts[i]), Met(h, vs[j], ts[j]))
  {
    hide Met, Distinct, Disjoint;
    if ts == [] {
      assert Distinct([]) by { NoneDistinct(); }
    } else {
      var n := |ts| - 1;
      var us, t := ts[..n], ts[n];
      var ws, v := vs[..n], vs[n];
      DistinctInList(h, ws, us);
      DistinctJoined(MetAll(h, ws, us), Met(h, v, t));
      DisjointFromAll(h, ws, us, Met(h, v, t));
      assert forall i :: 0 <= i < n ==> ws[i] == vs[i] && us[i] == ts[i];
    }
  }

  lemma DisjointFromAll(h: Heap, vs: seq<Val>, ts: seq<Tree>, met: seq<Address>)
    requires |vs| == |ts|
    ensures Disjoint(MetAll(h, vs, ts), met) <==> forall i :: 0 <= i < |ts| ==> Disjoint(Met(h, vs[i], ts[i]), met)
  {
    hide Met, MetAll;
    MetInList(h, vs, ts);
  }

  lemma NoneDistinct()
    ensures Distinct([])
  {
  }

  /** An object is met exactly if it has a place. */
  lemma {:induction false} MetHasPlace(l: Limits, h: Heap, v: Val, t: Tree, a: Address)
    requires Unfolds(l, h, v, t)
    ensures a in Met(h, v, t) <==> exists p :: ObjectAt(h, v, p, a)
    decreases t
  {
    hide CellOk, Distinct;
    assert ObjectAt(h, v, [], a) <==> v == Ref(a);
    if v.Ref? {
      var vs, ts := Values(h[v.address]), t.children;
      MetInList(h, vs, ts);
      forall i | 0 <= i < |ts| ensures a in Met(h, vs[i], ts[i]) <==> exists p :: ObjectAt(h, vs[i], p, a) {
        MetHasPlace(l, h, vs[i], ts[i], a);
      }
      if p :| ObjectAt(h, v, p, a) && p != [] {
        assert ObjectAt(h, vs[p[0]], p[1..], a);
      }
      if i :| 0 <= i < |ts| && a in Met(h, vs[i], ts[i]) {
        var p :| ObjectAt(h, vs[i], p, a);
        assert ([i] + p)[1..] == p;
        assert ObjectAt(h, v, [i] + p, a);
      }
    }
  }

  lemma {:induction false} DistinctIsTree(l: Limits, h: Heap, v: Val, t: Tree)
    requires Unfolds(l, h, v, t) && Distinct(Met(h, v, t))
    ensures IsTree(h, v)
    decreases t
  {
    hide CellOk, Distinct, Met;
    forall p, q, a | ObjectAt(h, v, p, a) && ObjectAt(h, v, q, a) ensures p == q {
      if p != [] || q != [] {
        OnePlace(l, h, v, t, p, q, a);
      }
    }
  }

  lemma {:induction false} OnePlace(l: Limits, h: Heap, v: Val, t: Tree, p: seq<nat>, q: seq<nat>, a: Address)
    requires Unfolds(l, h, v, t) && Distinct(Met(h, v, t)) && ObjectAt(h, v, p, a) && ObjectAt(h, v, q, a)
    ensures p == q
    decreases |p|
  {
    hide CellOk, Distinct, Unfolds, Met;
    if p == [] && q == [] {
      return;
    }
    var b := v.address;
    ObjectUnfolds(l, h, b, t);
    var vs, ts := Values(h[b]), t.children;
    SameLengths(l, h, vs, ts);
    DistinctJoined([b], MetAll(h, vs, ts));
    MetInList(h, vs, ts);
    DistinctInList(h, vs, ts);
    if p != [] {
      PlaceBelow(l, h, vs, ts, v, p, a);
    }
    if q != [] {
      PlaceBelow(l, h, vs, ts, v, q, a);
    }
    NotBelowItself(l, h, b, t);
    if p == [] || q == [] {
      assert false;
    } else if p[0] == q[0] {
      OnePlace(l, h, vs[p[0]], ts[p[0]], p[1..], q[1..], a);
      assert p == [p[0]] + p[1..] && q == [q[0]] + q[1..];
    }
  }

  /** A place below an object is a place in one of its values. */
  lemma PlaceBelow(l: Limits, h: Heap, vs: seq<Val>, ts: seq<Tree>, v: Val, p: seq<nat>, a: Address)
    requires v.Ref? && v.address in h && vs == Values(h[v.address]) && UnfoldsAll(l, h, vs, ts) && p != []
             && ObjectAt(h, v, p, a)
    ensures p[0] < |ts| == |vs| && ObjectAt(h, vs[p[0]], p[1..], a) && Unfolds(l, h, vs[p[0]], ts[p[0]])
    ensures a in Met(h, vs[p[0]], ts[p[0]]) && a in MetAll(h, vs, ts)
  {
    hide Met, Unfolds;
    MetInList(h, vs, ts);
    MetHasPlace(l, h, vs[p[0]], ts[p[0]], a);
  }

  /** Two values of one object in a tree meet no object both. */
  lemma ApartInTree(l: Limits, h: Heap, v: Val, b: Address, i: nat, j: nat, t: Tree, u: Tree)
    requires IsTree(h, v) && v == Ref(b) && b in h && i < j < |Values(h[b])|
    requires Unfolds(l, h, Values(h[b])[i], t) && Unfolds(l, h, Values(h[b])[j], u)
    ensures Disjoint(Met(h, Values(h[b])[i], t), Met(h, Values(h[b])[j], u))
  {
    hide Met, Unfolds, ObjectAt, Values;
    var x, y := Values(h[b])[i], Values(h[b])[j];
    forall a | a in Met(h, x, t) ensures a !in Met(h, y, u) {
      MetHasPlace(l, h, x, t, a);
      MetHasPlace(l, h, y, u, a);
      if a in Met(h, y, u) {
        var p :| ObjectAt(h, x, p, a);
        var q :| ObjectAt(h, y, q, a);
        Deeper(h, v, b, i, p, a);
        Deeper(h, v, b, j, q, a);
      }
    }
  }

  lemma {:induction false} TreeIsDistinct(l: Limits, h: Heap, v: Val, t: Tree)
    requires Unfolds(l, h, v, t) && IsTree(h, v)
    ensures Distinct(Met(h, v, t))
    decreases t
  {
    hide CellOk, Distinct, Met, MetAll, IsTree;
    match v
    case Ref(b) =>
      ObjectUnfolds(l, h, b, t);
      var vs, ts := Values(h[b]), t.children;
      DistinctInList(h, vs, ts);
      forall i | 0 <= i < |ts| ensures Distinct(Met(h, vs[i], ts[i])) {
        assert IsTree(h, vs[i]) by { TreeBelow(h, v, b, i); }
        TreeIsDistinct(l, h, vs[i], ts[i]);
      }
      forall i, j | 0 <= i < j < |ts| ensures Disjoint(Met(h, vs[i], ts[i]), Met(h, vs[j], ts[j])) {
        ApartInTree(l, h, v, b, i, j, ts[i], ts[j]);
      }
      NotBelowItself(l, h, b, t);
      DistinctJoined([b], MetAll(h, vs, ts));
      OneDistinct(b);
    case Atom(text) => AtomUnfolds(l, h, text, t, {}); NoneDistinct();
    case Unsafe => AtomUnfolds(l, h, "", t, {});
  }

  lemma OneDistinct(b: Address)
    ensures Distinct([b])
  {
  }

  lemma Deeper(h: Heap, v: Val, b: Address, i: nat, p: seq<nat>, a: Address)
    requires v == Ref(b) && b in h && i < |Values(h[b])| && ObjectAt(h, Values(h[b])[i], p, a)
    ensures ObjectAt(h, v, [i] + p, a)
  {
    assert ([i] + p)[1..] == p;
  }

  lemma TreeBelow(h: Heap, v: Val, b: Address, i: nat)
    requires IsTree(h, v) && v == Ref(b) && b in h && i < |Values(h[b])|
    ensures IsTree(h, Values(h[b])[i])
  {
    hide ObjectAt, Values;
    forall p, q, a | ObjectAt(h, Values(h[b])[i], p, a) && ObjectAt(h, Values(h[b])[i], q, a) ensures p == q {
      Deeper(h, v, b, i, p, a);
      Deeper(h, v, b, i, q, a);
      assert [i] + p == [i] + q;
      assert ([i] + p)[1..] == p && ([i] + q)[1..] == q;
    }
  }

  /** `clonePlainData` succeeds exactly on plain trees within its budgets, and gives their value. */
  lemma CloneSucceedsOnTrees(h: Heap, v: Val, t: Tree)
    ensures (var r := Clone(CLONE_LIMITS, h, v, {}, 0, 0); r.Cloned? && r.tree == t)
       <==> UnfoldsWithin(CLONE_LIMITS, h, v, t) && IsTree(h, v)
  {
    hide Clone, Unfolds, Met, Size, Depth, Distinct, IsTree;
    CloneSucceeds(h, v, t);
    if Unfolds(CLONE_LIMITS, h, v, t) {
      if IsTree(h, v) {
        TreeIsDistinct(CLONE_LIMITS, h, v, t);
      }
      if Distinct(Met(h, v, t)) {
        DistinctIsTree(CLONE_LIMITS, h, v, t);
      }
    }
  }
}
