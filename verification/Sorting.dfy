/** The stable sort by a string key, and why the order of its input does not matter. */
module Sorting {
  import opened Texts

  /** `x` is put before the first element whose key is not smaller than its own. */
  function Insert<T>(key: T -> string, x: T, xs: seq<T>): seq<T> {
    if xs == [] || !Less(key(xs[0]), key(x)) then [x] + xs
    else [xs[0]] + Insert(key, x, xs[1..])
  }

  function Sort<T>(key: T -> string, xs: seq<T>): seq<T> {
    if xs == [] then [] else Insert(key, xs[0], Sort(key, xs[1..]))
  }

  ghost predicate Sorted<T>(key: T -> string, xs: seq<T>) {
    forall i, j :: 0 <= i < j < |xs| ==> !Less(key(xs[j]), key(xs[i]))
  }

  /** Equal keys only on equal elements. */
  ghost predicate KeyDetermines<T>(key: T -> string, xs: seq<T>) {
    forall i, j :: 0 <= i < |xs| && 0 <= j < |xs| && key(xs[i]) == key(xs[j]) ==> xs[i] == xs[j]
  }

  lemma {:induction false} InsertPermutes<T>(key: T -> string, x: T, xs: seq<T>)
    ensures multiset(Insert(key, x, xs)) == multiset{x} + multiset(xs)
  {
    if xs == [] || !Less(key(xs[0]), key(x)) {
    } else {
      InsertPermutes(key, x, xs[1..]);
      assert xs == [xs[0]] + xs[1..];
    }
  }

  lemma {:induction false} SortPermutes<T>(key: T -> string, xs: seq<T>)
    ensures multiset(Sort(key, xs)) == multiset(xs)
  {
    if xs != [] {
      SortPermutes(key, xs[1..]);
      InsertPermutes(key, xs[0], Sort(key, xs[1..]));
      assert xs == [xs[0]] + xs[1..];
    }
  }

  lemma {:induction false} InsertSorts<T>(key: T -> string, x: T, xs: seq<T>)
    requires Sorted(key, xs)
    ensures Sorted(key, Insert(key, x, xs))
  {
    if xs == [] {
    } else if !Less(key(xs[0]), key(x)) {
      forall j | 0 <= j < |xs| ensures !Less(key(xs[j]), key(x)) {
        if Less(key(xs[j]), key(x)) {
          LessTotal(key(x), key(xs[0]));
          if Less(key(x), key(xs[0])) {
            LessTransitive(key(xs[j]), key(x), key(xs[0]));
          }
        }
      }
    } else {
      var rest := Insert(key, x, xs[1..]);
      InsertSorts(key, x, xs[1..]);
      InsertPermutes(key, x, xs[1..]);
      LessAsymmetric(key(xs[0]), key(x));
      forall j | 0 <= j < |rest| ensures !Less(key(rest[j]), key(xs[0])) {
        assert rest[j] in multiset(rest);
        assert rest[j] == x || rest[j] in xs[1..];
      }
    }
  }

  lemma {:induction false} SortSorts<T>(key: T -> string, xs: seq<T>)
    ensures Sorted(key, Sort(key, xs))
  {
    if xs != [] {
      SortSorts(key, xs[1..]);
      InsertSorts(key, xs[0], Sort(key, xs[1..]));
    }
  }

  lemma SortedHeads<T>(key: T -> string, a: seq<T>, b: seq<T>)
    requires Sorted(key, a) && Sorted(key, b) && multiset(a) == multiset(b)
    requires KeyDetermines(key, a) && a != [] && b != []
    ensures a[0] == b[0]
  {
    assert a[0] in multiset(b) && b[0] in multiset(a);
    var i :| 0 <= i < |b| && b[i] == a[0];
    var j :| 0 <= j < |a| && a[j] == b[0];
    assert !Less(key(a[0]), key(b[0])) by { LessIrreflexive(key(a[0])); }
    assert !Less(key(b[0]), key(a[0])) by { LessIrreflexive(key(a[0])); }
    LessTotal(key(a[0]), key(b[0]));
  }

  lemma TailSorted<T>(key: T -> string, a: seq<T>)
    requires Sorted(key, a) && a != []
    ensures Sorted(key, a[1..]) && multiset(a[1..]) == multiset(a) - multiset{a[0]}
    ensures KeyDetermines(key, a) ==> KeyDetermines(key, a[1..])
  {
    assert a == [a[0]] + a[1..];
  }

  lemma SameLength<T>(a: seq<T>, b: seq<T>)
    requires multiset(a) == multiset(b)
    ensures |a| == |b|
  {
    assert |multiset(a)| == |multiset(b)|;
  }

  /** Two sorted sequences of the same elements are the same sequence. */
  lemma {:induction false} SortedUnique<T>(key: T -> string, a: seq<T>, b: seq<T>)
    requires Sorted(key, a) && Sorted(key, b) && multiset(a) == multiset(b)
    requires KeyDetermines(key, a)
    ensures a == b
  {
    hide Sorted, KeyDetermines;
    SameLength(a, b);
    if a != [] {
      SortedHeads(key, a, b);
      TailSorted(key, a);
      TailSorted(key, b);
      SortedUnique(key, a[1..], b[1..]);
      HeadAndTail(a, b);
    }
  }

  lemma HeadAndTail<T>(a: seq<T>, b: seq<T>)
    requires a != [] && b != [] && a[0] == b[0] && a[1..] == b[1..]
    ensures a == b
  {
    assert a == [a[0]] + a[1..] && b == [b[0]] + b[1..];
  }

  /** A permuted input sorts to the same sequence. */
  lemma SortIgnoresOrder<T>(key: T -> string, a: seq<T>, b: seq<T>)
    requires multiset(a) == multiset(b) && KeyDetermines(key, a)
    ensures Sort(key, a) == Sort(key, b)
  {
    SortPermutes(key, a);
    SortPermutes(key, b);
    SortSorts(key, a);
    SortSorts(key, b);
    KeyDeterminesPermuted(key, a, Sort(key, a));
    SortedUnique(key, Sort(key, a), Sort(key, b));
  }

  lemma KeyDeterminesPermuted<T>(key: T -> string, a: seq<T>, b: seq<T>)
    requires multiset(a) == multiset(b) && KeyDetermines(key, a)
    ensures KeyDetermines(key, b)
  {
    forall i, j | 0 <= i < |b| && 0 <= j < |b| && key(b[i]) == key(b[j]) ensures b[i] == b[j] {
      assert b[i] in multiset(a) && b[j] in multiset(a);
    }
  }

  lemma {:induction false} InsertAtFront<T>(key: T -> string, x: T, xs: seq<T>)
    requires Sorted(key, [x] + xs)
    ensures Insert(key, x, xs) == [x] + xs
  {
    if xs != [] {
      var s := [x] + xs;
      assert s[0] == x && s[1] == xs[0];
      assert !Less(key(s[1]), key(s[0]));
    }
  }

  /** Sorting a sorted sequence changes nothing, whatever its keys. */
  lemma {:induction false} SortSorted<T>(key: T -> string, xs: seq<T>)
    requires Sorted(key, xs)
    ensures Sort(key, xs) == xs
  {
    if xs != [] {
      SortSorted(key, xs[1..]);
      assert xs == [xs[0]] + xs[1..];
      InsertAtFront(key, xs[0], xs[1..]);
    }
  }

  /** `[...new Set(xs)]`: the first occurrence of every element, in order. */
  function Distinct<T(==)>(xs: seq<T>): seq<T> {
    if xs == [] then []
    else
      var rest := Distinct(xs[..|xs| - 1]);
      if xs[|xs| - 1] in rest then rest else rest + [xs[|xs| - 1]]
  }

  lemma {:induction false} DistinctKeepsMembers<T>(xs: seq<T>)
    ensures forall x :: x in Distinct(xs) <==> x in xs
    ensures forall i, j :: 0 <= i < j < |Distinct(xs)| ==> Distinct(xs)[i] != Distinct(xs)[j]
  {
    if xs != [] {
      var init, last := xs[..|xs| - 1], xs[|xs| - 1];
      DistinctKeepsMembers(init);
      assert xs == init + [last];
    }
  }

  /** A permutation of distinct elements is distinct. */
  lemma {:induction false} PermutedDistinct<T>(xs: seq<T>, ys: seq<T>)
    requires multiset(xs) == multiset(ys)
    requires forall i, j :: 0 <= i < j < |xs| ==> xs[i] != xs[j]
    ensures forall i, j :: 0 <= i < j < |ys| ==> ys[i] != ys[j]
  {
    forall i, j | 0 <= i < j < |ys| ensures ys[i] != ys[j] {
      if ys[i] == ys[j] {
        assert ys == ys[..i] + [ys[i]] + ys[i + 1..j] + [ys[j]] + ys[j + 1..];
        assert multiset(ys)[ys[i]] >= 2;
        OnceEach(xs, ys[i]);
      }
    }
  }

  lemma {:induction false} OnceEach<T>(xs: seq<T>, x: T)
    requires forall i, j :: 0 <= i < j < |xs| ==> xs[i] != xs[j]
    ensures multiset(xs)[x] <= 1
  {
    if xs != [] {
      assert xs == [xs[0]] + xs[1..];
      OnceEach(xs[1..], x);
      assert x == xs[0] ==> x !in xs[1..];
    }
  }

  /** Equal keys and equal images at every position. */
  ghost predicate Alike<T, V(!new)>(key: T -> string, v: T -> V, xs: seq<T>, ys: seq<T>) {
    |xs| == |ys| && forall i :: 0 <= i < |xs| ==> key(xs[i]) == key(ys[i]) && v(xs[i]) == v(ys[i])
  }

  lemma {:induction false} InsertAlike<T, V(!new)>(key: T -> string, v: T -> V, x: T, y: T, xs: seq<T>, ys: seq<T>)
    requires Alike(key, v, xs, ys) && key(x) == key(y) && v(x) == v(y)
    ensures Alike(key, v, Insert(key, x, xs), Insert(key, y, ys))
  {
    if xs != [] && Less(key(xs[0]), key(x)) {
      InsertAlike(key, v, x, y, xs[1..], ys[1..]);
    }
  }

  /** Sorting looks at keys only: what is alike before sorting is alike after it. */
  lemma {:induction false} SortAlike<T, V(!new)>(key: T -> string, v: T -> V, xs: seq<T>, ys: seq<T>)
    requires Alike(key, v, xs, ys)
    ensures Alike(key, v, Sort(key, xs), Sort(key, ys))
  {
    if xs != [] {
      SortAlike(key, v, xs[1..], ys[1..]);
      InsertAlike(key, v, xs[0], ys[0], Sort(key, xs[1..]), Sort(key, ys[1..]));
    }
  }
}
