/** The one sort used throughout: stable, by a real key, largest first. It stands for Python's sorted with
reverse=True, or with a negated key. */
module StableSort {

  function InsertDesc<T>(x: T, ys: seq<T>, key: T -> real): seq<T> {
    if ys == [] || key(x) >= key(ys[0]) then [x] + ys
    else [ys[0]] + InsertDesc(x, ys[1..], key)
  }

  function SortDesc<T>(xs: seq<T>, key: T -> real): seq<T> {
    if xs == [] then [] else InsertDesc(xs[0], SortDesc(xs[1..], key), key)
  }

  ghost predicate Descending<T>(xs: seq<T>, key: T -> real) {
    forall i, j :: 0 <= i < j < |xs| ==> key(xs[i]) >= key(xs[j])
  }

  // The elements of one key, in order.
  function WithKey<T>(xs: seq<T>, key: T -> real, v: real): seq<T> {
    if xs == [] then []
    else (if key(xs[0]) == v then [xs[0]] else []) + WithKey(xs[1..], key, v)
  }

  lemma {:induction false} InsertPermutes<T>(x: T, ys: seq<T>, key: T -> real)
    ensures multiset(InsertDesc(x, ys, key)) == multiset([x] + ys)
    ensures |InsertDesc(x, ys, key)| == |ys| + 1
  {
    if ys != [] && key(x) < key(ys[0]) {
      InsertPermutes(x, ys[1..], key);
      assert ys == [ys[0]] + ys[1..];
    }
  }

  lemma {:induction false} InsertSorts<T>(x: T, ys: seq<T>, key: T -> real)
    requires Descending(ys, key)
    ensures Descending(InsertDesc(x, ys, key), key)
  {
    if ys != [] && key(x) < key(ys[0]) {
      InsertSorts(x, ys[1..], key);
      InsertPermutes(x, ys[1..], key);
      var rest := InsertDesc(x, ys[1..], key);
      forall j | 0 <= j < |rest| ensures key(ys[0]) >= key(rest[j]) {
        assert rest[j] in multiset([x] + ys[1..]);
        assert rest[j] == x || rest[j] in ys[1..];
      }
    }
  }

  lemma {:induction false} InsertIsStable<T>(x: T, ys: seq<T>, key: T -> real, v: real)
    requires Descending(ys, key)
    ensures WithKey(InsertDesc(x, ys, key), key, v) == WithKey([x] + ys, key, v)
  {
    if ys == [] || key(x) >= key(ys[0]) {
    } else {
      var r := InsertDesc(x, ys, key);
      InsertIsStable(x, ys[1..], key, v);
      assert r[1..] == InsertDesc(x, ys[1..], key);
      assert ([x] + ys[1..])[1..] == ys[1..] && ([x] + ys)[1..] == ys;
    }
  }

  /** The sort is descending, a permutation, and keeps the order of equal keys. */
  lemma {:induction false} SortDescSorts<T>(xs: seq<T>, key: T -> real)
    ensures Descending(SortDesc(xs, key), key)
    ensures multiset(SortDesc(xs, key)) == multiset(xs)
    ensures |SortDesc(xs, key)| == |xs|
    ensures forall v :: WithKey(SortDesc(xs, key), key, v) == WithKey(xs, key, v)
  {
    if xs != [] {
      var ys := SortDesc(xs[1..], key);
      SortDescSorts(xs[1..], key);
      InsertSorts(xs[0], ys, key);
      InsertPermutes(xs[0], ys, key);
      assert xs == [xs[0]] + xs[1..];
      forall v ensures WithKey(SortDesc(xs, key), key, v) == WithKey(xs, key, v) {
        InsertIsStable(xs[0], ys, key, v);
        assert ([xs[0]] + ys)[1..] == ys;
      }
    }
  }

  // x stands before y.
  ghost predicate Before<T>(xs: seq<T>, x: T, y: T) {
    exists i, j :: 0 <= i < j < |xs| && xs[i] == x && xs[j] == y
  }

  lemma BeforeCons<T>(z: T, xs: seq<T>, x: T, y: T)
    requires Before(xs, x, y) || (z == x && y in xs)
    ensures Before([z] + xs, x, y)
  {
    var all := [z] + xs;
    if Before(xs, x, y) {
      var i, j :| 0 <= i < j < |xs| && xs[i] == x && xs[j] == y;
      assert all[i + 1] == x && all[j + 1] == y;
    } else {
      var j :| 0 <= j < |xs| && xs[j] == y;
      assert all[0] == x && all[j + 1] == y;
    }
  }

  lemma BeforeTail<T>(xs: seq<T>, x: T, y: T)
    requires xs != [] && Before(xs, x, y)
    ensures (xs[0] == x && y in xs[1..]) || Before(xs[1..], x, y)
  {
    var i, j :| 0 <= i < j < |xs| && xs[i] == x && xs[j] == y;
    assert xs[1..][j - 1] == y;
    if i > 0 {
      assert xs[1..][i - 1] == x;
    }
  }

  lemma InsertHas<T>(z: T, ys: seq<T>, key: T -> real, x: T)
    ensures x in InsertDesc(z, ys, key) <==> x == z || x in ys
  {
    InsertPermutes(z, ys, key);
    assert x in multiset(InsertDesc(z, ys, key)) <==> x in multiset([z] + ys);
  }

  lemma {:induction false} InsertKeepsBefore<T>(z: T, ys: seq<T>, key: T -> real, x: T, y: T)
    requires Before(ys, x, y)
    ensures Before(InsertDesc(z, ys, key), x, y)
  {
    if ys == [] || key(z) >= key(ys[0]) {
      BeforeCons(z, ys, x, y);
    } else {
      BeforeTail(ys, x, y);
      if Before(ys[1..], x, y) {
        InsertKeepsBefore(z, ys[1..], key, x, y);
      } else {
        InsertHas(z, ys[1..], key, y);
      }
      BeforeCons(ys[0], InsertDesc(z, ys[1..], key), x, y);
    }
  }

  // The inserted element stands before all of no larger key.
  lemma {:induction false} InsertedBefore<T>(z: T, ys: seq<T>, key: T -> real, y: T)
    requires y in ys && key(z) >= key(y) && Descending(ys, key)
    ensures Before(InsertDesc(z, ys, key), z, y)
  {
    if key(z) >= key(ys[0]) {
      BeforeCons(z, ys, z, y);
    } else {
      assert y in ys[1..];
      InsertedBefore(z, ys[1..], key, y);
      BeforeCons(ys[0], InsertDesc(z, ys[1..], key), z, y);
    }
  }

  // And all of larger key stand before it.
  lemma {:induction false} LargerBefore<T>(z: T, ys: seq<T>, key: T -> real, x: T)
    requires x in ys && key(x) > key(z) && Descending(ys, key)
    ensures Before(InsertDesc(z, ys, key), x, z)
  {
    assert key(ys[0]) >= key(x);
    if ys[0] == x {
      InsertHas(z, ys[1..], key, z);
    } else {
      assert x in ys[1..];
      LargerBefore(z, ys[1..], key, x);
    }
    BeforeCons(ys[0], InsertDesc(z, ys[1..], key), x, z);
  }

  lemma SortHas<T>(xs: seq<T>, key: T -> real, x: T)
    ensures x in SortDesc(xs, key) <==> x in xs
  {
    SortDescSorts(xs, key);
    assert x in multiset(SortDesc(xs, key)) <==> x in multiset(xs);
  }

  lemma {:induction false} LargerGoesFirst<T>(xs: seq<T>, key: T -> real, x: T, y: T)
    requires x in xs && y in xs && key(x) > key(y)
    ensures Before(SortDesc(xs, key), x, y)
  {
    var z, ys := xs[0], SortDesc(xs[1..], key);
    SortDescSorts(xs[1..], key);
    SortHas(xs[1..], key, x);
    SortHas(xs[1..], key, y);
    if x == z {
      InsertedBefore(z, ys, key, y);
    } else if y == z {
      LargerBefore(z, ys, key, x);
    } else {
      LargerGoesFirst(xs[1..], key, x, y);
      InsertKeepsBefore(z, ys, key, x, y);
    }
  }

  lemma {:induction false} EarlierGoesFirst<T>(xs: seq<T>, key: T -> real, x: T, y: T)
    requires Before(xs, x, y) && key(x) == key(y)
    ensures Before(SortDesc(xs, key), x, y)
  {
    var z, ys := xs[0], SortDesc(xs[1..], key);
    SortDescSorts(xs[1..], key);
    BeforeTail(xs, x, y);
    if Before(xs[1..], x, y) {
      EarlierGoesFirst(xs[1..], key, x, y);
      InsertKeepsBefore(z, ys, key, x, y);
    } else {
      SortHas(xs[1..], key, y);
      InsertedBefore(z, ys, key, y);
    }
  }

  /** What is larger, or as large and earlier, stands before. */
  lemma SortPutsBefore<T>(xs: seq<T>, key: T -> real, x: T, y: T)
    requires (key(x) > key(y) && x in xs && y in xs) || (key(x) == key(y) && Before(xs, x, y))
    ensures Before(SortDesc(xs, key), x, y)
  {
    if key(x) == key(y) {
      EarlierGoesFirst(xs, key, x, y);
    } else {
      LargerGoesFirst(xs, key, x, y);
    }
  }

  lemma SortOne<T>(x: T, key: T -> real)
    ensures SortDesc([x], key) == [x]
  {
    assert [x][1..] == [];
  }

  lemma {:induction false} WithKeyHas<T>(xs: seq<T>, key: T -> real, i: nat)
    requires i < |xs|
    ensures WithKey(xs, key, key(xs[i])) != []
  {
    if i > 0 {
      WithKeyHas(xs[1..], key, i - 1);
    }
  }

  lemma {:induction false} WithKeyFrom<T>(xs: seq<T>, key: T -> real, v: real)
    requires WithKey(xs, key, v) != []
    ensures exists i :: 0 <= i < |xs| && key(xs[i]) == v
  {
    if key(xs[0]) != v {
      WithKeyFrom(xs[1..], key, v);
      var i :| 0 <= i < |xs[1..]| && key(xs[1..][i]) == v;
      assert xs[i + 1] == xs[1..][i];
    }
  }

  /** Descending order and stability determine the result, so any stable descending sort is this one. */
  lemma {:induction false} StableOrderIsUnique<T>(a: seq<T>, b: seq<T>, key: T -> real)
    requires Descending(a, key) && Descending(b, key)
    requires forall v :: WithKey(a, key, v) == WithKey(b, key, v)
    ensures a == b
  {
    if b != [] {
      WithKeyHas(b, key, 0);
    }
    if a != [] {
      WithKeyHas(a, key, 0);
      WithKeyFrom(b, key, key(a[0]));
      WithKeyHas(b, key, 0);
      WithKeyFrom(a, key, key(b[0]));
      assert key(a[0]) == key(b[0]);
      assert WithKey(a, key, key(a[0]))[0] == a[0] && WithKey(b, key, key(a[0]))[0] == b[0];
      forall v ensures WithKey(a[1..], key, v) == WithKey(b[1..], key, v) {
        assert WithKey(a, key, v) == WithKey(b, key, v);
        var head := if key(a[0]) == v then [a[0]] else [];
        assert WithKey(a, key, v) == head + WithKey(a[1..], key, v);
        assert WithKey(b, key, v) == head + WithKey(b[1..], key, v);
        assert (head + WithKey(a[1..], key, v))[|head|..] == WithKey(a[1..], key, v);
        assert (head + WithKey(b[1..], key, v))[|head|..] == WithKey(b[1..], key, v);
      }
      StableOrderIsUnique(a[1..], b[1..], key);
      assert a == [a[0]] + a[1..] && b == [b[0]] + b[1..];
    }
  }
}
