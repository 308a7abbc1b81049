/**
 Sums of a real-valued measure over a sequence, and how they react to the three
 things the stores do to a sequence: append, overwrite one place, and reorder.
 */
module Sums {

  function SumBy<T>(xs: seq<T>, f: T -> real): real {
    if xs == [] then 0.0 else SumBy(xs[..|xs| - 1], f) + f(xs[|xs| - 1])
  }

  lemma {:induction false} SumAppend<T>(xs: seq<T>, x: T, f: T -> real)
    ensures SumBy(xs + [x], f) == SumBy(xs, f) + f(x)
  {
    assert (xs + [x])[..|xs|] == xs;
  }

  lemma {:induction false} SumConcat<T>(xs: seq<T>, ys: seq<T>, f: T -> real)
    ensures SumBy(xs + ys, f) == SumBy(xs, f) + SumBy(ys, f)
  {
    if ys == [] {
      assert xs + ys == xs;
    } else {
      var init, last := ys[..|ys| - 1], ys[|ys| - 1];
      assert xs + ys == (xs + init) + [last];
      SumAppend(xs + init, last, f);
      SumConcat(xs, init, f);
    }
  }

  lemma {:induction false} SumUpdate<T>(xs: seq<T>, i: nat, x: T, f: T -> real)
    requires i < |xs|
    ensures SumBy(xs[i := x], f) == SumBy(xs, f) - f(xs[i]) + f(x)
  {
    var n := |xs| - 1;
    if i == n {
      assert xs[i := x][..n] == xs[..n];
    } else {
      assert xs[i := x][..n] == xs[..n][i := x];
      SumUpdate(xs[..n], i, x, f);
    }
  }

  lemma {:induction false} SumCong<T>(xs: seq<T>, f: T -> real, g: T -> real)
    requires forall x | x in xs :: f(x) == g(x)
    ensures SumBy(xs, f) == SumBy(xs, g)
  {
    if xs != [] {
      SumCong(xs[..|xs| - 1], f, g);
    }
  }

  lemma {:induction false} SumMonotone<T>(xs: seq<T>, f: T -> real, g: T -> real)
    requires forall x | x in xs :: f(x) <= g(x)
    ensures SumBy(xs, f) <= SumBy(xs, g)
  {
    if xs != [] {
      SumMonotone(xs[..|xs| - 1], f, g);
    }
  }

  lemma {:induction false} SumZero<T>(xs: seq<T>, f: T -> real)
    requires forall x | x in xs :: f(x) == 0.0
    ensures SumBy(xs, f) == 0.0
  {
    if xs != [] {
      SumZero(xs[..|xs| - 1], f);
    }
  }

  lemma {:induction false} SumRemove<T>(xs: seq<T>, i: nat, f: T -> real)
    requires i < |xs|
    ensures SumBy(xs, f) == SumBy(xs[..i] + xs[i + 1..], f) + f(xs[i])
  {
    assert xs == (xs[..i] + [xs[i]]) + xs[i + 1..];
    SumConcat(xs[..i] + [xs[i]], xs[i + 1..], f);
    SumAppend(xs[..i], xs[i], f);
    SumConcat(xs[..i], xs[i + 1..], f);
  }

  lemma {:induction false} SumSole<T>(xs: seq<T>, i: nat, f: T -> real)
    requires i < |xs| && forall j | 0 <= j < |xs| && j != i :: f(xs[j]) == 0.0
    ensures SumBy(xs, f) == f(xs[i])
  {
    var rest := xs[..i] + xs[i + 1..];
    forall x | x in rest ensures f(x) == 0.0 {
      var j :| 0 <= j < |rest| && rest[j] == x;
      assert x == xs[if j < i then j else j + 1];
    }
    SumRemove(xs, i, f);
    SumZero(rest, f);
  }

  // A sum sees only how often each element occurs, never where.
  lemma {:induction false} SumReorder<T>(xs: seq<T>, ys: seq<T>, f: T -> real)
    requires multiset(xs) == multiset(ys)
    ensures SumBy(xs, f) == SumBy(ys, f)
    decreases |xs|
  {
    if xs == [] {
      assert |ys| == |multiset(ys)| == 0;
    } else {
      var n := |xs| - 1;
      assert xs == xs[..n] + [xs[n]];
      assert xs[n] in multiset(ys);
      var i :| 0 <= i < |ys| && ys[i] == xs[n];
      assert ys == (ys[..i] + [ys[i]]) + ys[i + 1..];
      assert multiset(ys[..i] + ys[i + 1..]) == multiset(ys) - multiset{xs[n]};
      SumRemove(ys, i, f);
      SumReorder(xs[..n], ys[..i] + ys[i + 1..], f);
    }
  }

  // --- Sums over the documents whose key lies in a chosen set ---

  predicate DistinctKeys<T>(xs: seq<T>, key: T -> string) {
    forall i, j | 0 <= i < j < |xs| :: key(xs[i]) != key(xs[j])
  }

  function Picked<T>(key: T -> string, val: T -> real, keys: set<string>): T -> real {
    (x: T) => if key(x) in keys then val(x) else 0.0
  }

  function SumIn<T>(xs: seq<T>, key: T -> string, val: T -> real, keys: set<string>): real {
    SumBy(xs, Picked(key, val, keys))
  }

  lemma {:induction false} SumInAddKey<T>(xs: seq<T>, key: T -> string, val: T -> real, keys: set<string>, i: nat)
    requires DistinctKeys(xs, key) && i < |xs| && key(xs[i]) !in keys
    ensures SumIn(xs, key, val, keys + {key(xs[i])}) == SumIn(xs, key, val, keys) + val(xs[i])
  {
    var rest := xs[..i] + xs[i + 1..];
    var more := keys + {key(xs[i])};
    SumRemove(xs, i, Picked(key, val, keys));
    SumRemove(xs, i, Picked(key, val, more));
    SumCong(rest, Picked(key, val, keys), Picked(key, val, more));
  }

  lemma {:induction false} SumInAppend<T>(xs: seq<T>, x: T, key: T -> string, val: T -> real, keys: set<string>)
    requires key(x) !in keys
    ensures SumIn(xs + [x], key, val, keys) == SumIn(xs, key, val, keys)
  {
    SumAppend(xs, x, Picked(key, val, keys));
  }

  lemma {:induction false} SumInAll<T>(xs: seq<T>, key: T -> string, val: T -> real, keys: set<string>)
    requires forall x | x in xs && val(x) != 0.0 :: key(x) in keys
    ensures SumIn(xs, key, val, keys) == SumBy(xs, val)
  {
    SumCong(xs, Picked(key, val, keys), val);
  }

  lemma {:induction false} SumInBounded<T>(xs: seq<T>, key: T -> string, val: T -> real, keys: set<string>)
    requires forall x | x in xs :: val(x) >= 0.0
    ensures SumIn(xs, key, val, keys) <= SumBy(xs, val)
  {
    SumMonotone(xs, Picked(key, val, keys), val);
  }

  ghost function KeysOf<T>(xs: seq<T>, key: T -> string): set<string> {
    set x | x in xs :: key(x)
  }

  lemma {:induction false} SumInAbsentKey<T>(xs: seq<T>, key: T -> string, val: T -> real, keys: set<string>, k: string)
    requires forall x | x in xs :: key(x) != k
    ensures SumIn(xs, key, val, keys + {k}) == SumIn(xs, key, val, keys)
  {
    SumCong(xs, Picked(key, val, keys + {k}), Picked(key, val, keys));
  }

  // Two keyed collections whose members of one key have one measure: the first sums to as much of
  // the second as it has keys for.
  lemma {:induction false} SumMatched<S, T>(xs: seq<S>, id: S -> string, f: S -> real, ys: seq<T>, key: T -> string,
      val: T -> real)
    requires DistinctKeys(xs, id) && DistinctKeys(ys, key)
    requires forall x, y | x in xs && y in ys && id(x) == key(y) :: f(x) == val(y)
    requires forall x | x in xs && f(x) != 0.0 :: exists y :: y in ys && key(y) == id(x)
    ensures SumBy(xs, f) == SumIn(ys, key, val, KeysOf(xs, id))
  {
    if xs == [] {
      assert KeysOf(xs, id) == {};
      SumZero(ys, Picked(key, val, {}));
    } else {
      var init, last := xs[..|xs| - 1], xs[|xs| - 1];
      SumMatched(init, id, f, ys, key, val);
      assert KeysOf(xs, id) == KeysOf(init, id) + {id(last)};
      if j :| 0 <= j < |ys| && key(ys[j]) == id(last) {
        SumInAddKey(ys, key, val, KeysOf(init, id), j);
      } else {
        SumInAbsentKey(ys, key, val, KeysOf(init, id), id(last));
      }
    }
  }

  lemma {:induction false} KeysAppend<T>(xs: seq<T>, x: T, key: T -> string)
    ensures KeysOf(xs + [x], key) == KeysOf(xs, key) + {key(x)}
  {
    assert forall y :: y in xs + [x] <==> y in xs || y == x;
  }

  // A sum over a keyed collection is determined by its keys and the measure of each key.
  lemma {:induction false} SumByKeys<T>(xs: seq<T>, ys: seq<T>, key: T -> string, f: T -> real)
    requires DistinctKeys(xs, key) && DistinctKeys(ys, key) && KeysOf(xs, key) == KeysOf(ys, key)
    requires forall x, y | x in xs && y in ys && key(x) == key(y) :: f(x) == f(y)
    ensures SumBy(xs, f) == SumBy(ys, f)
  {
    forall x | x in xs ensures exists y :: y in ys && key(y) == key(x) {
      assert key(x) in KeysOf(ys, key);
    }
    SumMatched(xs, key, f, ys, key, f);
    forall y | y in ys ensures key(y) in KeysOf(xs, key) {
      assert key(y) in KeysOf(ys, key);
    }
    SumInAll(ys, key, f, KeysOf(xs, key));
  }

  lemma {:induction false} SumSplit<T>(xs: seq<T>, f: T -> real, g: T -> real, h: T -> real)
    requires forall x | x in xs :: f(x) + g(x) == h(x)
    ensures SumBy(xs, f) + SumBy(xs, g) == SumBy(xs, h)
  {
    if xs != [] {
      SumSplit(xs[..|xs| - 1], f, g, h);
    }
  }

  lemma {:induction false} SumZeroIff<T>(xs: seq<T>, f: T -> real)
    requires forall x | x in xs :: f(x) >= 0.0
    ensures SumBy(xs, f) >= 0.0
    ensures SumBy(xs, f) == 0.0 <==> forall x | x in xs :: f(x) == 0.0
  {
    if xs != [] {
      var init, last := xs[..|xs| - 1], xs[|xs| - 1];
      SumZeroIff(init, f);
      assert forall x :: x in xs <==> x in init || x == last;
    }
  }
}
