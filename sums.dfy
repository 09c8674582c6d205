/** Sums of real values over finite sets of keys, in no particular order:
    the value of Python's `sum(...)` over the keys of a dictionary. */
module Sums {
  import opened Wrappers

  /** The sum of `f` over `s`. */
  ghost function SetSum<T>(s: set<T>, f: T -> real): real
    decreases s
  {
    if s == {} then 0.0 else var x :| x in s; f(x) + SetSum(s - {x}, f)
  }

  /** Any element can be taken out first: the sum does not depend on the order. */
  lemma {:induction false} SetSumRemove<T>(s: set<T>, f: T -> real, y: T)
    requires y in s
    ensures SetSum(s, f) == f(y) + SetSum(s - {y}, f)
    decreases s
  {
    var x :| x in s && SetSum(s, f) == f(x) + SetSum(s - {x}, f);
    if x != y {
      SetSumRemove(s - {x}, f, y);
      SetSumRemove(s - {y}, f, x);
      assert s - {x} - {y} == s - {y} - {x};
    }
  }

  lemma SetSumInsert<T>(s: set<T>, f: T -> real, y: T)
    requires y !in s
    ensures SetSum(s + {y}, f) == SetSum(s, f) + f(y)
  {
    SetSumRemove(s + {y}, f, y);
    assert s + {y} - {y} == s;
  }

  lemma SetSumSingleton<T>(x: T, f: T -> real)
    ensures SetSum({x}, f) == f(x)
  {
    SetSumRemove({x}, f, x);
    assert {x} - {x} == {};
  }

  /** Sums of functions that agree on the set are equal. */
  lemma {:induction false} SetSumCongruence<T>(s: set<T>, f: T -> real, g: T -> real)
    requires forall x :: x in s ==> f(x) == g(x)
    ensures SetSum(s, f) == SetSum(s, g)
    decreases s
  {
    if s != {} {
      var x :| x in s;
      SetSumRemove(s, f, x);
      SetSumRemove(s, g, x);
      SetSumCongruence(s - {x}, f, g);
    }
  }

  /** A sum of zeros is zero. */
  lemma {:induction false} SetSumZero<T>(s: set<T>, f: T -> real)
    requires forall x :: x in s ==> f(x) == 0.0
    ensures SetSum(s, f) == 0.0
    decreases s
  {
    if s != {} {
      var x :| x in s;
      SetSumRemove(s, f, x);
      SetSumZero(s - {x}, f);
    }
  }

  /** The sum is linear: summing `f + g` is summing `f` and `g` apart. */
  lemma {:induction false} SetSumPlus<T>(s: set<T>, f: T -> real, g: T -> real, h: T -> real)
    requires forall x :: x in s ==> h(x) == f(x) + g(x)
    ensures SetSum(s, h) == SetSum(s, f) + SetSum(s, g)
    decreases s
  {
    if s != {} {
      var x :| x in s;
      SetSumRemove(s, f, x);
      SetSumRemove(s, g, x);
      SetSumRemove(s, h, x);
      SetSumPlus(s - {x}, f, g, h);
    }
  }

  /** `w(c)` if `c` is aimed at `k`, nothing otherwise. */
  function Indicator<T(==)>(target: T -> Option<T>, w: T -> real, k: T): T -> real {
    c => if target(c) == Some(k) then w(c) else 0.0
  }

  /** `w(c)` if `c` is aimed at some key of `keys`, nothing otherwise. */
  function Hits<T(==)>(keys: set<T>, target: T -> Option<T>, w: T -> real): T -> real {
    c => if target(c).Some? && target(c).value in keys then w(c) else 0.0
  }

  /** What the items of `items` deliver to `k`. */
  ghost function Column<T>(items: set<T>, target: T -> Option<T>, w: T -> real): T -> real {
    k => SetSum(items, Indicator(target, w, k))
  }

  /** Every item goes to at most one key: summing what each key of `keys`
      receives is summing the weights of the items aimed into `keys`. */
  lemma {:induction false} Exchange<T>(items: set<T>, keys: set<T>, target: T -> Option<T>, w: T -> real)
    ensures SetSum(keys, Column(items, target, w)) == SetSum(items, Hits(keys, target, w))
    decreases keys
  {
    if keys == {} {
      SetSumZero(items, Hits(keys, target, w));
    } else {
      var k :| k in keys;
      var rest := keys - {k};
      SetSumRemove(keys, Column(items, target, w), k);
      assert Column(items, target, w)(k) == SetSum(items, Indicator(target, w, k));
      Exchange(items, rest, target, w);
      HitsSplit(items, keys, target, w, k);
      SetSumPlus(items, Indicator(target, w, k), Hits(rest, target, w), Hits(keys, target, w));
    }
  }

  /** What is aimed into `keys` is what is aimed at `k` plus what is aimed at the rest. */
  lemma HitsSplit<T>(items: set<T>, keys: set<T>, target: T -> Option<T>, w: T -> real, k: T)
    requires k in keys
    ensures forall c :: c in items ==>
      Hits(keys, target, w)(c) == Indicator(target, w, k)(c) + Hits(keys - {k}, target, w)(c)
  {
  }
}
