/** Small shared vocabulary: optional values, clamped arithmetic, and finite sums. */
module Util {

  datatype Option<+T> = None | Some(value: T)

  datatype Result<+T, +E> = Ok(value: T) | Err(error: E)

  function Min(a: int, b: int): (r: int)
    ensures r <= a && r <= b && (r == a || r == b)
  {
    if a < b then a else b
  }

  function Max(a: int, b: int): (r: int)
    ensures r >= a && r >= b && (r == a || r == b)
  {
    if a < b then b else a
  }

  /** The part of `a` above zero. */
  function Positive(a: int): (r: nat)
    ensures r == Max(a, 0)
  {
    if a > 0 then a else 0
  }

  /** The elements of `s` that satisfy `p`, in order. */
  function Filter<T(!new)>(s: seq<T>, p: T -> bool): (r: seq<T>)
    ensures |r| <= |s|
    ensures forall x :: x in r <==> x in s && p(x)
  {
    if s == [] then []
    else
      var rest := Filter(s[..|s| - 1], p);
      if p(s[|s| - 1]) then rest + [s[|s| - 1]] else rest
  }

  lemma SomeMember<T>(s: seq<T>)
    ensures s == [] || exists x :: x in s
  {
    if s != [] { assert s[0] in s; }
  }

  ghost predicate Distinct<T>(s: seq<T>) {
    forall i, j :: 0 <= i < j < |s| ==> s[i] != s[j]
  }

  /** The sum of `f` over a finite set of naturals. */
  ghost function SumOf(s: set<nat>, f: nat -> nat): nat
    decreases |s|
  {
    if s == {} then 0
    else
      var x :| x in s;
      f(x) + SumOf(s - {x}, f)
  }

  lemma {:induction false} SumOfRemove(s: set<nat>, f: nat -> nat, x: nat)
    requires x in s
    ensures SumOf(s, f) == f(x) + SumOf(s - {x}, f)
    decreases |s|
  {
    var y :| y in s && SumOf(s, f) == f(y) + SumOf(s - {y}, f);
    if y != x {
      SumOfRemove(s - {y}, f, x);
      SumOfRemove(s - {x}, f, y);
      assert s - {y} - {x} == s - {x} - {y};
    }
  }

  lemma SumOfAdd(s: set<nat>, f: nat -> nat, x: nat)
    requires x !in s
    ensures SumOf(s + {x}, f) == f(x) + SumOf(s, f)
  {
    SumOfRemove(s + {x}, f, x);
    assert s + {x} - {x} == s;
  }

  lemma {:induction false} SumOfMonotone(s: set<nat>, t: set<nat>, f: nat -> nat)
    requires s <= t
    ensures SumOf(s, f) <= SumOf(t, f)
    decreases |t|
  {
    if s != t {
      var x :| x in t && x !in s;
      SumOfRemove(t, f, x);
      SumOfMonotone(s, t - {x}, f);
    }
  }
}
