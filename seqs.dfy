/**
 * `Array.prototype.filter`, `map` and the summing `reduce` the app uses,
 * as functions on sequences, with the facts the other modules rely on.
 */
module Seqs {

  /** `xs.filter(p)`. */
  function Filter<T>(xs: seq<T>, p: T -> bool): (r: seq<T>)
    ensures |r| <= |xs|
  {
    if xs == [] then []
    else if p(xs[0]) then [xs[0]] + Filter(xs[1..], p)
    else Filter(xs[1..], p)
  }

  /** `xs.map(f)`. */
  function MapSeq<T, U>(xs: seq<T>, f: T -> U): (r: seq<U>)
    ensures |r| == |xs|
    ensures forall i :: 0 <= i < |xs| ==> r[i] == f(xs[i])
  {
    if xs == [] then [] else [f(xs[0])] + MapSeq(xs[1..], f)
  }

  /** An element is in `xs.map(f)` exactly when it is the image of an element of xs. */
  lemma MapSeqMembers<T, U>(xs: seq<T>, f: T -> U, y: U)
    ensures y in MapSeq(xs, f) <==> exists x :: x in xs && y == f(x)
  {
    if y in MapSeq(xs, f) {
      var i :| 0 <= i < |xs| && MapSeq(xs, f)[i] == y;
      assert xs[i] in xs;
    }
    if exists x :: x in xs && y == f(x) {
      var x :| x in xs && y == f(x);
      var i :| 0 <= i < |xs| && xs[i] == x;
      assert MapSeq(xs, f)[i] == y;
    }
  }

  /** Mapping distributes over concatenation. */
  lemma MapSeqAppend<T, U>(xs: seq<T>, ys: seq<T>, f: T -> U)
    ensures MapSeq(xs + ys, f) == MapSeq(xs, f) + MapSeq(ys, f)
  {
    var l, mx, my := MapSeq(xs + ys, f), MapSeq(xs, f), MapSeq(ys, f);
    assert |l| == |mx + my|;
    forall i | 0 <= i < |l| ensures l[i] == (mx + my)[i] {
      if i < |xs| {
        assert l[i] == f(xs[i]) == mx[i];
      } else {
        var j := i - |xs|;
        assert l[i] == f(ys[j]) == my[j];
      }
    }
    assert l == mx + my;
  }

  /** `xs.reduce((sum, x) => sum + f(x), 0)`. */
  function Sum<T>(xs: seq<T>, f: T -> real): real
  {
    if xs == [] then 0.0 else f(xs[0]) + Sum(xs[1..], f)
  }

  /** The filter keeps exactly the elements satisfying p, each as often as it occurs. */
  lemma {:induction false} FilterCount<T>(xs: seq<T>, p: T -> bool, x: T)
    ensures multiset(Filter(xs, p))[x] == if p(x) then multiset(xs)[x] else 0
  {
    if xs != [] {
      FilterCount(xs[1..], p, x);
      assert xs == [xs[0]] + xs[1..];
    }
  }

  lemma FilterMembers<T>(xs: seq<T>, p: T -> bool)
    ensures forall x :: x in Filter(xs, p) <==> x in xs && p(x)
  {
    forall x ensures x in Filter(xs, p) <==> x in xs && p(x) {
      FilterCount(xs, p, x);
    }
  }

  /** Filtering keeps the order: it distributes over concatenation. */
  lemma {:induction false} FilterAppend<T>(xs: seq<T>, ys: seq<T>, p: T -> bool)
    ensures Filter(xs + ys, p) == Filter(xs, p) + Filter(ys, p)
  {
    if xs != [] {
      FilterAppend(xs[1..], ys, p);
      assert (xs + ys)[0] == xs[0];
      assert (xs + ys)[1..] == xs[1..] + ys;
    } else {
      assert xs + ys == ys;
    }
  }

  /**
   * Moving x from the front to between a and b does not change the filter when
   * x passes only if nothing in a does.
   */
  lemma FilterSpliceSame<T>(a: seq<T>, x: T, b: seq<T>, p: T -> bool)
    requires p(x) ==> Filter(a, p) == []
    ensures Filter(a + [x] + b, p) == Filter([x] + (a + b), p)
  {
    FilterAppend(a + [x], b, p);
    FilterAppend(a, [x], p);
    FilterAppend([x], a + b, p);
    FilterAppend(a, b, p);
    if !p(x) {
      assert Filter([x], p) == [];
    }
  }

  /** Filtering twice by the same predicate is filtering once. */
  lemma {:induction false} FilterIdempotent<T>(xs: seq<T>, p: T -> bool)
    ensures Filter(Filter(xs, p), p) == Filter(xs, p)
  {
    if xs != [] {
      FilterIdempotent(xs[1..], p);
    }
  }

  /** When every element passes, the filter returns its input. */
  lemma {:induction false} FilterAllPass<T>(xs: seq<T>, p: T -> bool)
    requires forall i :: 0 <= i < |xs| ==> p(xs[i])
    ensures Filter(xs, p) == xs
  {
    if xs != [] {
      FilterAllPass(xs[1..], p);
    }
  }

  /** When no element passes, the filter is empty. */
  lemma {:induction false} FilterNonePass<T>(xs: seq<T>, p: T -> bool)
    requires forall i :: 0 <= i < |xs| ==> !p(xs[i])
    ensures Filter(xs, p) == []
  {
    if xs != [] {
      FilterNonePass(xs[1..], p);
    }
  }

  lemma {:induction false} SumAppend<T>(xs: seq<T>, ys: seq<T>, f: T -> real)
    ensures Sum(xs + ys, f) == Sum(xs, f) + Sum(ys, f)
  {
    if xs != [] {
      SumAppend(xs[1..], ys, f);
      assert (xs + ys)[0] == xs[0];
      assert (xs + ys)[1..] == xs[1..] + ys;
    } else {
      assert xs + ys == ys;
    }
  }

  lemma {:induction false} SumNonNegative<T>(xs: seq<T>, f: T -> real)
    requires forall i :: 0 <= i < |xs| ==> f(xs[i]) >= 0.0
    ensures Sum(xs, f) >= 0.0
  {
    if xs != [] {
      SumNonNegative(xs[1..], f);
    }
  }

  /** With non-negative amounts, a filtered total never exceeds the whole total. */
  lemma {:induction false} SumFilterAtMost<T>(xs: seq<T>, p: T -> bool, f: T -> real)
    requires forall i :: 0 <= i < |xs| ==> f(xs[i]) >= 0.0
    ensures Sum(Filter(xs, p), f) <= Sum(xs, f)
  {
    if xs != [] {
      SumFilterAtMost(xs[1..], p, f);
    }
  }

  /** Taking one element out of a total. */
  lemma SumRemove<T>(ys: seq<T>, i: nat, f: T -> real)
    requires i < |ys|
    ensures Sum(ys, f) == f(ys[i]) + Sum(ys[..i] + ys[i + 1..], f)
  {
    var a, b := ys[..i], ys[i + 1..];
    var c := [ys[i]] + b;
    assert ys == a + c;
    SumAppend(a, c, f);
    SumAppend(a, b, f);
    assert c[0] == ys[i] && c[1..] == b;
    assert Sum(c, f) == f(ys[i]) + Sum(b, f);
  }

  /** Taking one occurrence out of both sides keeps two sequences permutations of each other. */
  lemma RemovePermutation<T>(xs: seq<T>, ys: seq<T>, i: nat)
    requires xs != [] && i < |ys| && ys[i] == xs[0]
    requires multiset(xs) == multiset(ys)
    ensures multiset(xs[1..]) == multiset(ys[..i] + ys[i + 1..])
  {
    assert xs == [xs[0]] + xs[1..];
    assert ys == ys[..i] + [ys[i]] + ys[i + 1..];
    var rest := ys[..i] + ys[i + 1..];
    assert multiset(ys) == multiset(ys[..i]) + multiset{ys[i]} + multiset(ys[i + 1..]);
    assert multiset(rest) == multiset(ys[..i]) + multiset(ys[i + 1..]);
    assert multiset(xs) == multiset{xs[0]} + multiset(xs[1..]);
    forall z ensures multiset(xs[1..])[z] == multiset(rest)[z] {
      assert multiset(xs)[z] == multiset(ys)[z];
    }
  }

  /** A total is the same in any order: it depends only on the multiset of elements. */
  lemma {:induction false} SumPermutation<T>(xs: seq<T>, ys: seq<T>, f: T -> real)
    requires multiset(xs) == multiset(ys)
    ensures Sum(xs, f) == Sum(ys, f)
    decreases |xs|
  {
    if xs == [] {
      assert |ys| == |multiset(ys)| == 0;
    } else {
      assert xs[0] in multiset(ys);
      var i :| 0 <= i < |ys| && ys[i] == xs[0];
      RemovePermutation(xs, ys, i);
      SumPermutation(xs[1..], ys[..i] + ys[i + 1..], f);
      SumRemove(ys, i, f);
    }
  }
}
