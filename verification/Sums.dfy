/** Finite sums and products of exact decimals, over sets (where the order of a
    dictionary or of a set of paths must not matter) and over sequences. */
module Sums {

  datatype Option<+T> = None | Some(value: T)

  datatype Result<+T, +E> = Ok(value: T) | Err(error: E)

  function Max(a: int, b: int): int { if a > b then a else b }

  function MinReal(a: real, b: real): real { if a < b then a else b }

  function MaxReal(a: real, b: real): real { if a > b then a else b }

  function Abs(x: real): real { if x < 0.0 then -x else x }

  // ---------- sums over sets ----------

  ghost function Pick<T>(s: set<T>): (x: T)
    requires s != {}
    ensures x in s
  {
    var x :| x in s; x
  }

  ghost function SumOver<T>(s: set<T>, f: T -> real): real
  {
    if s == {} then 0.0 else f(Pick(s)) + SumOver(s - {Pick(s)}, f)
  }

  /** Any element may be taken out first: the value does not depend on the order. */
  lemma {:induction false} SumRemove<T>(s: set<T>, x: T, f: T -> real)
    requires x in s
    ensures SumOver(s, f) == f(x) + SumOver(s - {x}, f)
    decreases |s|
  {
    var y := Pick(s);
    if y != x {
      SumRemove(s - {y}, x, f);
      SumRemove(s - {x}, y, f);
      assert s - {y} - {x} == s - {x} - {y};
    }
  }

  lemma SumInsert<T>(s: set<T>, x: T, f: T -> real)
    requires x !in s
    ensures SumOver(s + {x}, f) == SumOver(s, f) + f(x)
  {
    SumRemove(s + {x}, x, f);
    assert s + {x} - {x} == s;
  }

  lemma {:induction false} SumUnion<T>(a: set<T>, b: set<T>, f: T -> real)
    requires a !! b
    ensures SumOver(a + b, f) == SumOver(a, f) + SumOver(b, f)
    decreases |b|
  {
    if b == {} {
      assert a + b == a;
    } else {
      var x := Pick(b);
      SumRemove(a + b, x, f);
      assert a + b - {x} == a + (b - {x});
      SumUnion(a, b - {x}, f);
    }
  }

  lemma {:induction false} SumCongruent<T>(s: set<T>, f: T -> real, g: T -> real)
    requires forall x :: x in s ==> f(x) == g(x)
    ensures SumOver(s, f) == SumOver(s, g)
    decreases |s|
  {
    if s != {} { SumCongruent(s - {Pick(s)}, f, g); }
  }

  lemma {:induction false} SumMonotone<T>(s: set<T>, f: T -> real, g: T -> real)
    requires forall x :: x in s ==> f(x) <= g(x)
    ensures SumOver(s, f) <= SumOver(s, g)
    decreases |s|
  {
    if s != {} { SumMonotone(s - {Pick(s)}, f, g); }
  }

  /** Multiplication under a name, so that proofs can treat it as opaque. */
  function Times(a: real, b: real): real { a * b }

  lemma Distribute(c: real, a: real, b: real)
    ensures Times(c, a + b) == Times(c, a) + Times(c, b)
  {
  }

  lemma {:induction false} SumScaled<T>(s: set<T>, f: T -> real, c: real, g: T -> real)
    requires forall x :: x in s ==> g(x) == Times(c, f(x))
    ensures SumOver(s, g) == Times(c, SumOver(s, f))
    decreases |s|
  {
    if s != {} {
      hide Times;
      var x := Pick(s);
      SumScaled(s - {x}, f, c, g);
      Distribute(c, f(x), SumOver(s - {x}, f));
    }
  }

  lemma {:induction false} SumAdded<T>(s: set<T>, f: T -> real, g: T -> real, h: T -> real)
    requires forall x :: x in s ==> h(x) == f(x) + g(x)
    ensures SumOver(s, h) == SumOver(s, f) + SumOver(s, g)
    decreases |s|
  {
    if s != {} { SumAdded(s - {Pick(s)}, f, g, h); }
  }

  /** Re-indexing along an injective map. */
  lemma {:induction false} SumReindexed<A, B>(s: set<A>, t: set<B>, m: A -> B, f: B -> real, g: A -> real)
    requires forall x :: x in s ==> m(x) in t && g(x) == f(m(x))
    requires forall x, y :: x in s && y in s && m(x) == m(y) ==> x == y
    requires forall z :: z in t ==> exists x :: x in s && m(x) == z
    ensures SumOver(t, f) == SumOver(s, g)
    decreases |s|
  {
    if s == {} {
      assert t == {};
    } else {
      var x := Pick(s);
      SumRemove(t, m(x), f);
      SumReindexed(s - {x}, t - {m(x)}, m, f, g);
    }
  }

  // ---------- sums over sequences ----------

  function Sum(s: seq<real>): real
  {
    if |s| == 0 then 0.0 else Sum(s[..|s| - 1]) + s[|s| - 1]
  }

  function AbsAll(xs: seq<real>): (r: seq<real>)
    ensures |r| == |xs|
  {
    seq(|xs|, i requires 0 <= i < |xs| => Abs(xs[i]))
  }

  lemma SumPrefix(s: seq<real>, i: nat)
    requires i < |s|
    ensures Sum(s[..i + 1]) == Sum(s[..i]) + s[i]
  {
    assert s[..i + 1][..i] == s[..i];
  }

  lemma SumAll(s: seq<real>)
    ensures Sum(s[..|s|]) == Sum(s)
  {
    assert s[..|s|] == s;
  }

  lemma {:induction false} SumSeqMonotone(s: seq<real>, t: seq<real>)
    requires |s| == |t| && forall i :: 0 <= i < |s| ==> s[i] <= t[i]
    ensures Sum(s) <= Sum(t)
  {
    if |s| > 0 { SumSeqMonotone(s[..|s| - 1], t[..|t| - 1]); }
  }

  lemma {:induction false} SumSeqNonNegative(s: seq<real>)
    requires forall i :: 0 <= i < |s| ==> s[i] >= 0.0
    ensures Sum(s) >= 0.0
  {
    if |s| > 0 { SumSeqNonNegative(s[..|s| - 1]); }
  }

  lemma {:induction false} SumSeqAdded(s: seq<real>, t: seq<real>, u: seq<real>)
    requires |s| == |t| == |u| && forall i :: 0 <= i < |s| ==> u[i] == s[i] + t[i]
    ensures Sum(u) == Sum(s) + Sum(t)
  {
    if |s| > 0 { SumSeqAdded(s[..|s| - 1], t[..|t| - 1], u[..|u| - 1]); }
  }

  lemma {:induction false} SumRemoveAt(s: seq<real>, i: nat)
    requires i < |s|
    ensures Sum(s) == Sum(s[..i] + s[i + 1..]) + s[i]
    decreases |s|
  {
    var last := |s| - 1;
    if i == last {
      assert s[..i] + s[i + 1..] == s[..last];
    } else {
      SumRemoveAt(s[..last], i);
      var rest := s[..i] + s[i + 1..];
      assert rest[..|rest| - 1] == s[..last][..i] + s[..last][i + 1..];
    }
  }

  lemma MultisetRemoveAt<T>(xs: seq<T>, i: nat)
    requires i < |xs|
    ensures multiset(xs[..i] + xs[i + 1..]) == multiset(xs) - multiset{xs[i]}
  {
    assert xs == xs[..i] + [xs[i]] + xs[i + 1..];
  }

  function RemoveAt<T>(xs: seq<T>, i: nat): (r: seq<T>)
    requires i < |xs|
    ensures |r| == |xs| - 1
    ensures forall b :: 0 <= b < |r| ==> r[b] == xs[if b < i then b else b + 1]
  {
    xs[..i] + xs[i + 1..]
  }

  /** Two lists of items that are permutations of each other, each item valued the
      same in both, have the same total. */
  lemma {:induction false} SumPermuted<T>(xs: seq<T>, ys: seq<T>, s: seq<real>, t: seq<real>)
    requires multiset(xs) == multiset(ys)
    requires |xs| == |s| && |ys| == |t|
    requires forall i, j :: 0 <= i < |xs| && 0 <= j < |ys| && xs[i] == ys[j] ==> s[i] == t[j]
    ensures Sum(s) == Sum(t)
    decreases |xs|
  {
    assert |multiset(xs)| == |xs| && |multiset(ys)| == |ys|;
    if |xs| > 0 {
      var last := |xs| - 1;
      var j := LastElsewhere(xs, ys);
      SumPermuted(xs[..last], RemoveAt(ys, j), s[..last], RemoveAt(t, j));
      SumRemoveAt(t, j);
    }
  }

  lemma LastElsewhere<T>(xs: seq<T>, ys: seq<T>) returns (j: nat)
    requires xs != [] && multiset(xs) == multiset(ys)
    ensures j < |ys| && ys[j] == xs[|xs| - 1]
    ensures multiset(xs[..|xs| - 1]) == multiset(RemoveAt(ys, j))
  {
    var last := |xs| - 1;
    assert xs[last] in multiset(ys);
    j :| 0 <= j < |ys| && ys[j] == xs[last];
    MultisetRemoveAt(xs, last);
    MultisetRemoveAt(ys, j);
    assert xs[..last] + xs[last + 1..] == xs[..last];
  }
}
