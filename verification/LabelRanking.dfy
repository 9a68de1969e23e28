/** Labels by falling weight, ties in code-point order (backend/app/ingestion/lookthrough.py:196-198). */
module LabelRanking {
  import opened Sums
  import opened Lookthrough

  predicate LexLess(a: string, b: string)
  {
    if b == [] then false
    else if a == [] then true
    else if a[0] != b[0] then a[0] < b[0]
    else LexLess(a[1..], b[1..])
  }

  /** `a` is listed before `b`. */
  predicate Before(m: map<string, real>, a: string, b: string)
  {
    Get(m, a) > Get(m, b) || (Get(m, a) == Get(m, b) && LexLess(a, b))
  }

  ghost predicate Ordered(labels: seq<string>, m: map<string, real>)
  {
    forall i, j :: 0 <= i < j < |labels| ==> Before(m, labels[i], labels[j])
  }

  /** The labels of `keys`, each once, in rank order. */
  ghost predicate IsRanking(labels: seq<string>, m: map<string, real>, keys: set<string>)
  {
    Ordered(labels, m) && forall l :: l in labels <==> l in keys
  }

  // ---------- a strict total order ----------

  lemma {:induction false} LexTotal(a: string, b: string)
    ensures a == b ==> !LexLess(a, b)
    ensures a != b ==> (LexLess(a, b) <==> !LexLess(b, a))
  {
    if a != [] && b != [] && a[0] == b[0] {
      LexTotal(a[1..], b[1..]);
      assert a == [a[0]] + a[1..] && b == [b[0]] + b[1..];
    }
  }

  lemma {:induction false} LexTransitive(a: string, b: string, c: string)
    requires LexLess(a, b) && LexLess(b, c)
    ensures LexLess(a, c)
  {
    if a != [] && a[0] == b[0] == c[0] { LexTransitive(a[1..], b[1..], c[1..]); }
  }

  lemma BeforeTotal(m: map<string, real>, a: string, b: string)
    ensures a == b ==> !Before(m, a, b)
    ensures a != b ==> (Before(m, a, b) <==> !Before(m, b, a))
  {
    hide LexLess;
    LexTotal(a, b);
  }

  lemma BeforeTransitive(m: map<string, real>, a: string, b: string, c: string)
    requires Before(m, a, b) && Before(m, b, c)
    ensures Before(m, a, c)
  {
    hide LexLess;
    if LexLess(a, b) && LexLess(b, c) { LexTransitive(a, b, c); }
  }

  /** Code-point order: at the first place where the two differ `a` has the lower one, or it ends there. */
  lemma {:induction false} LexLessIff(a: string, b: string)
    ensures LexLess(a, b)
       <==> exists k :: 0 <= k <= |a| && k < |b| && a[..k] == b[..k] && (k < |a| ==> a[k] < b[k])
  {
    if a != [] && b != [] && a[0] == b[0] {
      LexLessIff(a[1..], b[1..]);
      if k :| 0 <= k <= |a| && k < |b| && a[..k] == b[..k] && (k < |a| ==> a[k] < b[k]) {
        assert k > 0;
        assert a[1..][..k - 1] == a[..k][1..] && b[1..][..k - 1] == b[..k][1..];
      }
      if k :| 0 <= k <= |a[1..]| && k < |b[1..]| && a[1..][..k] == b[1..][..k]
              && (k < |a[1..]| ==> a[1..][k] < b[1..][k]) {
        assert a[..k + 1] == [a[0]] + a[1..][..k] && b[..k + 1] == [b[0]] + b[1..][..k];
      }
    } else if LexLess(a, b) {
      assert a[..0] == b[..0];
    }
  }

  // ---------- sorting ----------

  function Insert(labels: seq<string>, l: string, m: map<string, real>): seq<string>
  {
    if labels == [] || Before(m, l, labels[0]) then [l] + labels
    else [labels[0]] + Insert(labels[1..], l, m)
  }

  lemma {:induction false} InsertMembers(labels: seq<string>, l: string, m: map<string, real>)
    ensures forall x :: x in Insert(labels, l, m) <==> x in labels || x == l
  {
    hide Before;
    if labels != [] {
      InsertMembers(labels[1..], l, m);
      assert labels == [labels[0]] + labels[1..];
    }
  }

  lemma PrependOrdered(x: string, labels: seq<string>, m: map<string, real>)
    requires Ordered(labels, m) && forall y :: y in labels ==> Before(m, x, y)
    ensures Ordered([x] + labels, m)
  {
    hide Before;
    assert forall i :: 0 <= i < |labels| ==> labels[i] in labels;
  }

  lemma TailOrdered(labels: seq<string>, m: map<string, real>)
    requires labels != [] && Ordered(labels, m)
    ensures Ordered(labels[1..], m) && forall y :: y in labels[1..] ==> Before(m, labels[0], y)
  {
    hide Before;
  }

  lemma {:induction false} InsertOrdered(labels: seq<string>, l: string, m: map<string, real>)
    requires Ordered(labels, m) && l !in labels
    ensures Ordered(Insert(labels, l, m), m)
  {
    hide Before, Ordered;
    if labels == [] {
      PrependOrdered(l, labels, m);
    } else {
      TailOrdered(labels, m);
      if Before(m, l, labels[0]) {
        forall y | y in labels ensures Before(m, l, y) {
          if y != labels[0] {
            assert y in labels[1..];
            BeforeTransitive(m, l, labels[0], y);
          }
        }
        PrependOrdered(l, labels, m);
      } else {
        BeforeTotal(m, labels[0], l);
        InsertOrdered(labels[1..], l, m);
        InsertMembers(labels[1..], l, m);
        PrependOrdered(labels[0], Insert(labels[1..], l, m), m);
      }
    }
  }

  /** The dictionary's labels in rank order. */
  method RankLabels(m: map<string, real>) returns (labels: seq<string>)
    ensures IsRanking(labels, m, m.Keys)
  {
    hide Before, Ordered, Insert;
    labels := [];
    assert Ordered([], m) by { EmptyOrdered(m); }
    var rest := m.Keys;
    while rest != {}
      invariant rest <= m.Keys && IsRanking(labels, m, m.Keys - rest)
      decreases rest
    {
      var l :| l in rest;
      InsertOrdered(labels, l, m);
      InsertMembers(labels, l, m);
      labels := Insert(labels, l, m);
      rest := rest - {l};
    }
  }

  lemma EmptyOrdered(m: map<string, real>)
    ensures Ordered([], m)
  {
  }

  // ---------- there is one ranking ----------

  lemma {:induction false} RankingUnique(a: seq<string>, b: seq<string>, m: map<string, real>, keys: set<string>)
    requires IsRanking(a, m, keys) && IsRanking(b, m, keys)
    ensures a == b
    decreases |a|
  {
    hide Before, Ordered;
    assert b == [] || b[0] in b;
    if a != [] {
      FirstUnique(a, b, m, keys);
      TailRanking(a, m, keys);
      TailRanking(b, m, keys);
      RankingUnique(a[1..], b[1..], m, keys - {a[0]});
      assert a == [a[0]] + a[1..] && b == [b[0]] + b[1..];
    }
  }

  lemma FirstUnique(a: seq<string>, b: seq<string>, m: map<string, real>, keys: set<string>)
    requires IsRanking(a, m, keys) && IsRanking(b, m, keys) && a != []
    ensures b != [] && a[0] == b[0]
  {
    hide Before, Ordered;
    assert a[0] in b;
    assert b[0] in a;
    TailOrdered(a, m);
    TailOrdered(b, m);
    if a[0] != b[0] {
      assert a == [a[0]] + a[1..] && b == [b[0]] + b[1..];
      BeforeTotal(m, a[0], b[0]);
    }
  }

  lemma TailRanking(a: seq<string>, m: map<string, real>, keys: set<string>)
    requires IsRanking(a, m, keys) && a != []
    ensures IsRanking(a[1..], m, keys - {a[0]})
  {
    hide Before, Ordered;
    TailOrdered(a, m);
    BeforeTotal(m, a[0], a[0]);
    assert a == [a[0]] + a[1..];
    assert a[0] !in a[1..];
  }

  /** A way to construct the ranking, for specifications. */
  ghost function Ranking(m: map<string, real>, keys: set<string>): seq<string>
  {
    if keys == {} then [] else Insert(Ranking(m, keys - {Pick(keys)}), Pick(keys), m)
  }

  lemma {:induction false} RankingRanks(m: map<string, real>, keys: set<string>)
    ensures IsRanking(Ranking(m, keys), m, keys)
    decreases keys
  {
    hide Before, Ordered, Insert;
    if keys == {} {
      EmptyOrdered(m);
    } else {
      var l := Pick(keys);
      RankingRanks(m, keys - {l});
      InsertOrdered(Ranking(m, keys - {l}), l, m);
      InsertMembers(Ranking(m, keys - {l}), l, m);
    }
  }
}
