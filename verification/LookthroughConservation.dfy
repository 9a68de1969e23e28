/** Conservation of weight in the look-through: what is covered and what is unresolved add
    up to what the root discloses, and exposure never exceeds coverage. */
module LookthroughConservation {
  import opened Sums
  import opened Lookthrough
  import opened LookthroughDepth

  /** A node's positive holdings, resolved or not. */
  ghost function HeldTerms(es: seq<HoldingEdge>): (s: seq<real>)
    ensures |s| == |es|
  {
    seq(|es|, i requires 0 <= i < |es| => MaxReal(0.0, es[i].weight))
  }

  ghost function Held(node: ExposureNode): real
  {
    Sum(HeldTerms(node.holdings))
  }

  /** No report discloses more than the whole fund, and no disclosed weight is negative. */
  ghost predicate Bounded(g: Graph)
  {
    NonNegative(g) && forall n :: n in g ==> Total(g[n].direct) + Held(g[n]) <= 100.0
  }

  /** Every report discloses exactly the whole fund. */
  ghost predicate Complete(g: Graph)
  {
    forall n :: n in g ==> Total(g[n].direct) + Held(g[n]) == 100.0
  }

  // ---------- totals of a dictionary over larger label sets ----------

  lemma {:induction false} SumOfZeros(s: set<string>, f: string -> real)
    requires forall x :: x in s ==> f(x) == 0.0
    ensures SumOver(s, f) == 0.0
    decreases |s|
  {
    if s != {} { SumOfZeros(s - {Pick(s)}, f); }
  }

  lemma TotalOverMore(m: map<string, real>, labels: set<string>)
    requires m.Keys <= labels
    ensures SumOver(labels, Weights(m)) == Total(m)
  {
    SumUnion(m.Keys, labels - m.Keys, Weights(m));
    assert m.Keys + (labels - m.Keys) == labels;
    SumOfZeros(labels - m.Keys, Weights(m));
  }

  lemma {:induction false} SumNonNegative(s: set<string>, f: string -> real)
    requires forall x :: x in s ==> f(x) >= 0.0
    ensures SumOver(s, f) >= 0.0
    decreases |s|
  {
    if s != {} { SumNonNegative(s - {Pick(s)}, f); }
  }

  lemma TotalOverAny(m: map<string, real>, labels: set<string>)
    requires forall x :: x in m ==> m[x] >= 0.0
    ensures SumOver(labels, Weights(m)) <= Total(m)
  {
    TotalOverMore(m, labels + m.Keys);
    SumUnion(labels, m.Keys - labels, Weights(m));
    assert labels + (m.Keys - labels) == labels + m.Keys;
    SumNonNegative(m.Keys - labels, Weights(m));
  }

  // ---------- one node ----------

  /** An edge's weight splits into what it covers and what it leaves unresolved; the inner
      clamp `max(0, ...)` never changes a value. */
  lemma EdgeConserves(g: Graph, e: HoldingEdge, p: set<NodeId>, k: int)
    ensures EdgeCoverage(g, e, p, k) + EdgeUnresolved(g, e, p, k) == MaxReal(0.0, e.weight)
    ensures EdgeCoverage(g, e, p, k) >= 0.0 && EdgeUnresolved(g, e, p, k) >= 0.0
    ensures Followed(e) && k > 0
        ==> EdgeCoverage(g, e, p, k) == e.weight - Pct(e.weight, Unresolved(g, e.target.value, p, k - 1))
  {
    if Followed(e) && k > 0 {
      UnresolvedRange(g, e.target.value, p, k - 1);
      PctRange(e.weight, Unresolved(g, e.target.value, p, k - 1));
    }
  }

  lemma HoldingsConserve(g: Graph, es: seq<HoldingEdge>, p: set<NodeId>, k: int)
    ensures Sum(CoverageTerms(g, es, p, k)) + Sum(UnresolvedTerms(g, es, p, k)) == Sum(HeldTerms(es))
    ensures Sum(CoverageTerms(g, es, p, k)) >= 0.0 && Sum(UnresolvedTerms(g, es, p, k)) >= 0.0
  {
    forall i | 0 <= i < |es|
      ensures EdgeCoverage(g, es[i], p, k) + EdgeUnresolved(g, es[i], p, k) == MaxReal(0.0, es[i].weight)
      ensures EdgeCoverage(g, es[i], p, k) >= 0.0 && EdgeUnresolved(g, es[i], p, k) >= 0.0
    {
      EdgeConserves(g, es[i], p, k);
    }
    SumSeqAdded(CoverageTerms(g, es, p, k), UnresolvedTerms(g, es, p, k), HeldTerms(es));
    SumSeqNonNegative(CoverageTerms(g, es, p, k));
    SumSeqNonNegative(UnresolvedTerms(g, es, p, k));
  }

  lemma DirectNonNegative(g: Graph, n: NodeId)
    requires NonNegative(g) && n in g
    ensures Total(g[n].direct) >= 0.0
  {
    SumNonNegative(g[n].direct.Keys, Weights(g[n].direct));
  }

  /** Without any bound on the weights: both percentages stay between 0 and 100. */
  lemma PercentagesInRange(g: Graph, n: NodeId, path: set<NodeId>, k: int)
    requires NonNegative(g)
    ensures 0.0 <= Coverage(g, n, path, k) <= 100.0 && 0.0 <= Unresolved(g, n, path, k) <= 100.0
  {
    UnresolvedRange(g, n, path, k);
    if !Stops(g, n, path) {
      DirectNonNegative(g, n);
      HoldingsConserve(g, g[n].holdings, path + {n}, k);
    }
  }

  /** With bounded weights nothing is lost: coverage plus unresolved weight is the disclosed
      total, and none of the three outer clamps changes a value. */
  lemma NodeConserves(g: Graph, n: NodeId, path: set<NodeId>, k: int)
    requires Bounded(g) && !Stops(g, n, path)
    ensures Coverage(g, n, path, k) + Unresolved(g, n, path, k) == Total(g[n].direct) + Held(g[n])
    ensures Coverage(g, n, path, k) == Total(g[n].direct) + Sum(CoverageTerms(g, g[n].holdings, path + {n}, k))
    ensures Unresolved(g, n, path, k) == Sum(UnresolvedTerms(g, g[n].holdings, path + {n}, k))
  {
    DirectNonNegative(g, n);
    HoldingsConserve(g, g[n].holdings, path + {n}, k);
  }

  lemma CoverageLeavesUnresolved(g: Graph, n: NodeId, path: set<NodeId>, k: int)
    requires Bounded(g)
    ensures Coverage(g, n, path, k) <= 100.0 - Unresolved(g, n, path, k)
    ensures Complete(g) ==> Coverage(g, n, path, k) == 100.0 - Unresolved(g, n, path, k)
  {
    if !Stops(g, n, path) { NodeConserves(g, n, path, k); }
  }

  // ---------- exposure against coverage ----------

  ghost function ExposureBy(g: Graph, n: NodeId, path: set<NodeId>, k: int): string -> real
  {
    lbl => Exposure(g, n, path, k, lbl)
  }

  ghost function EdgeExposureBy(g: Graph, e: HoldingEdge, path: set<NodeId>, k: int): string -> real
  {
    lbl => EdgeExposure(g, e, path, k, lbl)
  }

  ghost function PartialExposureBy(g: Graph, es: seq<HoldingEdge>, j: nat, path: set<NodeId>, k: int): string -> real
    requires j <= |es|
  {
    lbl => Sum(ExposureTerms(g, es, path, k, lbl)[..j])
  }

  /** `labels` holds every label any report of the graph discloses. */
  ghost predicate CoversLabels(g: Graph, labels: set<string>)
  {
    forall n :: n in g ==> g[n].direct.Keys <= labels
  }

  ghost predicate Exactly(exact: bool, g: Graph, labels: set<string>)
  {
    exact ==> Complete(g) && CoversLabels(g, labels)
  }

  lemma {:induction false} ExposureWithinCoverage(
    g: Graph, n: NodeId, path: set<NodeId>, k: int, labels: set<string>, exact: bool)
    requires Bounded(g) && Exactly(exact, g, labels)
    ensures SumOver(labels, ExposureBy(g, n, path, k)) <= Coverage(g, n, path, k)
    ensures exact ==> SumOver(labels, ExposureBy(g, n, path, k)) == Coverage(g, n, path, k)
    decreases g.Keys - path, 0
  {
    if Stops(g, n, path) {
      SumOfZeros(labels, ExposureBy(g, n, path, k));
    } else {
      var es, p := g[n].holdings, path + {n};
      NodeConserves(g, n, path, k);
      HoldingsWithinCoverage(g, es, |es|, p, k, labels, exact);
      SumAll(CoverageTerms(g, es, p, k));
      TotalOverAny(g[n].direct, labels);
      if exact { TotalOverMore(g[n].direct, labels); }
      forall lbl ensures ExposureBy(g, n, path, k)(lbl)
                      == Weights(g[n].direct)(lbl) + PartialExposureBy(g, es, |es|, p, k)(lbl) {
        SumAll(ExposureTerms(g, es, p, k, lbl));
      }
      SumAdded(labels, Weights(g[n].direct), PartialExposureBy(g, es, |es|, p, k), ExposureBy(g, n, path, k));
    }
  }

  lemma {:induction false} HoldingsWithinCoverage(
    g: Graph, es: seq<HoldingEdge>, j: nat, p: set<NodeId>, k: int, labels: set<string>, exact: bool)
    requires Bounded(g) && Exactly(exact, g, labels) && j <= |es|
    ensures SumOver(labels, PartialExposureBy(g, es, j, p, k)) <= Sum(CoverageTerms(g, es, p, k)[..j])
    ensures exact ==> SumOver(labels, PartialExposureBy(g, es, j, p, k)) == Sum(CoverageTerms(g, es, p, k)[..j])
    decreases g.Keys - p, 2, j
  {
    if j == 0 {
      SumOfZeros(labels, PartialExposureBy(g, es, 0, p, k));
    } else {
      var i := j - 1;
      HoldingsWithinCoverage(g, es, i, p, k, labels, exact);
      SumPrefix(CoverageTerms(g, es, p, k), i);
      EdgeWithinCoverage(g, es[i], p, k, labels, exact);
      forall lbl ensures PartialExposureBy(g, es, j, p, k)(lbl)
                      == PartialExposureBy(g, es, i, p, k)(lbl) + EdgeExposureBy(g, es[i], p, k)(lbl) {
        SumPrefix(ExposureTerms(g, es, p, k, lbl), i);
      }
      SumAdded(labels, PartialExposureBy(g, es, i, p, k), EdgeExposureBy(g, es[i], p, k),
               PartialExposureBy(g, es, j, p, k));
    }
  }

  lemma {:induction false} EdgeWithinCoverage(
    g: Graph, e: HoldingEdge, p: set<NodeId>, k: int, labels: set<string>, exact: bool)
    requires Bounded(g) && Exactly(exact, g, labels)
    ensures SumOver(labels, EdgeExposureBy(g, e, p, k)) <= EdgeCoverage(g, e, p, k)
    ensures exact ==> SumOver(labels, EdgeExposureBy(g, e, p, k)) == EdgeCoverage(g, e, p, k)
    decreases g.Keys - p, 1
  {
    if Followed(e) && k > 0 {
      hide Pct, Coverage, Unresolved, Bounded, Complete, CoversLabels;
      var m := e.target.value;
      ExposureWithinCoverage(g, m, p, k - 1, labels, exact);
      CoverageLeavesUnresolved(g, m, p, k - 1);
      EdgeConserves(g, e, p, k);
      EdgeExposureTotal(g, e, p, k, labels);
      PctMonotone(e.weight, SumOver(labels, ExposureBy(g, m, p, k - 1)), 100.0 - Unresolved(g, m, p, k - 1));
      PctComplement(e.weight, Unresolved(g, m, p, k - 1));
    } else {
      SumOfZeros(labels, EdgeExposureBy(g, e, p, k));
    }
  }

  lemma PctComplement(w: real, u: real)
    ensures Pct(w, 100.0 - u) == w - Pct(w, u)
  {
  }

  lemma EdgeExposureTotal(g: Graph, e: HoldingEdge, p: set<NodeId>, k: int, labels: set<string>)
    requires Followed(e) && k > 0
    ensures SumOver(labels, EdgeExposureBy(g, e, p, k))
            == Pct(e.weight, SumOver(labels, ExposureBy(g, e.target.value, p, k - 1)))
  {
    var f := ExposureBy(g, e.target.value, p, k - 1);
    forall lbl ensures EdgeExposureBy(g, e, p, k)(lbl) == Times(e.weight / 100.0, f(lbl)) {
    }
    SumScaled(labels, f, e.weight / 100.0, EdgeExposureBy(g, e, p, k));
  }

  /** Main result, on what the traversal returns for a present root. */
  lemma LookthroughConserves(g: Graph, root: NodeId, maxDepth: int, r: LookthroughResult)
    requires Bounded(g) && root in g && Specified(r, g, root, {}, 0, maxDepth)
    ensures r.coverage + r.unresolved == Total(g[root].direct) + Held(g[root])
    ensures Total(r.exposure) <= r.coverage
    ensures Complete(g) ==> Total(r.exposure) == r.coverage == 100.0 - r.unresolved
  {
    NodeConserves(g, root, {}, maxDepth);
    var labels := AllLabels(g) + r.exposure.Keys;
    ExposureWithinCoverage(g, root, {}, maxDepth, labels, false);
    if Complete(g) { ExposureWithinCoverage(g, root, {}, maxDepth, labels, true); }
    TotalOverMore(r.exposure, labels);
    SumCongruent(labels, Weights(r.exposure), ExposureBy(g, root, {}, maxDepth));
  }

  ghost function AllLabels(g: Graph): (labels: set<string>)
    ensures CoversLabels(g, labels)
  {
    set n, lbl | n in g && lbl in g[n].direct.Keys :: lbl
  }
}
