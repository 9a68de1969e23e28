/** How the look-through depends on its depth limit and on the order of the holdings. */
module LookthroughDepth {
  import opened Sums
  import opened Lookthrough
  import opened LookthroughPaths
  import opened LookthroughWalks

  ghost predicate NonNegative(g: Graph)
  {
    forall n, lbl :: n in g && lbl in g[n].direct ==> g[n].direct[lbl] >= 0.0
  }

  // ---------- ranges ----------

  lemma PctMonotone(w: real, a: real, b: real)
    requires w >= 0.0 && a <= b
    ensures Pct(w, a) <= Pct(w, b)
  {
    assert w * a <= w * b;
  }

  lemma PctRange(w: real, a: real)
    requires w >= 0.0 && 0.0 <= a <= 100.0
    ensures 0.0 <= Pct(w, a) <= w
  {
    PctMonotone(w, 0.0, a);
    PctMonotone(w, a, 100.0);
  }

  lemma {:induction false} UnresolvedRange(g: Graph, n: NodeId, path: set<NodeId>, k: int)
    ensures 0.0 <= Unresolved(g, n, path, k) <= 100.0
    decreases g.Keys - path
  {
    if !Stops(g, n, path) {
      forall i | 0 <= i < |g[n].holdings|
        ensures EdgeUnresolved(g, g[n].holdings[i], path + {n}, k) >= 0.0
      {
        var e := g[n].holdings[i];
        if Followed(e) && k > 0 {
          UnresolvedRange(g, e.target.value, path + {n}, k - 1);
          PctRange(e.weight, Unresolved(g, e.target.value, path + {n}, k - 1));
        }
      }
      SumSeqNonNegative(UnresolvedTerms(g, g[n].holdings, path + {n}, k));
    }
  }

  lemma {:induction false} ExposureNonNegative(g: Graph, n: NodeId, path: set<NodeId>, k: int, lbl: string)
    requires NonNegative(g)
    ensures Exposure(g, n, path, k, lbl) >= 0.0
    decreases g.Keys - path
  {
    if !Stops(g, n, path) {
      forall i | 0 <= i < |g[n].holdings|
        ensures EdgeExposure(g, g[n].holdings[i], path + {n}, k, lbl) >= 0.0
      {
        var e := g[n].holdings[i];
        if Followed(e) && k > 0 {
          ExposureNonNegative(g, e.target.value, path + {n}, k - 1, lbl);
          PctMonotone(e.weight, 0.0, Exposure(g, e.target.value, path + {n}, k - 1, lbl));
        }
      }
      SumSeqNonNegative(ExposureTerms(g, g[n].holdings, path + {n}, k, lbl));
    }
  }

  // ---------- a higher limit ----------

  lemma {:induction false} UnresolvedFalls(g: Graph, n: NodeId, path: set<NodeId>, k: int, k': int)
    requires k <= k'
    ensures Unresolved(g, n, path, k') <= Unresolved(g, n, path, k)
    decreases g.Keys - path
  {
    if !Stops(g, n, path) {
      forall i | 0 <= i < |g[n].holdings|
        ensures EdgeUnresolved(g, g[n].holdings[i], path + {n}, k')
                <= EdgeUnresolved(g, g[n].holdings[i], path + {n}, k)
      {
        EdgeUnresolvedFalls(g, n, g[n].holdings[i], path, k, k');
      }
      SumSeqMonotone(UnresolvedTerms(g, g[n].holdings, path + {n}, k'),
                     UnresolvedTerms(g, g[n].holdings, path + {n}, k));
    }
  }

  lemma {:induction false} EdgeUnresolvedFalls(g: Graph, n: NodeId, e: HoldingEdge, path: set<NodeId>, k: int, k': int)
    requires k <= k' && !Stops(g, n, path)
    ensures EdgeUnresolved(g, e, path + {n}, k') <= EdgeUnresolved(g, e, path + {n}, k)
    decreases g.Keys - path, 0
  {
    if Followed(e) && k' > 0 {
      var m, p := e.target.value, path + {n};
      UnresolvedRange(g, m, p, k' - 1);
      PctRange(e.weight, Unresolved(g, m, p, k' - 1));
      if k > 0 {
        UnresolvedFalls(g, m, p, k - 1, k' - 1);
        PctMonotone(e.weight, Unresolved(g, m, p, k' - 1), Unresolved(g, m, p, k - 1));
      }
    }
  }

  lemma CoverageRises(g: Graph, n: NodeId, path: set<NodeId>, k: int, k': int)
    requires k <= k'
    ensures Coverage(g, n, path, k) <= Coverage(g, n, path, k')
  {
    if !Stops(g, n, path) {
      var p := path + {n};
      forall i | 0 <= i < |g[n].holdings|
        ensures EdgeCoverage(g, g[n].holdings[i], p, k) <= EdgeCoverage(g, g[n].holdings[i], p, k')
      {
        EdgeUnresolvedFalls(g, n, g[n].holdings[i], path, k, k');
      }
      SumSeqMonotone(CoverageTerms(g, g[n].holdings, p, k), CoverageTerms(g, g[n].holdings, p, k'));
    }
  }

  lemma {:induction false} ExposureRises(g: Graph, n: NodeId, path: set<NodeId>, k: int, k': int, lbl: string)
    requires k <= k' && NonNegative(g)
    ensures Exposure(g, n, path, k, lbl) <= Exposure(g, n, path, k', lbl)
    decreases g.Keys - path
  {
    if !Stops(g, n, path) {
      var p := path + {n};
      forall i | 0 <= i < |g[n].holdings|
        ensures EdgeExposure(g, g[n].holdings[i], p, k, lbl) <= EdgeExposure(g, g[n].holdings[i], p, k', lbl)
      {
        var e := g[n].holdings[i];
        if Followed(e) && k' > 0 {
          var low := if k > 0 then Exposure(g, e.target.value, p, k - 1, lbl) else 0.0;
          ExposureNonNegative(g, e.target.value, p, k' - 1, lbl);
          if k > 0 { ExposureRises(g, e.target.value, p, k - 1, k' - 1, lbl); }
          PctMonotone(e.weight, low, Exposure(g, e.target.value, p, k' - 1, lbl));
        }
      }
      SumSeqMonotone(ExposureTerms(g, g[n].holdings, p, k, lbl), ExposureTerms(g, g[n].holdings, p, k', lbl));
    }
  }

  /** Raising the limit never loses coverage nor, with non-negative direct weights, exposure, never
      adds unresolved weight, and never hides a cycle, a label or a level that was seen. */
  lemma DeeperSeesMore(g: Graph, root: NodeId, k: int, k': int, r: LookthroughResult, r': LookthroughResult)
    requires k <= k'
    requires Specified(r, g, root, {}, 0, k) && Specified(r', g, root, {}, 0, k')
    ensures NonNegative(g) ==> forall lbl :: Get(r.exposure, lbl) <= Get(r'.exposure, lbl)
    ensures r.exposure.Keys <= r'.exposure.Keys
    ensures r.coverage <= r'.coverage && r'.unresolved <= r.unresolved
    ensures r.maxDepth <= r'.maxDepth && (r.circular ==> r'.circular)
  {
    if NonNegative(g) {
      forall lbl ensures Exposure(g, root, {}, k, lbl) <= Exposure(g, root, {}, k', lbl) {
        ExposureRises(g, root, {}, k, k', lbl);
      }
    }
    forall lbl | lbl in Labels(g, root, {}, k) ensures lbl in Labels(g, root, {}, k') {
      var p := LabelWitness(g, root, {}, k, lbl);
      LabelReached(g, root, {}, k', lbl, p);
    }
    CoverageRises(g, root, {}, k, k');
    UnresolvedFalls(g, root, {}, k, k');
    var p := DepthWitness(g, root, {}, k);
    DepthReached(g, root, {}, k', p);
    CircularIffClosingWalk(g, root, k);
    CircularIffClosingWalk(g, root, k');
  }

  // ---------- enough depth ----------

  lemma RemainingFalls(g: Graph, n: NodeId, path: set<NodeId>)
    requires !Stops(g, n, path)
    ensures |g.Keys - (path + {n})| == |g.Keys - path| - 1
  {
    assert g.Keys - (path + {n}) == (g.Keys - path) - {n};
  }

  lemma NothingRemains(g: Graph, path: set<NodeId>)
    requires |g.Keys - path| == 0
    ensures forall n :: Stops(g, n, path)
  {
    assert g.Keys - path == {};
    assert forall n :: n in g && n !in path ==> n in g.Keys - path;
  }

  /** Unresolved weight no longer depends on the limit once it is at least the number of
      nodes still unvisited, minus one: a cut edge and a blocked edge weigh the same. */
  lemma {:induction false} UnresolvedStable(g: Graph, n: NodeId, path: set<NodeId>, k: int, k': int)
    requires |g.Keys - path| - 1 <= k && |g.Keys - path| - 1 <= k'
    ensures Unresolved(g, n, path, k) == Unresolved(g, n, path, k')
    decreases g.Keys - path
  {
    if !Stops(g, n, path) {
      forall i | 0 <= i < |g[n].holdings|
        ensures EdgeUnresolved(g, g[n].holdings[i], path + {n}, k)
                == EdgeUnresolved(g, g[n].holdings[i], path + {n}, k')
      {
        EdgeUnresolvedStable(g, n, g[n].holdings[i], path, k, k');
      }
      assert UnresolvedTerms(g, g[n].holdings, path + {n}, k) == UnresolvedTerms(g, g[n].holdings, path + {n}, k');
    }
  }

  lemma {:induction false} EdgeUnresolvedStable(g: Graph, n: NodeId, e: HoldingEdge, path: set<NodeId>, k: int, k': int)
    requires !Stops(g, n, path)
    requires |g.Keys - path| - 1 <= k && |g.Keys - path| - 1 <= k'
    ensures EdgeUnresolved(g, e, path + {n}, k) == EdgeUnresolved(g, e, path + {n}, k')
    decreases g.Keys - path, 0
  {
    RemainingFalls(g, n, path);
    if Followed(e) {
      if k > 0 && k' > 0 {
        UnresolvedStable(g, e.target.value, path + {n}, k - 1, k' - 1);
      } else if k > 0 || k' > 0 {
        NothingRemains(g, path + {n});
      }
    }
  }

  lemma CoverageStable(g: Graph, n: NodeId, path: set<NodeId>, k: int, k': int)
    requires |g.Keys - path| - 1 <= k && |g.Keys - path| - 1 <= k'
    ensures Coverage(g, n, path, k) == Coverage(g, n, path, k')
  {
    if !Stops(g, n, path) {
      forall i | 0 <= i < |g[n].holdings|
        ensures EdgeCoverage(g, g[n].holdings[i], path + {n}, k) == EdgeCoverage(g, g[n].holdings[i], path + {n}, k')
      {
        EdgeUnresolvedStable(g, n, g[n].holdings[i], path, k, k');
      }
      assert CoverageTerms(g, g[n].holdings, path + {n}, k) == CoverageTerms(g, g[n].holdings, path + {n}, k');
    }
  }

  lemma {:induction false} ExposureStable(g: Graph, n: NodeId, path: set<NodeId>, k: int, k': int, lbl: string)
    requires |g.Keys - path| - 1 <= k && |g.Keys - path| - 1 <= k'
    ensures Exposure(g, n, path, k, lbl) == Exposure(g, n, path, k', lbl)
    decreases g.Keys - path
  {
    if !Stops(g, n, path) {
      RemainingFalls(g, n, path);
      forall i | 0 <= i < |g[n].holdings|
        ensures EdgeExposure(g, g[n].holdings[i], path + {n}, k, lbl)
                == EdgeExposure(g, g[n].holdings[i], path + {n}, k', lbl)
      {
        var e := g[n].holdings[i];
        if Followed(e) {
          if k > 0 && k' > 0 {
            ExposureStable(g, e.target.value, path + {n}, k - 1, k' - 1, lbl);
          } else if k > 0 || k' > 0 {
            NothingRemains(g, path + {n});
          }
        }
      }
      assert ExposureTerms(g, g[n].holdings, path + {n}, k, lbl)
             == ExposureTerms(g, g[n].holdings, path + {n}, k', lbl);
    }
  }

  lemma ExploredIsShort(g: Graph, root: NodeId, p: Route)
    requires Explored(g, root, {}, p)
    ensures |p| <= |g.Keys|
  {
    WalkPrefix(g, root, p, 0);
    Pigeonhole(Trail(g, root, p)[..|p|], g.Keys);
  }

  lemma DepthAndCycleStable(g: Graph, root: NodeId, k: int, k': int)
    requires |g.Keys| <= k && |g.Keys| <= k'
    ensures Deepest(g, root, {}, k) <= Deepest(g, root, {}, k')
    ensures Circular(g, root, {}, k) ==> Circular(g, root, {}, k')
    ensures Labels(g, root, {}, k) <= Labels(g, root, {}, k')
  {
    var p := DepthWitness(g, root, {}, k);
    ExploredIsShort(g, root, p);
    DepthReached(g, root, {}, k', p);
    CircularIffCycleReachable(g, root, k);
    CircularIffCycleReachable(g, root, k');
    forall lbl | lbl in Labels(g, root, {}, k) ensures lbl in Labels(g, root, {}, k') {
      var q := LabelWitness(g, root, {}, k, lbl);
      Pigeonhole(Trail(g, root, q), g.Keys);
      LabelReached(g, root, {}, k', lbl, q);
    }
  }

  /** For every limit at or above the number of nodes the whole result is the same. */
  lemma EnoughDepthIsStable(g: Graph, root: NodeId, k: int, k': int, r: LookthroughResult, r': LookthroughResult)
    requires |g.Keys| <= k && |g.Keys| <= k'
    requires Specified(r, g, root, {}, 0, k) && Specified(r', g, root, {}, 0, k')
    ensures r == r'
  {
    assert g.Keys - {} == g.Keys;
    forall lbl ensures Get(r.exposure, lbl) == Get(r'.exposure, lbl) {
      ExposureStable(g, root, {}, k, k', lbl);
    }
    CoverageStable(g, root, {}, k, k');
    UnresolvedStable(g, root, {}, k, k');
    DepthAndCycleStable(g, root, k, k');
    DepthAndCycleStable(g, root, k', k);
    assert forall lbl :: lbl in r.exposure ==> r.exposure[lbl] == Get(r.exposure, lbl) == Get(r'.exposure, lbl);
    assert r.exposure == r'.exposure;
  }
}
