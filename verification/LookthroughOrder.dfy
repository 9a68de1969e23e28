/** The order in which a report lists its fund holdings does not matter. */
module LookthroughOrder {
  import opened Sums
  import opened Lookthrough
  import opened LookthroughWalks

  /** The same reports, each with its holdings listed in some order. */
  ghost predicate SameUpToOrder(g: Graph, h: Graph)
  {
    && g.Keys == h.Keys
    && forall n :: n in g ==> g[n].direct == h[n].direct && multiset(g[n].holdings) == multiset(h[n].holdings)
  }

  lemma SameMembers(xs: seq<HoldingEdge>, ys: seq<HoldingEdge>, i: nat) returns (j: nat)
    requires multiset(xs) == multiset(ys) && i < |xs|
    ensures j < |ys| && ys[j] == xs[i]
  {
    assert xs[i] in multiset(ys);
    j :| 0 <= j < |ys| && ys[j] == xs[i];
  }

  lemma {:induction false} ExposureIgnoresOrder(g: Graph, h: Graph, n: NodeId, path: set<NodeId>, k: int, lbl: string)
    requires SameUpToOrder(g, h)
    ensures Exposure(g, n, path, k, lbl) == Exposure(h, n, path, k, lbl)
    decreases g.Keys - path
  {
    if !Stops(g, n, path) {
      var p := path + {n};
      var es, fs := g[n].holdings, h[n].holdings;
      var s, t := ExposureTerms(g, es, p, k, lbl), ExposureTerms(h, fs, p, k, lbl);
      forall i, j | 0 <= i < |es| && 0 <= j < |fs| && es[i] == fs[j] ensures s[i] == t[j] {
        if Followed(es[i]) { ExposureIgnoresOrder(g, h, es[i].target.value, p, k - 1, lbl); }
        assert s[i] == EdgeExposure(g, es[i], p, k, lbl) == EdgeExposure(h, fs[j], p, k, lbl) == t[j];
      }
      SumPermuted(es, fs, s, t);
    }
  }

  lemma {:induction false} UnresolvedIgnoresOrder(g: Graph, h: Graph, n: NodeId, path: set<NodeId>, k: int)
    requires SameUpToOrder(g, h)
    ensures Unresolved(g, n, path, k) == Unresolved(h, n, path, k)
    decreases g.Keys - path
  {
    if !Stops(g, n, path) {
      var p := path + {n};
      var es, fs := g[n].holdings, h[n].holdings;
      var s, t := UnresolvedTerms(g, es, p, k), UnresolvedTerms(h, fs, p, k);
      forall i, j | 0 <= i < |es| && 0 <= j < |fs| && es[i] == fs[j] ensures s[i] == t[j] {
        if Followed(es[i]) { UnresolvedIgnoresOrder(g, h, es[i].target.value, p, k - 1); }
        assert s[i] == EdgeUnresolved(g, es[i], p, k) == EdgeUnresolved(h, fs[j], p, k) == t[j];
      }
      SumPermuted(es, fs, s, t);
    }
  }

  lemma CoverageIgnoresOrder(g: Graph, h: Graph, n: NodeId, path: set<NodeId>, k: int)
    requires SameUpToOrder(g, h)
    ensures Coverage(g, n, path, k) == Coverage(h, n, path, k)
  {
    if !Stops(g, n, path) {
      var p := path + {n};
      var es, fs := g[n].holdings, h[n].holdings;
      var s, t := CoverageTerms(g, es, p, k), CoverageTerms(h, fs, p, k);
      forall i, j | 0 <= i < |es| && 0 <= j < |fs| && es[i] == fs[j] ensures s[i] == t[j] {
        if Followed(es[i]) { UnresolvedIgnoresOrder(g, h, es[i].target.value, p, k - 1); }
        assert s[i] == EdgeCoverage(g, es[i], p, k) == EdgeCoverage(h, fs[j], p, k) == t[j];
      }
      SumPermuted(es, fs, s, t);
    }
  }

  lemma {:induction false} DepthIgnoresOrder(g: Graph, h: Graph, n: NodeId, path: set<NodeId>, k: int)
    requires SameUpToOrder(g, h)
    ensures Deepest(g, n, path, k) <= Deepest(h, n, path, k)
    decreases g.Keys - path
  {
    if !Stops(g, n, path) {
      var p := path + {n};
      var ds, ds' := DepthTerms(g, g[n].holdings, p, k), DepthTerms(h, h[n].holdings, p, k);
      HighestBounds(ds);
      HighestBounds(ds');
      if i :| 0 <= i < |ds| && ds[i] == Highest(ds) {
        var j := SameMembers(g[n].holdings, h[n].holdings, i);
        var e := g[n].holdings[i];
        if Followed(e) { DepthIgnoresOrder(g, h, e.target.value, p, k - 1); }
        assert ds[i] == EdgeDepth(g, e, p, k) <= EdgeDepth(h, e, p, k) == ds'[j];
      }
    }
  }

  lemma {:induction false} CycleIgnoresOrder(g: Graph, h: Graph, n: NodeId, path: set<NodeId>, k: int)
    requires SameUpToOrder(g, h) && Circular(g, n, path, k)
    ensures Circular(h, n, path, k)
    decreases g.Keys - path
  {
    if n !in path {
      var p := path + {n};
      var i :| 0 <= i < |g[n].holdings| && EdgeCircular(g, g[n].holdings[i], p, k);
      var j := SameMembers(g[n].holdings, h[n].holdings, i);
      CycleIgnoresOrder(g, h, g[n].holdings[i].target.value, p, k - 1);
      assert EdgeCircular(h, h[n].holdings[j], p, k);
    }
  }

  lemma {:induction false} LabelsIgnoreOrder(g: Graph, h: Graph, n: NodeId, path: set<NodeId>, k: int, lbl: string)
    requires SameUpToOrder(g, h) && lbl in Labels(g, n, path, k)
    ensures lbl in Labels(h, n, path, k)
    decreases g.Keys - path
  {
    if lbl !in g[n].direct {
      var p := path + {n};
      var i :| 0 <= i < |g[n].holdings| && lbl in EdgeLabels(g, g[n].holdings[i], p, k);
      var j := SameMembers(g[n].holdings, h[n].holdings, i);
      LabelsIgnoreOrder(g, h, g[n].holdings[i].target.value, p, k - 1, lbl);
      assert lbl in EdgeLabels(h, h[n].holdings[j], p, k);
    }
  }

  /** Main result: two listings of the same holdings give the same look-through result. */
  lemma ResultIgnoresOrder(g: Graph, h: Graph, root: NodeId, maxDepth: int, r: LookthroughResult, r': LookthroughResult)
    requires SameUpToOrder(g, h)
    requires Specified(r, g, root, {}, 0, maxDepth) && Specified(r', h, root, {}, 0, maxDepth)
    ensures r == r'
  {
    forall lbl ensures Get(r.exposure, lbl) == Get(r'.exposure, lbl) {
      ExposureIgnoresOrder(g, h, root, {}, maxDepth, lbl);
    }
    UnresolvedIgnoresOrder(g, h, root, {}, maxDepth);
    CoverageIgnoresOrder(g, h, root, {}, maxDepth);
    DepthIgnoresOrder(g, h, root, {}, maxDepth);
    DepthIgnoresOrder(h, g, root, {}, maxDepth);
    if Circular(g, root, {}, maxDepth) { CycleIgnoresOrder(g, h, root, {}, maxDepth); }
    if Circular(h, root, {}, maxDepth) { CycleIgnoresOrder(h, g, root, {}, maxDepth); }
    forall lbl | lbl in r.exposure ensures lbl in r'.exposure { LabelsIgnoreOrder(g, h, root, {}, maxDepth, lbl); }
    forall lbl | lbl in r'.exposure ensures lbl in r.exposure { LabelsIgnoreOrder(h, g, root, {}, maxDepth, lbl); }
    assert forall lbl :: lbl in r.exposure ==> r.exposure[lbl] == Get(r.exposure, lbl) == Get(r'.exposure, lbl);
    assert r.exposure == r'.exposure;
  }
}
