/** Weighted look-through of funds of funds (backend/app/ingestion/lookthrough.py).

    A fund report is a node: it discloses direct weights by label, and holdings of other
    funds. All weights are percentage points, modelled as exact reals. The traversal is the
    imperative `Visit`; each field of its result is specified by one recursive function, and
    the other Lookthrough modules prove what those functions mean on the graph. */
module Lookthrough {
  import opened Sums

  type NodeId = int

  datatype HoldingEdge = HoldingEdge(target: Option<NodeId>, weight: real)

  datatype ExposureNode = ExposureNode(direct: map<string, real>, holdings: seq<HoldingEdge>)

  type Graph = map<NodeId, ExposureNode>

  datatype LookthroughResult = LookthroughResult(
    exposure: map<string, real>,
    coverage: real,
    unresolved: real,
    maxDepth: int,
    circular: bool)

  function Get(m: map<string, real>, lbl: string): real
  {
    if lbl in m then m[lbl] else 0.0
  }

  /** `weight` percent of `x`. */
  function Pct(weight: real, x: real): real
  {
    weight * x / 100.0
  }

  /** A dictionary of weights as a total function, absent labels weighing nothing. */
  ghost function Weights(m: map<string, real>): string -> real
  {
    lbl => Get(m, lbl)
  }

  ghost function Total(m: map<string, real>): real
  {
    SumOver(m.Keys, Weights(m))
  }

  /** The traversal descends exactly along positive-weight edges with a known target. */
  predicate Followed(e: HoldingEdge)
  {
    e.weight > 0.0 && e.target.Some?
  }

  ghost function Elements(path: seq<NodeId>): set<NodeId>
  {
    set n | n in path
  }

  // ---------- specification: `path` holds the ancestors, `k` the levels still allowed ----------

  ghost predicate Stops(g: Graph, n: NodeId, path: set<NodeId>)
  {
    n in path || n !in g
  }

  ghost function Exposure(g: Graph, n: NodeId, path: set<NodeId>, k: int, lbl: string): real
    decreases g.Keys - path, 0
  {
    if Stops(g, n, path) then 0.0
    else Get(g[n].direct, lbl) + Sum(ExposureTerms(g, g[n].holdings, path + {n}, k, lbl))
  }

  ghost function ExposureTerms(g: Graph, es: seq<HoldingEdge>, path: set<NodeId>, k: int, lbl: string): (s: seq<real>)
    ensures |s| == |es|
    decreases g.Keys - path, 2
  {
    seq(|es|, i requires 0 <= i < |es| => EdgeExposure(g, es[i], path, k, lbl))
  }

  ghost function EdgeExposure(g: Graph, e: HoldingEdge, path: set<NodeId>, k: int, lbl: string): real
    decreases g.Keys - path, 1
  {
    if Followed(e) && k > 0 then Pct(e.weight, Exposure(g, e.target.value, path, k - 1, lbl)) else 0.0
  }

  ghost function Unresolved(g: Graph, n: NodeId, path: set<NodeId>, k: int): real
    decreases g.Keys - path, 0
  {
    if Stops(g, n, path) then 100.0
    else MinReal(100.0, Sum(UnresolvedTerms(g, g[n].holdings, path + {n}, k)))
  }

  ghost function UnresolvedTerms(g: Graph, es: seq<HoldingEdge>, path: set<NodeId>, k: int): (s: seq<real>)
    ensures |s| == |es|
    decreases g.Keys - path, 2
  {
    seq(|es|, i requires 0 <= i < |es| => EdgeUnresolved(g, es[i], path, k))
  }

  ghost function EdgeUnresolved(g: Graph, e: HoldingEdge, path: set<NodeId>, k: int): real
    decreases g.Keys - path, 1
  {
    if e.weight <= 0.0 then 0.0
    else if e.target.None? || k <= 0 then e.weight
    else Pct(e.weight, Unresolved(g, e.target.value, path, k - 1))
  }

  ghost function Coverage(g: Graph, n: NodeId, path: set<NodeId>, k: int): real
  {
    if Stops(g, n, path) then 0.0
    else MinReal(100.0, MinReal(100.0, Total(g[n].direct)) + Sum(CoverageTerms(g, g[n].holdings, path + {n}, k)))
  }

  ghost function CoverageTerms(g: Graph, es: seq<HoldingEdge>, path: set<NodeId>, k: int): (s: seq<real>)
    ensures |s| == |es|
  {
    seq(|es|, i requires 0 <= i < |es| => EdgeCoverage(g, es[i], path, k))
  }

  ghost function EdgeCoverage(g: Graph, e: HoldingEdge, path: set<NodeId>, k: int): real
  {
    if Followed(e) && k > 0
    then MaxReal(0.0, e.weight - Pct(e.weight, Unresolved(g, e.target.value, path, k - 1)))
    else 0.0
  }

  ghost function Deepest(g: Graph, n: NodeId, path: set<NodeId>, k: int): nat
    decreases g.Keys - path, 0
  {
    if Stops(g, n, path) then 0 else Highest(DepthTerms(g, g[n].holdings, path + {n}, k))
  }

  ghost function DepthTerms(g: Graph, es: seq<HoldingEdge>, path: set<NodeId>, k: int): (s: seq<nat>)
    ensures |s| == |es|
    decreases g.Keys - path, 2
  {
    seq(|es|, i requires 0 <= i < |es| => EdgeDepth(g, es[i], path, k))
  }

  ghost function EdgeDepth(g: Graph, e: HoldingEdge, path: set<NodeId>, k: int): nat
    decreases g.Keys - path, 1
  {
    if Followed(e) && k > 0 then 1 + Deepest(g, e.target.value, path, k - 1) else 0
  }

  ghost function Highest(s: seq<nat>): nat
  {
    if |s| == 0 then 0 else Max(Highest(s[..|s| - 1]), s[|s| - 1])
  }

  ghost predicate Circular(g: Graph, n: NodeId, path: set<NodeId>, k: int)
    decreases g.Keys - path, 0
  {
    n in path || (n in g && CircularBelow(g, g[n].holdings, path + {n}, k))
  }

  ghost predicate CircularBelow(g: Graph, es: seq<HoldingEdge>, path: set<NodeId>, k: int)
    decreases g.Keys - path, 2
  {
    exists i :: 0 <= i < |es| && EdgeCircular(g, es[i], path, k)
  }

  ghost predicate EdgeCircular(g: Graph, e: HoldingEdge, path: set<NodeId>, k: int)
    decreases g.Keys - path, 1
  {
    Followed(e) && k > 0 && Circular(g, e.target.value, path, k - 1)
  }

  ghost function Labels(g: Graph, n: NodeId, path: set<NodeId>, k: int): set<string>
    decreases g.Keys - path, 0
  {
    if Stops(g, n, path) then {} else g[n].direct.Keys + LabelsBelow(g, g[n].holdings, path + {n}, k)
  }

  ghost function LabelsBelow(g: Graph, es: seq<HoldingEdge>, path: set<NodeId>, k: int): set<string>
    decreases g.Keys - path, 2
  {
    set i, lbl | 0 <= i < |es| && lbl in EdgeLabels(g, es[i], path, k) :: lbl
  }

  ghost function EdgeLabels(g: Graph, e: HoldingEdge, path: set<NodeId>, k: int): set<string>
    decreases g.Keys - path, 1
  {
    if Followed(e) && k > 0 then Labels(g, e.target.value, path, k - 1) else {}
  }

  /** What one call of the traversal must return, field by field. */
  ghost predicate Specified(r: LookthroughResult, g: Graph, n: NodeId, path: set<NodeId>, depth: int, maxDepth: int)
  {
    && r.exposure.Keys == Labels(g, n, path, maxDepth - depth)
    && (forall lbl :: Get(r.exposure, lbl) == Exposure(g, n, path, maxDepth - depth, lbl))
    && r.coverage == Coverage(g, n, path, maxDepth - depth)
    && r.unresolved == Unresolved(g, n, path, maxDepth - depth)
    && r.maxDepth == depth + Deepest(g, n, path, maxDepth - depth)
    && r.circular == Circular(g, n, path, maxDepth - depth)
  }

  // ---------- the traversal ----------

  method DirectTotal(direct: map<string, real>) returns (total: real)
    ensures total == Total(direct)
  {
    total := 0.0;
    var rest := direct.Keys;
    while rest != {}
      invariant rest <= direct.Keys
      invariant total + SumOver(rest, Weights(direct)) == Total(direct)
      decreases rest
    {
      var lbl :| lbl in rest;
      SumRemove(rest, lbl, Weights(direct));
      total := total + direct[lbl];
      rest := rest - {lbl};
    }
  }

  /** Adds a child's exposure, scaled by the edge weight, label by label. */
  method AddScaled(exposure: map<string, real>, weight: real, child: map<string, real>)
      returns (r: map<string, real>)
    ensures r.Keys == exposure.Keys + child.Keys
    ensures forall lbl :: Get(r, lbl) == Get(exposure, lbl) + Pct(weight, Get(child, lbl))
  {
    r := exposure;
    var rest := child.Keys;
    while rest != {}
      invariant rest <= child.Keys
      invariant r.Keys == exposure.Keys + (child.Keys - rest)
      invariant forall lbl ::
        Get(r, lbl) == Get(exposure, lbl) + (if lbl in rest then 0.0 else Pct(weight, Get(child, lbl)))
      decreases rest
    {
      var lbl :| lbl in rest;
      r := r[lbl := Get(r, lbl) + Pct(weight, child[lbl])];
      rest := rest - {lbl};
    }
  }

  /** The exposure dictionary of `visit` after the first `i` holdings of `node`. */
  ghost predicate Spread(m: map<string, real>, g: Graph, node: ExposureNode, i: nat, p: set<NodeId>, k: int)
    requires i <= |node.holdings|
  {
    && m.Keys == node.direct.Keys + LabelsBelow(g, node.holdings[..i], p, k)
    && forall lbl :: Get(m, lbl) == Get(node.direct, lbl) + Sum(ExposureTerms(g, node.holdings, p, k, lbl)[..i])
  }

  /** All five accumulators of `visit` after the first `i` holdings of `node`. */
  ghost predicate Accumulated(
    r: LookthroughResult, g: Graph, node: ExposureNode, i: nat, p: set<NodeId>, depth: int, maxDepth: int)
    requires i <= |node.holdings|
  {
    var es, k := node.holdings, maxDepth - depth;
    && Spread(r.exposure, g, node, i, p, k)
    && r.coverage == MinReal(100.0, Total(node.direct)) + Sum(CoverageTerms(g, es, p, k)[..i])
    && r.unresolved == Sum(UnresolvedTerms(g, es, p, k)[..i])
    && r.maxDepth == depth + Highest(DepthTerms(g, es, p, k)[..i])
    && r.circular == CircularBelow(g, es[..i], p, k)
  }

  /** One more edge extends every per-edge fold of the specification by its own term. */
  lemma PrefixStep(g: Graph, es: seq<HoldingEdge>, p: set<NodeId>, k: int, i: nat)
    requires i < |es|
    ensures Sum(CoverageTerms(g, es, p, k)[..i + 1])
            == Sum(CoverageTerms(g, es, p, k)[..i]) + EdgeCoverage(g, es[i], p, k)
    ensures Sum(UnresolvedTerms(g, es, p, k)[..i + 1])
            == Sum(UnresolvedTerms(g, es, p, k)[..i]) + EdgeUnresolved(g, es[i], p, k)
    ensures Highest(DepthTerms(g, es, p, k)[..i + 1])
            == Max(Highest(DepthTerms(g, es, p, k)[..i]), EdgeDepth(g, es[i], p, k))
    ensures CircularBelow(g, es[..i + 1], p, k) == (CircularBelow(g, es[..i], p, k) || EdgeCircular(g, es[i], p, k))
    ensures LabelsBelow(g, es[..i + 1], p, k) == LabelsBelow(g, es[..i], p, k) + EdgeLabels(g, es[i], p, k)
  {
    hide Exposure, Unresolved, Labels, Deepest, Circular, EdgeCoverage, EdgeUnresolved, EdgeDepth, EdgeCircular;
    hide EdgeLabels;
    SumPrefix(CoverageTerms(g, es, p, k), i);
    SumPrefix(UnresolvedTerms(g, es, p, k), i);
    var ds := DepthTerms(g, es, p, k);
    assert ds[..i + 1][..i] == ds[..i];
    var a, b := es[..i + 1], es[..i];
    assert forall j :: 0 <= j < i ==> a[j] == b[j];
    assert a[i] == es[i];
  }

  lemma SpreadStep(
    before: map<string, real>, after: map<string, real>, g: Graph, node: ExposureNode, i: nat, p: set<NodeId>, k: int)
    requires i < |node.holdings| && Spread(before, g, node, i, p, k)
    requires after.Keys == before.Keys + EdgeLabels(g, node.holdings[i], p, k)
    requires forall lbl :: Get(after, lbl) == Get(before, lbl) + EdgeExposure(g, node.holdings[i], p, k, lbl)
    ensures Spread(after, g, node, i + 1, p, k)
  {
    PrefixStep(g, node.holdings, p, k, i);
    forall lbl {
      SumPrefix(ExposureTerms(g, node.holdings, p, k, lbl), i);
    }
  }

  lemma StopsAtOnce(g: Graph, n: NodeId, path: set<NodeId>, depth: int, maxDepth: int)
    requires Stops(g, n, path)
    ensures Specified(LookthroughResult(map[], 0.0, 100.0, depth, n in path), g, n, path, depth, maxDepth)
  {
  }

  lemma StepsStart(g: Graph, node: ExposureNode, p: set<NodeId>, depth: int, maxDepth: int)
    ensures Accumulated(LookthroughResult(node.direct, MinReal(100.0, Total(node.direct)), 0.0, depth, false),
                        g, node, 0, p, depth, maxDepth)
  {
  }

  lemma StepNotFollowed(
    r: LookthroughResult, g: Graph, node: ExposureNode, i: nat, p: set<NodeId>, depth: int, maxDepth: int)
    requires i < |node.holdings| && Accumulated(r, g, node, i, p, depth, maxDepth)
    requires node.holdings[i].weight <= 0.0 || node.holdings[i].target.None? || depth >= maxDepth
    ensures Accumulated(r.(unresolved := r.unresolved + MaxReal(0.0, node.holdings[i].weight)),
                        g, node, i + 1, p, depth, maxDepth)
  {
    var k := maxDepth - depth;
    PrefixStep(g, node.holdings, p, k, i);
    SpreadStep(r.exposure, r.exposure, g, node, i, p, k);
  }

  lemma StepFollowed(
    r: LookthroughResult, g: Graph, node: ExposureNode, i: nat, p: set<NodeId>, depth: int, maxDepth: int,
    child: LookthroughResult, exposure: map<string, real>)
    requires i < |node.holdings| && Accumulated(r, g, node, i, p, depth, maxDepth)
    requires Followed(node.holdings[i]) && depth < maxDepth
    requires Specified(child, g, node.holdings[i].target.value, p, depth + 1, maxDepth)
    requires exposure.Keys == r.exposure.Keys + child.exposure.Keys
    requires forall lbl ::
               Get(exposure, lbl) == Get(r.exposure, lbl) + Pct(node.holdings[i].weight, Get(child.exposure, lbl))
    ensures var edge := node.holdings[i];
            var nested := Pct(edge.weight, child.unresolved);
            Accumulated(LookthroughResult(exposure, r.coverage + MaxReal(0.0, edge.weight - nested),
                                          r.unresolved + nested, Max(r.maxDepth, child.maxDepth),
                                          r.circular || child.circular),
                        g, node, i + 1, p, depth, maxDepth)
  {
    hide Pct, Spread, Labels, Exposure, Unresolved, Deepest, Circular, Sum, Highest, LabelsBelow, CircularBelow;
    var k := maxDepth - depth;
    PrefixStep(g, node.holdings, p, k, i);
    SpreadStep(r.exposure, exposure, g, node, i, p, k);
  }

  lemma StepsComplete(
    r: LookthroughResult, g: Graph, n: NodeId, path: set<NodeId>, depth: int, maxDepth: int)
    requires !Stops(g, n, path)
    requires Accumulated(r, g, g[n], |g[n].holdings|, path + {n}, depth, maxDepth)
    ensures Specified(r.(coverage := MinReal(100.0, r.coverage), unresolved := MinReal(100.0, r.unresolved)),
                      g, n, path, depth, maxDepth)
  {
    var es, p, k := g[n].holdings, path + {n}, maxDepth - depth;
    assert es[..|es|] == es;
    forall lbl {
      SumAll(ExposureTerms(g, es, p, k, lbl));
    }
    SumAll(CoverageTerms(g, es, p, k));
    SumAll(UnresolvedTerms(g, es, p, k));
    assert DepthTerms(g, es, p, k)[..|es|] == DepthTerms(g, es, p, k);
  }

  method Visit(nodes: Graph, nodeId: NodeId, path: seq<NodeId>, depth: int, maxDepth: int)
      returns (r: LookthroughResult)
    ensures Specified(r, nodes, nodeId, Elements(path), depth, maxDepth)
    decreases nodes.Keys - Elements(path)
  {
    hide Specified, Accumulated, Pct;
    if nodeId in path {
      StopsAtOnce(nodes, nodeId, Elements(path), depth, maxDepth);
      return LookthroughResult(map[], 0.0, 100.0, depth, true);
    }
    if nodeId !in nodes {
      StopsAtOnce(nodes, nodeId, Elements(path), depth, maxDepth);
      return LookthroughResult(map[], 0.0, 100.0, depth, false);
    }
    var node := nodes[nodeId];
    var exposure := node.direct;
    var total := DirectTotal(node.direct);
    var coverage := MinReal(100.0, total);
    var unresolved := 0.0;
    var deepest := depth;
    var circular := false;
    var path' := path + [nodeId];
    ghost var p := Elements(path) + {nodeId};
    assert Elements(path') == p;
    StepsStart(nodes, node, p, depth, maxDepth);
    for i := 0 to |node.holdings|
      invariant Accumulated(LookthroughResult(exposure, coverage, unresolved, deepest, circular),
                            nodes, node, i, p, depth, maxDepth)
      invariant deepest >= depth
    {
      var edge := node.holdings[i];
      ghost var r0 := LookthroughResult(exposure, coverage, unresolved, deepest, circular);
      if edge.weight <= 0.0 {
        StepNotFollowed(r0, nodes, node, i, p, depth, maxDepth);
        continue;
      }
      if edge.target.None? || depth >= maxDepth {
        StepNotFollowed(r0, nodes, node, i, p, depth, maxDepth);
        unresolved := unresolved + edge.weight;
        deepest := Max(deepest, depth);
        continue;
      }
      var child := Visit(nodes, edge.target.value, path', depth + 1, maxDepth);
      exposure := AddScaled(exposure, edge.weight, child.exposure);
      StepFollowed(r0, nodes, node, i, p, depth, maxDepth, child, exposure);
      var nested := Pct(edge.weight, child.unresolved);
      unresolved := unresolved + nested;
      coverage := coverage + MaxReal(0.0, edge.weight - nested);
      deepest := Max(deepest, child.maxDepth);
      circular := circular || child.circular;
    }
    r := LookthroughResult(exposure, coverage, unresolved, deepest, circular);
    StepsComplete(r, nodes, nodeId, Elements(path), depth, maxDepth);
    r := r.(coverage := MinReal(100.0, coverage), unresolved := MinReal(100.0, unresolved));
  }

  method WeightedLookthrough(nodes: Graph, root: NodeId, maxDepth: int) returns (r: LookthroughResult)
    ensures Specified(r, nodes, root, {}, 0, maxDepth)
  {
    assert Elements([]) == {};
    r := Visit(nodes, root, [], 0, maxDepth);
  }
}
