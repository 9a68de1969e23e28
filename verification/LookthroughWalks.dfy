/** The label set, the cycle flag and the reported depth, stated on walks of the graph. */
module LookthroughWalks {
  import opened Sums
  import opened Lookthrough
  import opened LookthroughPaths

  // ---------- labels ----------

  ghost predicate Discloses(g: Graph, n: NodeId, path: set<NodeId>, p: Route, lbl: string)
  {
    SimpleAvoiding(g, n, path, p) && lbl in g[End(g, n, p)].direct
  }

  lemma {:induction false} LabelWitness(g: Graph, n: NodeId, path: set<NodeId>, k: int, lbl: string) returns (p: Route)
    requires lbl in Labels(g, n, path, k)
    ensures Discloses(g, n, path, p, lbl) && |p| <= Max(0, k)
    decreases g.Keys - path
  {
    if lbl in g[n].direct {
      p := [];
    } else {
      var i :| 0 <= i < |g[n].holdings| && lbl in EdgeLabels(g, g[n].holdings[i], path + {n}, k);
      assert CanStep(g, n, i);
      var q := LabelWitness(g, Step(g, n, i), path + {n}, k - 1, lbl);
      p := [i] + q;
      assert p[1..] == q;
      SimpleCons(g, n, path, p);
    }
  }

  lemma {:induction false} LabelReached(g: Graph, n: NodeId, path: set<NodeId>, k: int, lbl: string, p: Route)
    requires Discloses(g, n, path, p, lbl) && |p| <= Max(0, k)
    ensures lbl in Labels(g, n, path, k)
    decreases p
  {
    assert n in Trail(g, n, p);
    if p != [] {
      SimpleCons(g, n, path, p);
      LabelReached(g, Step(g, n, p[0]), path + {n}, k - 1, lbl, p[1..]);
      assert lbl in EdgeLabels(g, g[n].holdings[p[0]], path + {n}, k);
    }
  }

  /** The exposure dictionary has a key exactly for the labels disclosed at the end of some
      simple path within the depth limit (a stored row may still weigh zero). */
  lemma LabelsAreDisclosed(g: Graph, root: NodeId, maxDepth: int, lbl: string)
    ensures lbl in Labels(g, root, {}, maxDepth)
       <==> exists p :: SimplePath(g, root, p) && |p| <= Max(0, maxDepth) && lbl in g[End(g, root, p)].direct
  {
    if lbl in Labels(g, root, {}, maxDepth) {
      var p := LabelWitness(g, root, {}, maxDepth, lbl);
      assert SimplePath(g, root, p);
    }
    if p :| SimplePath(g, root, p) && |p| <= Max(0, maxDepth) && lbl in g[End(g, root, p)].direct {
      LabelReached(g, root, {}, maxDepth, lbl, p);
    }
  }

  // ---------- explored walks: every step leaves a node not met before ----------

  ghost predicate Explored(g: Graph, n: NodeId, path: set<NodeId>, p: Route)
  {
    && Walk(g, n, p)
    && Distinct(Trail(g, n, p)[..|p|])
    && forall x :: x in Trail(g, n, p)[..|p|] ==> x !in path
  }

  /** An explored walk whose last edge comes back onto the walk, or onto `path`. */
  ghost predicate Closing(g: Graph, n: NodeId, path: set<NodeId>, p: Route)
  {
    Explored(g, n, path, p) && (End(g, n, p) in Trail(g, n, p)[..|p|] || End(g, n, p) in path)
  }

  lemma ExploredCons(g: Graph, n: NodeId, path: set<NodeId>, p: Route)
    requires p != [] && CanStep(g, n, p[0]) && n !in path
    ensures Explored(g, n, path, p) <==> Explored(g, Step(g, n, p[0]), path + {n}, p[1..])
    ensures Closing(g, n, path, p) <==> Closing(g, Step(g, n, p[0]), path + {n}, p[1..])
  {
    var m, q := Step(g, n, p[0]), p[1..];
    if Walk(g, m, q) {
      var t, u := Trail(g, n, p)[..|p|], Trail(g, m, q)[..|q|];
      assert t == [n] + u;
      assert forall i :: 0 < i < |t| ==> t[i] == u[i - 1];
      assert forall i :: 0 <= i < |u| ==> u[i] == t[i + 1];
      assert End(g, n, p) == End(g, m, q);
    }
  }

  lemma {:induction false} CycleWitness(g: Graph, n: NodeId, path: set<NodeId>, k: int) returns (p: Route)
    requires Circular(g, n, path, k)
    ensures Closing(g, n, path, p) && |p| <= Max(0, k)
    decreases g.Keys - path
  {
    if n in path {
      p := [];
    } else {
      var i :| 0 <= i < |g[n].holdings| && EdgeCircular(g, g[n].holdings[i], path + {n}, k);
      assert CanStep(g, n, i);
      var q := CycleWitness(g, Step(g, n, i), path + {n}, k - 1);
      p := [i] + q;
      assert p[1..] == q;
      ExploredCons(g, n, path, p);
    }
  }

  lemma {:induction false} CycleSeen(g: Graph, n: NodeId, path: set<NodeId>, k: int, p: Route)
    requires Closing(g, n, path, p) && |p| <= Max(0, k)
    ensures Circular(g, n, path, k)
    decreases p
  {
    if p != [] && n !in path {
      ExploredCons(g, n, path, p);
      CycleSeen(g, Step(g, n, p[0]), path + {n}, k - 1, p[1..]);
      assert EdgeCircular(g, g[n].holdings[p[0]], path + {n}, k);
    }
  }

  /** The flag is raised exactly when, within the depth limit, a simple path is closed by one
      more followed edge back onto itself. */
  lemma CircularIffClosingWalk(g: Graph, root: NodeId, maxDepth: int)
    ensures Circular(g, root, {}, maxDepth)
       <==> exists p :: Closing(g, root, {}, p) && |p| <= Max(0, maxDepth)
  {
    if Circular(g, root, {}, maxDepth) {
      var p := CycleWitness(g, root, {}, maxDepth);
    }
    if p :| Closing(g, root, {}, p) && |p| <= Max(0, maxDepth) {
      CycleSeen(g, root, {}, maxDepth, p);
    }
  }

  // ---------- the flag against reachability of a cycle ----------

  lemma {:induction false} Pigeonhole(s: seq<NodeId>, nodes: set<NodeId>)
    requires Distinct(s) && forall x :: x in s ==> x in nodes
    ensures |s| <= |nodes|
    decreases |s|
  {
    if s != [] {
      var last := s[|s| - 1];
      assert forall x :: x in s[..|s| - 1] ==> x in s && x != last;
      Pigeonhole(s[..|s| - 1], nodes - {last});
    }
  }

  lemma {:induction false} WalkPrefix(g: Graph, n: NodeId, p: Route, j: nat)
    requires Walk(g, n, p) && j <= |p|
    ensures Walk(g, n, p[..j]) && Trail(g, n, p[..j]) == Trail(g, n, p)[..j + 1]
    ensures forall i :: 0 <= i < |p| ==> Trail(g, n, p)[i] in g
    decreases p
  {
    if p != [] {
      var m := Step(g, n, p[0]);
      WalkPrefix(g, m, p[1..], if j == 0 then 0 else j - 1);
      if j > 0 {
        assert p[..j][1..] == p[1..][..j - 1];
      }
    }
  }

  /** The first return of a walk that meets some node twice. */
  lemma {:induction false} FirstReturn(g: Graph, n: NodeId, p: Route) returns (q: Route)
    requires Walk(g, n, p) && !Distinct(Trail(g, n, p))
    ensures Closing(g, n, {}, q)
    decreases |p|
  {
    var j := |p| - 1;
    var t := Trail(g, n, p);
    WalkPrefix(g, n, p, j);
    if Distinct(t[..|p|]) {
      q := p;
      var a, b :| 0 <= a < b < |t| && t[a] == t[b];
      assert b == |p|;
      assert t[..|p|][a] == t[a];
    } else {
      q := FirstReturn(g, n, p[..j]);
    }
  }

  lemma ClosingIsShort(g: Graph, root: NodeId, p: Route)
    requires Closing(g, root, {}, p)
    ensures |p| <= |g.Keys|
  {
    WalkPrefix(g, root, p, 0);
    Pigeonhole(Trail(g, root, p)[..|p|], g.Keys);
  }

  /** Once the limit reaches the number of nodes, the flag is exactly "from the root, some
      walk along followed edges meets a node twice": a cycle is reachable. */
  lemma CircularIffCycleReachable(g: Graph, root: NodeId, maxDepth: int)
    requires maxDepth >= |g.Keys|
    ensures Circular(g, root, {}, maxDepth)
       <==> exists p :: Walk(g, root, p) && !Distinct(Trail(g, root, p))
  {
    CircularIffClosingWalk(g, root, maxDepth);
    if p :| Walk(g, root, p) && !Distinct(Trail(g, root, p)) {
      var q := FirstReturn(g, root, p);
      ClosingIsShort(g, root, q);
    }
    if p :| Closing(g, root, {}, p) && |p| <= Max(0, maxDepth) {
      var t := Trail(g, root, p);
      var i :| 0 <= i < |p| && t[..|p|][i] == End(g, root, p);
      assert t[i] == t[|p|];
    }
  }

  function Next(n: nat, i: nat): NodeId
  {
    if i + 1 < n then i + 1 else 0
  }

  /** Funds 0 to n - 1, each of which holds the next one and the last one the first. */
  function Ring(n: nat): Graph
  {
    map i | i in Below(n) :: ExposureNode(map[], [HoldingEdge(Some(Next(n, i)), 50.0)])
  }

  function Below(n: nat): (r: set<NodeId>)
    ensures |r| == n && forall j :: j in r <==> 0 <= j < n
  {
    if n == 0 then {} else Below(n - 1) + {n - 1}
  }

  /** A fund with one followed holding that is not on the path meets a cycle one level later. */
  lemma OneHolding(g: Graph, i: NodeId, m: NodeId, path: set<NodeId>, k: nat)
    requires i in g && i !in path && g[i].holdings == [HoldingEdge(Some(m), 50.0)]
    ensures Circular(g, i, path, k) <==> k > 0 && Circular(g, m, path + {i}, k - 1)
  {
    var es := g[i].holdings;
    assert EdgeCircular(g, es[0], path + {i}, k) <==> k > 0 && Circular(g, m, path + {i}, k - 1);
    assert CircularBelow(g, es, path + {i}, k) <==> EdgeCircular(g, es[0], path + {i}, k);
  }

  lemma OnPath(g: Graph, i: NodeId, path: set<NodeId>, k: int)
    requires i in path
    ensures Circular(g, i, path, k)
  {
  }

  lemma RingNode(n: nat, i: nat)
    requires i < n
    ensures i in Ring(n) && Ring(n)[i].holdings == [HoldingEdge(Some(Next(n, i)), 50.0)]
    ensures i !in Below(i) && Below(i) + {i} == Below(i + 1) && 0 in Below(n)
  {
  }

  lemma {:induction false} RingCircular(n: nat, i: nat, k: nat)
    requires n > 0 && i <= n
    ensures Circular(Ring(n), if i < n then i else 0, Below(i), k) <==> k >= n - i
    decreases n - i
  {
    hide Ring, Circular, Below;
    if i < n {
      RingNode(n, i);
      OneHolding(Ring(n), i, Next(n, i), Below(i), k);
      if k > 0 { RingCircular(n, i + 1, k - 1); }
    } else {
      RingNode(n, 0);
      OnPath(Ring(n), 0, Below(n), k);
    }
  }

  /** The bound is sharp for every number of funds: in a ring the cycle is met with as many levels as
      there are funds, and missed with one less. */
  lemma NodeCountIsSharp(n: nat)
    requires n > 0
    ensures |Ring(n).Keys| == n && !Circular(Ring(n), 0, {}, n - 1) && Circular(Ring(n), 0, {}, n)
  {
    assert Ring(n).Keys == Below(n);
    assert Below(0) == {};
    RingCircular(n, 0, n - 1);
    RingCircular(n, 0, n);
  }

  // ---------- the reported depth ----------

  lemma {:induction false} HighestBounds(s: seq<nat>)
    ensures forall i :: 0 <= i < |s| ==> s[i] <= Highest(s)
    ensures Highest(s) == 0 || exists i :: 0 <= i < |s| && s[i] == Highest(s)
  {
    if |s| > 0 { HighestBounds(s[..|s| - 1]); }
  }

  lemma {:induction false} DepthWitness(g: Graph, n: NodeId, path: set<NodeId>, k: int) returns (p: Route)
    ensures Explored(g, n, path, p) && |p| == Deepest(g, n, path, k) && |p| <= Max(0, k)
    decreases g.Keys - path
  {
    p := [];
    if Deepest(g, n, path, k) > 0 {
      var ds := DepthTerms(g, g[n].holdings, path + {n}, k);
      HighestBounds(ds);
      var i :| 0 <= i < |ds| && ds[i] == Highest(ds);
      assert ds[i] == EdgeDepth(g, g[n].holdings[i], path + {n}, k);
      var q := DepthWitness(g, Step(g, n, i), path + {n}, k - 1);
      p := [i] + q;
      assert p[1..] == q;
      ExploredCons(g, n, path, p);
    }
  }

  lemma {:induction false} DepthReached(g: Graph, n: NodeId, path: set<NodeId>, k: int, p: Route)
    requires Explored(g, n, path, p) && |p| <= Max(0, k)
    ensures |p| <= Deepest(g, n, path, k)
    decreases p
  {
    if p != [] {
      assert n in Trail(g, n, p)[..|p|];
      ExploredCons(g, n, path, p);
      DepthReached(g, Step(g, n, p[0]), path + {n}, k - 1, p[1..]);
      HighestBounds(DepthTerms(g, g[n].holdings, path + {n}, k));
      assert DepthTerms(g, g[n].holdings, path + {n}, k)[p[0]] == EdgeDepth(g, g[n].holdings[p[0]], path + {n}, k);
    }
  }

  /** The reported depth is the length of the longest explored walk within the limit. */
  lemma DepthIsLongestWalk(g: Graph, root: NodeId, maxDepth: int)
    ensures exists p :: Explored(g, root, {}, p) && |p| <= Max(0, maxDepth) && |p| == Deepest(g, root, {}, maxDepth)
    ensures forall p :: Explored(g, root, {}, p) && |p| <= Max(0, maxDepth) ==> |p| <= Deepest(g, root, {}, maxDepth)
  {
    var p := DepthWitness(g, root, {}, maxDepth);
    forall p | Explored(g, root, {}, p) && |p| <= Max(0, maxDepth)
      ensures |p| <= Deepest(g, root, {}, maxDepth)
    {
      DepthReached(g, root, {}, maxDepth, p);
    }
  }
}
