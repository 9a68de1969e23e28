/** What the look-through traversal computes on the graph of holdings: its exposures are
    sums over simple paths, and its other fields are statements about walks. */
module LookthroughPaths {
  import opened Sums
  import opened Lookthrough

  // ---------- walks, defined without reference to the traversal ----------

  /** A route from a node: at each node, the position of the holding that is followed.
      Parallel holdings of the same fund give different routes. */
  type Route = seq<nat>

  ghost predicate CanStep(g: Graph, n: NodeId, i: nat)
  {
    n in g && i < |g[n].holdings| && Followed(g[n].holdings[i])
  }

  ghost function Step(g: Graph, n: NodeId, i: nat): NodeId
    requires CanStep(g, n, i)
  {
    g[n].holdings[i].target.value
  }

  ghost predicate Walk(g: Graph, n: NodeId, p: Route)
    decreases p
  {
    p == [] || (CanStep(g, n, p[0]) && Walk(g, Step(g, n, p[0]), p[1..]))
  }

  /** The nodes visited by a walk, its start and its end included. */
  ghost function Trail(g: Graph, n: NodeId, p: Route): (t: seq<NodeId>)
    requires Walk(g, n, p)
    ensures |t| == |p| + 1 && t[0] == n
    decreases p
  {
    if p == [] then [n] else [n] + Trail(g, Step(g, n, p[0]), p[1..])
  }

  ghost predicate Distinct(s: seq<NodeId>)
  {
    forall i, j :: 0 <= i < j < |s| ==> s[i] != s[j]
  }

  /** A walk through present nodes that never meets a node twice, nor any in `path`. */
  ghost predicate SimpleAvoiding(g: Graph, n: NodeId, path: set<NodeId>, p: Route)
  {
    && Walk(g, n, p)
    && Distinct(Trail(g, n, p))
    && forall x :: x in Trail(g, n, p) ==> x in g && x !in path
  }

  ghost predicate SimplePath(g: Graph, n: NodeId, p: Route)
  {
    SimpleAvoiding(g, n, {}, p)
  }

  ghost function End(g: Graph, n: NodeId, p: Route): NodeId
    requires Walk(g, n, p)
  {
    Trail(g, n, p)[|p|]
  }

  /** The product of the weights along a walk, as a fraction of one. */
  ghost function PathWeight(g: Graph, n: NodeId, p: Route): real
    requires Walk(g, n, p)
    decreases p
  {
    if p == [] then 1.0
    else Pct(g[n].holdings[p[0]].weight, PathWeight(g, Step(g, n, p[0]), p[1..]))
  }

  /** What one path contributes to a label: its weight times what its end discloses. */
  ghost function PathTerm(g: Graph, n: NodeId, p: Route, lbl: string): real
  {
    if Walk(g, n, p) && End(g, n, p) in g
    then Times(PathWeight(g, n, p), Get(g[End(g, n, p)].direct, lbl))
    else 0.0
  }

  ghost function PathTerms(g: Graph, n: NodeId, lbl: string): Route -> real
  {
    p => PathTerm(g, n, p, lbl)
  }

  // ---------- enumeration of the simple paths ----------

  ghost function Enumerate(g: Graph, n: NodeId, path: set<NodeId>, k: int): set<Route>
    decreases g.Keys - path, 0
  {
    if Stops(g, n, path) then {}
    else {[]} + EnumerateFrom(g, n, |g[n].holdings|, path + {n}, k)
  }

  /** The routes whose first holding is one of the first `j`. */
  ghost function EnumerateFrom(g: Graph, n: NodeId, j: nat, path: set<NodeId>, k: int): set<Route>
    decreases g.Keys - path, 1
  {
    set i: nat, q | i < j && CanStep(g, n, i) && k > 0 && q in Enumerate(g, Step(g, n, i), path, k - 1) :: [i] + q
  }

  lemma SimpleCons(g: Graph, n: NodeId, path: set<NodeId>, p: Route)
    requires p != [] && n in g && n !in path && CanStep(g, n, p[0])
    ensures SimpleAvoiding(g, n, path, p) <==> SimpleAvoiding(g, Step(g, n, p[0]), path + {n}, p[1..])
  {
    var m, q := Step(g, n, p[0]), p[1..];
    if Walk(g, m, q) {
      var t, u := Trail(g, n, p), Trail(g, m, q);
      assert forall i :: 0 < i < |t| ==> t[i] == u[i - 1];
      assert forall i :: 0 <= i < |u| ==> u[i] == t[i + 1];
      if SimpleAvoiding(g, n, path, p) {
        assert forall x :: x in u ==> x in t && x != n;
      }
      if SimpleAvoiding(g, m, path + {n}, q) {
        assert forall x :: x in t ==> x == n || x in u;
      }
    }
  }

  lemma {:induction false} EnumerateExactly(g: Graph, n: NodeId, path: set<NodeId>, k: int, p: Route)
    ensures p in Enumerate(g, n, path, k) <==> SimpleAvoiding(g, n, path, p) && |p| <= Max(0, k)
    decreases |p|
  {
    if Stops(g, n, path) {
      if Walk(g, n, p) { assert n in Trail(g, n, p); }
    } else if p == [] {
      assert Trail(g, n, []) == [n];
    } else if CanStep(g, n, p[0]) {
      SimpleCons(g, n, path, p);
      EnumerateExactly(g, Step(g, n, p[0]), path + {n}, k - 1, p[1..]);
      assert p == [p[0]] + p[1..];
      EnumerateTail(g, n, path, k, p);
    }
  }

  lemma EnumerateTail(g: Graph, n: NodeId, path: set<NodeId>, k: int, p: Route)
    requires !Stops(g, n, path) && p != [] && CanStep(g, n, p[0])
    ensures p in Enumerate(g, n, path, k) <==> k > 0 && p[1..] in Enumerate(g, Step(g, n, p[0]), path + {n}, k - 1)
  {
    assert p == [p[0]] + p[1..];
    if p in EnumerateFrom(g, n, |g[n].holdings|, path + {n}, k) {
      var i: nat, q :| i < |g[n].holdings| && CanStep(g, n, i) && k > 0
        && q in Enumerate(g, Step(g, n, i), path + {n}, k - 1) && p == [i] + q;
      assert i == p[0] && q == p[1..];
    }
  }

  // ---------- exposure is a sum over simple paths ----------

  lemma PctOfTimes(w: real, a: real, b: real)
    ensures Times(Pct(w, a), b) == Pct(w, Times(a, b)) == Times(w / 100.0, Times(a, b))
  {
    assert (w * a / 100.0) * b == w * (a * b) / 100.0;
  }

  lemma PctIsTimes(w: real, a: real)
    ensures Pct(w, a) == Times(w / 100.0, a)
  {
  }

  lemma PathTermCons(g: Graph, n: NodeId, i: nat, q: Route, lbl: string)
    requires CanStep(g, n, i)
    ensures PathTerm(g, n, [i] + q, lbl) == Pct(g[n].holdings[i].weight, PathTerm(g, Step(g, n, i), q, lbl))
  {
    var p := [i] + q;
    assert p[1..] == q;
    if Walk(g, n, p) && End(g, n, p) in g {
      PctOfTimes(g[n].holdings[i].weight, PathWeight(g, Step(g, n, i), q), Get(g[End(g, n, p)].direct, lbl));
    }
  }

  lemma {:induction false} ExposureEnumerated(g: Graph, n: NodeId, path: set<NodeId>, k: int, lbl: string)
    ensures Exposure(g, n, path, k, lbl) == SumOver(Enumerate(g, n, path, k), PathTerms(g, n, lbl))
    decreases g.Keys - path, 0
  {
    if !Stops(g, n, path) {
      var f, below := PathTerms(g, n, lbl), EnumerateFrom(g, n, |g[n].holdings|, path + {n}, k);
      ExposureEnumeratedFrom(g, n, |g[n].holdings|, path + {n}, k, lbl);
      SumAll(ExposureTerms(g, g[n].holdings, path + {n}, k, lbl));
      SumInsert(below, [], f);
      assert Enumerate(g, n, path, k) == below + {[]};
      assert PathTerm(g, n, [], lbl) == Get(g[n].direct, lbl);
    }
  }

  lemma {:induction false} ExposureEnumeratedFrom(g: Graph, n: NodeId, j: nat, path: set<NodeId>, k: int, lbl: string)
    requires n in g && n in path && j <= |g[n].holdings|
    ensures Sum(ExposureTerms(g, g[n].holdings, path, k, lbl)[..j])
         == SumOver(EnumerateFrom(g, n, j, path, k), PathTerms(g, n, lbl))
    decreases g.Keys - path, 1, j
  {
    var ts, f := ExposureTerms(g, g[n].holdings, path, k, lbl), PathTerms(g, n, lbl);
    if j == 0 {
      assert EnumerateFrom(g, n, 0, path, k) == {};
    } else {
      var i := j - 1;
      var before, here := EnumerateFrom(g, n, i, path, k), StartingWith(g, n, i, path, k);
      ExposureEnumeratedFrom(g, n, i, path, k, lbl);
      SumPrefix(ts, i);
      StartingWithPartition(g, n, i, path, k);
      SumUnion(before, here, f);
      if CanStep(g, n, i) && k > 0 {
        ExposureEnumerated(g, Step(g, n, i), path, k - 1, lbl);
        SumStartingWith(g, n, i, path, k, lbl);
      }
    }
  }

  ghost function StartingWith(g: Graph, n: NodeId, i: nat, path: set<NodeId>, k: int): set<Route>
  {
    if CanStep(g, n, i) && k > 0
    then set q | q in Enumerate(g, Step(g, n, i), path, k - 1) :: [i] + q
    else {}
  }

  lemma StartingWithPartition(g: Graph, n: NodeId, i: nat, path: set<NodeId>, k: int)
    ensures EnumerateFrom(g, n, i + 1, path, k) == EnumerateFrom(g, n, i, path, k) + StartingWith(g, n, i, path, k)
    ensures EnumerateFrom(g, n, i, path, k) !! StartingWith(g, n, i, path, k)
  {
    forall p | p in EnumerateFrom(g, n, i, path, k)
      ensures p != [] && p[0] < i
    {
    }
    forall p | p in StartingWith(g, n, i, path, k)
      ensures p != [] && p[0] == i
    {
    }
  }

  ghost function Scaled(w: real, f: Route -> real): Route -> real
  {
    q => Pct(w, f(q))
  }

  lemma SumOfScaled(s: set<Route>, w: real, f: Route -> real)
    ensures SumOver(s, Scaled(w, f)) == Pct(w, SumOver(s, f))
  {
    hide Pct, Times;
    forall q ensures Scaled(w, f)(q) == Times(w / 100.0, f(q)) {
      PctIsTimes(w, f(q));
    }
    SumScaled(s, f, w / 100.0, Scaled(w, f));
    PctIsTimes(w, SumOver(s, f));
  }

  lemma SumStartingWith(g: Graph, n: NodeId, i: nat, path: set<NodeId>, k: int, lbl: string)
    requires CanStep(g, n, i) && k > 0
    ensures SumOver(StartingWith(g, n, i, path, k), PathTerms(g, n, lbl))
         == Pct(g[n].holdings[i].weight,
                SumOver(Enumerate(g, Step(g, n, i), path, k - 1), PathTerms(g, Step(g, n, i), lbl)))
  {
    hide Pct, Enumerate, PathTerm;
    var w, m := g[n].holdings[i].weight, Step(g, n, i);
    var tails := Enumerate(g, m, path, k - 1);
    var prepend: Route -> Route := q => [i] + q;
    var scaled := Scaled(w, PathTerms(g, m, lbl));
    forall q | q in tails
      ensures prepend(q) in StartingWith(g, n, i, path, k) && scaled(q) == PathTerms(g, n, lbl)(prepend(q))
    {
      PathTermCons(g, n, i, q, lbl);
    }
    forall x, y | x in tails && y in tails && prepend(x) == prepend(y)
      ensures x == y
    {
      assert prepend(x)[1..] == x && prepend(y)[1..] == y;
    }
    SumReindexed(tails, StartingWith(g, n, i, path, k), prepend, PathTerms(g, n, lbl), scaled);
    SumOfScaled(tails, w, PathTerms(g, m, lbl));
  }

  /** Main result: the reported exposure to a label is the sum, over all simple paths of at
      most `maxDepth` followed edges, of the path's weight times the direct weight at its end. */
  lemma ExposureIsPathSum(g: Graph, root: NodeId, maxDepth: int, lbl: string, paths: set<Route>)
    requires forall p :: p in paths <==> SimplePath(g, root, p) && |p| <= Max(0, maxDepth)
    ensures Exposure(g, root, {}, maxDepth, lbl) == SumOver(paths, PathTerms(g, root, lbl))
  {
    forall p ensures p in paths <==> p in Enumerate(g, root, {}, maxDepth) {
      EnumerateExactly(g, root, {}, maxDepth, p);
    }
    assert paths == Enumerate(g, root, {}, maxDepth);
    ExposureEnumerated(g, root, {}, maxDepth, lbl);
  }

  /** The paths that the main result sums over do form a finite set, on every graph. */
  lemma SimplePathsAreFinite(g: Graph, root: NodeId, maxDepth: int) returns (paths: set<Route>)
    ensures forall p :: p in paths <==> SimplePath(g, root, p) && |p| <= Max(0, maxDepth)
  {
    paths := Enumerate(g, root, {}, maxDepth);
    forall p ensures p in paths <==> SimplePath(g, root, p) && |p| <= Max(0, maxDepth) {
      EnumerateExactly(g, root, {}, maxDepth, p);
    }
  }
}
