/** What the graph of a quarter is, said of the stored rows alone, and what calculating the quarter
    therefore stores for two reports one of which holds the other. */
module LookthroughGraph {
  import opened Sums
  import opened Decimals
  import opened Lookthrough
  import opened LabelRanking
  import opened LookthroughStore

  // ---------- one edge per disclosed holding ----------

  /** The rows listed are those of the report's disclosed holdings, each once and in table order. */
  ghost predicate DisclosedHoldings(holdings: seq<HoldingRow>, report: NodeId, at: seq<int>)
  {
    && (forall k :: 0 <= k < |at| ==>
          && 0 <= at[k] < |holdings| && holdings[at[k]].report == report && holdings[at[k]].basis == DIRECT)
    && (forall j, k :: 0 <= j < k < |at| ==> at[j] < at[k])
    && (forall i :: 0 <= i < |holdings| && holdings[i].report == report && holdings[i].basis == DIRECT ==> i in at)
  }

  /** A listed report of that contract, and the last one. */
  ghost predicate LastReportOf(reports: seq<Report>, contract: int, j: int)
  {
    && 0 <= j < |reports| && reports[j].contract == contract
    && forall i :: j < i < |reports| ==> reports[i].contract != contract
  }

  /** The weight of the row, and as target the last report of the contract it was resolved to. */
  ghost predicate EdgeFor(e: HoldingEdge, h: HoldingRow, reports: seq<Report>)
  {
    && (h.weight.Some? ==> e.weight == h.weight.value) && (h.weight.None? ==> e.weight == 0.0)
    && (forall j :: h.contract.Some? && LastReportOf(reports, h.contract.value, j) ==> e.target == Some(reports[j].id))
    && (e.target.Some? ==> h.contract.Some? && exists j :: LastReportOf(reports, h.contract.value, j))
  }

  lemma {:induction false} ReportOfIs(reports: seq<Report>, contract: int)
    ensures forall j :: LastReportOf(reports, contract, j) ==> ReportOf(reports, contract) == Some(reports[j].id)
    ensures ReportOf(reports, contract).Some? ==> exists j :: LastReportOf(reports, contract, j)
  {
    if reports != [] {
      var n := |reports| - 1;
      ReportOfIs(reports[..n], contract);
      if reports[n].contract == contract {
        assert LastReportOf(reports, contract, n);
      } else {
        forall j ensures LastReportOf(reports, contract, j) <==> LastReportOf(reports[..n], contract, j) {
        }
        if ReportOf(reports, contract).Some? {
          var j :| LastReportOf(reports[..n], contract, j);
          assert LastReportOf(reports, contract, j);
        }
      }
    }
  }

  lemma EdgeOfIs(h: HoldingRow, reports: seq<Report>)
    ensures EdgeFor(EdgeOf(h, reports), h, reports)
  {
    hide LastReportOf, ReportOf;
    if h.contract.Some? { ReportOfIs(reports, h.contract.value); }
  }

  /** One edge for every row listed, in the same order. */
  ghost predicate OneEdgeEach(
    edges: seq<HoldingEdge>, holdings: seq<HoldingRow>, at: seq<int>, reports: seq<Report>)
  {
    && |edges| == |at|
    && forall k :: 0 <= k < |at| ==> 0 <= at[k] < |holdings| && EdgeFor(edges[k], holdings[at[k]], reports)
  }

  lemma {:induction false} EdgesOfAre(holdings: seq<HoldingRow>, report: NodeId, reports: seq<Report>)
      returns (at: seq<int>)
    ensures DisclosedHoldings(holdings, report, at)
    ensures OneEdgeEach(EdgesOf(holdings, report, reports), holdings, at, reports)
  {
    if holdings == [] {
      at := [];
    } else {
      hide EdgeOf, OneEdgeEach, DisclosedHoldings;
      var n := |holdings| - 1;
      at := EdgesOfAre(holdings[..n], report, reports);
      var edges := EdgesOf(holdings[..n], report, reports);
      if holdings[n].report == report && holdings[n].basis == DIRECT {
        EdgeOfIs(holdings[n], reports);
        OneMoreHolding(holdings, report, at);
        OneMoreEdge(edges, EdgeOf(holdings[n], reports), holdings, at, reports);
        at := at + [n];
      } else {
        SameHoldings(holdings, report, at);
        SameEdges(edges, holdings, at, reports);
        assert EdgesOf(holdings, report, reports) == edges;
      }
    }
  }

  lemma OneMoreEdge(
    edges: seq<HoldingEdge>, e: HoldingEdge, holdings: seq<HoldingRow>, at: seq<int>, reports: seq<Report>)
    requires holdings != [] && OneEdgeEach(edges, holdings[..|holdings| - 1], at, reports)
    requires EdgeFor(e, holdings[|holdings| - 1], reports)
    ensures OneEdgeEach(edges + [e], holdings, at + [|holdings| - 1], reports)
  {
    hide EdgeFor;
    assert forall k :: 0 <= k < |at| ==> holdings[at[k]] == holdings[..|holdings| - 1][at[k]];
  }

  lemma SameEdges(edges: seq<HoldingEdge>, holdings: seq<HoldingRow>, at: seq<int>, reports: seq<Report>)
    requires holdings != [] && OneEdgeEach(edges, holdings[..|holdings| - 1], at, reports)
    ensures OneEdgeEach(edges, holdings, at, reports)
  {
    hide EdgeFor;
    assert forall k :: 0 <= k < |at| ==> holdings[at[k]] == holdings[..|holdings| - 1][at[k]];
  }

  lemma SameHoldings(holdings: seq<HoldingRow>, report: NodeId, at: seq<int>)
    requires holdings != [] && DisclosedHoldings(holdings[..|holdings| - 1], report, at)
    requires holdings[|holdings| - 1].report != report || holdings[|holdings| - 1].basis != DIRECT
    ensures DisclosedHoldings(holdings, report, at)
  {
    assert forall i :: 0 <= i < |holdings| - 1 ==> holdings[i] == holdings[..|holdings| - 1][i];
  }

  lemma OneMoreHolding(holdings: seq<HoldingRow>, report: NodeId, at: seq<int>)
    requires holdings != [] && DisclosedHoldings(holdings[..|holdings| - 1], report, at)
    requires holdings[|holdings| - 1].report == report && holdings[|holdings| - 1].basis == DIRECT
    ensures DisclosedHoldings(holdings, report, at + [|holdings| - 1])
  {
    var n := |holdings| - 1;
    forall i | 0 <= i < |holdings| && holdings[i].report == report && holdings[i].basis == DIRECT
      ensures i in at + [n]
    {
      if i < n { assert holdings[i] == holdings[..n][i]; }
    }
  }

  /** The graph of a quarter: a node for every listed report and for nothing else, with one edge per
      disclosed holding of that report, in table order. */
  lemma EdgesAreHoldings(rows: seq<AllocationRow>, holdings: seq<HoldingRow>, reports: seq<Report>, id: NodeId)
      returns (at: seq<int>)
    ensures id in NodesOf(rows, holdings, reports) <==> exists r :: r in reports && r.id == id
    ensures id in NodesOf(rows, holdings, reports) ==>
              DisclosedHoldings(holdings, id, at)
              && OneEdgeEach(NodesOf(rows, holdings, reports)[id].holdings, holdings, at, reports)
  {
    at := EdgesOfAre(holdings, id, reports);
    hide EdgesOf, OneEdgeEach, DisclosedHoldings, DirectOf;
    if r :| r in reports && r.id == id {
      var i :| 0 <= i < |reports| && reports[i] == r;
    }
  }

  /** With one report per contract a holding leads to a report exactly if that is the report of the
      contract it was resolved to. */
  lemma TargetIsReport(e: HoldingEdge, h: HoldingRow, reports: seq<Report>, t: NodeId)
    requires EdgeFor(e, h, reports) && ContractsDiffer(reports)
    ensures e.target == Some(t) <==> exists r :: r in reports && r.id == t && h.contract == Some(r.contract)
  {
    if r :| r in reports && r.id == t && h.contract == Some(r.contract) {
      var j :| 0 <= j < |reports| && reports[j] == r;
      assert LastReportOf(reports, r.contract, j);
    }
    if e.target == Some(t) {
      var j :| LastReportOf(reports, h.contract.value, j);
      assert reports[j] in reports;
    }
  }

  ghost predicate ContractsDiffer(reports: seq<Report>)
  {
    forall i, j :: 0 <= i < j < |reports| ==> reports[i].contract != reports[j].contract
  }

  // ---------- what a report discloses ----------

  lemma {:induction false} DirectLabelsOf(rows: seq<AllocationRow>, report: NodeId, lbl: string)
    ensures lbl in DirectOf(rows, report) <==> exists row :: row in rows && Discloses(row, report, lbl)
  {
    if rows != [] {
      var n := |rows| - 1;
      DirectLabelsOf(rows[..n], report, lbl);
      assert rows == rows[..n] + [rows[n]];
      assert forall row :: row in rows <==> row in rows[..n] || row == rows[n];
      assert rows[n] in rows;
    }
  }

  /** A node discloses the labels of its report's disclosed rows, each with the total of the rows. */
  lemma DirectIsDisclosed(
    rows: seq<AllocationRow>, holdings: seq<HoldingRow>, reports: seq<Report>, id: NodeId, lbl: string)
    requires id in NodesOf(rows, holdings, reports)
    ensures var direct := NodesOf(rows, holdings, reports)[id].direct;
            && (lbl in direct <==> exists row :: row in rows && Discloses(row, id, lbl))
            && (lbl in direct ==> direct[lbl] == Sum(DisclosedWeights(rows, id, lbl)))
  {
    DirectLabelsOf(rows, id, lbl);
    DirectIsTotal(rows, id, lbl);
    hide DirectOf, EdgesOf, Sum;
  }

  /** The metrics of a report: the coverage by country and the larger unresolved weight to eight digits,
      the greater depth, and a cycle if either traversal met one. */
  lemma MetricsAre(countries: Graph, industries: Graph, id: NodeId, k: int)
    ensures var m, c, i := MetricsOf(countries, industries, id, k), LookthroughStore.Result(countries, id, k),
                           LookthroughStore.Result(industries, id, k);
            && m.coverage == Quantize(c.coverage, QUANTITY_SCALE)
            && m.unresolved
               == Quantize(if c.unresolved >= i.unresolved then c.unresolved else i.unresolved, QUANTITY_SCALE)
            && m.maxDepth == (if c.maxDepth >= i.maxDepth then c.maxDepth else i.maxDepth)
            && (m.circular <==> c.circular || i.circular)
  {
    hide Quantize, LookthroughStore.Result;
  }

  // ---------- one report that holds another ----------

  /** A fund whose only holding is a fund without holdings. */
  ghost predicate HoldsOnly(g: Graph, a: NodeId, b: NodeId, w: real)
  {
    a != b && a in g && b in g && w > 0.0 && g[a].holdings == [HoldingEdge(Some(b), w)] && g[b].holdings == []
  }

  lemma OneSum(x: real)
    ensures Sum([x]) == x
  {
    assert [x][..0] == [];
  }

  lemma NothingBelow(g: Graph, b: NodeId, path: set<NodeId>, k: int, lbl: string)
    requires b in g && b !in path && g[b].holdings == []
    ensures Exposure(g, b, path, k, lbl) == Get(g[b].direct, lbl) && Unresolved(g, b, path, k) == 0.0
    ensures Deepest(g, b, path, k) == 0 && !Circular(g, b, path, k)
    ensures lbl in Labels(g, b, path, k) <==> lbl in g[b].direct
  {
  }

  /** Then every label of the holding fund weighs its own disclosure and that percentage of the
      other's. */
  lemma OneHopExposure(g: Graph, a: NodeId, b: NodeId, w: real, k: int, lbl: string)
    requires HoldsOnly(g, a, b, w) && k > 0
    ensures Exposure(g, a, {}, k, lbl) == Get(g[a].direct, lbl) + w * Get(g[b].direct, lbl) / 100.0
    ensures lbl in Labels(g, a, {}, k) <==> lbl in g[a].direct || lbl in g[b].direct
  {
    NothingBelow(g, b, {} + {a}, k - 1, lbl);
    assert lbl in LabelsBelow(g, g[a].holdings, {} + {a}, k) <==> lbl in EdgeLabels(g, g[a].holdings[0], {} + {a}, k);
    OneSum(EdgeExposure(g, g[a].holdings[0], {} + {a}, k, lbl));
    assert ExposureTerms(g, g[a].holdings, {} + {a}, k, lbl)
           == [EdgeExposure(g, g[a].holdings[0], {} + {a}, k, lbl)];
  }

  lemma OneHopWeights(g: Graph, a: NodeId, b: NodeId, w: real, k: int)
    requires HoldsOnly(g, a, b, w) && k > 0 && Total(g[a].direct) == 0.0 && w <= 100.0
    ensures Coverage(g, a, {}, k) == w && Unresolved(g, a, {}, k) == 0.0
    ensures Deepest(g, a, {}, k) == 1 && !Circular(g, a, {}, k)
  {
    var es, p := g[a].holdings, {} + {a};
    NothingBelow(g, b, p, k - 1, "");
    OneSum(EdgeCoverage(g, es[0], p, k));
    OneSum(EdgeUnresolved(g, es[0], p, k));
    assert CoverageTerms(g, es, p, k) == [EdgeCoverage(g, es[0], p, k)];
    assert UnresolvedTerms(g, es, p, k) == [EdgeUnresolved(g, es[0], p, k)];
    assert DepthTerms(g, es, p, k) == [EdgeDepth(g, es[0], p, k)];
    assert [EdgeDepth(g, es[0], p, k)][..0] == [];
    assert CircularBelow(g, es, p, k) <==> EdgeCircular(g, es[0], p, k);
  }

  // ---------- a quarter of two reports ----------

  function TwoReports(): seq<Report>
  {
    [Report(1, 10, true, 2026, Some(2), true), Report(2, 20, true, 2026, Some(2), true)]
  }

  /** The first report holds the second one's fund; the second one discloses one label. */
  function OneHolding(w: real): seq<HoldingRow>
  {
    [HoldingRow(1, Some(20), Some(w), DIRECT)]
  }

  function OneDisclosure(d: real): seq<AllocationRow>
  {
    [AllocationRow(2, "US", Some(d), None, DIRECT)]
  }

  lemma TwoReportsSelected()
    ensures IdsDiffer(TwoReports()) && Selected(TwoReports(), 2026, 2) == TwoReports()
  {
    var all := TwoReports();
    assert all[..1] == [all[0]] && all[..1][..0] == [];
    assert Selected(all[..1], 2026, 2) == [all[0]];
  }

  lemma TwoReportGraph(rows: seq<AllocationRow>, w: real)
    requires forall row :: row in rows ==> row.report == 2
    ensures var g := NodesOf(rows, OneHolding(w), TwoReports());
            && g.Keys == {1, 2} && g[1] == ExposureNode(map[], [HoldingEdge(Some(2), w)])
            && g[2] == ExposureNode(DirectOf(rows, 2), [])
  {
    var reports, holdings := TwoReports(), OneHolding(w);
    assert Ids(reports, 2) == {1, 2} by { assert Ids(reports, 1) == {1}; }
    assert holdings[..0] == [] && reports[..1] == [reports[0]];
    NothingDirect(rows, 1);
    assert ReportOf(reports, 20) == Some(2);
    assert EdgesOf(holdings, 1, reports) == [HoldingEdge(Some(2), w)] && EdgesOf(holdings, 2, reports) == [];
  }

  lemma {:induction false} NothingDirect(rows: seq<AllocationRow>, report: NodeId)
    requires forall row :: row in rows ==> row.report != report
    ensures DirectOf(rows, report) == map[]
  {
    if rows != [] { NothingDirect(rows[..|rows| - 1], report); }
  }

  lemma NoTotal()
    ensures Total(map[]) == 0.0
  {
  }

  /** What the first report is looked through to, when the second discloses one label. */
  lemma FirstReportResult(g: Graph, w: real, direct: map<string, real>, k: int)
    requires 0.0 < w <= 100.0 && k > 0 && g.Keys == {1, 2}
    requires g[1] == ExposureNode(map[], [HoldingEdge(Some(2), w)]) && g[2] == ExposureNode(direct, [])
    ensures var r := LookthroughStore.Result(g, 1, k);
            && r.coverage == w && r.unresolved == 0.0 && r.maxDepth == 1 && !r.circular
            && r.exposure.Keys == direct.Keys
            && forall lbl :: lbl in direct ==> r.exposure[lbl] == w * direct[lbl] / 100.0
  {
    hide Exposure, Labels, Coverage, Unresolved, Deepest, Circular, Total;
    NoTotal();
    OneHopWeights(g, 1, 2, w, k);
    forall lbl
      ensures lbl in Labels(g, 1, {}, k) <==> lbl in direct
      ensures lbl in direct ==> Exposure(g, 1, {}, k, lbl) == w * direct[lbl] / 100.0
    {
      OneHopExposure(g, 1, 2, w, k, lbl);
    }
  }

  lemma SecondReportExposure(g: Graph, direct: map<string, real>, k: int)
    requires 2 in g && g[2] == ExposureNode(direct, [])
    ensures LookthroughStore.Result(g, 2, k).exposure == direct
  {
    hide Exposure, Labels, Coverage, Unresolved, Deepest, Circular;
    forall lbl
      ensures (lbl in Labels(g, 2, {}, k) <==> lbl in direct) && Exposure(g, 2, {}, k, lbl) == Get(direct, lbl)
    {
      NothingBelow(g, 2, {}, k, lbl);
    }
    assert LookthroughStore.Result(g, 2, k).exposure == direct;
  }

  lemma OneLabelDerived(report: NodeId, lbl: string, x: real)
    ensures DerivedRows(report, map[lbl := x])
         == [AllocationRow(report, lbl, Some(Column(x)), Some(1), LOOKTHROUGH)]
  {
    hide Before, Ranking, Quantize;
    var m := map[lbl := x];
    RankingRanks(m, m.Keys);
    var labels := Ranking(m, m.Keys);
    RankingUnique(labels, [lbl], m, m.Keys);
  }

  /** The tables and metrics that a calculation of the two reports leaves. */
  lemma TwoReportsStored(w: real, d: real, k: int)
    requires 0.0 < w <= 100.0 && k > 0
    ensures var reports, rows := TwoReports(), OneDisclosure(d);
            StoredRows(rows, reports, 2, NodesOf(rows, OneHolding(w), reports), k)
            == rows + [AllocationRow(1, "US", Some(Column(w * d / 100.0)), Some(1), LOOKTHROUGH),
                       AllocationRow(2, "US", Some(Column(d)), Some(1), LOOKTHROUGH)]
  {
    hide Kept, NodesOf, Ids, DirectOf, Column, LookthroughStore.Result, DerivedRows, OneHolding, DerivedUpTo;
    hide OneDisclosure, TwoReports;
    var reports, rows := TwoReports(), OneDisclosure(d);
    TwoReportExposures(w, d, k);
    OneLabelDerived(1, "US", w * d / 100.0);
    OneLabelDerived(2, "US", d);
    DerivedOfTwo(reports, NodesOf(rows, OneHolding(w), reports), k);
    KeptDisclosed(rows, Ids(reports, 2));
  }

  lemma TwoReportExposures(w: real, d: real, k: int)
    requires 0.0 < w <= 100.0 && k > 0
    ensures var reports, rows := TwoReports(), OneDisclosure(d);
            var g := NodesOf(rows, OneHolding(w), reports);
            && |reports| == 2 && reports[0].id == 1 && reports[1].id == 2
            && (forall row :: row in rows ==> row.basis == DIRECT)
            && LookthroughStore.Result(g, 1, k).exposure == map["US" := w * d / 100.0]
            && LookthroughStore.Result(g, 2, k).exposure == map["US" := d]
  {
    var rows := OneDisclosure(d);
    DisclosedOnce(d);
    var g := NodesOf(rows, OneHolding(w), TwoReports());
    hide NodesOf, DirectOf, LookthroughStore.Result, OneHolding;
    TwoReportGraph(rows, w);
    SecondReportExposure(g, map["US" := d], k);
    FirstReportResult(g, w, map["US" := d], k);
    var r := LookthroughStore.Result(g, 1, k);
    assert r.exposure["US"] == w * d / 100.0;
    assert r.exposure.Keys == {"US"};
  }

  lemma DisclosedOnce(d: real)
    ensures DirectOf(OneDisclosure(d), 2) == map["US" := d]
  {
    assert OneDisclosure(d)[..0] == [];
  }

  lemma DerivedOfTwo(reports: seq<Report>, g: Graph, k: int)
    requires |reports| == 2
    ensures DerivedUpTo(reports, 2, g, k)
         == DerivedRows(reports[0].id, LookthroughStore.Result(g, reports[0].id, k).exposure)
            + DerivedRows(reports[1].id, LookthroughStore.Result(g, reports[1].id, k).exposure)
  {
    hide DerivedRows, LookthroughStore.Result;
    assert DerivedUpTo(reports, 1, g, k)
           == DerivedRows(reports[0].id, LookthroughStore.Result(g, reports[0].id, k).exposure);
  }

  lemma {:induction false} KeptDisclosed(rows: seq<AllocationRow>, ids: set<NodeId>)
    requires forall row :: row in rows ==> row.basis == DIRECT
    ensures Kept(rows, ids) == rows
  {
    if rows != [] {
      var n := |rows| - 1;
      KeptDisclosed(rows[..n], ids);
      assert rows == rows[..n] + [rows[n]];
    }
  }

  lemma TwoReportsRecorded(w: real, d: real, k: int)
    requires 0.0 < w <= 100.0 && k > 0
    ensures var reports := TwoReports();
            var countries := NodesOf(OneDisclosure(d), OneHolding(w), reports);
            var industries := NodesOf([], OneHolding(w), reports);
            && MetricsOf(countries, industries, 1, k) == Metrics(Column(w), 0.0, 1, false)
            && !MetricsOf(countries, industries, 2, k).circular
  {
    var reports, rows := TwoReports(), OneDisclosure(d);
    var countries, industries := NodesOf(rows, OneHolding(w), reports), NodesOf([], OneHolding(w), reports);
    TwoReportGraph(rows, w);
    TwoReportGraph([], w);
    NothingBelow(countries, 2, {}, k, "");
    NothingBelow(industries, 2, {}, k, "");
    assert Column(0.0) == 0.0 by { assert Steps(0.0, QUANTITY_SCALE) == 0.0; }
    hide NodesOf, Column, OneDisclosure, OneHolding, Circular, Labels, Exposure, Unresolved, Deepest, Coverage;
    FirstReportResult(countries, w, DirectOf(rows, 2), k);
    FirstReportResult(industries, w, DirectOf([], 2), k);
  }

  /** The derived row of the holding report is the percentage of the percentage, whatever the two are,
      and the metrics follow. */
  method CalculateTwoReports(w: real, d: real, maxDepth: int)
      returns (country: AllocationTable, updated: map<NodeId, Metrics>, open: set<NodeId>)
    requires 0.0 < w <= 100.0 && maxDepth > 0
    ensures fresh(country)
    ensures country.rows == OneDisclosure(d) + [
              AllocationRow(1, "US", Some(Column(w * d / 100.0)), Some(1), LOOKTHROUGH),
              AllocationRow(2, "US", Some(Column(d)), Some(1), LOOKTHROUGH)]
    ensures updated == map[1 := Metrics(Column(w), 0.0, 1, false)] && open == {}
  {
    hide StoredRows, NodesOf, OneHolding, OneDisclosure, Column, MetricsOf, Selected, IdsDiffer;
    TwoReportsSelected();
    TwoReportsStored(w, d, maxDepth);
    TwoReportsRecorded(w, d, maxDepth);
    assert Ids(TwoReports(), 2) == {1, 2} by { assert Ids(TwoReports(), 1) == {1}; }
    hide Ids;
    country := new AllocationTable(OneDisclosure(d));
    var industry := new AllocationTable([]);
    var results;
    results, updated, open := CalculateAndStore(TwoReports(), 2026, 2, OneHolding(w), country, industry,
                                                map[1 := Metrics(0.0, 0.0, 0, true)], {}, maxDepth);
    assert 1 in updated;
    assert forall id :: id in updated ==> id == 1;
    assert forall id :: id !in open;
  }
}
