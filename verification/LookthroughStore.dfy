/** Calculating and storing the look-through of a quarter (backend/app/ingestion/lookthrough.py:87-227).

    An allocation table holds the rows the reports disclose (DIRECT) beside the rows derived
    from them (LOOKTHROUGH). Deriving replaces the latter and reads the former only. */
module LookthroughStore {
  import opened Sums
  import opened Decimals
  import opened Lookthrough
  import opened LabelRanking

  datatype Basis = DIRECT | LOOKTHROUGH

  datatype AllocationRow = AllocationRow(
    report: NodeId, lbl: string, weight: Option<real>, rank: Option<int>, basis: Basis)

  datatype HoldingRow = HoldingRow(report: NodeId, contract: Option<int>, weight: Option<real>, basis: Basis)

  datatype Report = Report(id: NodeId, contract: int, quarterly: bool, year: int, quarter: Option<int>, parsed: bool)

  datatype Metrics = Metrics(coverage: real, unresolved: real, maxDepth: int, circular: bool)

  // ---------- the parsed quarterly reports of a quarter ----------

  predicate InQuarter(r: Report, year: int, quarter: int)
  {
    r.quarterly && r.year == year && r.quarter == Some(quarter) && r.parsed
  }

  function Selected(all: seq<Report>, year: int, quarter: int): seq<Report>
  {
    if all == [] then []
    else
      var last, before := all[|all| - 1], Selected(all[..|all| - 1], year, quarter);
      if InQuarter(last, year, quarter) then before + [last] else before
  }

  /** Exactly the matching reports, each as often as it is stored. */
  lemma {:induction false} SelectedAre(all: seq<Report>, year: int, quarter: int)
    requires IdsDiffer(all)
    ensures forall r :: r in Selected(all, year, quarter)
                   <==> r in all && r.quarterly && r.parsed && r.year == year && r.quarter == Some(quarter)
    ensures IdsDiffer(Selected(all, year, quarter))
  {
    if all != [] {
      var n := |all| - 1;
      SelectedAre(all[..n], year, quarter);
      assert all == all[..n] + [all[n]];
      assert forall r :: r in all[..n] ==> r.id != all[n].id;
    }
  }

  // ---------- the graph of a quarter ----------

  /** The report of each contract; the last one wins. */
  function ReportOf(reports: seq<Report>, contract: int): Option<NodeId>
  {
    if reports == [] then None
    else if reports[|reports| - 1].contract == contract then Some(reports[|reports| - 1].id)
    else ReportOf(reports[..|reports| - 1], contract)
  }

  predicate Disclosed(row: AllocationRow, report: NodeId)
  {
    row.report == report && row.basis == DIRECT && row.weight.Some?
  }

  function DirectOf(rows: seq<AllocationRow>, report: NodeId): map<string, real>
  {
    if rows == [] then map[]
    else
      var row := rows[|rows| - 1];
      var m := DirectOf(rows[..|rows| - 1], report);
      if Disclosed(row, report) then m[row.lbl := Get(m, row.lbl) + row.weight.value] else m
  }

  function EdgeOf(h: HoldingRow, reports: seq<Report>): HoldingEdge
  {
    HoldingEdge(if h.contract.Some? then ReportOf(reports, h.contract.value) else None,
                if h.weight.Some? then h.weight.value else 0.0)
  }

  function EdgesOf(holdings: seq<HoldingRow>, report: NodeId, reports: seq<Report>): seq<HoldingEdge>
  {
    if holdings == [] then []
    else
      var h := holdings[|holdings| - 1];
      EdgesOf(holdings[..|holdings| - 1], report, reports)
      + (if h.report == report && h.basis == DIRECT then [EdgeOf(h, reports)] else [])
  }

  function NodeOf(
    rows: seq<AllocationRow>, holdings: seq<HoldingRow>, reports: seq<Report>, report: NodeId): ExposureNode
  {
    ExposureNode(DirectOf(rows, report), EdgesOf(holdings, report, reports))
  }

  function Ids(reports: seq<Report>, n: nat): (ids: set<NodeId>)
    requires n <= |reports|
    ensures forall i :: 0 <= i < n ==> reports[i].id in ids
    ensures forall id :: id in ids ==> exists i :: 0 <= i < n && reports[i].id == id
  {
    if n == 0 then {} else Ids(reports, n - 1) + {reports[n - 1].id}
  }

  function NodesOf(rows: seq<AllocationRow>, holdings: seq<HoldingRow>, reports: seq<Report>): Graph
  {
    map id | id in Ids(reports, |reports|) :: NodeOf(rows, holdings, reports, id)
  }

  /** The primary key of the report table. */
  ghost predicate IdsDiffer(reports: seq<Report>)
  {
    forall i, j :: 0 <= i < j < |reports| ==> reports[i].id != reports[j].id
  }

  method BuildNodes(rows: seq<AllocationRow>, holdings: seq<HoldingRow>, reports: seq<Report>) returns (nodes: Graph)
    ensures nodes == NodesOf(rows, holdings, reports)
  {
    hide DirectOf, EdgesOf;
    nodes := map[];
    for n := 0 to |reports|
      invariant nodes.Keys == Ids(reports, n)
      invariant forall id :: id in nodes ==> nodes[id] == NodeOf(rows, holdings, reports, id)
    {
      var direct := CollectDirect(rows, reports[n].id);
      var edges := CollectEdges(holdings, reports[n].id, reports);
      nodes := nodes[reports[n].id := ExposureNode(direct, edges)];
    }
  }

  method CollectDirect(rows: seq<AllocationRow>, report: NodeId) returns (direct: map<string, real>)
    ensures direct == DirectOf(rows, report)
  {
    direct := map[];
    for i := 0 to |rows|
      invariant direct == DirectOf(rows[..i], report)
    {
      assert rows[..i + 1][..i] == rows[..i];
      if Disclosed(rows[i], report) {
        direct := direct[rows[i].lbl := Get(direct, rows[i].lbl) + rows[i].weight.value];
      }
    }
    assert rows[..|rows|] == rows;
  }

  /** A disclosed row of the report for that label, with a weight. */
  predicate Discloses(row: AllocationRow, report: NodeId, lbl: string)
  {
    row.report == report && row.lbl == lbl && row.basis == DIRECT && row.weight.Some?
  }

  /** What each row discloses for one label of one report. */
  ghost function DisclosedWeights(rows: seq<AllocationRow>, report: NodeId, lbl: string): (r: seq<real>)
    ensures |r| == |rows|
  {
    seq(|rows|, i requires 0 <= i < |rows| =>
      if Discloses(rows[i], report, lbl) then rows[i].weight.value else 0.0)
  }

  /** A node's direct weight for a label is the total of the rows disclosing it, in any order. */
  lemma {:induction false} DirectIsTotal(rows: seq<AllocationRow>, report: NodeId, lbl: string)
    ensures Get(DirectOf(rows, report), lbl) == Sum(DisclosedWeights(rows, report, lbl))
  {
    if rows != [] {
      var n := |rows| - 1;
      DirectIsTotal(rows[..n], report, lbl);
      assert DisclosedWeights(rows, report, lbl)[..n] == DisclosedWeights(rows[..n], report, lbl);
    }
  }

  method CollectEdges(holdings: seq<HoldingRow>, report: NodeId, reports: seq<Report>) returns (edges: seq<HoldingEdge>)
    ensures edges == EdgesOf(holdings, report, reports)
  {
    edges := [];
    for i := 0 to |holdings|
      invariant edges == EdgesOf(holdings[..i], report, reports)
    {
      hide EdgeOf;
      assert holdings[..i + 1][..i] == holdings[..i];
      if holdings[i].report == report && holdings[i].basis == DIRECT {
        edges := edges + [EdgeOf(holdings[i], reports)];
      }
    }
    assert holdings[..|holdings|] == holdings;
  }

  // ---------- the rows of a result ----------

  /** A percentage as its column of eight decimals holds it. */
  function Column(x: real): real
  {
    Quantize(x, QUANTITY_SCALE)
  }

  /** One row for every label of the exposure, ranked from 1 by falling weight. */
  function Listed(report: NodeId, exposure: map<string, real>, labels: seq<string>): (r: seq<AllocationRow>)
    ensures |r| == |labels|
    ensures forall i :: 0 <= i < |r| ==> r[i].report == report && r[i].basis == LOOKTHROUGH && r[i].rank == Some(i + 1)
  {
    seq(|labels|, i requires 0 <= i < |labels| =>
      AllocationRow(report, labels[i], Some(Column(Get(exposure, labels[i]))), Some(i + 1), LOOKTHROUGH))
  }

  ghost function DerivedRows(report: NodeId, exposure: map<string, real>): seq<AllocationRow>
  {
    Listed(report, exposure, Ranking(exposure, exposure.Keys))
  }

  /** What stays when the derived rows of some reports are deleted. */
  function Kept(rows: seq<AllocationRow>, ids: set<NodeId>): seq<AllocationRow>
  {
    if rows == [] then []
    else
      var row, kept := rows[|rows| - 1], Kept(rows[..|rows| - 1], ids);
      if row.basis == LOOKTHROUGH && row.report in ids then kept else kept + [row]
  }

  class AllocationTable {
    var rows: seq<AllocationRow>

    constructor (disclosed: seq<AllocationRow>)
      ensures rows == disclosed
    {
      rows := disclosed;
    }

    /** Replaces the derived rows of one report. */
    method StoreRows(report: NodeId, exposure: map<string, real>)
      modifies this
      ensures rows == Kept(old(rows), {report}) + DerivedRows(report, exposure)
    {
      hide Kept, Listed, IsRanking;
      var labels := RankLabels(exposure);
      RankingRanks(exposure, exposure.Keys);
      RankingUnique(labels, Ranking(exposure, exposure.Keys), exposure, exposure.Keys);
      rows := Kept(rows, {report}) + Listed(report, exposure, labels);
    }
  }

  // ---------- the stored quarter ----------

  /** The one result the traversal can return. */
  ghost function Result(nodes: Graph, root: NodeId, maxDepth: int): (r: LookthroughResult)
  {
    LookthroughResult(
      map lbl | lbl in Labels(nodes, root, {}, maxDepth) :: Exposure(nodes, root, {}, maxDepth, lbl),
      Coverage(nodes, root, {}, maxDepth), Unresolved(nodes, root, {}, maxDepth),
      Deepest(nodes, root, {}, maxDepth), Circular(nodes, root, {}, maxDepth))
  }

  lemma ResultUnique(r: LookthroughResult, nodes: Graph, root: NodeId, maxDepth: int)
    requires Specified(r, nodes, root, {}, 0, maxDepth)
    ensures r == Result(nodes, root, maxDepth)
  {
    hide Labels, Exposure, Coverage, Unresolved, Deepest, Circular;
    forall lbl | lbl in r.exposure ensures r.exposure[lbl] == Exposure(nodes, root, {}, maxDepth, lbl) {
      assert Get(r.exposure, lbl) == Exposure(nodes, root, {}, maxDepth, lbl);
    }
    assert r.exposure == Result(nodes, root, maxDepth).exposure;
  }

  /** The derived rows of the first `n` reports, in order. */
  ghost function DerivedUpTo(reports: seq<Report>, n: nat, nodes: Graph, maxDepth: int): seq<AllocationRow>
    requires n <= |reports|
  {
    if n == 0 then []
    else DerivedUpTo(reports, n - 1, nodes, maxDepth)
         + DerivedRows(reports[n - 1].id, Result(nodes, reports[n - 1].id, maxDepth).exposure)
  }

  /** The table after the first `n` reports. */
  ghost function StoredRows(before: seq<AllocationRow>, reports: seq<Report>, n: nat, nodes: Graph, maxDepth: int)
      : seq<AllocationRow>
    requires n <= |reports|
  {
    Kept(before, Ids(reports, n)) + DerivedUpTo(reports, n, nodes, maxDepth)
  }

  function Combined(country: LookthroughResult, industry: LookthroughResult): Metrics
  {
    Metrics(Column(country.coverage), Column(MaxReal(country.unresolved, industry.unresolved)),
            Max(country.maxDepth, industry.maxDepth), country.circular || industry.circular)
  }

  ghost function MetricsOf(countries: Graph, industries: Graph, id: NodeId, maxDepth: int): Metrics
  {
    Combined(Result(countries, id, maxDepth), Result(industries, id, maxDepth))
  }

  /** The metrics and results after the first `n` reports: existing metrics rows are updated,
      none is created, and the reports with an open cycle issue are those that had one and those
      for which either traversal met a cycle. */
  ghost predicate Recorded(
    metrics: map<NodeId, Metrics>, before: map<NodeId, Metrics>, results: map<NodeId, LookthroughResult>,
    issues: set<NodeId>, had: set<NodeId>, reports: seq<Report>, n: nat, countries: Graph, industries: Graph,
    maxDepth: int)
    requires n <= |reports|
  {
    && metrics.Keys == before.Keys
    && (forall id :: id in metrics ==>
          metrics[id] == if id in Ids(reports, n) then MetricsOf(countries, industries, id, maxDepth) else before[id])
    && results.Keys == Ids(reports, n)
    && (forall id :: id in results ==> results[id] == Result(countries, id, maxDepth))
    && (forall id :: id in issues
          <==> id in had || (id in Ids(reports, n) && MetricsOf(countries, industries, id, maxDepth).circular))
  }

  method CalculateAndStore(
      all: seq<Report>, year: int, quarter: int, holdings: seq<HoldingRow>, country: AllocationTable,
      industry: AllocationTable, metrics: map<NodeId, Metrics>, issues: set<NodeId>, maxDepth: int)
      returns (results: map<NodeId, LookthroughResult>, updated: map<NodeId, Metrics>, open: set<NodeId>)
    requires IdsDiffer(all) && country != industry
    modifies country, industry
    ensures var reports := Selected(all, year, quarter);
            var countries, industries :=
              NodesOf(old(country.rows), holdings, reports), NodesOf(old(industry.rows), holdings, reports);
            && country.rows == StoredRows(old(country.rows), reports, |reports|, countries, maxDepth)
            && industry.rows == StoredRows(old(industry.rows), reports, |reports|, industries, maxDepth)
            && Recorded(updated, metrics, results, open, issues, reports, |reports|, countries, industries, maxDepth)
  {
    hide StoredRows, Recorded, IdsDiffer, DerivedRows, Kept, Result, Specified, NodesOf, Selected;
    SelectedAre(all, year, quarter);
    var reports := Selected(all, year, quarter);
    ghost var countryRows, industryRows := country.rows, industry.rows;
    var countryNodes := BuildNodes(country.rows, holdings, reports);
    var industryNodes := BuildNodes(industry.rows, holdings, reports);
    results, updated, open := map[], metrics, issues;
    StoredStart(countryRows, reports, countryNodes, maxDepth);
    StoredStart(industryRows, reports, industryNodes, maxDepth);
    RecordedStart(metrics, issues, reports, countryNodes, industryNodes, maxDepth);
    for n := 0 to |reports|
      invariant country.rows == StoredRows(countryRows, reports, n, countryNodes, maxDepth)
      invariant industry.rows == StoredRows(industryRows, reports, n, industryNodes, maxDepth)
      invariant Recorded(updated, metrics, results, open, issues, reports, n, countryNodes, industryNodes, maxDepth)
    {
      var id := reports[n].id;
      var c := WeightedLookthrough(countryNodes, id, maxDepth);
      var i := WeightedLookthrough(industryNodes, id, maxDepth);
      ResultUnique(c, countryNodes, id, maxDepth);
      ResultUnique(i, industryNodes, id, maxDepth);
      StoredStep(countryRows, reports, n, countryNodes, maxDepth);
      StoredStep(industryRows, reports, n, industryNodes, maxDepth);
      RecordedStep(updated, metrics, results, open, issues, reports, n, countryNodes, industryNodes, maxDepth);
      country.StoreRows(id, c.exposure);
      industry.StoreRows(id, i.exposure);
      if id in updated {
        updated := updated[id := Combined(c, i)];
      }
      if c.circular || i.circular {
        open := open + {id};
      }
      results := results[id := c];
    }
  }

  lemma RecordedStart(
    metrics: map<NodeId, Metrics>, had: set<NodeId>, reports: seq<Report>, countries: Graph, industries: Graph,
    maxDepth: int)
    ensures Recorded(metrics, metrics, map[], had, had, reports, 0, countries, industries, maxDepth)
  {
  }

  lemma RecordedStep(
    metrics: map<NodeId, Metrics>, before: map<NodeId, Metrics>, results: map<NodeId, LookthroughResult>,
    issues: set<NodeId>, had: set<NodeId>, reports: seq<Report>, n: nat, countries: Graph, industries: Graph,
    maxDepth: int)
    requires n < |reports|
    requires Recorded(metrics, before, results, issues, had, reports, n, countries, industries, maxDepth)
    ensures var id := reports[n].id;
            var c, m := Result(countries, id, maxDepth), MetricsOf(countries, industries, id, maxDepth);
            Recorded(if id in metrics then metrics[id := m] else metrics, before, results[id := c],
                     if m.circular then issues + {id} else issues, had, reports, n + 1, countries, industries, maxDepth)
  {
    hide Result, MetricsOf;
    assert Ids(reports, n + 1) == Ids(reports, n) + {reports[n].id};
  }

  // ---------- deleting derived rows ----------

  lemma {:induction false} KeptAppend(a: seq<AllocationRow>, b: seq<AllocationRow>, ids: set<NodeId>)
    ensures Kept(a + b, ids) == Kept(a, ids) + Kept(b, ids)
  {
    if b == [] {
      assert a + b == a;
    } else {
      var n := |b| - 1;
      KeptAppend(a, b[..n], ids);
      assert (a + b)[..|a + b| - 1] == a + b[..n];
    }
  }

  lemma {:induction false} KeptTwice(rows: seq<AllocationRow>, a: set<NodeId>, b: set<NodeId>)
    ensures Kept(Kept(rows, a), b) == Kept(rows, a + b)
  {
    if rows != [] {
      var n := |rows| - 1;
      KeptTwice(rows[..n], a, b);
      KeptAppend(Kept(rows[..n], a), [rows[n]], b);
      assert [rows[n]][..0] == [];
    }
  }

  lemma {:induction false} KeptAll(rows: seq<AllocationRow>, ids: set<NodeId>)
    requires forall i :: 0 <= i < |rows| ==> rows[i].report !in ids
    ensures Kept(rows, ids) == rows
  {
    if rows != [] {
      var n := |rows| - 1;
      KeptAll(rows[..n], ids);
      assert rows == rows[..n] + [rows[n]];
    }
  }

  lemma {:induction false} KeptNone(rows: seq<AllocationRow>, ids: set<NodeId>)
    requires forall i :: 0 <= i < |rows| ==> rows[i].report in ids && rows[i].basis == LOOKTHROUGH
    ensures Kept(rows, ids) == []
  {
    if rows != [] { KeptNone(rows[..|rows| - 1], ids); }
  }

  lemma {:induction false} DerivedUpToIs(reports: seq<Report>, n: nat, nodes: Graph, maxDepth: int)
    requires n <= |reports|
    ensures forall i :: 0 <= i < |DerivedUpTo(reports, n, nodes, maxDepth)| ==>
      DerivedUpTo(reports, n, nodes, maxDepth)[i].report in Ids(reports, n)
      && DerivedUpTo(reports, n, nodes, maxDepth)[i].basis == LOOKTHROUGH
  {
    hide Result, Ranking;
    if n > 0 { DerivedUpToIs(reports, n - 1, nodes, maxDepth); }
  }

  lemma StoredStart(before: seq<AllocationRow>, reports: seq<Report>, nodes: Graph, maxDepth: int)
    ensures StoredRows(before, reports, 0, nodes, maxDepth) == before
  {
    KeptNothing(before);
  }

  lemma {:induction false} KeptNothing(rows: seq<AllocationRow>)
    ensures Kept(rows, {}) == rows
  {
    KeptAll(rows, {});
  }

  lemma StoredStep(before: seq<AllocationRow>, reports: seq<Report>, n: nat, nodes: Graph, maxDepth: int)
    requires n < |reports| && IdsDiffer(reports)
    ensures var id := reports[n].id;
            (StoredRows(before, reports, n + 1, nodes, maxDepth)
             == Kept(StoredRows(before, reports, n, nodes, maxDepth), {id})
                + DerivedRows(id, Result(nodes, id, maxDepth).exposure))
  {
    hide Kept, Result, DerivedRows, Ids;
    NextIds(reports, n);
    var id, ids, rows := reports[n].id, Ids(reports, n), DerivedUpTo(reports, n, nodes, maxDepth);
    DerivedUpToIs(reports, n, nodes, maxDepth);
    KeptAll(rows, {id});
    KeptAppend(Kept(before, ids), rows, {id});
    KeptTwice(before, ids, {id});
  }

  lemma NextIds(reports: seq<Report>, n: nat)
    requires n < |reports|
    ensures Ids(reports, n + 1) == Ids(reports, n) + {reports[n].id}
    ensures IdsDiffer(reports) ==> reports[n].id !in Ids(reports, n)
  {
  }

  // ---------- what storing keeps ----------

  function DirectRows(rows: seq<AllocationRow>): seq<AllocationRow>
  {
    if rows == [] then []
    else
      var row, direct := rows[|rows| - 1], DirectRows(rows[..|rows| - 1]);
      if row.basis == DIRECT then direct + [row] else direct
  }

  lemma {:induction false} DirectRowsAppend(a: seq<AllocationRow>, b: seq<AllocationRow>)
    requires forall i :: 0 <= i < |b| ==> b[i].basis == LOOKTHROUGH
    ensures DirectRows(a + b) == DirectRows(a)
  {
    if b == [] {
      assert a + b == a;
    } else {
      DirectRowsAppend(a, b[..|b| - 1]);
      assert (a + b)[..|a + b| - 1] == a + b[..|b| - 1];
    }
  }

  lemma {:induction false} DirectRowsKept(rows: seq<AllocationRow>, ids: set<NodeId>)
    ensures DirectRows(Kept(rows, ids)) == DirectRows(rows)
  {
    if rows != [] {
      var n := |rows| - 1;
      DirectRowsKept(rows[..n], ids);
      var kept := Kept(rows[..n], ids);
      assert (kept + [rows[n]])[..|kept|] == kept;
    }
  }

  lemma {:induction false} DirectFromDirectRows(rows: seq<AllocationRow>, report: NodeId)
    ensures DirectOf(rows, report) == DirectOf(DirectRows(rows), report)
  {
    if rows != [] {
      var n := |rows| - 1;
      DirectFromDirectRows(rows[..n], report);
      var before := DirectRows(rows[..n]);
      assert (before + [rows[n]])[..|before|] == before;
    }
  }

  /** Storing leaves every disclosed row in place, so the graph it was computed from is the
      graph a later calculation sees. */
  lemma StoringKeepsDisclosure(
    before: seq<AllocationRow>, holdings: seq<HoldingRow>, reports: seq<Report>, nodes: Graph, maxDepth: int)
    ensures var after := StoredRows(before, reports, |reports|, nodes, maxDepth);
            && DirectRows(after) == DirectRows(before)
            && NodesOf(after, holdings, reports) == NodesOf(before, holdings, reports)
  {
    hide Kept, DirectRows, DirectOf, EdgesOf, DerivedUpTo;
    var ids, derived := Ids(reports, |reports|), DerivedUpTo(reports, |reports|, nodes, maxDepth);
    DerivedUpToIs(reports, |reports|, nodes, maxDepth);
    DirectRowsAppend(Kept(before, ids), derived);
    DirectRowsKept(before, ids);
    forall id ensures DirectOf(StoredRows(before, reports, |reports|, nodes, maxDepth), id) == DirectOf(before, id) {
      DirectFromDirectRows(before, id);
      DirectFromDirectRows(StoredRows(before, reports, |reports|, nodes, maxDepth), id);
    }
  }

  /** Calculating the same quarter again changes no row of the table, whatever derived rows an
      earlier run had left. */
  lemma StoringTwice(before: seq<AllocationRow>, holdings: seq<HoldingRow>, reports: seq<Report>, maxDepth: int)
    ensures var once := StoredRows(before, reports, |reports|, NodesOf(before, holdings, reports), maxDepth);
            StoredRows(once, reports, |reports|, NodesOf(once, holdings, reports), maxDepth) == once
  {
    hide Kept, DerivedUpTo, NodesOf, DirectRows;
    var nodes := NodesOf(before, holdings, reports);
    StoringKeepsDisclosure(before, holdings, reports, nodes, maxDepth);
    var ids, derived := Ids(reports, |reports|), DerivedUpTo(reports, |reports|, nodes, maxDepth);
    DerivedUpToIs(reports, |reports|, nodes, maxDepth);
    KeptAppend(Kept(before, ids), derived, ids);
    KeptTwice(before, ids, ids);
    KeptNone(derived, ids);
    assert ids + ids == ids;
  }

  /** The stored ranks of a report: every exposed label once, with its exposure as the column holds
      it, by falling weight and then by label; the stored weights fall with the ranks too. */
  lemma DerivedRowsRank(report: NodeId, exposure: map<string, real>)
    ensures var rows := DerivedRows(report, exposure);
            && (forall i :: 0 <= i < |rows| ==>
                  && rows[i].lbl in exposure && rows[i].weight == Some(Column(exposure[rows[i].lbl]))
                  && rows[i].rank == Some(i + 1))
            && (forall i, j :: 0 <= i < j < |rows| ==> rows[i].weight.value >= rows[j].weight.value)
            && (forall l :: l in exposure ==> exists i :: 0 <= i < |rows| && rows[i].lbl == l)
            && (forall i, j :: 0 <= i < j < |rows| ==> Before(exposure, rows[i].lbl, rows[j].lbl))
  {
    hide Before, Ranking, Quantize;
    RankingRanks(exposure, exposure.Keys);
    var labels := Ranking(exposure, exposure.Keys);
    assert forall i :: 0 <= i < |labels| ==> labels[i] in labels;
    forall i, j | 0 <= i < j < |labels|
      ensures Column(Get(exposure, labels[i])) >= Column(Get(exposure, labels[j]))
    {
      BeforeIsHeavier(exposure, labels[i], labels[j]);
      QuantizeMonotone(Get(exposure, labels[j]), Get(exposure, labels[i]), QUANTITY_SCALE);
    }
    forall l | l in exposure ensures exists i :: 0 <= i < |labels| && DerivedRows(report, exposure)[i].lbl == l {
      assert l in labels;
      var i :| 0 <= i < |labels| && labels[i] == l;
      assert DerivedRows(report, exposure)[i].lbl == l;
    }
  }

  lemma BeforeIsHeavier(m: map<string, real>, a: string, b: string)
    requires Before(m, a, b)
    ensures Get(m, a) >= Get(m, b)
  {
  }
}
