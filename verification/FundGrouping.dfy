/** Merging contracts that are one public fund (backend/app/ingestion/fund_grouping.py): the
    tables involved, what a merge must leave in them, and why that keeps them sound. */
module FundGrouping {
  import opened Sums

  type ContractId = int
  type ReportId = int
  type RowId = int

  datatype ParseStatus = PARSED | VALID_EMPTY | DOWNLOADED | UNRESOLVED | FAILED_WITH_REASON | OTHER_STATUS

  datatype IssueStatus = OPEN | RESOLVED | OTHER_ISSUE_STATUS

  datatype Period = Period(kind: string, year: int, quarter: Option<int>)

  datatype Contract = Contract(
    manager: string, name: string, wrapper: Option<string>, code: nat, selected: bool, dependency: bool)

  datatype Report = Report(contract: ContractId, period: Period, status: ParseStatus, hasDocument: bool)

  datatype Share = Share(contract: ContractId, code: nat, shareClass: Option<string>, currency: string)

  datatype Artifact = Artifact(contract: Option<ContractId>, report: Option<ReportId>)

  /** `failure` marks the three issue codes that a report's success resolves. */
  datatype Issue = Issue(contract: Option<ContractId>, report: Option<ReportId>, failure: bool, status: IssueStatus)

  /** The tables whose rows belong to a report and are deleted with it. */
  datatype ReportTable = FUND_HOLDING | SECURITY_HOLDING | ASSETS | COUNTRIES | INDUSTRIES | METRICS

  /** Only a fund holding can name a resolved contract. */
  datatype ReportRow = ReportRow(table: ReportTable, report: ReportId, resolved: Option<ContractId>)

  datatype Relation = Relation(source: ContractId, target: Option<ContractId>, report: Option<ReportId>)

  datatype Family = Family(contract: ContractId, report: Option<ReportId>)

  datatype Db = Db(
    contracts: map<ContractId, Contract>, reports: map<ReportId, Report>, shares: map<RowId, Share>,
    artifacts: map<RowId, Artifact>, issues: map<RowId, Issue>, reportRows: map<RowId, ReportRow>,
    relations: map<RowId, Relation>, families: map<RowId, Family>)

  // ---------- integrity ----------

  ghost predicate Names<K, V>(m: map<K, V>, id: Option<K>)
  {
    id.Some? ==> id.value in m
  }

  /** Every foreign key names a stored row. */
  ghost predicate Referential(db: Db)
  {
    && (forall r :: r in db.reports ==> db.reports[r].contract in db.contracts)
    && (forall s :: s in db.shares ==> db.shares[s].contract in db.contracts)
    && (forall a :: a in db.artifacts
          ==> Names(db.contracts, db.artifacts[a].contract) && Names(db.reports, db.artifacts[a].report))
    && (forall i :: i in db.issues
          ==> Names(db.contracts, db.issues[i].contract) && Names(db.reports, db.issues[i].report))
    && (forall h :: h in db.reportRows
          ==> db.reportRows[h].report in db.reports && Names(db.contracts, db.reportRows[h].resolved))
    && (forall x :: x in db.relations ==> RelationNames(db, db.relations[x]))
    && (forall f :: f in db.families
          ==> db.families[f].contract in db.contracts && Names(db.reports, db.families[f].report))
  }

  ghost predicate RelationNames(db: Db, x: Relation)
  {
    x.source in db.contracts && Names(db.contracts, x.target) && Names(db.reports, x.report)
  }

  /** The period constraint. As in SQL, reports without a quarter are never in conflict. */
  ghost predicate UniquePeriods(reports: map<ReportId, Report>)
  {
    forall r, s :: r in reports && s in reports && Conflict(reports[r], reports[s]) ==> r == s
  }

  predicate Conflict(x: Report, y: Report)
  {
    x.contract == y.contract && x.period == y.period && x.period.quarter.Some?
  }

  // ---------- which report survives ----------

  function ReportRank(status: ParseStatus): nat
  {
    match status
    case PARSED => 4
    case VALID_EMPTY => 4
    case DOWNLOADED => 3
    case UNRESOLVED => 2
    case FAILED_WITH_REASON => 1
    case OTHER_STATUS => 0
  }

  /** Ranked by parse status, then belonging to the primary contract, then having a document,
      then the lower id. */
  predicate Beats(reports: map<ReportId, Report>, primary: ContractId, a: ReportId, b: ReportId)
    requires a in reports && b in reports
  {
    var x, y := reports[a], reports[b];
    if ReportRank(x.status) != ReportRank(y.status) then ReportRank(x.status) > ReportRank(y.status)
    else if (x.contract == primary) != (y.contract == primary) then x.contract == primary
    else if x.hasDocument != y.hasDocument then x.hasDocument
    else a < b
  }

  function Group(reports: map<ReportId, Report>, members: set<ContractId>, p: Period): set<ReportId>
  {
    set r | r in reports && reports[r].contract in members && reports[r].period == p
  }

  predicate IsWinner(reports: map<ReportId, Report>, primary: ContractId, group: set<ReportId>, w: ReportId)
    requires group <= reports.Keys
  {
    w in group && forall x :: x in group && x != w ==> Beats(reports, primary, w, x)
  }

  ghost function Best(reports: map<ReportId, Report>, primary: ContractId, group: set<ReportId>): (w: ReportId)
    requires group <= reports.Keys && group != {}
    ensures IsWinner(reports, primary, group, w)
    decreases |group|
  {
    var x := Pick(group);
    assert forall y :: y in group ==> y == x || y in group - {x};
    if group - {x} == {} then x
    else
      var v := Best(reports, primary, group - {x});
      if Beats(reports, primary, x, v) then x else v
  }

  lemma WinnerIsUnique(
    reports: map<ReportId, Report>, primary: ContractId, group: set<ReportId>, v: ReportId, w: ReportId)
    requires group <= reports.Keys && IsWinner(reports, primary, group, v) && IsWinner(reports, primary, group, w)
    ensures v == w
  {
  }

  /** The report that a member's report is merged into. */
  ghost function Heir(
    reports: map<ReportId, Report>, primary: ContractId, members: set<ContractId>, r: ReportId): (w: ReportId)
    requires r in reports && reports[r].contract in members
    ensures w in Group(reports, members, reports[r].period)
    ensures IsWinner(reports, primary, Group(reports, members, reports[r].period), w)
  {
    assert r in Group(reports, members, reports[r].period);
    Best(reports, primary, Group(reports, members, reports[r].period))
  }

  function MemberReports(reports: map<ReportId, Report>, members: set<ContractId>): set<ReportId>
  {
    set r | r in reports && reports[r].contract in members
  }

  ghost function Winners(reports: map<ReportId, Report>, primary: ContractId, members: set<ContractId>): set<ReportId>
  {
    set r | r in MemberReports(reports, members) && Heir(reports, primary, members, r) == r
  }

  ghost function Losers(reports: map<ReportId, Report>, primary: ContractId, members: set<ContractId>): set<ReportId>
  {
    MemberReports(reports, members) - Winners(reports, primary, members)
  }

  /** The heirs of all losing reports. */
  ghost function Heirs(
    reports: map<ReportId, Report>, primary: ContractId, members: set<ContractId>): (m: map<ReportId, ReportId>)
    ensures m.Keys == Losers(reports, primary, members)
  {
    map r | r in Losers(reports, primary, members) :: Heir(reports, primary, members, r)
  }

  lemma HeirsWin(reports: map<ReportId, Report>, primary: ContractId, members: set<ContractId>, r: ReportId)
    requires r in MemberReports(reports, members)
    ensures Heir(reports, primary, members, r) in Winners(reports, primary, members)
    ensures reports[Heir(reports, primary, members, r)].period == reports[r].period
    ensures r in Winners(reports, primary, members)
            <==> IsWinner(reports, primary, Group(reports, members, reports[r].period), r)
  {
    var w := Heir(reports, primary, members, r);
    var group := Group(reports, members, reports[r].period);
    assert Group(reports, members, reports[w].period) == group;
    WinnerIsUnique(reports, primary, group, w, Heir(reports, primary, members, w));
    if IsWinner(reports, primary, group, r) { WinnerIsUnique(reports, primary, group, w, r); }
  }

  // ---------- the tables after some losers are gone and some winners are moved ----------

  function MovedReport(r: ReportId, x: Report, kept: set<ReportId>, primary: ContractId): Report
  {
    if r in kept then x.(contract := primary) else x
  }

  function MovedArtifact(a: Artifact, heirs: map<ReportId, ReportId>, primary: ContractId): Artifact
  {
    if a.report.Some? && a.report.value in heirs then Artifact(Some(primary), Some(heirs[a.report.value])) else a
  }

  function MovedIssue(i: Issue, dead: set<ReportId>, kept: set<ReportId>, primary: ContractId): Issue
  {
    if i.report.None? then i
    else if i.report.value in dead then Issue(Some(primary), None, i.failure, RESOLVED)
    else if i.report.value in kept && i.failure && i.status == OPEN then i.(status := RESOLVED)
    else i
  }

  function MovedRelation(x: Relation, heirs: map<ReportId, ReportId>): Relation
  {
    if x.report.Some? && x.report.value in heirs then x.(report := Some(heirs[x.report.value])) else x
  }

  ghost function ReducedReports(
    db: Db, primary: ContractId, heirs: map<ReportId, ReportId>, kept: set<ReportId>): map<ReportId, Report>
  {
    map r | r in db.reports && r !in heirs :: MovedReport(r, db.reports[r], kept, primary)
  }

  ghost function ReducedArtifacts(db: Db, primary: ContractId, heirs: map<ReportId, ReportId>): map<RowId, Artifact>
  {
    map a | a in db.artifacts :: MovedArtifact(db.artifacts[a], heirs, primary)
  }

  ghost function ReducedIssues(db: Db, primary: ContractId, dead: set<ReportId>, kept: set<ReportId>): map<RowId, Issue>
  {
    map i | i in db.issues :: MovedIssue(db.issues[i], dead, kept, primary)
  }

  ghost function ReducedReportRows(db: Db, dead: set<ReportId>): map<RowId, ReportRow>
  {
    map h | h in db.reportRows && db.reportRows[h].report !in dead :: db.reportRows[h]
  }

  ghost function ReducedRelations(db: Db, heirs: map<ReportId, ReportId>): map<RowId, Relation>
  {
    map x | x in db.relations :: MovedRelation(db.relations[x], heirs)
  }

  ghost function ReducedFamilies(db: Db, dead: set<ReportId>): map<RowId, Family>
  {
    map f | f in db.families && !(db.families[f].report.Some? && db.families[f].report.value in dead) :: db.families[f]
  }

  /** `heirs` lists the reports deleted so far with their heirs, `kept` the winners moved so far. */
  ghost function Reduced(db: Db, primary: ContractId, heirs: map<ReportId, ReportId>, kept: set<ReportId>): Db
  {
    db.(reports := ReducedReports(db, primary, heirs, kept),
        artifacts := ReducedArtifacts(db, primary, heirs),
        issues := ReducedIssues(db, primary, heirs.Keys, kept),
        reportRows := ReducedReportRows(db, heirs.Keys),
        relations := ReducedRelations(db, heirs),
        families := ReducedFamilies(db, heirs.Keys))
  }

  ghost function WithMergedReports(db: Db, primary: ContractId, members: set<ContractId>): Db
  {
    Reduced(db, primary, Heirs(db.reports, primary, members), Winners(db.reports, primary, members))
  }

  // ---------- the tables after a whole merge ----------

  function Redirect(id: ContractId, from: set<ContractId>, to: ContractId): ContractId
  {
    if id in from then to else id
  }

  function RedirectOption(id: Option<ContractId>, from: set<ContractId>, to: ContractId): Option<ContractId>
  {
    if id.Some? then Some(Redirect(id.value, from, to)) else None
  }

  function MergedFlags(db: Db, primary: ContractId, members: set<ContractId>): Contract
    requires primary in db.contracts
  {
    db.contracts[primary].(
      selected := exists c :: c in members && c in db.contracts && db.contracts[c].selected,
      dependency := forall c :: c in members && c in db.contracts ==> db.contracts[c].dependency)
  }

  function SharesTo(table: map<RowId, Share>, from: set<ContractId>, to: ContractId): map<RowId, Share>
  {
    map s | s in table :: table[s].(contract := Redirect(table[s].contract, from, to))
  }

  function ArtifactOwnersTo(table: map<RowId, Artifact>, from: set<ContractId>, to: ContractId): map<RowId, Artifact>
  {
    map a | a in table :: table[a].(contract := RedirectOption(table[a].contract, from, to))
  }

  function IssueOwnersTo(table: map<RowId, Issue>, from: set<ContractId>, to: ContractId): map<RowId, Issue>
  {
    map i | i in table :: table[i].(contract := RedirectOption(table[i].contract, from, to))
  }

  function ResolutionsTo(table: map<RowId, ReportRow>, from: set<ContractId>, to: ContractId): map<RowId, ReportRow>
  {
    map h | h in table :: table[h].(resolved := RedirectOption(table[h].resolved, from, to))
  }

  function SourcesTo(table: map<RowId, Relation>, from: set<ContractId>, to: ContractId): map<RowId, Relation>
  {
    map x | x in table :: table[x].(source := Redirect(table[x].source, from, to))
  }

  function TargetsTo(table: map<RowId, Relation>, from: set<ContractId>, to: ContractId): map<RowId, Relation>
  {
    map x | x in table :: table[x].(target := RedirectOption(table[x].target, from, to))
  }

  function FamiliesOutside(table: map<RowId, Family>, from: set<ContractId>): map<RowId, Family>
  {
    map f | f in table && table[f].contract !in from :: table[f]
  }

  function ContractsWithout(table: map<ContractId, Contract>, from: set<ContractId>): map<ContractId, Contract>
  {
    map c | c in table && c !in from :: table[c]
  }

  /** Every reference to a duplicate now names the primary, and the duplicates are gone. */
  ghost function Redirected(db: Db, primary: ContractId, duplicates: set<ContractId>): Db
  {
    db.(shares := SharesTo(db.shares, duplicates, primary),
        artifacts := ArtifactOwnersTo(db.artifacts, duplicates, primary),
        issues := IssueOwnersTo(db.issues, duplicates, primary),
        reportRows := ResolutionsTo(db.reportRows, duplicates, primary),
        relations := TargetsTo(SourcesTo(db.relations, duplicates, primary), duplicates, primary),
        families := FamiliesOutside(db.families, duplicates),
        contracts := ContractsWithout(db.contracts, duplicates))
  }

  ghost function Merged(db: Db, primary: ContractId, members: set<ContractId>): Db
    requires primary in db.contracts && primary in members
  {
    var after := Redirected(WithMergedReports(db, primary, members), primary, members - {primary});
    after.(contracts := after.contracts[primary := MergedFlags(db, primary, members)])
  }

  // ---------- what a merge guarantees ----------

  ghost predicate HeirsLive(db: Db, heirs: map<ReportId, ReportId>)
  {
    forall r :: r in heirs ==> heirs[r] in db.reports && heirs[r] !in heirs
  }

  lemma ReducedArtifact(db: Db, primary: ContractId, heirs: map<ReportId, ReportId>, kept: set<ReportId>, a: RowId)
    requires Referential(db) && primary in db.contracts && HeirsLive(db, heirs) && a in db.artifacts
    ensures var after := Reduced(db, primary, heirs, kept);
            Names(after.contracts, after.artifacts[a].contract) && Names(after.reports, after.artifacts[a].report)
  {
    var row := db.artifacts[a];
    assert Names(db.contracts, row.contract) && Names(db.reports, row.report);
    if row.report.Some? && row.report.value in heirs {
      var r: ReportId := row.report.value;
      assert r in heirs && heirs[r] in db.reports && heirs[r] !in heirs;
    }
  }

  lemma ReducedIssue(db: Db, primary: ContractId, heirs: map<ReportId, ReportId>, kept: set<ReportId>, i: RowId)
    requires Referential(db) && primary in db.contracts && i in db.issues
    ensures var after := Reduced(db, primary, heirs, kept);
            Names(after.contracts, after.issues[i].contract) && Names(after.reports, after.issues[i].report)
  {
    assert Names(db.contracts, db.issues[i].contract) && Names(db.reports, db.issues[i].report);
  }

  lemma ReducedRelation(db: Db, primary: ContractId, heirs: map<ReportId, ReportId>, kept: set<ReportId>, x: RowId)
    requires Referential(db) && HeirsLive(db, heirs) && x in db.relations
    ensures var after := Reduced(db, primary, heirs, kept); RelationNames(after, after.relations[x])
  {
    var row := db.relations[x];
    assert RelationNames(db, row);
    if row.report.Some? && row.report.value in heirs {
      var r: ReportId := row.report.value;
      assert r in heirs && heirs[r] in db.reports && heirs[r] !in heirs;
    }
  }

  lemma ReducedFamily(db: Db, primary: ContractId, heirs: map<ReportId, ReportId>, kept: set<ReportId>, f: RowId)
    requires Referential(db)
    ensures var after := Reduced(db, primary, heirs, kept);
            f in after.families ==>
              after.families[f].contract in after.contracts && Names(after.reports, after.families[f].report)
  {
    if f in db.families { assert Names(db.reports, db.families[f].report); }
  }

  lemma ReducedReferential(db: Db, primary: ContractId, heirs: map<ReportId, ReportId>, kept: set<ReportId>)
    requires Referential(db) && primary in db.contracts && HeirsLive(db, heirs)
    ensures Referential(Reduced(db, primary, heirs, kept))
  {
    hide Names, RelationNames, HeirsLive, MovedArtifact, MovedIssue, MovedRelation;
    var after := Reduced(db, primary, heirs, kept);
    forall a | a in db.artifacts
      ensures Names(after.contracts, after.artifacts[a].contract) && Names(after.reports, after.artifacts[a].report)
    {
      ReducedArtifact(db, primary, heirs, kept, a);
    }
    forall i | i in db.issues
      ensures Names(after.contracts, after.issues[i].contract) && Names(after.reports, after.issues[i].report)
    {
      ReducedIssue(db, primary, heirs, kept, i);
    }
    forall x | x in db.relations ensures RelationNames(after, after.relations[x]) {
      ReducedRelation(db, primary, heirs, kept, x);
    }
    forall f | f in after.families
      ensures after.families[f].contract in after.contracts && Names(after.reports, after.families[f].report)
    {
      ReducedFamily(db, primary, heirs, kept, f);
    }
    forall h | h in after.reportRows
      ensures after.reportRows[h].report in after.reports && Names(after.contracts, after.reportRows[h].resolved)
    {
      assert db.reportRows[h].report in db.reports && Names(db.contracts, db.reportRows[h].resolved);
    }
  }

  /** No report still belongs to a duplicate once all winners are moved. */
  ghost predicate ReportsMoved(db: Db, duplicates: set<ContractId>)
  {
    forall r :: r in db.reports ==> db.reports[r].contract !in duplicates
  }

  lemma RedirectedNames(db: Db, primary: ContractId, duplicates: set<ContractId>, id: Option<ContractId>)
    requires primary in db.contracts && primary !in duplicates && Names(db.contracts, id)
    ensures Names(Redirected(db, primary, duplicates).contracts, RedirectOption(id, duplicates, primary))
  {
  }

  lemma RedirectedReferential(db: Db, primary: ContractId, duplicates: set<ContractId>)
    requires Referential(db) && primary in db.contracts && primary !in duplicates && ReportsMoved(db, duplicates)
    ensures Referential(Redirected(db, primary, duplicates))
  {
    hide Names, RedirectOption;
    var after := Redirected(db, primary, duplicates);
    forall id: Option<ContractId> | Names(db.contracts, id)
      ensures Names(after.contracts, RedirectOption(id, duplicates, primary))
    {
      RedirectedNames(db, primary, duplicates, id);
    }
    forall x | x in after.relations ensures RelationNames(after, after.relations[x]) {
      assert RelationNames(db, db.relations[x]);
    }
  }

  lemma HeirsAreLive(db: Db, primary: ContractId, members: set<ContractId>)
    ensures HeirsLive(db, Heirs(db.reports, primary, members))
  {
    forall r | r in Losers(db.reports, primary, members)
      ensures Heir(db.reports, primary, members, r) !in Losers(db.reports, primary, members)
    {
      HeirsWin(db.reports, primary, members, r);
    }
  }

  lemma MergedReportsMoved(db: Db, primary: ContractId, members: set<ContractId>)
    requires primary in members
    ensures ReportsMoved(WithMergedReports(db, primary, members), members - {primary})
  {
    hide Heir;
  }

  /** No table refers to a removed contract or to a removed report. */
  lemma MergeKeepsReferences(db: Db, primary: ContractId, members: set<ContractId>)
    requires Referential(db) && primary in db.contracts && primary in members
    ensures Referential(Merged(db, primary, members))
    ensures Merged(db, primary, members).contracts.Keys == db.contracts.Keys - (members - {primary})
  {
    hide Names, RelationNames, Redirect, RedirectOption, MergedFlags, Heirs, Winners, Losers, HeirsLive, ReportsMoved;
    var reduced := WithMergedReports(db, primary, members);
    HeirsAreLive(db, primary, members);
    ReducedReferential(db, primary, Heirs(db.reports, primary, members), Winners(db.reports, primary, members));
    MergedReportsMoved(db, primary, members);
    RedirectedReferential(reduced, primary, members - {primary});
    FlagsKeepReferences(Redirected(reduced, primary, members - {primary}), primary, MergedFlags(db, primary, members));
  }

  lemma FlagsKeepReferences(db: Db, primary: ContractId, flags: Contract)
    requires Referential(db) && primary in db.contracts
    ensures Referential(db.(contracts := db.contracts[primary := flags]))
  {
    var after := db.(contracts := db.contracts[primary := flags]);
    forall x | x in after.relations ensures RelationNames(after, after.relations[x]) {
      assert RelationNames(db, db.relations[x]);
    }
  }

  // ---------- reports after a merge ----------

  /** The reports left are exactly those of other contracts, unchanged, and the winners, moved
      to the primary. */
  lemma MergedReports(db: Db, primary: ContractId, members: set<ContractId>, r: ReportId)
    requires primary in db.contracts && primary in members
    ensures r in Merged(db, primary, members).reports
       <==> r in db.reports && (db.reports[r].contract in members ==> r in Winners(db.reports, primary, members))
    ensures r in Merged(db, primary, members).reports
        ==> Merged(db, primary, members).reports[r]
            == if db.reports[r].contract in members then db.reports[r].(contract := primary) else db.reports[r]
  {
    hide Heir;
  }

  /** For every period that any member had, the primary ends with exactly one report, and it is
      one that beat every other report of that period. */
  lemma OneReportPerPeriod(db: Db, primary: ContractId, members: set<ContractId>, p: Period)
    requires primary in db.contracts && primary in members
    ensures var after, group := Merged(db, primary, members).reports, Group(db.reports, members, p);
            if group == {} then forall r :: r in after && after[r].contract == primary ==> after[r].period != p
            else exists w :: IsWinner(db.reports, primary, group, w) && Group(after, {primary}, p) == {w}
                          && forall x :: x in group
                                  ==> ReportRank(db.reports[x].status) <= ReportRank(db.reports[w].status)
  {
    hide Merged, Heir, Winners;
    var after, group := Merged(db, primary, members).reports, Group(db.reports, members, p);
    forall r ensures r in after && after[r].contract == primary && after[r].period == p
                <==> r in group && r in Winners(db.reports, primary, members) {
      MergedReports(db, primary, members, r);
    }
    if group != {} {
      var r := Pick(group);
      var w := Heir(db.reports, primary, members, r);
      HeirsWin(db.reports, primary, members, r);
      forall x | x in Group(after, {primary}, p) ensures x == w {
        HeirsWin(db.reports, primary, members, x);
        WinnerIsUnique(db.reports, primary, group, x, w);
      }
      assert Group(after, {primary}, p) == {w};
    }
  }

  /** The period constraint holds afterwards. */
  lemma MergeKeepsPeriodsUnique(db: Db, primary: ContractId, members: set<ContractId>)
    requires UniquePeriods(db.reports) && primary in db.contracts && primary in members
    ensures UniquePeriods(Merged(db, primary, members).reports)
  {
    hide Merged, Heir, Winners;
    var after := Merged(db, primary, members).reports;
    forall r, s | r in after && s in after && Conflict(after[r], after[s]) ensures r == s {
      MergedReports(db, primary, members, r);
      MergedReports(db, primary, members, s);
      if after[r].contract == primary {
        HeirsWin(db.reports, primary, members, r);
        HeirsWin(db.reports, primary, members, s);
        WinnerIsUnique(db.reports, primary, Group(db.reports, members, after[r].period), r, s);
      } else {
        assert Conflict(db.reports[r], db.reports[s]);
      }
    }
  }

  /** Nothing else is lost: shares, artifacts, issues and relations all survive, shares keep
      their codes, and only contracts of the group are removed. */
  lemma MergeKeepsRows(db: Db, primary: ContractId, members: set<ContractId>)
    requires primary in db.contracts && primary in members
    ensures var after := Merged(db, primary, members);
            && after.shares.Keys == db.shares.Keys && after.artifacts.Keys == db.artifacts.Keys
            && after.issues.Keys == db.issues.Keys && after.relations.Keys == db.relations.Keys
            && (forall s :: s in db.shares ==>
                  && after.shares[s].code == db.shares[s].code && after.shares[s].currency == db.shares[s].currency
                  && after.shares[s].contract
                     == if db.shares[s].contract in members then primary else db.shares[s].contract)
            && (forall c :: c in db.contracts && c !in members
                  ==> c in after.contracts && after.contracts[c] == db.contracts[c])
  {
    hide Merged;
    MergeKeepsKeys(db, primary, members);
    MergeKeepsShares(db, primary, members);
  }

  lemma MergeKeepsKeys(db: Db, primary: ContractId, members: set<ContractId>)
    requires primary in db.contracts && primary in members
    ensures var after := Merged(db, primary, members);
            && after.shares.Keys == db.shares.Keys && after.artifacts.Keys == db.artifacts.Keys
            && after.issues.Keys == db.issues.Keys && after.relations.Keys == db.relations.Keys
  {
    hide Heir, Winners, Losers, Heirs, MergedFlags, MovedArtifact, MovedIssue, MovedRelation, Redirect, RedirectOption;
    hide FamiliesOutside, ContractsWithout, ResolutionsTo, ReducedReportRows, ReducedFamilies, ReducedReports;
  }

  lemma MergeKeepsShares(db: Db, primary: ContractId, members: set<ContractId>)
    requires primary in db.contracts && primary in members
    ensures var after := Merged(db, primary, members);
            && after.shares == SharesTo(db.shares, members - {primary}, primary)
            && after.contracts
               == ContractsWithout(db.contracts, members - {primary})[primary := MergedFlags(db, primary, members)]
  {
    hide Heirs, Winners, Losers, MergedFlags, ContractsWithout, SharesTo, FamiliesOutside, ResolutionsTo, SourcesTo;
    hide TargetsTo;
    hide ArtifactOwnersTo, IssueOwnersTo, ReducedReportRows, ReducedFamilies, ReducedReports, ReducedArtifacts;
    hide ReducedIssues;
  }

  /** What was filed under a merged report stays reachable: an artifact or a relation names the
      surviving report of the same period, and the rows of a report stay exactly if it survives. */
  lemma MergeRelinks(db: Db, primary: ContractId, members: set<ContractId>)
    requires primary in db.contracts && primary in members
    ensures var after := Merged(db, primary, members);
            && (forall a :: a in db.artifacts && NamesMember(db, members, db.artifacts[a].report)
                  ==> Inherits(db, after, primary, db.artifacts[a].report.value, after.artifacts[a].report))
            && (forall x :: x in db.relations && NamesMember(db, members, db.relations[x].report)
                  ==> Inherits(db, after, primary, db.relations[x].report.value, after.relations[x].report))
            && (forall h :: h in db.reportRows && db.reportRows[h].report in db.reports
                  ==> (h in after.reportRows <==> db.reportRows[h].report in after.reports))
  {
    hide Heir, MergedFlags, Redirect, RedirectOption;
    var after := Merged(db, primary, members);
    forall r | r in MemberReports(db.reports, members)
      ensures Inherits(db, after, primary, r, Some(if r in Winners(db.reports, primary, members) then r
                                                   else Heir(db.reports, primary, members, r)))
    {
      HeirsWin(db.reports, primary, members, r);
      MergedReports(db, primary, members, Heir(db.reports, primary, members, r));
      MergedReports(db, primary, members, r);
    }
  }

  ghost predicate NamesMember(db: Db, members: set<ContractId>, report: Option<ReportId>)
  {
    report.Some? && report.value in MemberReports(db.reports, members)
  }

  ghost predicate Inherits(db: Db, after: Db, primary: ContractId, was: ReportId, now: Option<ReportId>)
    requires was in db.reports
  {
    && now.Some? && now.value in after.reports && after.reports[now.value].contract == primary
    && after.reports[now.value].period == db.reports[was].period
  }

  /** Issues of a dropped report end resolved and name no report; of the survivors' open issues
      exactly the failures are resolved; no other issue changes its status. */
  lemma MergeResolvesIssues(db: Db, primary: ContractId, members: set<ContractId>, i: RowId)
    requires primary in db.contracts && primary in members && i in db.issues
    ensures var was, now := db.issues[i], Merged(db, primary, members).issues[i];
            if !NamesMember(db, members, was.report) then now.report == was.report && now.status == was.status
            else if was.report.value in Winners(db.reports, primary, members)
            then now.report == was.report
                 && now.status == if was.failure && was.status == OPEN then RESOLVED else was.status
            else now.report == None && now.status == RESOLVED && now.contract == Some(primary)
  {
    hide Heir, MergedFlags;
  }

  /** The contract table: the duplicates go, and the primary takes the merged flags. */
  lemma MergedContracts(db: Db, primary: ContractId, members: set<ContractId>)
    requires primary in db.contracts && primary in members
    ensures Merged(db, primary, members).contracts
         == ContractsWithout(db.contracts, members - {primary})[primary := MergedFlags(db, primary, members)]
  {
    hide Heirs, Winners, MergedFlags, ContractsWithout;
  }
}
