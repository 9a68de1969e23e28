/** What a merge of contracts decides, said of the rows themselves: which contract becomes the
    primary, which report of a period survives, and what every other row names afterwards. */
module MergeLaws {
  import opened Sums
  import opened FundGrouping
  import opened FundMerge

  // ---------- the surviving report ----------

  /** Some report of the group has one of the statuses. */
  ghost predicate Any(reports: map<ReportId, Report>, group: set<ReportId>, statuses: set<ParseStatus>)
  {
    exists r :: r in group && r in reports && reports[r].status in statuses
  }

  /** A parsed report and one parsed without content count alike; no other two statuses do. */
  predicate Alike(a: ParseStatus, b: ParseStatus)
  {
    a == b || (a in {PARSED, VALID_EMPTY} && b in {PARSED, VALID_EMPTY})
  }

  /** The survivor is as far along as any: parsed or validly empty, else downloaded, else
      unresolved, else failed with a reason. */
  ghost predicate FurthestAlong(reports: map<ReportId, Report>, group: set<ReportId>, w: ReportId)
    requires w in reports
  {
    var status := reports[w].status;
    if Any(reports, group, {PARSED, VALID_EMPTY}) then status in {PARSED, VALID_EMPTY}
    else if Any(reports, group, {DOWNLOADED}) then status == DOWNLOADED
    else if Any(reports, group, {UNRESOLVED}) then status == UNRESOLVED
    else if Any(reports, group, {FAILED_WITH_REASON}) then status == FAILED_WITH_REASON
    else status == OTHER_STATUS
  }

  /** Of two reports as far along, `w` goes first: the primary's own before others, then one with a
      document before one without, then the lower id. */
  predicate GoesFirst(reports: map<ReportId, Report>, primary: ContractId, w: ReportId, x: ReportId)
    requires w in reports && x in reports
  {
    var a, b := reports[w], reports[x];
    if a.contract == primary && b.contract != primary then true
    else if a.contract != primary && b.contract == primary then false
    else if a.hasDocument && !b.hasDocument then true
    else if !a.hasDocument && b.hasDocument then false
    else w <= x
  }

  ghost predicate FirstAmongAlike(
    reports: map<ReportId, Report>, primary: ContractId, group: set<ReportId>, w: ReportId)
    requires w in reports
  {
    forall x :: x in group && x in reports && Alike(reports[x].status, reports[w].status)
      ==> GoesFirst(reports, primary, w, x)
  }

  lemma WinnerIsFirst(reports: map<ReportId, Report>, primary: ContractId, group: set<ReportId>, w: ReportId)
    requires group <= reports.Keys && IsWinner(reports, primary, group, w)
    ensures FurthestAlong(reports, group, w) && FirstAmongAlike(reports, primary, group, w)
  {
    forall x | x in group
      ensures ReportRank(reports[x].status) <= ReportRank(reports[w].status)
      ensures Alike(reports[x].status, reports[w].status) ==> GoesFirst(reports, primary, w, x)
    {
      assert x != w ==> Beats(reports, primary, w, x);
    }
  }

  /** After a merge the primary has exactly one report for every period that any member had: of the
      members' reports of that period, `group`, the one furthest along, ties going to the primary's
      own, to a document, and to the lowest id. */
  lemma SurvivorIsFurthest(db: Db, primary: ContractId, members: set<ContractId>, period: Period, group: set<ReportId>)
      returns (w: ReportId)
    requires primary in db.contracts && primary in members && group != {}
    requires forall x :: x in group
               <==> x in db.reports && db.reports[x].contract in members && db.reports[x].period == period
    ensures var after := Merged(db, primary, members).reports;
            && w in group && w in after && after[w] == db.reports[w].(contract := primary)
            && FurthestAlong(db.reports, group, w) && FirstAmongAlike(db.reports, primary, group, w)
            && forall x :: x in after && after[x].contract == primary && after[x].period == period ==> x == w
  {
    hide Merged, IsWinner, FurthestAlong, FirstAmongAlike;
    var after := Merged(db, primary, members).reports;
    assert forall x :: x in Group(db.reports, members, period) <==> x in group;
    assert group == Group(db.reports, members, period);
    OneReportPerPeriod(db, primary, members, period);
    w :| IsWinner(db.reports, primary, group, w) && Group(after, {primary}, period) == {w};
    WinnerIsFirst(db.reports, primary, group, w);
    assert w in Group(after, {primary}, period);
    MergedReports(db, primary, members, w);
    forall x | x in after && after[x].contract == primary && after[x].period == period ensures x == w {
      assert x in Group(after, {primary}, period);
    }
  }

  // ---------- the primary ----------

  /** The currency and class by which a contract is judged: those of the share with its own code, of
      its lowest-coded share if it has none, and neither without any share. */
  ghost predicate JudgedBy(db: Db, c: ContractId, currency: string, shareClass: Option<string>)
    requires c in db.contracts
  {
    if exists s :: s in db.shares && db.shares[s].contract == c
    then exists s ::
      && s in db.shares && db.shares[s].contract == c
      && db.shares[s].currency == currency && db.shares[s].shareClass == shareClass
      && (db.shares[s].code == db.contracts[c].code
          || forall t :: t in db.shares && db.shares[t].contract == c
               ==> (db.shares[t].code != db.contracts[c].code && db.shares[s].code <= db.shares[t].code))
    else currency == "" && shareClass == None
  }

  /** Of what is listed first comes first; what is not listed comes last. */
  predicate InOrder<T(==)>(listed: seq<T>, a: T, b: T)
  {
    b in listed ==> exists i :: 0 <= i < |listed| && listed[i] == a && b !in listed[..i]
  }

  const CURRENCIES: seq<string> := ["CNY", "HKD", "USD"]
  const CLASSES: seq<Option<string>> := [Some("A"), None, Some("C"), Some("D")]

  predicate SameClass<T(==)>(listed: seq<T>, a: T, b: T)
  {
    a == b || (a !in listed && b !in listed)
  }

  /** Of two contracts the one whose share is in yuan, else in Hong Kong dollars, else in dollars; then
      of class A, without class, C, D; then with the lower code. */
  ghost predicate Preferred(
    db: Db, c: ContractId, d: ContractId, currency: string, shareClass: Option<string>, otherCurrency: string,
    otherClass: Option<string>)
    requires c in db.contracts && d in db.contracts
  {
    && InOrder(CURRENCIES, currency, otherCurrency)
    && (SameClass(CURRENCIES, currency, otherCurrency) ==>
          && InOrder(CLASSES, shareClass, otherClass)
          && (SameClass(CLASSES, shareClass, otherClass) ==> db.contracts[c].code <= db.contracts[d].code))
  }

  lemma CurrencyOrder(a: string, b: string)
    ensures InOrder(CURRENCIES, a, b) <==> CurrencyRank(a) <= CurrencyRank(b)
    ensures SameClass(CURRENCIES, a, b) <==> CurrencyRank(a) == CurrencyRank(b)
  {
    var l := CURRENCIES;
    assert l[..0] == [] && l[..1] == ["CNY"] && l[..2] == ["CNY", "HKD"];
    assert l[0] == "CNY" && l[1] == "HKD" && l[2] == "USD";
  }

  lemma ClassOrder(a: Option<string>, b: Option<string>)
    ensures InOrder(CLASSES, a, b) <==> ClassRank(a) <= ClassRank(b)
    ensures SameClass(CLASSES, a, b) <==> ClassRank(a) == ClassRank(b)
  {
    var l := CLASSES;
    assert l[..0] == [] && l[..1] == [Some("A")] && l[..2] == [Some("A"), None];
    assert l[..3] == [Some("A"), None, Some("C")];
    assert l[0] == Some("A") && l[1] == None && l[2] == Some("C") && l[3] == Some("D");
  }

  lemma JudgedIsPriority(db: Db, c: ContractId, currency: string, shareClass: Option<string>)
    requires c in db.contracts && UniqueCodes(db) && JudgedBy(db, c, currency, shareClass)
    ensures PriorityOf(db, c) == Priority(CurrencyRank(currency), ClassRank(shareClass), db.contracts[c].code)
  {
    if s :| IsRepresentative(db, c, s) && db.shares[s].currency == currency && db.shares[s].shareClass == shareClass {
      PriorityIs(db, c, s);
    }
  }

  /** The primary is preferred to every other member. */
  lemma PrimaryIsPreferred(
    db: Db, members: set<ContractId>, c: ContractId, d: ContractId, currency: string, shareClass: Option<string>,
    otherCurrency: string, otherClass: Option<string>)
    requires members <= db.contracts.Keys && UniqueCodes(db) && IsPrimary(db, members, c) && d in members
    requires JudgedBy(db, c, currency, shareClass) && JudgedBy(db, d, otherCurrency, otherClass)
    ensures Preferred(db, c, d, currency, shareClass, otherCurrency, otherClass)
  {
    hide CurrencyRank, ClassRank, InOrder, SameClass, JudgedBy, PriorityOf;
    JudgedIsPriority(db, c, currency, shareClass);
    JudgedIsPriority(db, d, otherCurrency, otherClass);
    CurrencyOrder(currency, otherCurrency);
    ClassOrder(shareClass, otherClass);
  }

  // ---------- what the other rows name ----------

  /** A reference to a member names the primary afterwards, any other is unchanged. */
  ghost predicate OwnerMoved(was: Option<ContractId>, now: Option<ContractId>, members: set<ContractId>, p: ContractId)
  {
    now == if was.Some? && was.value in members then Some(p) else was
  }

  /** The report was a member's and is gone. */
  ghost predicate Filed(db: Db, after: Db, members: set<ContractId>, report: Option<ReportId>)
  {
    report.Some? && report.value in db.reports && db.reports[report.value].contract in members
    && report.value !in after.reports
  }

  lemma FiledUnderLoser(db: Db, primary: ContractId, members: set<ContractId>, report: Option<ReportId>)
    requires primary in db.contracts && primary in members
    ensures Filed(db, Merged(db, primary, members), members, report)
       <==> report.Some? && report.value in Losers(db.reports, primary, members)
  {
    hide Merged, Winners;
    if report.Some? { MergedReports(db, primary, members, report.value); }
  }

  lemma MergedTables(db: Db, primary: ContractId, members: set<ContractId>)
    requires primary in db.contracts && primary in members
    ensures var after, heirs, gone := Merged(db, primary, members), Heirs(db.reports, primary, members),
                                      members - {primary};
            && after.artifacts == ArtifactOwnersTo(ReducedArtifacts(db, primary, heirs), gone, primary)
            && after.issues
               == IssueOwnersTo(ReducedIssues(db, primary, heirs.Keys, Winners(db.reports, primary, members)), gone,
                                primary)
            && after.reportRows == ResolutionsTo(ReducedReportRows(db, heirs.Keys), gone, primary)
            && after.relations == TargetsTo(SourcesTo(ReducedRelations(db, heirs), gone, primary), gone, primary)
            && after.families == FamiliesOutside(ReducedFamilies(db, heirs.Keys), gone)
  {
    hide Heirs, Winners, MergedFlags, ContractsWithout, SharesTo, FamiliesOutside, ResolutionsTo, SourcesTo;
    hide TargetsTo, ArtifactOwnersTo, IssueOwnersTo, ReducedReportRows, ReducedFamilies, ReducedReports;
    hide ReducedArtifacts, ReducedIssues, ReducedRelations;
  }

  /** An artifact filed under a dropped report goes to the primary, any other moves with its owner. */
  lemma ArtifactMoves(db: Db, primary: ContractId, members: set<ContractId>, a: RowId)
    requires primary in db.contracts && primary in members && a in db.artifacts
    ensures var was, after := db.artifacts[a], Merged(db, primary, members);
            && a in after.artifacts
            && if Filed(db, after, members, was.report) then after.artifacts[a].contract == Some(primary)
               else OwnerMoved(was.contract, after.artifacts[a].contract, members, primary)
                    && after.artifacts[a].report == was.report
  {
    hide Merged, Losers, Heir;
    MergedTables(db, primary, members);
    FiledUnderLoser(db, primary, members, db.artifacts[a].report);
  }

  /** So does an issue; neither changes in what it reports. */
  lemma IssueMoves(db: Db, primary: ContractId, members: set<ContractId>, i: RowId)
    requires primary in db.contracts && primary in members && i in db.issues
    ensures var was, after := db.issues[i], Merged(db, primary, members);
            && i in after.issues && after.issues[i].failure == was.failure
            && if Filed(db, after, members, was.report) then after.issues[i].contract == Some(primary)
               else OwnerMoved(was.contract, after.issues[i].contract, members, primary)
  {
    hide Merged, Losers, Heir, Winners;
    MergedTables(db, primary, members);
    FiledUnderLoser(db, primary, members, db.issues[i].report);
  }

  /** A holding that stays keeps its report and table, and is resolved to the primary if it was to a
      member. */
  lemma HoldingMoves(db: Db, primary: ContractId, members: set<ContractId>, h: RowId)
    requires primary in db.contracts && primary in members && h in Merged(db, primary, members).reportRows
    ensures var now := Merged(db, primary, members).reportRows[h];
            && h in db.reportRows && now.report == db.reportRows[h].report && now.table == db.reportRows[h].table
            && OwnerMoved(db.reportRows[h].resolved, now.resolved, members, primary)
  {
    hide Merged, Losers, Heir, Heirs;
    MergedTables(db, primary, members);
  }

  /** A relation moves with both its ends. */
  lemma RelationMoves(db: Db, primary: ContractId, members: set<ContractId>, x: RowId)
    requires primary in db.contracts && primary in members && x in db.relations
    ensures var was, after := db.relations[x], Merged(db, primary, members);
            && x in after.relations
            && OwnerMoved(Some(was.source), Some(after.relations[x].source), members, primary)
            && OwnerMoved(was.target, after.relations[x].target, members, primary)
  {
    hide Merged, Losers, Heir, Heirs;
    MergedTables(db, primary, members);
  }

  /** Exposure families stay unless they belong to a duplicate or to a report that is gone. */
  lemma FamilyStaysIff(db: Db, primary: ContractId, members: set<ContractId>, f: RowId)
    requires primary in db.contracts && primary in members && f in db.families
    ensures var was, after := db.families[f], Merged(db, primary, members);
            (f in after.families
             <==> (was.contract !in members || was.contract == primary) && !Filed(db, after, members, was.report))
            && (f in after.families ==> after.families[f] == was)
  {
    hide Merged, Losers, Heir;
    MergedTables(db, primary, members);
    FiledUnderLoser(db, primary, members, db.families[f].report);
  }

  /** The primary is selected if any member was, a dependency if all were, and otherwise itself. */
  lemma PrimaryTakesFlags(db: Db, primary: ContractId, members: set<ContractId>)
    requires primary in members && members <= db.contracts.Keys
    ensures var was, now := db.contracts[primary], Merged(db, primary, members).contracts[primary];
            && (now.selected <==> exists c :: c in members && db.contracts[c].selected)
            && (now.dependency <==> forall c :: c in members ==> db.contracts[c].dependency)
            && now == was.(selected := now.selected, dependency := now.dependency)
  {
    MergedContracts(db, primary, members);
    hide Merged;
  }
}
