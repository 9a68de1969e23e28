/** The merge as a sequence of statements on the stored tables. */
module FundMerge {
  import opened Sums
  import opened FundGrouping

  // ---------- the statements that remove one losing report ----------

  function ArtifactsTo(
    table: map<RowId, Artifact>, loser: ReportId, winner: ReportId, primary: ContractId): map<RowId, Artifact>
  {
    map a | a in table ::
      if table[a].report == Some(loser) then Artifact(Some(primary), Some(winner)) else table[a]
  }

  function IssuesOff(table: map<RowId, Issue>, loser: ReportId, primary: ContractId): map<RowId, Issue>
  {
    map i | i in table ::
      if table[i].report == Some(loser) then Issue(Some(primary), None, table[i].failure, RESOLVED) else table[i]
  }

  function RelationsTo(table: map<RowId, Relation>, loser: ReportId, winner: ReportId): map<RowId, Relation>
  {
    map x | x in table ::
      if table[x].report == Some(loser) then table[x].(report := Some(winner)) else table[x]
  }

  function FamiliesWithout(table: map<RowId, Family>, loser: ReportId): map<RowId, Family>
  {
    map f | f in table && table[f].report != Some(loser) :: table[f]
  }

  /** Deleting a report deletes the rows that belong to it; other tables no longer name it. */
  function ReportsWithout(table: map<ReportId, Report>, loser: ReportId): map<ReportId, Report>
  {
    map r | r in table && r != loser :: table[r]
  }

  function ReportRowsWithout(table: map<RowId, ReportRow>, loser: ReportId): map<RowId, ReportRow>
  {
    map h | h in table && table[h].report != loser :: table[h]
  }

  function ReportTo(table: map<ReportId, Report>, winner: ReportId, primary: ContractId): map<ReportId, Report>
    requires winner in table
  {
    table[winner := table[winner].(contract := primary)]
  }

  function FailuresResolved(table: map<RowId, Issue>, winner: ReportId): map<RowId, Issue>
  {
    map i | i in table ::
      if table[i].report == Some(winner) && table[i].failure && table[i].status == OPEN
      then table[i].(status := RESOLVED) else table[i]
  }

  function Dropped(db: Db, loser: ReportId, winner: ReportId, primary: ContractId): Db
  {
    db.(artifacts := ArtifactsTo(db.artifacts, loser, winner, primary),
        issues := IssuesOff(db.issues, loser, primary),
        relations := RelationsTo(db.relations, loser, winner),
        families := FamiliesWithout(db.families, loser),
        reports := ReportsWithout(db.reports, loser),
        reportRows := ReportRowsWithout(db.reportRows, loser))
  }

  function Kept(db: Db, winner: ReportId, primary: ContractId): Db
    requires winner in db.reports
  {
    db.(reports := ReportTo(db.reports, winner, primary), issues := FailuresResolved(db.issues, winner))
  }

  /** `loser` is neither gone, nor moved, nor anybody's heir. */
  ghost predicate CanDrop(
    db: Db, heirs: map<ReportId, ReportId>, kept: set<ReportId>, loser: ReportId, winner: ReportId)
  {
    && loser !in heirs && loser !in kept && winner !in heirs && winner != loser
    && forall r :: r in heirs ==> heirs[r] != loser
  }

  lemma DropReport(
    db: Db, primary: ContractId, heirs: map<ReportId, ReportId>, kept: set<ReportId>, loser: ReportId, winner: ReportId)
    ensures ReportsWithout(ReducedReports(db, primary, heirs, kept), loser)
         == ReducedReports(db, primary, heirs[loser := winner], kept)
  {
    hide MovedReport;
  }

  lemma DropArtifacts(db: Db, primary: ContractId, heirs: map<ReportId, ReportId>, loser: ReportId, winner: ReportId)
    requires loser !in heirs && forall r :: r in heirs ==> heirs[r] != loser
    ensures ArtifactsTo(ReducedArtifacts(db, primary, heirs), loser, winner, primary)
         == ReducedArtifacts(db, primary, heirs[loser := winner])
  {
    hide MovedArtifact;
    var a, b := ReducedArtifacts(db, primary, heirs), ReducedArtifacts(db, primary, heirs[loser := winner]);
    forall k | k in db.artifacts ensures ArtifactsTo(a, loser, winner, primary)[k] == b[k] {
      ArtifactMovedOnce(db.artifacts[k], heirs, primary, loser, winner);
    }
  }

  lemma ArtifactMovedOnce(
    a: Artifact, heirs: map<ReportId, ReportId>, primary: ContractId, loser: ReportId, winner: ReportId)
    requires loser !in heirs && forall r :: r in heirs ==> heirs[r] != loser
    ensures MovedArtifact(a, heirs[loser := winner], primary)
         == if MovedArtifact(a, heirs, primary).report == Some(loser) then Artifact(Some(primary), Some(winner))
            else MovedArtifact(a, heirs, primary)
  {
    if a.report.Some? {
      var r: ReportId := a.report.value;
      assert r in heirs ==> heirs[r] != loser;
    }
  }

  lemma DropIssues(db: Db, primary: ContractId, dead: set<ReportId>, kept: set<ReportId>, loser: ReportId)
    requires loser !in dead && loser !in kept
    ensures IssuesOff(ReducedIssues(db, primary, dead, kept), loser, primary)
         == ReducedIssues(db, primary, dead + {loser}, kept)
  {
    hide MovedIssue;
    var a, b := ReducedIssues(db, primary, dead, kept), ReducedIssues(db, primary, dead + {loser}, kept);
    forall k | k in db.issues ensures IssuesOff(a, loser, primary)[k] == b[k] {
      IssueMovedOnce(db.issues[k], dead, kept, primary, loser);
    }
  }

  lemma IssueMovedOnce(i: Issue, dead: set<ReportId>, kept: set<ReportId>, primary: ContractId, loser: ReportId)
    requires loser !in dead && loser !in kept
    ensures MovedIssue(i, dead + {loser}, kept, primary)
         == if MovedIssue(i, dead, kept, primary).report == Some(loser)
            then Issue(Some(primary), None, MovedIssue(i, dead, kept, primary).failure, RESOLVED)
            else MovedIssue(i, dead, kept, primary)
  {
  }

  lemma DropRelations(db: Db, heirs: map<ReportId, ReportId>, loser: ReportId, winner: ReportId)
    requires loser !in heirs && forall r :: r in heirs ==> heirs[r] != loser
    ensures RelationsTo(ReducedRelations(db, heirs), loser, winner) == ReducedRelations(db, heirs[loser := winner])
  {
    hide MovedRelation;
    var a, b := ReducedRelations(db, heirs), ReducedRelations(db, heirs[loser := winner]);
    forall k | k in db.relations ensures RelationsTo(a, loser, winner)[k] == b[k] {
      RelationMovedOnce(db.relations[k], heirs, loser, winner);
    }
  }

  lemma RelationMovedOnce(x: Relation, heirs: map<ReportId, ReportId>, loser: ReportId, winner: ReportId)
    requires loser !in heirs && forall r :: r in heirs ==> heirs[r] != loser
    ensures MovedRelation(x, heirs[loser := winner])
         == if MovedRelation(x, heirs).report == Some(loser) then MovedRelation(x, heirs).(report := Some(winner))
            else MovedRelation(x, heirs)
  {
    if x.report.Some? {
      var r: ReportId := x.report.value;
      assert r in heirs ==> heirs[r] != loser;
    }
  }

  lemma DropOwned(db: Db, dead: set<ReportId>, loser: ReportId)
    ensures ReportRowsWithout(ReducedReportRows(db, dead), loser) == ReducedReportRows(db, dead + {loser})
    ensures FamiliesWithout(ReducedFamilies(db, dead), loser) == ReducedFamilies(db, dead + {loser})
  {
  }

  lemma DropStep(
    db: Db, primary: ContractId, heirs: map<ReportId, ReportId>, kept: set<ReportId>, loser: ReportId, winner: ReportId)
    requires CanDrop(db, heirs, kept, loser, winner)
    ensures Dropped(Reduced(db, primary, heirs, kept), loser, winner, primary)
         == Reduced(db, primary, heirs[loser := winner], kept)
  {
    hide ArtifactsTo, IssuesOff, RelationsTo, FamiliesWithout, ReportsWithout, ReportRowsWithout;
    hide ReducedReports, ReducedArtifacts, ReducedIssues, ReducedReportRows, ReducedRelations, ReducedFamilies;
    assert heirs[loser := winner].Keys == heirs.Keys + {loser};
    DropReport(db, primary, heirs, kept, loser, winner);
    DropArtifacts(db, primary, heirs, loser, winner);
    DropIssues(db, primary, heirs.Keys, kept, loser);
    DropRelations(db, heirs, loser, winner);
    DropOwned(db, heirs.Keys, loser);
  }

  lemma KeepReport(db: Db, primary: ContractId, heirs: map<ReportId, ReportId>, kept: set<ReportId>, winner: ReportId)
    requires winner in db.reports && winner !in heirs && winner !in kept
    ensures winner in ReducedReports(db, primary, heirs, kept)
    ensures ReportTo(ReducedReports(db, primary, heirs, kept), winner, primary)
            == ReducedReports(db, primary, heirs, kept + {winner})
  {
  }

  lemma KeepIssues(db: Db, primary: ContractId, dead: set<ReportId>, kept: set<ReportId>, winner: ReportId)
    requires winner !in dead && winner !in kept
    ensures FailuresResolved(ReducedIssues(db, primary, dead, kept), winner)
            == ReducedIssues(db, primary, dead, kept + {winner})
  {
    hide MovedIssue;
    var a, b := ReducedIssues(db, primary, dead, kept), ReducedIssues(db, primary, dead, kept + {winner});
    forall i | i in db.issues ensures FailuresResolved(a, winner)[i] == b[i] {
      IssueResolvedOnce(db.issues[i], dead, kept, primary, winner);
    }
  }

  lemma IssueResolvedOnce(i: Issue, dead: set<ReportId>, kept: set<ReportId>, primary: ContractId, winner: ReportId)
    requires winner !in dead && winner !in kept
    ensures MovedIssue(i, dead, kept + {winner}, primary)
         == var m := MovedIssue(i, dead, kept, primary);
            if m.report == Some(winner) && m.failure && m.status == OPEN then m.(status := RESOLVED) else m
  {
  }

  lemma KeepStep(db: Db, primary: ContractId, heirs: map<ReportId, ReportId>, kept: set<ReportId>, winner: ReportId)
    requires winner in db.reports && winner !in heirs && winner !in kept
    ensures winner in Reduced(db, primary, heirs, kept).reports
    ensures Kept(Reduced(db, primary, heirs, kept), winner, primary) == Reduced(db, primary, heirs, kept + {winner})
  {
    hide ReducedReports, ReducedArtifacts, ReducedIssues, ReducedReportRows, ReducedRelations, ReducedFamilies;
    KeepReport(db, primary, heirs, kept, winner);
    KeepIssues(db, primary, heirs.Keys, kept, winner);
  }

  // ---------- the loop over periods ----------

  /** Where the loop over report groups stands: every member report is replaced by its heir,
      moved to the primary, `open` in the current group, or of a period still to do. */
  ghost predicate Grouping(
    db: Db, primary: ContractId, members: set<ContractId>,
    todo: set<Period>, open: set<ReportId>, heirs: map<ReportId, ReportId>, kept: set<ReportId>)
  {
    var all := MemberReports(db.reports, members);
    && (forall r :: r in heirs ==> IsHeirOf(db, primary, members, r, heirs[r]))
    && kept <= Winners(db.reports, primary, members) && open <= all
    && (forall r :: r in all ==> r in heirs || r in kept || r in open || db.reports[r].period in todo)
    && (forall r :: r in heirs || r in kept ==> r !in open && r in all && db.reports[r].period !in todo)
    && (forall w, x :: w in kept && x in all && db.reports[x].period == db.reports[w].period && x != w ==> x in heirs)
  }

  ghost predicate IsHeirOf(db: Db, primary: ContractId, members: set<ContractId>, r: ReportId, w: ReportId)
  {
    r in Losers(db.reports, primary, members) && w == Heir(db.reports, primary, members, r)
  }

  lemma GroupingStarts(db: Db, primary: ContractId, members: set<ContractId>, todo: set<Period>)
    requires todo == set r | r in MemberReports(db.reports, members) :: db.reports[r].period
    ensures Grouping(db, primary, members, todo, {}, map[], {})
  {
    hide Heir;
  }

  lemma NoReportReduced(db: Db, primary: ContractId)
    ensures ReducedReports(db, primary, map[], {}) == db.reports
    ensures ReducedReportRows(db, {}) == db.reportRows && ReducedFamilies(db, {}) == db.families
  {
  }

  lemma NoRowMoved(db: Db, primary: ContractId)
    ensures ReducedArtifacts(db, primary, map[]) == db.artifacts
    ensures ReducedIssues(db, primary, {}, {}) == db.issues
    ensures ReducedRelations(db, map[]) == db.relations
  {
    var a, i, x := ReducedArtifacts(db, primary, map[]), ReducedIssues(db, primary, {}, {}),
                   ReducedRelations(db, map[]);
    assert forall k :: k in db.artifacts ==> a[k] == db.artifacts[k];
    assert forall k :: k in db.issues ==> i[k] == db.issues[k];
    assert forall k :: k in db.relations ==> x[k] == db.relations[k];
  }

  lemma NothingReduced(db: Db, primary: ContractId)
    ensures Reduced(db, primary, map[], {}) == db
  {
    hide ReducedReports, ReducedArtifacts, ReducedIssues, ReducedReportRows, ReducedRelations, ReducedFamilies;
    var none: map<ReportId, ReportId> := map[];
    assert none.Keys == {};
    NoReportReduced(db, primary);
    NoRowMoved(db, primary);
  }

  lemma GroupingOpens(
    db: Db, primary: ContractId, members: set<ContractId>, todo: set<Period>, heirs: map<ReportId, ReportId>,
    kept: set<ReportId>, p: Period)
    requires Grouping(db, primary, members, todo, {}, heirs, kept) && p in todo
    ensures Grouping(db, primary, members, todo - {p}, Group(db.reports, members, p), heirs, kept)
  {
    hide IsHeirOf, Winners;
  }

  lemma GroupingDrops(
    db: Db, primary: ContractId, members: set<ContractId>, todo: set<Period>, open: set<ReportId>,
    heirs: map<ReportId, ReportId>, kept: set<ReportId>, loser: ReportId, winner: ReportId)
    requires Grouping(db, primary, members, todo, open, heirs, kept)
    requires loser in open && loser != winner && db.reports[loser].period !in todo
    requires IsWinner(db.reports, primary, Group(db.reports, members, db.reports[loser].period), winner)
    ensures Grouping(db, primary, members, todo, open - {loser}, heirs[loser := winner], kept)
    ensures CanDrop(db, heirs, kept, loser, winner)
  {
    hide Heir;
    var group := Group(db.reports, members, db.reports[loser].period);
    HeirsWin(db.reports, primary, members, loser);
    HeirsWin(db.reports, primary, members, winner);
    WinnerIsUnique(db.reports, primary, group, winner, Heir(db.reports, primary, members, loser));
    forall r | r in heirs ensures heirs[r] != loser {
      HeirsWin(db.reports, primary, members, r);
    }
  }

  lemma GroupingKeeps(
    db: Db, primary: ContractId, members: set<ContractId>, todo: set<Period>,
    heirs: map<ReportId, ReportId>, kept: set<ReportId>, winner: ReportId)
    requires Grouping(db, primary, members, todo, {winner}, heirs, kept) && winner in db.reports
    requires db.reports[winner].period !in todo
    requires IsWinner(db.reports, primary, Group(db.reports, members, db.reports[winner].period), winner)
    ensures Grouping(db, primary, members, todo, {}, heirs, kept + {winner})
    ensures winner !in heirs && winner !in kept
  {
    hide Heir;
    HeirsWin(db.reports, primary, members, winner);
  }

  lemma GroupingEnds(
    db: Db, primary: ContractId, members: set<ContractId>, heirs: map<ReportId, ReportId>, kept: set<ReportId>)
    requires Grouping(db, primary, members, {}, {}, heirs, kept)
    ensures Reduced(db, primary, heirs, kept) == WithMergedReports(db, primary, members)
  {
    hide Heir, Reduced;
    assert kept == Winners(db.reports, primary, members);
    forall r | r in heirs ensures r in Losers(db.reports, primary, members) {
      assert IsHeirOf(db, primary, members, r, heirs[r]);
    }
    forall r | r in Losers(db.reports, primary, members) ensures r in heirs {
      assert r in MemberReports(db.reports, members) && r !in kept;
    }
    forall r | r in heirs ensures heirs[r] == Heirs(db.reports, primary, members)[r] {
      assert IsHeirOf(db, primary, members, r, heirs[r]);
    }
    assert heirs == Heirs(db.reports, primary, members);
  }

  /** The period constraint holds after every single statement of the loop. */
  lemma PeriodsStayUnique(
    db: Db, primary: ContractId, members: set<ContractId>, todo: set<Period>, open: set<ReportId>,
    heirs: map<ReportId, ReportId>, kept: set<ReportId>)
    requires UniquePeriods(db.reports) && primary in members && Grouping(db, primary, members, todo, open, heirs, kept)
    ensures UniquePeriods(Reduced(db, primary, heirs, kept).reports)
  {
    hide IsHeirOf, Heir;
    var after := Reduced(db, primary, heirs, kept).reports;
    forall r, s | r in after && s in after && Conflict(after[r], after[s]) ensures r == s {
      if r !in kept && s !in kept { assert Conflict(db.reports[r], db.reports[s]); }
    }
  }

  // ---------- choosing the primary ----------

  function CurrencyRank(currency: string): nat
  {
    if currency == "CNY" then 0 else if currency == "HKD" then 1 else if currency == "USD" then 2 else 3
  }

  function ClassRank(shareClass: Option<string>): nat
  {
    if shareClass == Some("A") then 0 else if shareClass == None then 1
    else if shareClass == Some("C") then 2 else if shareClass == Some("D") then 3 else 4
  }

  datatype Priority = Priority(currency: nat, shareClass: nat, code: nat)

  /** Python's order on the three-part tuples. */
  predicate Before(a: Priority, b: Priority)
  {
    a.currency < b.currency
    || (a.currency == b.currency
        && (a.shareClass < b.shareClass || (a.shareClass == b.shareClass && a.code < b.code)))
  }

  /** The share named by the contract's representative code, else its lowest-coded share. */
  predicate IsRepresentative(db: Db, c: ContractId, s: RowId)
    requires c in db.contracts
  {
    && s in db.shares && db.shares[s].contract == c
    && (db.shares[s].code == db.contracts[c].code
        || forall t :: t in db.shares && db.shares[t].contract == c ==>
             db.shares[t].code != db.contracts[c].code && db.shares[s].code <= db.shares[t].code)
  }

  predicate UniqueCodes(db: Db)
  {
    && (forall s, t :: s in db.shares && t in db.shares && db.shares[s].code == db.shares[t].code ==> s == t)
    && (forall c, d :: c in db.contracts && d in db.contracts && db.contracts[c].code == db.contracts[d].code
          ==> c == d)
  }

  ghost function PriorityOf(db: Db, c: ContractId): Priority
    requires c in db.contracts
  {
    if s :| IsRepresentative(db, c, s)
    then Priority(CurrencyRank(db.shares[s].currency), ClassRank(db.shares[s].shareClass), db.contracts[c].code)
    else Priority(CurrencyRank(""), ClassRank(None), db.contracts[c].code)
  }

  lemma RepresentativeIsUnique(db: Db, c: ContractId, s: RowId, t: RowId)
    requires c in db.contracts && UniqueCodes(db) && IsRepresentative(db, c, s) && IsRepresentative(db, c, t)
    ensures s == t
  {
  }

  lemma PriorityIs(db: Db, c: ContractId, s: RowId)
    requires c in db.contracts && UniqueCodes(db) && IsRepresentative(db, c, s)
    ensures PriorityOf(db, c)
         == Priority(CurrencyRank(db.shares[s].currency), ClassRank(db.shares[s].shareClass), db.contracts[c].code)
  {
    var t :| IsRepresentative(db, c, t) && PriorityOf(db, c)
         == Priority(CurrencyRank(db.shares[t].currency), ClassRank(db.shares[t].shareClass), db.contracts[c].code);
    RepresentativeIsUnique(db, c, s, t);
  }

  /** The member that precedes every other. */
  ghost predicate IsPrimary(db: Db, members: set<ContractId>, c: ContractId)
    requires members <= db.contracts.Keys
  {
    c in members && forall d :: d in members && d != c ==> Before(PriorityOf(db, c), PriorityOf(db, d))
  }

  lemma PrimaryIsUnique(db: Db, members: set<ContractId>, c: ContractId, d: ContractId)
    requires members <= db.contracts.Keys && IsPrimary(db, members, c) && IsPrimary(db, members, d)
    ensures c == d
  {
  }
}
