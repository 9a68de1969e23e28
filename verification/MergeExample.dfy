/** Two contracts of one fund whose reports of a quarter differ in how far they were parsed. */
module MergeExample {
  import opened Sums
  import opened FundGrouping
  import opened FundMerge
  import opened FundCatalog
  import opened MergeLaws

  const QUARTER: Period := Period("QUARTERLY", 2026, Some(2))

  /** A share in yuan of class A for the first contract, of class C for the second, and one report of the
      same quarter for each. */
  ghost predicate TwoContracts(db: Db, first: ParseStatus, second: ParseStatus)
  {
    && db.contracts == map[1 := Contract("manager", "fund", None, 1, true, false),
                           2 := Contract("manager", "fund", None, 2, true, false)]
    && db.reports == map[1 := Report(1, QUARTER, first, true), 2 := Report(2, QUARTER, second, true)]
    && db.shares == map[1 := Share(1, 1, Some("A"), "CNY"), 2 := Share(2, 2, Some("C"), "CNY")]
  }

  /** There is such a database in which every constraint holds. */
  lemma TwoContractsExist(first: ParseStatus, second: ParseStatus) returns (db: Db)
    ensures TwoContracts(db, first, second) && Sound(db)
  {
    db := Db(map[1 := Contract("manager", "fund", None, 1, true, false),
                 2 := Contract("manager", "fund", None, 2, true, false)],
             map[1 := Report(1, QUARTER, first, true), 2 := Report(2, QUARTER, second, true)],
             map[1 := Share(1, 1, Some("A"), "CNY"), 2 := Share(2, 2, Some("C"), "CNY")],
             map[], map[], map[], map[], map[]);
  }

  lemma FirstIsPrimary(db: Db, first: ParseStatus, second: ParseStatus, primary: ContractId)
    requires TwoContracts(db, first, second) && {1, 2} <= db.contracts.Keys && UniqueCodes(db)
    requires IsPrimary(db, {1, 2}, primary)
    ensures primary == 1
  {
    assert IsRepresentative(db, 1, 1) && IsRepresentative(db, 2, 2);
    PriorityIs(db, 1, 1);
    PriorityIs(db, 2, 2);
  }

  lemma BothContracts(db: Db, first: ParseStatus, second: ParseStatus)
    requires TwoContracts(db, first, second)
    ensures db.contracts.Keys == {1, 2}
  {
  }

  function NameOnly(manager: string, name: string, wrapper: Option<string>): Key
  {
    name
  }

  lemma OneGroup(db: Db, first: ParseStatus, second: ParseStatus)
    requires TwoContracts(db, first, second)
    ensures {1, 2} <= db.contracts.Keys && |{1, 2}| == 2 && OneKey(db, NameOnly, {1, 2})
  {
  }

  lemma SecondGoesOn(db: Db, first: ParseStatus, second: ParseStatus, w: ReportId)
    requires TwoContracts(db, first, second) && w in db.reports
    requires first !in {PARSED, VALID_EMPTY} && second in {PARSED, VALID_EMPTY}
    requires FurthestAlong(db.reports, {1, 2}, w)
    ensures w == 2
  {
    assert 2 in db.reports && db.reports[2].status in {PARSED, VALID_EMPTY};
    assert Any(db.reports, {1, 2}, {PARSED, VALID_EMPTY});
  }

  lemma GroupOfTwo(db: Db, first: ParseStatus, second: ParseStatus)
    requires TwoContracts(db, first, second)
    ensures db.reports.Keys == {1, 2} && forall x :: x in db.reports ==>
              db.reports[x].period == QUARTER && db.reports[x].contract in {1, 2}
    ensures db.reports[2].(contract := 1) == Report(1, QUARTER, second, true)
  {
  }

  lemma OnlySecondStays(db: Db, second: ParseStatus, w: ReportId)
    requires 1 in db.contracts && 2 in db.reports && db.reports.Keys == {1, 2} && w == 2
    requires forall x :: x in db.reports ==> db.reports[x].period == QUARTER && db.reports[x].contract in {1, 2}
    requires db.reports[2].(contract := 1) == Report(1, QUARTER, second, true)
    requires var after := Merged(db, 1, {1, 2}).reports;
             && w in after && after[w] == db.reports[w].(contract := 1)
             && forall x :: x in after && after[x].contract == 1 && after[x].period == QUARTER ==> x == w
    ensures Merged(db, 1, {1, 2}).reports == map[2 := Report(1, QUARTER, second, true)]
  {
    hide Merged, Winners;
    var after := Merged(db, 1, {1, 2}).reports;
    forall x | x in after ensures x == 2 {
      MergedReports(db, 1, {1, 2}, x);
    }
  }

  lemma OneContract(db: Db)
    requires db.contracts.Keys == {1, 2}
    ensures Merged(db, 1, {1, 2}).contracts.Keys == {1}
  {
    MergedContracts(db, 1, {1, 2});
    hide Merged, MergedFlags;
  }

  lemma MergedTwo(db: Db, first: ParseStatus, second: ParseStatus)
    requires TwoContracts(db, first, second)
    requires first !in {PARSED, VALID_EMPTY} && second in {PARSED, VALID_EMPTY}
    requires db.contracts.Keys == {1, 2}
    ensures var after := Merged(db, 1, {1, 2});
            && after.contracts.Keys == {1} && after.reports == map[2 := Report(1, QUARTER, second, true)]
  {
    hide Merged, MergedFlags, TwoContracts, FurthestAlong, FirstAmongAlike;
    GroupOfTwo(db, first, second);
    OneContract(db);
    var w := SurvivorIsFurthest(db, 1, {1, 2}, QUARTER, {1, 2});
    SecondGoesOn(db, first, second, w);
    OnlySecondStays(db, second, w);
  }

  /** If only the duplicate's report was parsed, it is the one that stays, under the primary, whatever else
      the database holds. */
  method MergeTwoContracts(db: Db, first: ParseStatus, second: ParseStatus) returns (catalog: Catalog)
    requires TwoContracts(db, first, second) && Sound(db)
    requires first !in {PARSED, VALID_EMPTY} && second in {PARSED, VALID_EMPTY}
    ensures fresh(catalog) && catalog.db.contracts.Keys == {1}
    ensures catalog.db.reports == map[2 := Report(1, QUARTER, second, true)]
  {
    hide TwoContracts, OneKey, IsPrimary, Merged, Referential, UniquePeriods, UniqueCodes;
    OneGroup(db, first, second);
    BothContracts(db, first, second);
    catalog := new Catalog(db, NameOnly);
    var r := catalog.MergeContractGroup({1, 2});
    FirstIsPrimary(db, first, second, r.value);
    MergedTwo(db, first, second);
  }
}
