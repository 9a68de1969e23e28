/** The grouping service over one database (backend/app/ingestion/fund_grouping.py). */
module FundCatalog {
  import opened Sums
  import opened FundGrouping
  import opened FundMerge

  /** The normalised manager, wrapper and fund name: which contracts are one public fund. */
  type Key = string
  type KeyFunction = (string, string, Option<string>) -> Key

  datatype MergeError = NoContracts | DifferentKeys

  datatype GroupingResult = GroupingResult(contractsBefore: nat, contractsAfter: nat, groupsMerged: nat)

  function KeyOf(keyOf: KeyFunction, c: Contract): Key
  {
    keyOf(c.manager, c.name, c.wrapper)
  }

  ghost predicate Sound(db: Db)
  {
    Referential(db) && UniquePeriods(db.reports) && UniqueCodes(db)
  }

  // ---------- selecting the primary ----------

  method FindRepresentative(db: Db, c: ContractId) returns (r: Option<RowId>)
    requires c in db.contracts
    ensures r.Some? ==> IsRepresentative(db, c, r.value)
    ensures r.None? ==> forall s :: !IsRepresentative(db, c, s)
  {
    if s :| s in db.shares && db.shares[s].contract == c && db.shares[s].code == db.contracts[c].code {
      return Some(s);
    }
    var rest := set s | s in db.shares && db.shares[s].contract == c;
    var all := rest;
    r := None;
    while rest != {}
      invariant rest <= all && (r.None? ==> rest == all)
      invariant r.Some? ==> r.value in all
      invariant r.Some? ==> forall t :: t in all - rest ==> db.shares[r.value].code <= db.shares[t].code
      decreases rest
    {
      NonEmpty(rest);
      var s :| s in rest;
      assert all - (rest - {s}) == (all - rest) + {s};
      r := if r.None? || db.shares[s].code < db.shares[r.value].code then Some(s) else r;
      rest := rest - {s};
    }
    assert all - rest == all;
    assert forall t :: t in db.shares && db.shares[t].contract == c ==> t in all;
  }

  method RepresentativePriority(db: Db, c: ContractId) returns (p: Priority)
    requires c in db.contracts && UniqueCodes(db)
    ensures p == PriorityOf(db, c)
  {
    var share := FindRepresentative(db, c);
    if share.Some? {
      PriorityIs(db, c, share.value);
      return Priority(CurrencyRank(db.shares[share.value].currency), ClassRank(db.shares[share.value].shareClass),
                      db.contracts[c].code);
    }
    p := Priority(CurrencyRank(""), ClassRank(None), db.contracts[c].code);
  }

  lemma PriorityCode(db: Db, c: ContractId)
    requires c in db.contracts
    ensures PriorityOf(db, c).code == db.contracts[c].code
  {
  }

  lemma BeforeTotal(db: Db, c: ContractId, d: ContractId)
    requires c in db.contracts && d in db.contracts && UniqueCodes(db) && c != d
    ensures Before(PriorityOf(db, c), PriorityOf(db, d)) || Before(PriorityOf(db, d), PriorityOf(db, c))
  {
    hide PriorityOf;
    PriorityCode(db, c);
    PriorityCode(db, d);
  }

  method ChoosePrimary(db: Db, members: set<ContractId>) returns (primary: ContractId)
    requires members <= db.contracts.Keys && members != {} && UniqueCodes(db)
    ensures IsPrimary(db, members, primary)
  {
    hide PriorityOf, UniqueCodes;
    NonEmpty(members);
    primary :| primary in members;
    var best := RepresentativePriority(db, primary);
    var rest := members - {primary};
    while rest != {}
      invariant rest <= members && primary in members - rest && best == PriorityOf(db, primary)
      invariant forall d :: d in members - rest && d != primary ==> Before(best, PriorityOf(db, d))
      decreases rest
    {
      NonEmpty(rest);
      var c :| c in rest;
      var p := RepresentativePriority(db, c);
      BeforeTotal(db, primary, c);
      if Before(p, best) {
        primary, best := c, p;
      }
      rest := rest - {c};
    }
  }

  class Catalog {
    var db: Db
    const keyOf: KeyFunction

    constructor (db: Db, keyOf: KeyFunction)
      ensures this.db == db && this.keyOf == keyOf
    {
      this.db := db;
      this.keyOf := keyOf;
    }

    /** Keeps the best report of every period, and moves it to the primary. The period
        constraint of the table holds after every statement. */
    method MergeReports(primary: ContractId, members: set<ContractId>)
      requires primary in members && UniquePeriods(db.reports)
      modifies this
      ensures db == WithMergedReports(old(db), primary, members)
    {
      hide Reduced, Grouping, UniquePeriods, IsWinner, WithMergedReports;
      var before := db;
      var all := MemberReports(before.reports, members);
      var todo := set r | r in all :: before.reports[r].period;
      ghost var heirs: map<ReportId, ReportId>, kept: set<ReportId> := map[], {};
      GroupingStarts(before, primary, members, todo);
      NothingReduced(before, primary);
      assert forall r :: r in all ==> r in Group(before.reports, members, before.reports[r].period);
      while todo != {}
        invariant Grouping(before, primary, members, todo, {}, heirs, kept)
        invariant db == Reduced(before, primary, heirs, kept) && UniquePeriods(db.reports)
        invariant forall p :: p in todo ==> Group(before.reports, members, p) != {}
        decreases todo
      {
        var p :| p in todo;
        var group := Group(before.reports, members, p);
        WinnerExists(before.reports, primary, group);
        var winner :| winner in group && IsWinner(before.reports, primary, group, winner);
        GroupingOpens(before, primary, members, todo, heirs, kept, p);
        todo := todo - {p};
        var open := group;
        while open != {winner}
          invariant winner in open && open <= group
          invariant Grouping(before, primary, members, todo, open, heirs, kept)
          invariant db == Reduced(before, primary, heirs, kept) && UniquePeriods(db.reports)
          decreases open
        {
          OtherThan(open, winner);
          var loser :| loser in open && loser != winner;
          GroupingDrops(before, primary, members, todo, open, heirs, kept, loser, winner);
          DropStep(before, primary, heirs, kept, loser, winner);
          db := db.(artifacts := ArtifactsTo(db.artifacts, loser, winner, primary));
          db := db.(issues := IssuesOff(db.issues, loser, primary));
          db := db.(relations := RelationsTo(db.relations, loser, winner));
          db := db.(families := FamiliesWithout(db.families, loser));
          db := db.(reports := ReportsWithout(db.reports, loser),
                    reportRows := ReportRowsWithout(db.reportRows, loser));
          heirs, open := heirs[loser := winner], open - {loser};
          PeriodsStayUnique(before, primary, members, todo, open, heirs, kept);
        }
        GroupingKeeps(before, primary, members, todo, heirs, kept, winner);
        KeepStep(before, primary, heirs, kept, winner);
        db := db.(reports := ReportTo(db.reports, winner, primary));
        db := db.(issues := FailuresResolved(db.issues, winner));
        kept := kept + {winner};
        PeriodsStayUnique(before, primary, members, todo, {}, heirs, kept);
      }
      GroupingEnds(before, primary, members, heirs, kept);
    }

    /** Merges contracts of one public fund into the member with the best representative share. */
    method MergeContractGroup(members: set<ContractId>) returns (r: Result<ContractId, MergeError>)
      requires members <= db.contracts.Keys && Sound(db)
      modifies this
      ensures Sound(db)
      ensures match r
              case Ok(primary) => IsPrimary(old(db), members, primary)
                && (|members| > 1 ==> OneKey(old(db), keyOf, members))
                && db == (if |members| > 1 then Merged(old(db), primary, members) else old(db))
              case Err(NoContracts) => members == {} && db == old(db)
              case Err(DifferentKeys) => |members| > 1 && !OneKey(old(db), keyOf, members) && db == old(db)
    {
      hide Sound, OneKey, IsPrimary, WithMergedReports, Merged, MergedFlags;
      if members == {} {
        return Err(NoContracts);
      }
      if |members| == 1 {
        var c := OnlyMember(db, members);
        return Ok(c);
      }
      var same := HaveOneKey(db, keyOf, members);
      if !same {
        return Err(DifferentKeys);
      }
      ghost var before := db;
      SoundParts(db);
      var primary := ChoosePrimary(db, members);
      PrimaryIsMember(db, members, primary);
      var duplicates := members - {primary};
      var flags := MergedFlags(db, primary, members);
      MergeReports(primary, members);
      db := db.(shares := SharesTo(db.shares, duplicates, primary));
      db := db.(artifacts := ArtifactOwnersTo(db.artifacts, duplicates, primary));
      db := db.(issues := IssueOwnersTo(db.issues, duplicates, primary));
      db := db.(reportRows := ResolutionsTo(db.reportRows, duplicates, primary));
      db := db.(relations := SourcesTo(db.relations, duplicates, primary));
      db := db.(relations := TargetsTo(db.relations, duplicates, primary));
      db := db.(families := FamiliesOutside(db.families, duplicates));
      db := db.(contracts := ContractsWithout(db.contracts, duplicates));
      db := db.(contracts := db.contracts[primary := flags]);
      MergedIs(before, primary, members);
      MergeKeepsSound(before, primary, members);
      r := Ok(primary);
    }

    /** Merges every group of selected contracts that share a key. */
    method ReconcilePublicFundContracts() returns (r: GroupingResult)
      requires Sound(db)
      modifies this
      ensures Sound(db) && DistinctKeys(db, keyOf)
      ensures SelectedKeys(db, keyOf) == SelectedKeys(old(db), keyOf)
      ensures r.contractsBefore == |Selected(old(db))| && r.contractsAfter == |Selected(db)|
      ensures r.groupsMerged == 0 <==> DistinctKeys(old(db), keyOf)
      ensures r.groupsMerged == 0 ==> db == old(db)
    {
      hide Sound, DistinctKeys, Selected, SelectedKeys, Reconciling, Merged, IsPrimary, OneKey, GroupOf;
      ghost var before := db;
      var selected := Selected(db);
      var todo := SelectedKeys(db, keyOf);
      var groups := db;
      var merged := 0;
      ReconcilingStarts(before, keyOf);
      while todo != {}
        invariant Sound(db) && groups == before && todo <= SelectedKeys(before, keyOf)
        invariant Reconciling(before, db, keyOf, todo)
        invariant merged == 0 ==> db == before
        invariant merged == 0 ==>
          forall k :: k in SelectedKeys(before, keyOf) - todo ==> |GroupOf(before, keyOf, k)| < 2
        invariant merged > 0 ==> exists k :: k in SelectedKeys(before, keyOf) && |GroupOf(before, keyOf, k)| >= 2
        decreases todo
      {
        NonEmptyKeys(todo);
        var key :| key in todo;
        var members := GroupOf(groups, keyOf, key);
        ReconcilingGroup(before, db, keyOf, todo, key);
        if |members| >= 2 {
          ghost var now := db;
          var result := MergeContractGroup(members);
          GroupHasOneKey(before, now, keyOf, todo, key);
          PrimaryIsMember(now, members, result.value);
          ReconcilingMerges(before, now, keyOf, todo, key, result.value);
          merged := merged + 1;
        } else {
          ReconcilingSkips(before, db, keyOf, todo, key);
        }
        todo := todo - {key};
      }
      ReconcilingEnds(before, db, keyOf);
      SmallGroups(before, keyOf);
      r := GroupingResult(|selected|, |Selected(db)|, merged);
    }
  }

  function Selected(db: Db): set<ContractId>
  {
    set c | c in db.contracts && db.contracts[c].selected
  }

  function SelectedKeys(db: Db, keyOf: KeyFunction): set<Key>
  {
    set c | c in Selected(db) :: KeyOf(keyOf, db.contracts[c])
  }

  function GroupOf(db: Db, keyOf: KeyFunction, key: Key): set<ContractId>
  {
    set c | c in Selected(db) && KeyOf(keyOf, db.contracts[c]) == key
  }

  /** No two selected contracts are the same public fund. */
  ghost predicate DistinctKeys(db: Db, keyOf: KeyFunction)
  {
    forall c, d ::
      c in Selected(db) && d in Selected(db) && KeyOf(keyOf, db.contracts[c]) == KeyOf(keyOf, db.contracts[d])
      ==> c == d
  }

  /** The same contract, flags aside. */
  predicate SameFund(a: Contract, b: Contract)
  {
    a.manager == b.manager && a.name == b.name && a.wrapper == b.wrapper && a.code == b.code
  }

  ghost predicate SameDoneKey(db: Db, keyOf: KeyFunction, todo: set<Key>, c: ContractId, d: ContractId)
    requires c in db.contracts && d in db.contracts
  {
    && KeyOf(keyOf, db.contracts[c]) == KeyOf(keyOf, db.contracts[d])
    && KeyOf(keyOf, db.contracts[c]) !in todo
  }

  /** Groups of keys still to do are untouched; every other key has exactly one contract left. */
  ghost predicate Reconciling(before: Db, now: Db, keyOf: KeyFunction, todo: set<Key>)
  {
    && (forall c :: c in now.contracts ==> c in before.contracts && SameFund(now.contracts[c], before.contracts[c]))
    && Selected(now) <= Selected(before)
    && (forall c :: c in Selected(before) && KeyOf(keyOf, before.contracts[c]) in todo ==> c in Selected(now))
    && (forall c, d :: c in Selected(now) && d in Selected(now) && SameDoneKey(now, keyOf, todo, c, d) ==> c == d)
    && (forall c :: c in Selected(before) ==> KeyOf(keyOf, before.contracts[c]) in SelectedKeys(now, keyOf))
  }

  ghost predicate OneKey(db: Db, keyOf: KeyFunction, members: set<ContractId>)
    requires members <= db.contracts.Keys
  {
    forall c, d :: c in members && d in members ==> KeyOf(keyOf, db.contracts[c]) == KeyOf(keyOf, db.contracts[d])
  }

  method HaveOneKey(db: Db, keyOf: KeyFunction, members: set<ContractId>) returns (same: bool)
    requires members <= db.contracts.Keys
    ensures same == OneKey(db, keyOf, members)
  {
    var keys := set c | c in members :: KeyOf(keyOf, db.contracts[c]);
    same := forall k, l :: k in keys && l in keys ==> k == l;
    if same {
      assert forall c :: c in members ==> KeyOf(keyOf, db.contracts[c]) in keys;
    }
  }

  method OnlyMember(db: Db, members: set<ContractId>) returns (c: ContractId)
    requires |members| == 1 && members <= db.contracts.Keys
    ensures IsPrimary(db, members, c)
  {
    NonEmpty(members);
    c :| c in members;
    assert |members - {c}| == 0;
    assert forall d :: d in members && d != c ==> d in members - {c};
  }

  lemma SoundParts(db: Db)
    ensures Sound(db) <==> Referential(db) && UniquePeriods(db.reports) && UniqueCodes(db)
  {
  }

  lemma PrimaryIsMember(db: Db, members: set<ContractId>, c: ContractId)
    requires members <= db.contracts.Keys && IsPrimary(db, members, c)
    ensures c in members
  {
  }

  lemma MergedIs(db: Db, primary: ContractId, members: set<ContractId>)
    requires primary in db.contracts && primary in members
    ensures var a, d := WithMergedReports(db, primary, members), members - {primary};
            Merged(db, primary, members)
            == Db(ContractsWithout(a.contracts, d)[primary := MergedFlags(db, primary, members)], a.reports,
                  SharesTo(a.shares, d, primary), ArtifactOwnersTo(a.artifacts, d, primary),
                  IssueOwnersTo(a.issues, d, primary),
                  ResolutionsTo(a.reportRows, d, primary), TargetsTo(SourcesTo(a.relations, d, primary), d, primary),
                  FamiliesOutside(a.families, d))
  {
    hide WithMergedReports, SharesTo, ArtifactOwnersTo, IssueOwnersTo, ResolutionsTo, SourcesTo, TargetsTo,
      FamiliesOutside,
      ContractsWithout, MergedFlags;
  }

  lemma MergeKeepsSound(db: Db, primary: ContractId, members: set<ContractId>)
    requires Sound(db) && primary in db.contracts && primary in members
    ensures Sound(Merged(db, primary, members))
  {
    hide Merged, Referential, UniquePeriods;
    MergeKeepsReferences(db, primary, members);
    MergeKeepsPeriodsUnique(db, primary, members);
    MergeKeepsRows(db, primary, members);
    MergedContracts(db, primary, members);
  }

  lemma WinnerExists(reports: map<ReportId, Report>, primary: ContractId, group: set<ReportId>)
    requires group <= reports.Keys && group != {}
    ensures exists w :: w in group && IsWinner(reports, primary, group, w)
  {
    assert IsWinner(reports, primary, group, Best(reports, primary, group));
  }

  lemma NonEmpty(s: set<int>)
    requires s != {}
    ensures exists x :: x in s
  {
    var x := Pick(s);
  }

  lemma OtherThan(s: set<ReportId>, x: ReportId)
    requires x in s && s != {x}
    ensures exists y :: y in s && y != x
  {
    assert s - {x} != {};
    var y := Pick(s - {x});
  }

  lemma NonEmptyKeys(s: set<Key>)
    requires s != {}
    ensures exists x :: x in s
  {
    var x := Pick(s);
  }

  lemma ReconcilingStarts(before: Db, keyOf: KeyFunction)
    ensures Reconciling(before, before, keyOf, SelectedKeys(before, keyOf))
  {
  }

  /** A group still to do has all its contracts, so the list made at the start is still right. */
  lemma ReconcilingGroup(before: Db, now: Db, keyOf: KeyFunction, todo: set<Key>, key: Key)
    requires Reconciling(before, now, keyOf, todo) && key in todo && key in SelectedKeys(before, keyOf)
    ensures GroupOf(before, keyOf, key) == GroupOf(now, keyOf, key) <= now.contracts.Keys
    ensures GroupOf(before, keyOf, key) != {}
  {
    var a, b := GroupOf(before, keyOf, key), GroupOf(now, keyOf, key);
    forall c ensures c in a <==> c in b {
      if c in a { assert c in Selected(now) && SameFund(now.contracts[c], before.contracts[c]); }
      if c in b { assert c in Selected(before) && SameFund(now.contracts[c], before.contracts[c]); }
    }
    assert a == b;
    var c :| c in Selected(before) && KeyOf(keyOf, before.contracts[c]) == key;
    assert c in a;
  }

  lemma GroupHasOneKey(before: Db, now: Db, keyOf: KeyFunction, todo: set<Key>, key: Key)
    requires Reconciling(before, now, keyOf, todo)
    requires GroupOf(before, keyOf, key) == GroupOf(now, keyOf, key) <= now.contracts.Keys
    ensures OneKey(now, keyOf, GroupOf(before, keyOf, key))
  {
  }

  lemma ReconcilingSkips(before: Db, now: Db, keyOf: KeyFunction, todo: set<Key>, key: Key)
    requires Reconciling(before, now, keyOf, todo) && GroupOf(before, keyOf, key) == GroupOf(now, keyOf, key)
    requires |GroupOf(before, keyOf, key)| < 2
    ensures Reconciling(before, now, keyOf, todo - {key})
  {
    forall c, d | c in Selected(now) && d in Selected(now) && SameDoneKey(now, keyOf, todo - {key}, c, d)
      ensures c == d
    {
      if KeyOf(keyOf, now.contracts[c]) == key {
        SmallSet(GroupOf(now, keyOf, key), c, d);
      } else {
        assert SameDoneKey(now, keyOf, todo, c, d);
      }
    }
  }

  lemma SmallSet(s: set<ContractId>, c: ContractId, d: ContractId)
    requires c in s && d in s && |s| < 2
    ensures c == d
  {
    assert |s - {c}| == 0;
    assert c != d ==> d in s - {c};
  }

  lemma MergedSelection(db: Db, primary: ContractId, members: set<ContractId>)
    requires primary in members && members <= Selected(db)
    ensures var after := Merged(db, primary, members);
            && after.contracts.Keys == db.contracts.Keys - (members - {primary})
            && Selected(after) == Selected(db) - (members - {primary})
            && forall c :: c in after.contracts ==> SameFund(after.contracts[c], db.contracts[c])
  {
    hide Merged;
    MergedContracts(db, primary, members);
  }

  lemma ReconcilingMerges(before: Db, now: Db, keyOf: KeyFunction, todo: set<Key>, key: Key, primary: ContractId)
    requires Reconciling(before, now, keyOf, todo)
    requires GroupOf(before, keyOf, key) == GroupOf(now, keyOf, key) && primary in GroupOf(now, keyOf, key)
    ensures primary in now.contracts
    ensures Reconciling(before, Merged(now, primary, GroupOf(now, keyOf, key)), keyOf, todo - {key})
  {
    hide Merged;
    var members := GroupOf(now, keyOf, key);
    var after := Merged(now, primary, members);
    MergedSelection(now, primary, members);
    forall c, d | c in Selected(after) && d in Selected(after) && SameDoneKey(after, keyOf, todo - {key}, c, d)
      ensures c == d
    {
      if KeyOf(keyOf, after.contracts[c]) == key {
        assert c in members && d in members;
      } else {
        assert SameDoneKey(now, keyOf, todo, c, d);
      }
    }
    KeysSurvive(before, now, after, keyOf, key, primary);
  }

  lemma KeysSurvive(before: Db, now: Db, after: Db, keyOf: KeyFunction, key: Key, primary: ContractId)
    requires primary in GroupOf(now, keyOf, key)
    requires Selected(after) == Selected(now) - (GroupOf(now, keyOf, key) - {primary})
    requires forall c :: c in after.contracts ==> c in now.contracts && SameFund(after.contracts[c], now.contracts[c])
    requires forall c :: c in Selected(before) ==> KeyOf(keyOf, before.contracts[c]) in SelectedKeys(now, keyOf)
    ensures forall c :: c in Selected(before) ==> KeyOf(keyOf, before.contracts[c]) in SelectedKeys(after, keyOf)
  {
    forall c | c in Selected(before) ensures KeyOf(keyOf, before.contracts[c]) in SelectedKeys(after, keyOf) {
      var k := KeyOf(keyOf, before.contracts[c]);
      var d :| d in Selected(now) && KeyOf(keyOf, now.contracts[d]) == k;
      var e := if d in GroupOf(now, keyOf, key) then primary else d;
      assert e in Selected(after) && KeyOf(keyOf, after.contracts[e]) == k;
    }
  }

  lemma ReconcilingEnds(before: Db, now: Db, keyOf: KeyFunction)
    requires Reconciling(before, now, keyOf, {})
    ensures DistinctKeys(now, keyOf) && SelectedKeys(now, keyOf) == SelectedKeys(before, keyOf)
  {
    forall c, d | c in Selected(now) && d in Selected(now)
                    && KeyOf(keyOf, now.contracts[c]) == KeyOf(keyOf, now.contracts[d])
      ensures c == d
    {
      assert SameDoneKey(now, keyOf, {}, c, d);
    }
    forall k | k in SelectedKeys(now, keyOf) ensures k in SelectedKeys(before, keyOf) {
      var c :| c in Selected(now) && KeyOf(keyOf, now.contracts[c]) == k;
      assert c in Selected(before) && SameFund(now.contracts[c], before.contracts[c]);
    }
  }

  lemma SmallGroups(db: Db, keyOf: KeyFunction)
    ensures DistinctKeys(db, keyOf) <==> forall k :: k in SelectedKeys(db, keyOf) ==> |GroupOf(db, keyOf, k)| < 2
  {
    if DistinctKeys(db, keyOf) {
      forall k | k in SelectedKeys(db, keyOf) ensures |GroupOf(db, keyOf, k)| < 2 {
        var c :| c in Selected(db) && KeyOf(keyOf, db.contracts[c]) == k;
        forall d | d in GroupOf(db, keyOf, k) ensures d == c {
        }
        assert GroupOf(db, keyOf, k) == {c};
      }
    } else {
      var c, d :| c in Selected(db) && d in Selected(db)
        && KeyOf(keyOf, db.contracts[c]) == KeyOf(keyOf, db.contracts[d]) && c != d;
      var k := KeyOf(keyOf, db.contracts[c]);
      if |GroupOf(db, keyOf, k)| < 2 { SmallSet(GroupOf(db, keyOf, k), c, d); }
    }
  }

  /** A second reconciliation merges nothing and changes nothing. */
  method ReconcileTwice(catalog: Catalog) returns (first: GroupingResult, second: GroupingResult)
    requires Sound(catalog.db)
    modifies catalog
    ensures second.groupsMerged == 0 && second.contractsBefore == second.contractsAfter == first.contractsAfter
  {
    first := catalog.ReconcilePublicFundContracts();
    second := catalog.ReconcilePublicFundContracts();
  }
}
