/** The recurring-order ledger as a value: one entry per position and order date.

    The imperative tables of RecurringLedger are proved to move exactly as these functions
    say; the properties of whole runs are then proved here and in LedgerProperties. */
module LedgerModel {
  import opened Sums
  import opened Decimals
  import opened Calendar

  type PositionId = int
  type ShareCode = string
  type FundCode = string
  type Key = (PositionId, Date)

  datatype Amounts = Amounts(gross: real, fee: real, net: real)

  datatype Plan = Plan(amounts: Amounts, lag: int)

  datatype Share = Share(fund: FundCode, currency: string)

  datatype Snapshot = Snapshot(
    date: Date, units: real, market: real, profit: real, returnPct: real, cumulative: Option<real>,
    anchorDate: Date, anchorNav: Price)

  datatype Position = Position(
    platform: string, share: ShareCode, snapshot: Snapshot, plan: Option<Plan>, active: bool)

  datatype Nav = Nav(unit: Price, provider: string)

  type Navs = map<(ShareCode, Date), Nav>

  datatype Entry =
    | Waiting(amounts: Amounts, expected: Date)
    | Settled(amounts: Amounts, expected: Date, nav: Nav, units: real)

  type View = map<Key, Entry>

  /** What an order is joined with: positions, and the fund each share belongs to. */
  datatype Context = Context(positions: map<PositionId, Position>, shares: map<ShareCode, Share>)

  predicate InFunds(ctx: Context, pid: PositionId, codes: set<FundCode>)
  {
    && pid in ctx.positions
    && ctx.positions[pid].share in ctx.shares
    && ctx.shares[ctx.positions[pid].share].fund in codes
  }

  predicate IsActive(ctx: Context, pid: PositionId)
  {
    pid in ctx.positions && ctx.positions[pid].active
  }

  predicate Planned(ctx: Context, pid: PositionId, codes: set<FundCode>)
  {
    InFunds(ctx, pid, codes) && ctx.positions[pid].active && ctx.positions[pid].plan.Some?
  }

  function PlannedPositions(ctx: Context, codes: set<FundCode>): set<PositionId>
  {
    set pid | pid in ctx.positions && Planned(ctx, pid, codes)
  }

  predicate HasNav(ctx: Context, navs: Navs, key: Key)
  {
    key.0 in ctx.positions && (ctx.positions[key.0].share, key.1) in navs
  }

  function NavFor(ctx: Context, navs: Navs, key: Key): Nav
    requires HasNav(ctx, navs, key)
  {
    navs[(ctx.positions[key.0].share, key.1)]
  }

  function UnitsFor(net: real, nav: Nav): real
  {
    Quantize(net / nav.unit, QUANTITY_SCALE)
  }

  // ---------- the three ways the ledger moves ----------

  ghost function NewEntry(ctx: Context, key: Key): Entry
    requires key.0 in ctx.positions && ctx.positions[key.0].plan.Some?
  {
    var plan := ctx.positions[key.0].plan.value;
    Waiting(plan.amounts, WeekdaysAfter(key.1, plan.lag))
  }

  ghost predicate HavePlans(ctx: Context, pids: set<PositionId>)
  {
    forall pid :: pid in pids ==> pid in ctx.positions && ctx.positions[pid].plan.Some?
  }

  /** Orders of `date` added for those of the given positions that have none. */
  ghost function WithOrders(v: View, ctx: Context, pids: set<PositionId>, date: Date): View
    requires HavePlans(ctx, pids)
  {
    map key | key in v.Keys + KeysOn(pids, date) :: if key in v then v[key] else NewEntry(ctx, key)
  }

  ghost function KeysOn(pids: set<PositionId>, date: Date): set<Key>
  {
    set pid | pid in pids :: (pid, date)
  }

  ghost function CreateOrders(v: View, ctx: Context, codes: set<FundCode>, date: Date): View
  {
    if IsWeekday(date) then WithOrders(v, ctx, PlannedPositions(ctx, codes), date) else v
  }

  ghost predicate IsRipe(v: View, ctx: Context, navs: Navs, codes: set<FundCode>, key: Key)
  {
    && key in v && v[key].Waiting?
    && InFunds(ctx, key.0, codes) && IsActive(ctx, key.0)
    && HasNav(ctx, navs, key)
  }

  ghost function Ripe(v: View, ctx: Context, navs: Navs, codes: set<FundCode>): set<Key>
  {
    set key | key in v && IsRipe(v, ctx, navs, codes, key)
  }

  ghost function SettleEntry(ctx: Context, navs: Navs, key: Key, e: Entry): Entry
    requires HasNav(ctx, navs, key)
  {
    var nav := NavFor(ctx, navs, key);
    Settled(e.amounts, e.expected, nav, UnitsFor(e.amounts.net, nav))
  }

  ghost predicate NavsKnown(ctx: Context, navs: Navs, keys: set<Key>)
  {
    forall key :: key in keys ==> HasNav(ctx, navs, key)
  }

  ghost function SettleKeys(v: View, ctx: Context, navs: Navs, keys: set<Key>): View
    requires NavsKnown(ctx, navs, keys)
  {
    map key | key in v :: if key in keys then SettleEntry(ctx, navs, key, v[key]) else v[key]
  }

  ghost function Settle(v: View, ctx: Context, navs: Navs, codes: set<FundCode>): View
  {
    SettleKeys(v, ctx, navs, Ripe(v, ctx, navs, codes))
  }

  /** A ripe order too small for one step of units: its execution violates `units > 0`. */
  ghost predicate Vanishes(v: View, ctx: Context, navs: Navs, codes: set<FundCode>, key: Key)
  {
    IsRipe(v, ctx, navs, codes, key) && UnitsFor(v[key].amounts.net, NavFor(ctx, navs, key)) <= 0.0
  }

  /** One such order aborts the whole settlement, which is one transaction. */
  ghost predicate Aborts(v: View, ctx: Context, navs: Navs, codes: set<FundCode>)
  {
    exists key :: Vanishes(v, ctx, navs, codes, key)
  }

  ghost function SettleOrAbort(v: View, ctx: Context, navs: Navs, codes: set<FundCode>): View
  {
    if Aborts(v, ctx, navs, codes) then v else Settle(v, ctx, navs, codes)
  }

  /** Units vanish exactly for a net amount below half a step of units at the NAV. */
  lemma UnitsVanishIff(net: real, nav: Nav)
    ensures UnitsFor(net, nav) <= 0.0 <==> net < nav.unit * 0.000000005
  {
    hide RoundHalfUp, FromSteps;
    var x := Steps(net / nav.unit, QUANTITY_SCALE);
    RoundsToNothingIff(x);
    FromStepsSign(RoundHalfUp(x) as real);
    assert net / nav.unit * nav.unit == net;
    BelowHalfStep(net / nav.unit, nav.unit);
  }

  lemma RoundsToNothingIff(x: real)
    ensures RoundHalfUp(x) <= 0 <==> x < 0.5
  {
  }

  lemma FromStepsSign(n: real)
    ensures FromSteps(n, QUANTITY_SCALE) <= 0.0 <==> n <= 0.0
  {
  }

  lemma BelowHalfStep(q: real, u: Price)
    ensures Steps(q, QUANTITY_SCALE) < 0.5 <==> q * u < u * 0.000000005
  {
    var gap := 0.000000005 - q;
    assert u * 0.000000005 - q * u == gap * u;
    if gap > 0.0 { assert gap * u > 0.0; } else { assert gap * u <= 0.0; }
  }

  ghost function Forget(v: View, pid: PositionId): View
  {
    map key | key in v && key.0 != pid :: v[key]
  }

  // ---------- is there anything to do? ----------

  /** The check made before skipping a repeated daily run. Unlike settling, it does not ask
      whether the position of a waiting order is still active. */
  ghost predicate Pending(v: View, ctx: Context, navs: Navs, codes: set<FundCode>, date: Date)
  {
    || (IsWeekday(date) && exists pid :: Planned(ctx, pid, codes) && (pid, date) !in v)
    || exists key :: key in v && v[key].Waiting? && InFunds(ctx, key.0, codes) && HasNav(ctx, navs, key)
  }
}
