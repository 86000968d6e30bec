// Rows of the billing tables, plan definitions, and the figures of a monthly
// snapshot, after billing-service.js. Money is held in integer cents; unit
// prices are in micro-euros so that the rounding of money() stays visible.
module Billing {
  import opened Wrappers
  import opened Tables

  type TenantId = nat
  type ScanId = nat
  type Month = nat
  type Key = string
  type Fingerprint = string

  const MICROS_PER_CENT := 10000
  const DEFAULT_ACTIVE_LIMIT := 3

  datatype PlanCode = Free | Standard | Business | Payg | Unsupported(code: string)

  datatype Config = Config(freeQuota: nat, standardQuota: nat, businessQuota: nat,
                           paygUnitMicros: nat, activeLimits: map<PlanCode, nat>)

  datatype Plan = Plan(quotaLimit: Option<nat>, payg: bool, unitMicros: nat)

  /** None is the UNSUPPORTED_PLAN error. */
  function PlanDefinition(c: Config, code: PlanCode): Option<Plan> {
    match code
    case Free => Some(Plan(Some(c.freeQuota), false, 0))
    case Standard => Some(Plan(Some(c.standardQuota), false, 0))
    case Business => Some(Plan(Some(c.businessQuota), false, 0))
    case Payg => Some(Plan(None, true, c.paygUnitMicros))
    case Unsupported(_) => None
  }

  function ActiveScanLimit(c: Config, code: PlanCode): nat {
    if code in c.activeLimits then c.activeLimits[code]
    else if Standard in c.activeLimits then c.activeLimits[Standard]
    else DEFAULT_ACTIVE_LIMIT
  }

  /** True when scans of this plan are charged per unit and never counted against a quota. */
  predicate Unmetered(plan: Plan) {
    plan.quotaLimit == None || (plan.payg && plan.quotaLimit == Some(0))
  }

  /** money(): two decimals, ties rounded up. */
  function Cents(micros: nat): nat {
    (micros + MICROS_PER_CENT / 2) / MICROS_PER_CENT
  }

  /** To the nearest cent: within half a cent, and exact for whole cents. */
  lemma CentsRounds(micros: nat)
    ensures 2 * Cents(micros) * MICROS_PER_CENT <= 2 * micros + MICROS_PER_CENT
    ensures 2 * micros < 2 * Cents(micros) * MICROS_PER_CENT + MICROS_PER_CENT
    ensures micros % 10000 == 0 ==> Cents(micros) == micros / 10000
  {
  }

  // ---------------------------------------------------------------- rows

  datatype Tenant = Tenant(plan: PlanCode, active: bool)

  datatype Status = Pending | InProgress | Done | Failed

  datatype BillingState = Reserved | Consumed | Refunded

  // fingerprint is what buildStoredRequestFingerprint computes from the row's request columns
  datatype ScanRow = ScanRow(tenant: TenantId, month: Month, units: nat, included: bool,
                             status: Status, billing: BillingState, fingerprint: Fingerprint)

  datatype EventType = ScanReserved | ScanConsumed | ScanRefunded | ScanBlockedQuota | Adjustment | Credit

  datatype LedgerRow = LedgerRow(tenant: TenantId, scan: Option<ScanId>, event: EventType,
                                 month: Month, units: nat, cents: int)

  // ---------------------------------------------------------------- usage

  predicate Counted(status: Status) { status != Failed }

  predicate Active(status: Status) { status == Pending || status == InProgress }

  /** included_units of getUsageCounts, one row. */
  function IncludedUnits(t: TenantId, month: Month): ScanRow -> int {
    (r: ScanRow) => if r.tenant == t && r.month == month && r.included && Counted(r.status) then r.units else 0
  }

  /** payg_units of getUsageCounts, one row. */
  function PaygUnits(t: TenantId, month: Month): ScanRow -> int {
    (r: ScanRow) => if r.tenant == t && r.month == month && !r.included && Counted(r.status) then r.units else 0
  }

  function ActiveScan(t: TenantId): ScanRow -> int {
    (r: ScanRow) => if r.tenant == t && Active(r.status) then 1 else 0
  }

  ghost function Usage(scans: map<ScanId, ScanRow>, t: TenantId, month: Month): int {
    Total(scans, IncludedUnits(t, month))
  }

  ghost function ActiveCount(scans: map<ScanId, ScanRow>, t: TenantId): int {
    Total(scans, ActiveScan(t))
  }

  // ---------------------------------------------------------------- ledger

  /** Ledger rows of one kind that name a scan. */
  function CountEvents(ledger: seq<LedgerRow>, scan: ScanId, event: EventType): nat {
    if ledger == [] then 0
    else
      var last := ledger[|ledger| - 1];
      CountEvents(ledger[..|ledger| - 1], scan, event)
      + if last.scan == Some(scan) && last.event == event then 1 else 0
  }

  /** ON DELETE SET NULL of the ledger's scan_id. */
  function NullScans(ledger: seq<LedgerRow>, gone: set<ScanId>): (r: seq<LedgerRow>)
    ensures |r| == |ledger|
    ensures forall i :: 0 <= i < |r| ==>
      r[i] == if ledger[i].scan.Some? && ledger[i].scan.value in gone
              then ledger[i].(scan := None) else ledger[i]
  {
    if ledger == [] then []
    else
      var last := ledger[|ledger| - 1];
      NullScans(ledger[..|ledger| - 1], gone)
      + [if last.scan.Some? && last.scan.value in gone then last.(scan := None) else last]
  }

  lemma {:induction false} NullKeepsOtherCounts(ledger: seq<LedgerRow>, gone: set<ScanId>, scan: ScanId,
                                                event: EventType)
    requires scan !in gone
    ensures CountEvents(NullScans(ledger, gone), scan, event) == CountEvents(ledger, scan, event)
  {
    if ledger != [] {
      NullKeepsOtherCounts(ledger[..|ledger| - 1], gone, scan, event);
      var r := NullScans(ledger, gone);
      assert r[..|r| - 1] == NullScans(ledger[..|ledger| - 1], gone);
    }
  }

  lemma {:induction false} CountZero(ledger: seq<LedgerRow>, scan: ScanId, event: EventType)
    ensures CountEvents(ledger, scan, event) == 0 <==>
            forall i :: 0 <= i < |ledger| ==> !(ledger[i].scan == Some(scan) && ledger[i].event == event)
  {
    if ledger != [] {
      CountZero(ledger[..|ledger| - 1], scan, event);
    }
  }

  lemma CountAppend(ledger: seq<LedgerRow>, row: LedgerRow, scan: ScanId, event: EventType)
    ensures CountEvents(ledger + [row], scan, event)
         == CountEvents(ledger, scan, event) + if row.scan == Some(scan) && row.event == event then 1 else 0
  {
    assert (ledger + [row])[..|ledger|] == ledger;
  }

  // ---------------------------------------------------------------- snapshots

  datatype Figures = Figures(includedUnits: int, paygUnits: int, paygCents: int,
                             adjustmentCents: int, creditCents: int, reservedUnits: int)
  {
    function Plus(o: Figures): Figures {
      Figures(includedUnits + o.includedUnits, paygUnits + o.paygUnits, paygCents + o.paygCents,
              adjustmentCents + o.adjustmentCents, creditCents + o.creditCents, reservedUnits + o.reservedUnits)
    }

    /** total_amount_eur_ht */
    function Total(): int { paygCents + adjustmentCents + creditCents }
  }

  const NOTHING := Figures(0, 0, 0, 0, 0, 0)

  datatype Snapshot = Snapshot(figures: Figures, closed: bool)

  /** One ledger row seen through the six SUMs of upsertSnapshot. */
  function RowFigures(r: LedgerRow): Figures {
    match r.event
    case ScanConsumed =>
      if r.cents == 0 then NOTHING.(includedUnits := r.units)
      else if r.cents > 0 then NOTHING.(paygUnits := r.units, paygCents := r.cents)
      else NOTHING
    case Adjustment => NOTHING.(adjustmentCents := r.cents)
    case Credit => NOTHING.(creditCents := r.cents)
    case ScanRefunded => NOTHING.(creditCents := r.cents)
    case ScanReserved => NOTHING.(reservedUnits := r.units)
    case ScanBlockedQuota => NOTHING
  }

  /** SELECT SUM(f(row)) over the rows of one tenant-month. */
  function SumRows(ledger: seq<LedgerRow>, t: TenantId, month: Month, f: LedgerRow -> int): int {
    if ledger == [] then 0
    else
      var last := ledger[|ledger| - 1];
      SumRows(ledger[..|ledger| - 1], t, month, f) + if last.tenant == t && last.month == month then f(last) else 0
  }

  /** The six columns, each over the rows it is about. */
  function Columns(ledger: seq<LedgerRow>, t: TenantId, month: Month): Figures {
    Figures(
      SumRows(ledger, t, month, (r: LedgerRow) => if r.event == ScanConsumed && r.cents == 0 then r.units else 0),
      SumRows(ledger, t, month, (r: LedgerRow) => if r.event == ScanConsumed && r.cents > 0 then r.units else 0),
      SumRows(ledger, t, month, (r: LedgerRow) => if r.event == ScanConsumed && r.cents > 0 then r.cents else 0),
      SumRows(ledger, t, month, (r: LedgerRow) => if r.event == Adjustment then r.cents else 0),
      SumRows(ledger, t, month, (r: LedgerRow) => if r.event == Credit || r.event == ScanRefunded then r.cents else 0),
      SumRows(ledger, t, month, (r: LedgerRow) => if r.event == ScanReserved then r.units else 0))
  }

  /** The aggregate query of upsertSnapshot, in one pass over the rows. */
  function FoldLedger(ledger: seq<LedgerRow>, t: TenantId, month: Month): Figures {
    if ledger == [] then NOTHING
    else
      var last := ledger[|ledger| - 1];
      var before := FoldLedger(ledger[..|ledger| - 1], t, month);
      if last.tenant == t && last.month == month then before.Plus(RowFigures(last)) else before
  }

  lemma FoldAppend(ledger: seq<LedgerRow>, row: LedgerRow, t: TenantId, month: Month)
    ensures FoldLedger(ledger + [row], t, month)
         == if row.tenant == t && row.month == month then FoldLedger(ledger, t, month).Plus(RowFigures(row))
            else FoldLedger(ledger, t, month)
  {
    assert (ledger + [row])[..|ledger|] == ledger;
  }

  /** One pass sums every column. */
  lemma {:induction false} FoldIsColumns(ledger: seq<LedgerRow>, t: TenantId, month: Month)
    ensures FoldLedger(ledger, t, month) == Columns(ledger, t, month)
  {
    if ledger != [] {
      FoldIsColumns(ledger[..|ledger| - 1], t, month);
    }
  }

  /** Deleting scans only nulls scan_id, so no figure moves. */
  lemma {:induction false} DeletingScansKeepsFigures(ledger: seq<LedgerRow>, gone: set<ScanId>, t: TenantId,
                                                     month: Month)
    ensures FoldLedger(NullScans(ledger, gone), t, month) == FoldLedger(ledger, t, month)
  {
    if ledger != [] {
      var front, last := ledger[..|ledger| - 1], ledger[|ledger| - 1];
      DeletingScansKeepsFigures(front, gone, t, month);
      var nulled := if last.scan.Some? && last.scan.value in gone then last.(scan := None) else last;
      FoldAppend(NullScans(front, gone), nulled, t, month);
    }
  }

  /** Money that moved in a tenant-month: every row except reservations and refusals, each once. */
  function Settled(ledger: seq<LedgerRow>, t: TenantId, month: Month): int {
    if ledger == [] then 0
    else
      var last := ledger[|ledger| - 1];
      Settled(ledger[..|ledger| - 1], t, month)
      + if last.tenant == t && last.month == month && last.event != ScanReserved && last.event != ScanBlockedQuota
        then last.cents else 0
  }

  predicate NonnegativeCharges(ledger: seq<LedgerRow>) {
    forall i :: 0 <= i < |ledger| && ledger[i].event == ScanConsumed ==> 0 <= ledger[i].cents
  }

  /** The snapshot total loses no row and counts none twice. */
  lemma {:induction false} TotalIsSettledMoney(ledger: seq<LedgerRow>, t: TenantId, month: Month)
    requires NonnegativeCharges(ledger)
    ensures FoldLedger(ledger, t, month).Total() == Settled(ledger, t, month)
  {
    if ledger != [] {
      var front := ledger[..|ledger| - 1];
      assert forall i :: 0 <= i < |front| ==> front[i] == ledger[i];
      TotalIsSettledMoney(front, t, month);
    }
  }
}
