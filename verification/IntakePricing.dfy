// What is charged is what was reserved, as long as the backfill, which reads its own
// environment, goes by the same unit price as the API. Plans are fixed along a run.
module IntakePricing {
  import opened Wrappers
  import opened Billing
  import opened Intake
  import opened IntakeQuota
  import opened IntakeLedger

  /** The price of units for a tenant: nothing inside a quota, otherwise its plan's unit price. */
  function Charge(c: Config, db: Db, t: TenantId, units: nat, included: bool): int {
    if included || t !in db.tenants || PlanDefinition(c, db.tenants[t].plan).None? then 0
    else Cents(units * PlanDefinition(c, db.tenants[t].plan).value.unitMicros)
  }

  predicate CreatorPriced(c: Config, db: Db, cr: Creator) {
    match cr
    case PlanRead(job, _, _, plan) => KnowsPlan(c, db, job, plan)
    case Unpressured(job, _, plan) => KnowsPlan(c, db, job, plan)
    case Admitted(job, _, included, cents) => cents == Charge(c, db, job.req.tenant, job.units, included)
    case Writing(d, _, _) => d.cents == Charge(c, db, d.job.req.tenant, d.job.units, d.included)
    case _ => true
  }

  /** With agreed prices, every row of a scan carries the price the API reserved for it. */
  predicate RowPriced(c: Config, db: Db, row: LedgerRow, scan: ScanRow, agreed: bool) {
    var charge := Charge(c, db, scan.tenant, scan.units, scan.included);
    && row.month == scan.month && row.units == scan.units
    && (row.event == ScanReserved ==> row.cents == charge)
    && (agreed && row.event == ScanConsumed ==> row.cents == charge)
    && (agreed && row.event == ScanRefunded ==> row.cents == 0 || row.cents == -charge)
  }

  /** Every ledger row that names an existing scan carries its month, its units and its price. */
  predicate LedgerPriced(c: Config, db: Db, agreed: bool) {
    forall i :: 0 <= i < |db.ledger| && db.ledger[i].scan.Some? && db.ledger[i].scan.value in db.scans ==>
      RowPriced(c, db, db.ledger[i], db.scans[db.ledger[i].scan.value], agreed)
  }

  predicate CandidatePriced(db: Db, cand: Candidate) {
    cand.row.tenant in db.tenants && db.tenants[cand.row.tenant].plan == cand.plan
  }

  /** What the script makes of a candidate, by the prices of its own environment. */
  function OwnCharge(db: Db, prices: Config, cand: Candidate): int {
    var charge := Charge(prices, db, cand.row.tenant, cand.row.units, cand.row.included);
    if cand.row.status == Done then charge else -charge
  }

  predicate BackfillPriced(c: Config, db: Db, b: Backfill, agreed: bool) {
    && (forall cand :: cand in b.todo ==> CandidatePriced(db, cand))
    && (b.Holding? ==> CandidatePriced(db, b.cand) && b.cents == OwnCharge(db, b.prices, b.cand))
    && (agreed ==> b.prices.paygUnitMicros == c.paygUnitMicros)
  }

  ghost predicate PriceInv(c: Config, s: State, agreed: bool) {
    && LedgerInv(s)
    && LedgerPriced(c, s.db, agreed)
    && (forall p :: p in s.creators ==> CreatorPriced(c, s.db, s.creators[p]))
    && (forall b :: b in s.backfills ==> BackfillPriced(c, s.db, s.backfills[b], agreed))
  }

  /** The unit price is all a charge takes from a configuration. */
  lemma OneUnitPrice(c: Config, prices: Config, db: Db, t: TenantId, units: nat, included: bool)
    requires prices.paygUnitMicros == c.paygUnitMicros
    ensures Charge(prices, db, t, units, included) == Charge(c, db, t, units, included)
  {
  }

  /** The event brings no other unit price with it. */
  predicate KeepsPrice(c: Config, e: Event) {
    e.FindCandidates? ==> e.prices.paygUnitMicros == c.paygUnitMicros
  }

  predicate SamePlans(db: Db, db': Db) {
    db'.tenants.Keys == db.tenants.Keys && forall t :: t in db.tenants ==> db'.tenants[t].plan == db.tenants[t].plan
  }

  lemma PlansNeverChange(s: State, e: Event)
    requires Enabled(s, e)
    ensures SamePlans(s.db, DbAfter(s, e))
  {
  }

  lemma {:induction false} ReservationIsListed(ledger: seq<LedgerRow>, id: ScanId)
    requires LastReserved(ledger, id).Some?
    ensures var r := LastReserved(ledger, id).value;
      r.scan == Some(id) && r.event == ScanReserved && exists i :: 0 <= i < |ledger| && ledger[i] == r
  {
    var last := ledger[|ledger| - 1];
    if !(last.scan == Some(id) && last.event == ScanReserved) {
      ReservationIsListed(ledger[..|ledger| - 1], id);
      var i :| 0 <= i < |ledger| - 1 && ledger[..|ledger| - 1][i] == LastReserved(ledger, id).value;
      assert ledger[i] == LastReserved(ledger, id).value;
    }
  }

  lemma StatementIsPriced(c: Config, db: Db, now: Month, cr: Creator)
    requires CreatorPriced(c, db, cr)
    ensures CreatorPriced(c, db, Statement(c, db, now, cr))
  {
  }

  lemma CreatorStaysPriced(c: Config, s: State, e: Event, p: Pid)
    requires Enabled(s, e) && p in Next(c, s, e).creators
    requires p in s.creators ==> CreatorPriced(c, s.db, s.creators[p])
    ensures CreatorPriced(c, s.db, Next(c, s, e).creators[p])
  {
    CreatorMoves(c, s, e, p);
    if e == Proceed(p) {
      StatementIsPriced(c, s.db, s.now, s.creators[p]);
    }
  }

  lemma TakenIsPriced(c: Config, db: Db, b: Backfill, agreed: bool)
    requires b.Waiting? && b.todo != [] && BackfillPriced(c, db, b, agreed)
    requires !Active(b.todo[0].row.status)
    ensures BackfillPriced(c, db, TakeCandidate(db, b), agreed)
  {
    assert CandidatePriced(db, b.todo[0]);
  }

  lemma BackfillMoves(c: Config, s: State, e: Event, b: Pid)
    requires Enabled(s, e) && b in Next(c, s, e).backfills
    ensures var h' := Next(c, s, e).backfills[b];
      || (e == Take(b) && h' == TakeCandidate(s.db, s.backfills[b]))
      || (e.FindCandidates? && e.p == b && h' == Waiting(e.prices, e.todo))
      || (b in s.backfills && h'.todo == s.backfills[b].todo && h'.prices == s.backfills[b].prices
          && (h'.Holding? ==>
            s.backfills[b].Holding? && h'.cand == s.backfills[b].cand && h'.cents == s.backfills[b].cents))
  {
  }

  lemma BackfillStaysPriced(c: Config, s: State, e: Event, b: Pid, agreed: bool)
    requires PriceInv(c, s, agreed) && Enabled(s, e) && b in Next(c, s, e).backfills && (agreed ==> KeepsPrice(c, e))
    ensures BackfillPriced(c, s.db, Next(c, s, e).backfills[b], agreed)
  {
    BackfillMoves(c, s, e, b);
    if b in s.backfills {
      assert BackfillPriced(c, s.db, s.backfills[b], agreed) && BackfillGood(s, s.backfills[b]);
      if e == Take(b) {
        assert CandidateKnown(s, s.backfills[b].todo[0]);
        TakenIsPriced(c, s.db, s.backfills[b], agreed);
      }
    }
  }

  /** A settlement row has the price of its candidate, whose columns are those of the scan. */
  lemma SettlementIsPriced(c: Config, db: Db, b: Backfill, scan: ScanRow, agreed: bool)
    requires b.Holding? && BackfillPriced(c, db, b, agreed) && SameOrigin(scan, b.cand.row)
      && !Active(b.cand.row.status)
    ensures RowPriced(c, db, SettlementRow(b.cand, b.cents), scan, agreed)
  {
    if agreed {
      OneUnitPrice(c, b.prices, db, scan.tenant, scan.units, scan.included);
    }
  }

  lemma EntryIsPriced(c: Config, s: State, e: Event, agreed: bool)
    requires PriceInv(c, s, agreed) && Enabled(s, e) && Entry(s, e).Some?
    ensures var row := Entry(s, e).value;
      row.scan.Some?
      && (!Publishes(e) ==> row.scan.value in s.db.scans && RowPriced(c, s.db, row, s.db.scans[row.scan.value], agreed))
      && (Publishes(e) ==> RowPriced(c, s.db, row, ScanRowOf(s.creators[e.p].draft), agreed))
  {
    EntryIsAboutAKnownScan(s, e);
    if e.CommitSettlement? {
      var b := s.backfills[e.p];
      assert BackfillPriced(c, s.db, b, agreed) && BackfillGood(s, b);
      SettlementIsPriced(c, s.db, b, s.db.scans[b.cand.scan], agreed);
    } else if e.WorkerFinish? {
      ReservationIsListed(s.db.ledger, e.scan);
    } else {
      assert CreatorPriced(c, s.db, s.creators[e.p]);
    }
  }

  /** The price of a row depends on columns and plans that never change. */
  lemma PriceStands(c: Config, db: Db, db': Db, row: LedgerRow, scan: ScanRow, scan': ScanRow, agreed: bool)
    requires RowPriced(c, db, row, scan, agreed) && SamePlans(db, db') && SameOrigin(scan', scan)
    ensures RowPriced(c, db', row, scan', agreed)
  {
  }

  lemma RetainedRowIsOld(db: Db, gone: set<ScanId>, i: nat)
    requires i < |DeleteScans(db, gone).ledger| && DeleteScans(db, gone).ledger[i].scan.Some?
    ensures i < |db.ledger| && db.ledger[i] == DeleteScans(db, gone).ledger[i]
  {
    assert DeleteScans(db, gone).ledger == NullScans(db.ledger, gone);
  }

  /** A row that names a scan is a row from before, about a scan from before, or the new entry. */
  lemma RowIsOldOrEntry(c: Config, s: State, e: Event, i: nat)
    requires Enabled(s, e) && i < |Next(c, s, e).db.ledger| && Next(c, s, e).db.ledger[i].scan.Some?
    requires Next(c, s, e).db.ledger[i].scan.value in Next(c, s, e).db.scans
    requires Publishes(e) ==> Unmentioned(s.db.ledger, s.creators[e.p].draft.scan)
    ensures var row := Next(c, s, e).db.ledger[i];
      Entry(s, e) == Some(row) || (i < |s.db.ledger| && s.db.ledger[i] == row && row.scan.value in s.db.scans)
  {
    ScansAppearByCommit(s, e);
    if e.Retain? {
      RetainedRowIsOld(s.db, e.gone, i);
    } else {
      LedgerGrowsByEntry(s, e);
    }
  }

  lemma OldRowStaysPriced(c: Config, s: State, e: Event, i: nat, agreed: bool)
    requires PriceInv(c, s, agreed) && Enabled(s, e) && i < |s.db.ledger|
    requires var row := s.db.ledger[i];
      row.scan.Some? && row.scan.value in s.db.scans && row.scan.value in DbAfter(s, e).scans
    ensures RowPriced(c, DbAfter(s, e), s.db.ledger[i], DbAfter(s, e).scans[s.db.ledger[i].scan.value], agreed)
  {
    var row := s.db.ledger[i];
    PlansNeverChange(s, e);
    OriginsNeverChange(s, e, row.scan.value);
    PriceStands(c, s.db, DbAfter(s, e), row, s.db.scans[row.scan.value], DbAfter(s, e).scans[row.scan.value], agreed);
  }

  lemma EntryStaysPriced(c: Config, s: State, e: Event, agreed: bool)
    requires PriceInv(c, s, agreed) && Enabled(s, e) && Entry(s, e).Some?
    requires Entry(s, e).value.scan.Some? && Entry(s, e).value.scan.value in DbAfter(s, e).scans
    ensures var row := Entry(s, e).value; RowPriced(c, DbAfter(s, e), row, DbAfter(s, e).scans[row.scan.value], agreed)
  {
    var row, db' := Entry(s, e).value, DbAfter(s, e);
    EntryIsAboutAKnownScan(s, e);
    EntryIsPriced(c, s, e, agreed);
    PlansNeverChange(s, e);
    if Publishes(e) {
      var scan := ScanRowOf(s.creators[e.p].draft);
      PriceStands(c, s.db, db', row, scan, db'.scans[row.scan.value], agreed);
    } else {
      OriginsNeverChange(s, e, row.scan.value);
      PriceStands(c, s.db, db', row, s.db.scans[row.scan.value], db'.scans[row.scan.value], agreed);
    }
  }

  lemma RowsStayPriced(c: Config, s: State, e: Event, agreed: bool)
    requires PriceInv(c, s, agreed) && Enabled(s, e)
    ensures LedgerPriced(c, Next(c, s, e).db, agreed)
  {
    var db' := Next(c, s, e).db;
    forall i | 0 <= i < |db'.ledger| && db'.ledger[i].scan.Some? && db'.ledger[i].scan.value in db'.scans
      ensures RowPriced(c, db', db'.ledger[i], db'.scans[db'.ledger[i].scan.value], agreed)
    {
      RowIsOldOrEntry(c, s, e, i);
      if Entry(s, e) == Some(db'.ledger[i]) {
        EntryStaysPriced(c, s, e, agreed);
      } else {
        OldRowStaysPriced(c, s, e, i, agreed);
      }
    }
  }

  lemma PricesFollowPlans(c: Config, db: Db, db': Db, cr: Creator)
    requires SamePlans(db, db') && CreatorPriced(c, db, cr)
    ensures CreatorPriced(c, db', cr)
  {
  }

  lemma BackfillsFollowPlans(c: Config, db: Db, db': Db, b: Backfill, agreed: bool)
    requires SamePlans(db, db') && BackfillPriced(c, db, b, agreed)
    ensures BackfillPriced(c, db', b, agreed)
  {
  }

  lemma PriceInvKept(c: Config, s: State, e: Event, agreed: bool)
    requires PriceInv(c, s, agreed) && Enabled(s, e) && (agreed ==> KeepsPrice(c, e))
    ensures PriceInv(c, Next(c, s, e), agreed)
  {
    var s' := Next(c, s, e);
    LedgerInvKept(c, s, e);
    PlansNeverChange(s, e);
    RowsStayPriced(c, s, e, agreed);
    forall p | p in s'.creators ensures CreatorPriced(c, s'.db, s'.creators[p]) {
      CreatorStaysPriced(c, s, e, p);
      PricesFollowPlans(c, s.db, s'.db, s'.creators[p]);
    }
    forall b | b in s'.backfills ensures BackfillPriced(c, s'.db, s'.backfills[b], agreed) {
      BackfillStaysPriced(c, s, e, b, agreed);
      BackfillsFollowPlans(c, s.db, s'.db, s'.backfills[b], agreed);
    }
  }

  /** Every backfill of the run goes by the API's unit price. */
  predicate AgreedPrices(c: Config, events: seq<Event>) {
    forall i :: 0 <= i < |events| ==> KeepsPrice(c, events[i])
  }

  lemma {:induction false} PriceSafety(c: Config, s: State, events: seq<Event>, agreed: bool)
    requires PriceInv(c, s, agreed) && IsRun(c, s, events) && (agreed ==> AgreedPrices(c, events))
    ensures PriceInv(c, After(c, s, events), agreed)
    decreases |events|
  {
    if events != [] {
      PriceInvKept(c, s, events[0], agreed);
      assert forall i :: 0 <= i < |events| - 1 ==> events[1..][i] == events[i + 1];
      PriceSafety(c, Next(c, s, events[0]), events[1..], agreed);
    }
  }

  // ---------------------------------------------------------------- main results

  /** A consumed scan is charged exactly what was reserved for it; a refund gives back nothing or exactly that. */
  lemma ChargedAsReserved(c: Config, s: State, events: seq<Event>, i: nat, j: nat)
    requires Fresh(s) && IsRun(c, s, events) && AgreedPrices(c, events)
    requires var db := After(c, s, events).db;
      && i < |db.ledger| && j < |db.ledger| && db.ledger[i].scan == db.ledger[j].scan
      && db.ledger[i].scan.Some? && db.ledger[i].scan.value in db.scans
      && db.ledger[i].event == ScanReserved
        && (db.ledger[j].event == ScanConsumed || db.ledger[j].event == ScanRefunded)
    ensures var db := After(c, s, events).db;
      var reserved, final := db.ledger[i], db.ledger[j];
      && reserved.tenant == final.tenant && reserved.month == final.month && reserved.units == final.units
      && (final.event == ScanConsumed ==> final.cents == reserved.cents)
      && (final.event == ScanRefunded ==> final.cents == 0 || final.cents == -reserved.cents)
  {
    PriceSafety(c, s, events, true);
    var db := After(c, s, events).db;
    assert ScanBooked(db, db.ledger[i].scan.value);
    assert RowPriced(c, db, db.ledger[i], db.scans[db.ledger[i].scan.value], true);
    assert RowPriced(c, db, db.ledger[j], db.scans[db.ledger[j].scan.value], true);
  }

  /** The script's price and the API's come to the same cents for these units, or neither matters. */
  predicate ChargesAlike(c: Config, prices: Config, cand: Candidate) {
    || cand.row.included || !cand.plan.Payg?
    || Cents(cand.row.units * prices.paygUnitMicros) == Cents(cand.row.units * c.paygUnitMicros)
  }

  /**
    * Whatever prices the backfills of a run read: one charges what was
    * reserved exactly if its price comes to the same.
    */
  lemma BackfillChargesByItsOwnPrice(c: Config, s: State, events: seq<Event>, p: Pid, i: nat)
    requires Fresh(s) && IsRun(c, s, events)
    requires var s' := After(c, s, events);
      && p in s'.backfills && s'.backfills[p].Holding? && i < |s'.db.ledger|
      && s'.db.ledger[i].scan == Some(s'.backfills[p].cand.scan) && s'.db.ledger[i].event == ScanReserved
    ensures var s' := After(c, s, events);
      var b, reserved := s'.backfills[p], s'.db.ledger[i].cents;
      b.cents == (if b.cand.row.status == Done then reserved else -reserved) <==> ChargesAlike(c, b.prices, b.cand)
  {
    PriceSafety(c, s, events, false);
    var s' := After(c, s, events);
    var b := s'.backfills[p];
    assert BackfillGood(s', b) && BackfillPriced(c, s'.db, b, false);
    assert RowPriced(c, s'.db, s'.db.ledger[i], s'.db.scans[b.cand.scan], false);
    OwnChargeIsAlike(c, s'.db, b.prices, b.cand);
  }

  lemma OwnChargeIsAlike(c: Config, db: Db, prices: Config, cand: Candidate)
    requires CandidatePriced(db, cand)
    ensures OwnCharge(db, prices, cand) == OwnCharge(db, c, cand) <==> ChargesAlike(c, prices, cand)
  {
  }

  // ---------------------------------------------------------------- signs, whatever the prices

  predicate SignGood(row: LedgerRow) {
    && (row.event == ScanReserved || row.event == ScanConsumed ==> 0 <= row.cents)
    && (row.event == ScanRefunded ==> row.cents <= 0)
  }

  predicate HeldSignGood(b: Backfill) {
    b.Holding? ==> if b.cand.row.status == Done then 0 <= b.cents else b.cents <= 0
  }

  ghost predicate SignInv(s: State) {
    && (forall i :: 0 <= i < |s.db.ledger| ==> SignGood(s.db.ledger[i]))
    && (forall b :: b in s.backfills ==> HeldSignGood(s.backfills[b]))
  }

  lemma EntrySignGood(s: State, e: Event)
    requires SignInv(s) && Enabled(s, e) && Entry(s, e).Some?
    ensures SignGood(Entry(s, e).value)
  {
    if e.CommitSettlement? {
      assert HeldSignGood(s.backfills[e.p]);
    } else if e.WorkerFinish? {
      ReservationIsListed(s.db.ledger, e.scan);
    }
  }

  lemma SignInvKept(c: Config, s: State, e: Event)
    requires SignInv(s) && Enabled(s, e)
    ensures SignInv(Next(c, s, e))
  {
    var s' := Next(c, s, e);
    if e.Retain? {
      assert s'.db.ledger == NullScans(s.db.ledger, e.gone);
    } else {
      LedgerGrowsByEntry(s, e);
      if Entry(s, e).Some? {
        EntrySignGood(s, e);
      }
    }
    forall b | b in s'.backfills ensures HeldSignGood(s'.backfills[b]) {
      BackfillMoves(c, s, e, b);
      assert b in s.backfills ==> HeldSignGood(s.backfills[b]);
    }
  }

  lemma {:induction false} SignSafety(c: Config, s: State, events: seq<Event>)
    requires SignInv(s) && IsRun(c, s, events)
    ensures SignInv(After(c, s, events))
    decreases |events|
  {
    if events != [] {
      SignInvKept(c, s, events[0]);
      SignSafety(c, Next(c, s, events[0]), events[1..]);
    }
  }

  /** In every reachable ledger the folded total is the money that moved, each row counted once. */
  lemma TotalsConserveMoney(c: Config, s: State, events: seq<Event>, t: TenantId, m: Month)
    requires Fresh(s) && IsRun(c, s, events)
    ensures var ledger := After(c, s, events).db.ledger;
      FoldLedger(ledger, t, m).Total() == Settled(ledger, t, m)
  {
    SignSafety(c, s, events);
    TotalIsSettledMoney(After(c, s, events).db.ledger, t, m);
  }
}
