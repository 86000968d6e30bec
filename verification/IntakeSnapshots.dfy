// Monthly snapshots: a closed month never reopens, and a snapshot written by a
// commit equals the fold of the ledger it leaves exactly if what others committed for
// that tenant-month since the sums were taken adds up to nothing.
module IntakeSnapshots {
  import opened Wrappers
  import opened Billing
  import opened Intake
  import opened IntakeQuota
  import opened IntakeLedger
  import opened IntakeRuns
  import opened IntakePricing

  // ---------------------------------------------------------------- closed months

  predicate IsClosed(db: Db, k: (TenantId, Month)) {
    k in db.snapshots && db.snapshots[k].closed
  }

  lemma {:induction false} ClosedStaysClosed(c: Config, s: State, events: seq<Event>, k: (TenantId, Month))
    requires IsRun(c, s, events) && IsClosed(s.db, k)
    ensures IsClosed(After(c, s, events).db, k)
    decreases |events|
  {
    if events != [] {
      CloseIsKept(s, events[0], k);
      ClosedStaysClosed(c, Next(c, s, events[0]), events[1..], k);
    }
  }

  predicate StoresSnapshot(e: Event) { Publishes(e) || e.CommitSettlement? || e.StoreOverview? }

  lemma OthersKeepSnapshots(s: State, e: Event)
    requires Enabled(s, e) && !StoresSnapshot(e) && !e.CloseBilling?
    ensures DbAfter(s, e).snapshots == s.db.snapshots
  {
    if e.WorkerFinish? {
      assert WorkerSettle(s.db, e.scan, e.status).snapshots == s.db.snapshots;
    }
  }

  lemma CloseIsKept(s: State, e: Event, k: (TenantId, Month))
    requires Enabled(s, e) && IsClosed(s.db, k)
    ensures IsClosed(DbAfter(s, e), k)
  {
    if !StoresSnapshot(e) && !e.CloseBilling? {
      OthersKeepSnapshots(s, e);
    }
  }

  // ---------------------------------------------------------------- sums of open transactions

  // whoever writes a snapshot: a creation, a backfill's settlement, or the customer's overview
  datatype Actor = Creation(p: Pid) | Settlement(p: Pid) | Viewing(p: Pid)

  /** What upsertSnapshot has summed up: over the committed ledger of that moment and the actor's own rows. */
  datatype Summed = Summed(tenant: TenantId, month: Month, own: seq<LedgerRow>, figures: Figures)

  function CreatorSum(cr: Creator): Option<Summed> {
    if cr.Writing? && cr.done >= SNAPSHOT_WRITTEN then
      Some(Summed(cr.draft.job.req.tenant, cr.draft.month, OwnRows(cr), cr.figures))
    else if cr.Blocked? && cr.done >= REFUSAL_SUMMED then
      Some(Summed(cr.job.req.tenant, cr.month, OwnRows(cr), cr.figures))
    else None
  }

  function BackfillSum(b: Backfill): Option<Summed> {
    if b.Holding? && b.done >= 3 then
      var own := if b.wrote then [SettlementRow(b.cand, b.cents)] else [];
      Some(Summed(b.cand.row.tenant, b.cand.row.month, own, b.figures))
    else None
  }

  function SumOf(s: State, a: Actor): Option<Summed> {
    match a
    case Creation(p) => if p in s.creators then CreatorSum(s.creators[p]) else None
    case Settlement(p) => if p in s.backfills then BackfillSum(s.backfills[p]) else None
    case Viewing(p) =>
      if p in s.overviews then Some(Summed(s.overviews[p].tenant, s.overviews[p].month, [], s.overviews[p].figures))
      else None
  }

  /** Who commits a snapshot with this event. */
  function Storer(e: Event): Option<Actor> {
    match e
    case Commit(p) => Some(Creation(p))
    case LoseCommitAnswer(p) => Some(Creation(p))
    case CommitSettlement(p) => Some(Settlement(p))
    case StoreOverview(p) => Some(Viewing(p))
    case _ => None
  }

  /** What an event adds to the figures of a tenant-month. */
  function Moved(s: State, e: Event, t: TenantId, m: Month): Figures {
    if Entry(s, e).Some? then FiguresOf(Entry(s, e).value, t, m) else NOTHING
  }

  /** The figures that others have added to an actor's tenant-month since it took its sums. */
  ghost function Lag(c: Config, s: State, events: seq<Event>, a: Actor, lag: Figures): Figures
    requires IsRun(c, s, events)
    decreases |events|
  {
    if events == [] then lag
    else Lag(c, Next(c, s, events[0]), events[1..], a, LagStep(c, s, events[0], a, lag))
  }

  ghost function LagStep(c: Config, s: State, e: Event, a: Actor, lag: Figures): Figures
    requires Enabled(s, e)
  {
    LagOf(SumOf(s, a), SumOf(Next(c, s, e), a), s, e, lag)
  }

  /** The lag grows while the sums are kept, and starts anew with new ones. */
  function LagOf(sum: Option<Summed>, sum': Option<Summed>, s: State, e: Event, lag: Figures): Figures {
    if sum.Some? && sum' == sum then lag.Plus(Moved(s, e, sum.value.tenant, sum.value.month)) else NOTHING
  }

  /** The sums are behind the ledger by this much. */
  predicate BehindBy(sum: Option<Summed>, ledger: seq<LedgerRow>, lag: Figures) {
    sum.Some? ==>
      FoldLedger(ledger + sum.value.own, sum.value.tenant, sum.value.month) == sum.value.figures.Plus(lag)
  }

  /** The figures of one row for a tenant-month. */
  function FiguresOf(row: LedgerRow, t: TenantId, m: Month): Figures {
    if row.tenant == t && row.month == m then RowFigures(row) else NOTHING
  }

  lemma FoldOneMore(ledger: seq<LedgerRow>, row: LedgerRow, t: TenantId, m: Month)
    ensures FoldLedger(ledger + [row], t, m) == FoldLedger(ledger, t, m).Plus(FiguresOf(row, t, m))
  {
    FoldAppend(ledger, row, t, m);
    PlusNothing(FoldLedger(ledger, t, m));
  }

  lemma PlusNothing(a: Figures)
    ensures a.Plus(NOTHING) == a
  {
  }

  lemma PlusAssociates(a: Figures, b: Figures, c: Figures)
    ensures a.Plus(b).Plus(c) == a.Plus(b.Plus(c))
  {
  }

  lemma {:induction false} FoldConcat(a: seq<LedgerRow>, b: seq<LedgerRow>, t: TenantId, m: Month)
    ensures FoldLedger(a + b, t, m) == FoldLedger(a, t, m).Plus(FoldLedger(b, t, m))
  {
    if b == [] {
      assert a + b == a;
      PlusNothing(FoldLedger(a, t, m));
    } else {
      var front, last := b[..|b| - 1], b[|b| - 1];
      FoldConcat(a, front, t, m);
      FoldOneMoreOf(front, last, b, t, m);
      assert a + b == (a + front) + [last];
      FoldOneMoreOf(a + front, last, a + b, t, m);
      PlusAssociates(FoldLedger(a, t, m), FoldLedger(front, t, m), FiguresOf(last, t, m));
    }
  }

  lemma FoldOneMoreOf(front: seq<LedgerRow>, last: LedgerRow, whole: seq<LedgerRow>, t: TenantId, m: Month)
    requires whole == front + [last]
    ensures FoldLedger(whole, t, m) == FoldLedger(front, t, m).Plus(FiguresOf(last, t, m))
  {
    FoldOneMore(front, last, t, m);
  }

  lemma LedgerFoldMoves(c: Config, s: State, e: Event, t: TenantId, m: Month)
    requires Enabled(s, e)
    ensures FoldLedger(Next(c, s, e).db.ledger, t, m) == FoldLedger(s.db.ledger, t, m).Plus(Moved(s, e, t, m))
  {
    if e.Retain? {
      DeletingScansKeepsFigures(s.db.ledger, e.gone, t, m);
    } else {
      LedgerGrowsByEntry(s, e);
      EntryFolds(s.db.ledger, Next(c, s, e).db.ledger, Entry(s, e), t, m);
    }
  }

  lemma EntryFolds(ledger: seq<LedgerRow>, ledger': seq<LedgerRow>, entry: Option<LedgerRow>, t: TenantId, m: Month)
    requires ledger' == ledger + if entry.Some? then [entry.value] else []
    ensures FoldLedger(ledger', t, m)
      == FoldLedger(ledger, t, m).Plus(if entry.Some? then FiguresOf(entry.value, t, m) else NOTHING)
  {
    if entry.Some? {
      FoldOneMore(ledger, entry.value, t, m);
    } else {
      assert ledger' == ledger;
    }
  }

  lemma AddedInBetween(a: Figures, b: Figures, moved: Figures)
    ensures a.Plus(moved).Plus(b) == a.Plus(b).Plus(moved)
  {
  }

  /** How a fold over the committed ledger and some own rows moves under an event. */
  lemma FoldMoves(c: Config, s: State, e: Event, own: seq<LedgerRow>, t: TenantId, m: Month)
    requires Enabled(s, e)
    ensures FoldLedger(Next(c, s, e).db.ledger + own, t, m)
      == FoldLedger(s.db.ledger + own, t, m).Plus(Moved(s, e, t, m))
  {
    LedgerFoldMoves(c, s, e, t, m);
    FoldConcat(s.db.ledger, own, t, m);
    FoldConcat(Next(c, s, e).db.ledger, own, t, m);
    AddedInBetween(FoldLedger(s.db.ledger, t, m), FoldLedger(own, t, m), Moved(s, e, t, m));
  }

  lemma StatementSums(c: Config, db: Db, now: Month, cr: Creator)
    ensures CreatorSum(Statement(c, db, now, cr)).Some? ==>
      || CreatorSum(Statement(c, db, now, cr)) == CreatorSum(cr)
      || BehindBy(CreatorSum(Statement(c, db, now, cr)), db.ledger, NOTHING)
  {
    if cr.Blocked? {
      BlockedSums(c, db, now, cr);
    } else if cr.Writing? {
      WritingSums(c, db, now, cr);
    } else {
      EarlierSums(c, db, now, cr);
    }
  }

  lemma BlockedSums(c: Config, db: Db, now: Month, cr: Creator)
    requires cr.Blocked?
    ensures CreatorSum(Statement(c, db, now, cr)).Some? ==>
      BehindBy(CreatorSum(Statement(c, db, now, cr)), db.ledger, NOTHING)
  {
    if cr.done == REFUSAL_WRITTEN {
      var figures := FoldLedger(db.ledger + OwnRows(cr), cr.job.req.tenant, cr.month);
      assert Statement(c, db, now, cr) == Blocked(cr.job, cr.month, REFUSAL_SUMMED, figures);
      PlusNothing(figures);
    }
  }

  lemma WritingSums(c: Config, db: Db, now: Month, cr: Creator)
    requires cr.Writing?
    ensures CreatorSum(Statement(c, db, now, cr)).Some? ==>
      || CreatorSum(Statement(c, db, now, cr)) == CreatorSum(cr)
      || BehindBy(CreatorSum(Statement(c, db, now, cr)), db.ledger, NOTHING)
  {
    if cr.done == LEDGER_WRITTEN {
      var d := cr.draft;
      var figures := FoldLedger(db.ledger + OwnRows(cr), d.job.req.tenant, d.month);
      assert Statement(c, db, now, cr) == Writing(d, SNAPSHOT_WRITTEN, figures);
      PlusNothing(figures);
    }
  }

  /** Before it has written anything, a creation has summed nothing. */
  lemma EarlierSums(c: Config, db: Db, now: Month, cr: Creator)
    requires !cr.Blocked? && !cr.Writing?
    ensures CreatorSum(Statement(c, db, now, cr)).None?
  {
  }

  lemma CreationSums(c: Config, s: State, e: Event, p: Pid)
    requires Enabled(s, e) && SumOf(Next(c, s, e), Creation(p)).Some?
    ensures SumOf(s, Creation(p)) == SumOf(Next(c, s, e), Creation(p))
      || BehindBy(SumOf(Next(c, s, e), Creation(p)), Next(c, s, e).db.ledger, NOTHING)
  {
    CreatorMoves(c, s, e, p);
    if e == Proceed(p) {
      StatementSums(c, s.db, s.now, s.creators[p]);
    }
  }

  lemma HeldSums(db: Db, b: Backfill)
    requires b.Holding? && b.done != 1
    ensures BehindBy(BackfillSum(BackfillStatement(db, b)), db.ledger, NOTHING)
  {
    var own := if b.wrote then [SettlementRow(b.cand, b.cents)] else [];
    var sum := Summed(b.cand.row.tenant, b.cand.row.month, own, FoldLedger(OwnLedger(db, b), b.cand.row.tenant,
                                                                           b.cand.row.month));
    assert BackfillSum(BackfillStatement(db, b)) == Some(sum);
    assert OwnLedger(db, b) == db.ledger + own;
    RightSum(sum, db.ledger);
  }

  lemma RightSum(sum: Summed, ledger: seq<LedgerRow>)
    requires sum.figures == FoldLedger(ledger + sum.own, sum.tenant, sum.month)
    ensures BehindBy(Some(sum), ledger, NOTHING)
  {
    PlusNothing(sum.figures);
  }

  /** A hold that stays in force is unchanged, has just been taken, or has made its next statement. */
  lemma HoldMoves(c: Config, s: State, e: Event, b: Pid)
    requires Enabled(s, e) && b in Next(c, s, e).backfills && Next(c, s, e).backfills[b].Holding?
    ensures b in s.backfills
    ensures var h' := Next(c, s, e).backfills[b];
      h' == s.backfills[b] || h'.done == 1
      || (e == Settle(b) && s.backfills[b].Holding? && h' == BackfillStatement(s.db, s.backfills[b]))
  {
  }

  lemma SettlementSums(c: Config, s: State, e: Event, p: Pid)
    requires Enabled(s, e) && SumOf(Next(c, s, e), Settlement(p)).Some?
    ensures SumOf(s, Settlement(p)) == SumOf(Next(c, s, e), Settlement(p))
      || BehindBy(SumOf(Next(c, s, e), Settlement(p)), Next(c, s, e).db.ledger, NOTHING)
  {
    HoldMoves(c, s, e, p);
    if e == Settle(p) && s.backfills[p].done != 1 {
      HeldSums(s.db, s.backfills[p]);
      SettlingKeepsTables(c, s, p);
    }
  }

  lemma SettlingKeepsTables(c: Config, s: State, p: Pid)
    requires Enabled(s, Settle(p))
    ensures Next(c, s, Settle(p)).db == s.db
  {
  }

  /** Sums were there before, or are taken now from the latest tables. */
  lemma SumIsKeptOrTaken(c: Config, s: State, e: Event, a: Actor)
    requires Enabled(s, e) && SumOf(Next(c, s, e), a).Some?
    ensures SumOf(s, a) == SumOf(Next(c, s, e), a)
      || BehindBy(SumOf(Next(c, s, e), a), Next(c, s, e).db.ledger, NOTHING)
  {
    match a
    case Creation(p) => CreationSums(c, s, e, p);
    case Settlement(p) => SettlementSums(c, s, e, p);
    case Viewing(p) => ViewingSums(c, s, e, p);
  }

  /** Open overviews stay, and a new one holds the sums of the committed ledger. */
  lemma OverviewMoves(c: Config, s: State, e: Event, p: Pid)
    requires Enabled(s, e) && p in Next(c, s, e).overviews
    ensures var o := Next(c, s, e).overviews[p];
      || (p in s.overviews && s.overviews[p] == o)
      || (e == SumOverview(p, o.tenant, o.month) && o.figures == FoldLedger(s.db.ledger, o.tenant, o.month))
  {
  }

  lemma ViewingSums(c: Config, s: State, e: Event, p: Pid)
    requires Enabled(s, e) && SumOf(Next(c, s, e), Viewing(p)).Some?
    ensures SumOf(s, Viewing(p)) == SumOf(Next(c, s, e), Viewing(p))
      || BehindBy(SumOf(Next(c, s, e), Viewing(p)), Next(c, s, e).db.ledger, NOTHING)
  {
    OverviewMoves(c, s, e, p);
    var o := Next(c, s, e).overviews[p];
    if e == SumOverview(p, o.tenant, o.month) {
      NothingBehind(s.db.ledger, o);
    }
  }

  lemma NothingBehind(ledger: seq<LedgerRow>, o: Overview)
    requires o.figures == FoldLedger(ledger, o.tenant, o.month)
    ensures BehindBy(Some(Summed(o.tenant, o.month, [], o.figures)), ledger, NOTHING)
  {
    assert ledger + [] == ledger;
    PlusNothing(o.figures);
  }

  lemma LagAddsUp(figures: Figures, before: Figures, after: Figures, lag: Figures, moved: Figures)
    requires before == figures.Plus(lag) && after == before.Plus(moved)
    ensures after == figures.Plus(lag.Plus(moved))
  {
  }

  lemma BehindByLag(c: Config, s: State, e: Event, a: Actor, sum: Option<Summed>, sum': Option<Summed>, lag: Figures)
    requires Enabled(s, e) && BehindBy(sum, s.db.ledger, lag)
    requires sum'.None? || sum == sum' || BehindBy(sum', Next(c, s, e).db.ledger, NOTHING)
    ensures BehindBy(sum', Next(c, s, e).db.ledger, LagOf(sum, sum', s, e, lag))
  {
    if sum.Some? && sum == sum' {
      var x := sum.value;
      FoldMoves(c, s, e, x.own, x.tenant, x.month);
      LagAddsUp(x.figures, FoldLedger(s.db.ledger + x.own, x.tenant, x.month),
                FoldLedger(Next(c, s, e).db.ledger + x.own, x.tenant, x.month), lag, Moved(s, e, x.tenant, x.month));
    }
  }

  lemma {:induction false} BehindAlong(c: Config, s: State, events: seq<Event>, a: Actor, lag: Figures)
    requires BehindBy(SumOf(s, a), s.db.ledger, lag) && IsRun(c, s, events)
    ensures BehindBy(SumOf(After(c, s, events), a), After(c, s, events).db.ledger, Lag(c, s, events, a, lag))
    decreases |events|
  {
    if events != [] {
      var mid := Next(c, s, events[0]);
      if SumOf(mid, a).Some? {
        SumIsKeptOrTaken(c, s, events[0], a);
      }
      BehindByLag(c, s, events[0], a, SumOf(s, a), SumOf(mid, a), lag);
      BehindAlong(c, Next(c, s, events[0]), events[1..], a, LagStep(c, s, events[0], a, lag));
    }
  }

  lemma StorerHasSummed(s: State, e: Event)
    requires Enabled(s, e) && Storer(e).Some?
    ensures SumOf(s, Storer(e).value).Some?
    ensures var sum := SumOf(s, Storer(e).value).value;
      DbAfter(s, e).snapshots == UpsertSnapshot(s.db.snapshots, sum.tenant, sum.month, sum.figures)
      && DbAfter(s, e).ledger == s.db.ledger + sum.own
  {
  }

  lemma ExactIffNothingMoved(s: State, e: Event, lag: Figures)
    requires Enabled(s, e) && Storer(e).Some? && BehindBy(SumOf(s, Storer(e).value), s.db.ledger, lag)
    ensures SumOf(s, Storer(e).value).Some?
    ensures var k := (SumOf(s, Storer(e).value).value.tenant, SumOf(s, Storer(e).value).value.month);
      k in DbAfter(s, e).snapshots
      && (DbAfter(s, e).snapshots[k].figures == FoldLedger(DbAfter(s, e).ledger, k.0, k.1) <==> lag == NOTHING)
  {
    StorerHasSummed(s, e);
  }

  /**
    * Over every run: a commit leaves the fold of the ledger as the
    * month's snapshot exactly if nothing moved in between.
    */
  lemma SnapshotRefinesLedger(c: Config, s: State, events: seq<Event>, e: Event)
    requires Fresh(s) && IsRun(c, s, events) && Enabled(After(c, s, events), e) && Storer(e).Some?
    ensures var s', a := After(c, s, events), Storer(e).value;
      var db' := Next(c, s', e).db;
      && SumOf(s', a).Some?
      && var k := (SumOf(s', a).value.tenant, SumOf(s', a).value.month);
         k in db'.snapshots
         && (db'.snapshots[k].figures == FoldLedger(db'.ledger, k.0, k.1) <==> Lag(c, s, events, a, NOTHING) == NOTHING)
  {
    BehindAlong(c, s, events, Storer(e).value, NOTHING);
    ExactIffNothingMoved(After(c, s, events), e, Lag(c, s, events, Storer(e).value, NOTHING));
  }

  /**
    * One step at a time: sums that were right stay right exactly if no row
    * with figures of that tenant-month is committed.
    */
  lemma OnlyFiguresMatter(c: Config, s: State, e: Event, a: Actor)
    requires Enabled(s, e) && SumOf(s, a).Some? && BehindBy(SumOf(s, a), s.db.ledger, NOTHING)
    ensures BehindBy(SumOf(s, a), Next(c, s, e).db.ledger, NOTHING) <==>
      Moved(s, e, SumOf(s, a).value.tenant, SumOf(s, a).value.month) == NOTHING
  {
    RightUntilMoved(c, s, e, SumOf(s, a).value);
  }

  lemma RightUntilMoved(c: Config, s: State, e: Event, sum: Summed)
    requires Enabled(s, e) && BehindBy(Some(sum), s.db.ledger, NOTHING)
    ensures BehindBy(Some(sum), Next(c, s, e).db.ledger, NOTHING) <==> Moved(s, e, sum.tenant, sum.month) == NOTHING
  {
    FoldMoves(c, s, e, sum.own, sum.tenant, sum.month);
    RightUnlessAdded(sum.figures, FoldLedger(s.db.ledger + sum.own, sum.tenant, sum.month),
                     FoldLedger(Next(c, s, e).db.ledger + sum.own, sum.tenant, sum.month),
                     Moved(s, e, sum.tenant, sum.month));
  }

  lemma RightUnlessAdded(figures: Figures, before: Figures, after: Figures, moved: Figures)
    requires before == figures.Plus(NOTHING) && after == before.Plus(moved)
    ensures after == figures.Plus(NOTHING) <==> moved == NOTHING
  {
  }

  /** A creation raises the reserved units of its month, and no other figure. */
  lemma CreationFigures(s: State, e: Event, t: TenantId, m: Month)
    requires Enabled(s, e) && Publishes(e)
    ensures var d := s.creators[e.p].draft;
      Moved(s, e, t, m)
      == if d.job.req.tenant == t && d.month == m then NOTHING.(reservedUnits := d.job.units) else NOTHING
  {
  }

  /** What a consumption adds: a free one to the included units, a charged one to the PAYG units and amount. */
  function Consumption(units: nat, cents: int): Figures {
    if cents == 0 then NOTHING.(includedUnits := units) else NOTHING.(paygUnits := units, paygCents := cents)
  }

  /** The charge for a scan by some unit price: only PAYG scans outside a quota have one. */
  function ChargeOf(db: Db, scan: ScanRow, unitMicros: nat): int {
    if !scan.included && scan.tenant in db.tenants && db.tenants[scan.tenant].plan.Payg?
    then Cents(scan.units * unitMicros) else 0
  }

  /**
    * A worker's refund moves no figure; its consumption of a scan adds the units and the
    * reserved charge of that scan to its own month, and nothing to any other.
    */
  lemma WorkerFigures(c: Config, s: State, id: ScanId, status: Status, t: TenantId, m: Month)
    requires PriceInv(c, s, false) && SignInv(s) && Enabled(s, WorkerFinish(id, status))
    ensures var scan := s.db.scans[id];
      Moved(s, WorkerFinish(id, status), t, m)
      == if status == Done && scan.tenant == t && scan.month == m
         then Consumption(scan.units, ChargeOf(s.db, scan, c.paygUnitMicros)) else NOTHING
  {
    assert ScanBooked(s.db, id);
    WorkerSettles(s.db, id, status);
    ReservationIsListed(s.db.ledger, id);
    var reserved := LastReserved(s.db.ledger, id).value;
    assert RowPriced(c, s.db, reserved, s.db.scans[id], false) && SignGood(reserved);
  }

  /** A backfill does the same by its own unit price, but its refund gives the charge back as a credit. */
  lemma BackfillFigures(c: Config, s: State, p: Pid, t: TenantId, m: Month)
    requires PriceInv(c, s, false) && Enabled(s, CommitSettlement(p))
    ensures var scan := s.backfills[p].cand.row;
      var charge := ChargeOf(s.db, scan, s.backfills[p].prices.paygUnitMicros);
      Moved(s, CommitSettlement(p), t, m)
      == if scan.tenant != t || scan.month != m then NOTHING
         else if scan.status == Done then Consumption(scan.units, charge)
         else NOTHING.(creditCents := -charge)
  {
    assert BackfillPriced(c, s.db, s.backfills[p], false) && BackfillGood(s, s.backfills[p]);
  }

  // ---------------------------------------------------------------- why the proviso is needed

  predicate Overtaken(s: State, p: Pid, other: ScanId) {
    && p in s.creators && s.creators[p].Admitted?
    && other in s.db.scans && s.db.scans[other].status == InProgress && s.db.scans[other].units >= 1
    && s.db.scans[other].tenant == s.creators[p].job.req.tenant && s.db.scans[other].month == s.creators[p].month
    && (s.creators[p].job.req.tenant, s.creators[p].job.req.key) !in s.db.keys
  }

  function OvertakingEvents(p: Pid, scan: ScanId, other: ScanId): seq<Event> {
    RefreshEvents(p, scan) + [WorkerFinish(other, Done)] + FinishEvents(p)
  }

  /** The worker's settlement, between the sums of a request and its commit. */
  lemma WorkerOvertakes(c: Config, s: State, p: Pid, scan: ScanId, other: ScanId, s': State)
    requires Overtaken(s, p, other) && RowFree(s, other) && scan !in s.used
    requires var d := DraftOf(s.creators[p], scan);
      s' == Put(s, p, Writing(d, SNAPSHOT_WRITTEN, FiguresFor(s.db, d)))
              .(db := WorkerSettle(s.db, other, Done), used := s.used + {scan})
    ensures Reaches(c, s, RefreshEvents(p, scan) + [WorkerFinish(other, Done)], s')
  {
    var d := DraftOf(s.creators[p], scan);
    var mid := Put(s, p, Writing(d, SNAPSHOT_WRITTEN, FiguresFor(s.db, d))).(used := s.used + {scan});
    SoloRefresh(c, s, p, scan, mid);
    OneStep(c, mid, WorkerFinish(other, Done), s');
    Chain(c, s, RefreshEvents(p, scan), mid, [WorkerFinish(other, Done)], s');
  }

  lemma OvertakingRun(c: Config, s: State, p: Pid, scan: ScanId, other: ScanId, s': State)
    requires Overtaken(s, p, other) && RowFree(s, other) && scan !in s.used
    requires forall q :: q in s.creators ==> !s.creators[q].Writing?
    requires WorkerSettle(s.db, other, Done).keys == s.db.keys
    requires var d := DraftOf(s.creators[p], scan);
      s' == Put(s, p, Finished(d.job.req, Some(d.job.fingerprint), Created(scan)))
              .(db := CommitDraft(WorkerSettle(s.db, other, Done), d, FiguresFor(s.db, d)), used := s.used + {scan})
    ensures Reaches(c, s, OvertakingEvents(p, scan, other), s')
  {
    var d := DraftOf(s.creators[p], scan);
    var mid := Put(s, p, Writing(d, SNAPSHOT_WRITTEN, FiguresFor(s.db, d)))
                 .(db := WorkerSettle(s.db, other, Done), used := s.used + {scan});
    WorkerOvertakes(c, s, p, scan, other, mid);
    SoloFinish(c, mid, p, s');
    Chain(c, s, RefreshEvents(p, scan) + [WorkerFinish(other, Done)], mid, FinishEvents(p), s');
  }

  /** A row with figures changes every fold it slips into. */
  lemma RowIsMissed(ledger: seq<LedgerRow>, row: LedgerRow, own: LedgerRow, t: TenantId, m: Month)
    requires FiguresOf(row, t, m) != NOTHING
    ensures FoldLedger(ledger + [row] + [own], t, m) != FoldLedger(ledger + [own], t, m)
  {
    FoldOneMore(ledger, row, t, m);
    FoldOneMore(ledger + [row], own, t, m);
    FoldOneMore(ledger, own, t, m);
    AddedInBetween(FoldLedger(ledger, t, m), FiguresOf(own, t, m), FiguresOf(row, t, m));
    PlusMoves(FoldLedger(ledger + [own], t, m), FiguresOf(row, t, m));
  }

  lemma PlusMoves(a: Figures, b: Figures)
    requires b != NOTHING
    ensures a.Plus(b) != a
  {
  }

  /** A scan settled between another request's refresh and its commit is missing from the snapshot. */
  lemma SettlementCanBeMissed(c: Config, s: State, p: Pid, scan: ScanId, other: ScanId)
    requires PriceInv(c, s, false) && SignInv(s) && Overtaken(s, p, other) && RowFree(s, other) && scan !in s.used
    requires forall q :: q in s.creators ==> !s.creators[q].Writing?
    ensures IsRun(c, s, OvertakingEvents(p, scan, other))
    ensures var db' := After(c, s, OvertakingEvents(p, scan, other)).db;
      var k := (s.creators[p].job.req.tenant, s.creators[p].month);
      k in db'.snapshots && db'.snapshots[k].figures != FoldLedger(db'.ledger, k.0, k.1)
  {
    var d := DraftOf(s.creators[p], scan);
    assert ScanBooked(s.db, other);
    WorkerSettles(s.db, other, Done);
    var row := WorkerRow(s.db, other, Done);
    ConsumptionCounts(c, s, other);
    var s' := Put(s, p, Finished(d.job.req, Some(d.job.fingerprint), Created(scan)))
                .(db := CommitDraft(WorkerSettle(s.db, other, Done), d, FiguresFor(s.db, d)), used := s.used + {scan});
    OvertakingRun(c, s, p, scan, other, s');
    RowIsMissed(s.db.ledger, row, ReservedRow(d), d.job.req.tenant, d.month);
  }

  /** A worker's consumption row has the month and the units of its scan. */
  lemma ConsumptionCounts(c: Config, s: State, id: ScanId)
    requires PriceInv(c, s, false) && SignInv(s) && id in s.db.scans && s.db.scans[id].units >= 1
    requires LastReserved(s.db.ledger, id).Some?
    ensures FiguresOf(WorkerRow(s.db, id, Done), s.db.scans[id].tenant, s.db.scans[id].month) != NOTHING
  {
    ReservationIsListed(s.db.ledger, id);
    var reserved := LastReserved(s.db.ledger, id).value;
    assert RowPriced(c, s.db, reserved, s.db.scans[id], false) && SignGood(reserved);
    assert ScanBooked(s.db, id);
  }
}
