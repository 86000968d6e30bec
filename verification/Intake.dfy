// Scan intake as concurrent transactions over the committed tables.
// One SQL statement is one step; a transaction's writes stay private until its
// commit step; every statement reads the latest committed tables (READ COMMITTED)
// together with the transaction's own writes; the per-(tenant, month) advisory
// lock is held from lockTenantMonth to the end of the transaction.
module Intake {
  import opened Wrappers
  import opened Billing

  // ---------------------------------------------------------------- committed tables

  datatype KeyRow = KeyRow(fingerprint: Option<Fingerprint>, scan: ScanId)

  datatype Message = Message(tenant: TenantId, scan: ScanId)

  datatype Db = Db(tenants: map<TenantId, Tenant>,
                   scans: map<ScanId, ScanRow>,
                   ledger: seq<LedgerRow>,
                   keys: map<(TenantId, Key), KeyRow>,
                   outbox: map<ScanId, Message>,
                   snapshots: map<(TenantId, Month), Snapshot>)

  /** Snapshot upsert: the figures are replaced, the OPEN/CLOSED status is kept. */
  function UpsertSnapshot(snapshots: map<(TenantId, Month), Snapshot>, t: TenantId, m: Month, figures: Figures)
    : map<(TenantId, Month), Snapshot>
  {
    snapshots[(t, m) := Snapshot(figures, (t, m) in snapshots && snapshots[(t, m)].closed)]
  }

  // ---------------------------------------------------------------- create requests

  datatype Request = Request(tenant: TenantId, key: Key)

  /** A request whose targets were authorised: its fingerprint and billing units are known. */
  datatype Job = Job(req: Request, fingerprint: Fingerprint, units: nat)

  datatype Draft = Draft(job: Job, month: Month, included: bool, cents: nat, scan: ScanId)

  datatype Outcome =
    | Created(created: ScanId)
    | Replayed(replayed: ScanId)
    | KeyConflict
    | TargetsRefused
    | TenantMissing
    | PlanUnsupported
    | TooManyActive
    | QuotaExceeded
    | UniqueViolation
    | Broken                  // a statement failed, or the answer to COMMIT was lost

  datatype Creator =
    | Arrived(req: Request)
    | Authorized(job: Job)
    | Missed(job: Job)                                     // no idempotency row was found
    | Dated(job: Job, month: Month)                        // the clock is read, the lock not yet taken
    | Locked(job: Job, month: Month)
    | PlanRead(job: Job, month: Month, code: PlanCode, plan: Plan)
    | Unpressured(job: Job, month: Month, plan: Plan)
    | Admitted(job: Job, month: Month, included: bool, cents: nat)
    // over quota: done counts the writes about the refusal, none of them committed
    | Blocked(job: Job, month: Month, done: nat, figures: Figures)
    | Writing(draft: Draft, done: nat, figures: Figures)   // done counts the INSERTs made so far
    | Collided(job: Job)                                   // 23505, rolled back, recovery read pending
    | Finished(req: Request, fingerprint: Option<Fingerprint>, outcome: Outcome)

  const SCAN_WRITTEN := 1
  const LEDGER_WRITTEN := 2
  const SNAPSHOT_WRITTEN := 3
  const KEY_WRITTEN := 4
  const ALL_WRITTEN := 5

  const REFUSAL_WRITTEN := 1
  const REFUSAL_SUMMED := 2

  function RequestOf(cr: Creator): Request {
    match cr
    case Arrived(req) => req
    case Writing(draft, _, _) => draft.job.req
    case Finished(req, _, _) => req
    case Authorized(job) => job.req
    case Missed(job) => job.req
    case Dated(job, _) => job.req
    case Locked(job, _) => job.req
    case PlanRead(job, _, _, _) => job.req
    case Unpressured(job, _, _) => job.req
    case Admitted(job, _, _, _) => job.req
    case Blocked(job, _, _, _) => job.req
    case Collided(job) => job.req
  }

  /** The advisory lock a creator holds. */
  function LockOf(cr: Creator): Option<(TenantId, Month)> {
    match cr
    case Locked(job, month) => Some((job.req.tenant, month))
    case PlanRead(job, month, _, _) => Some((job.req.tenant, month))
    case Unpressured(job, month, _) => Some((job.req.tenant, month))
    case Admitted(job, month, _, _) => Some((job.req.tenant, month))
    case Blocked(job, month, _, _) => Some((job.req.tenant, month))
    case Writing(draft, _, _) => Some((draft.job.req.tenant, draft.month))
    case _ => None
  }

  function ScanRowOf(d: Draft): ScanRow {
    ScanRow(d.job.req.tenant, d.month, d.job.units, d.included, Pending, Reserved, d.job.fingerprint)
  }

  function ReservedRow(d: Draft): LedgerRow {
    LedgerRow(d.job.req.tenant, Some(d.scan), ScanReserved, d.month, d.job.units, d.cents)
  }

  /** The scan_blocked_quota row that authorizeScan inserts before it throws. */
  function RefusalRow(job: Job, month: Month): LedgerRow {
    LedgerRow(job.req.tenant, None, ScanBlockedQuota, month, job.units, 0)
  }

  /** The ledger rows a transaction has inserted so far, visible to itself only. */
  function OwnRows(cr: Creator): seq<LedgerRow> {
    if cr.Blocked? && cr.done >= REFUSAL_WRITTEN then [RefusalRow(cr.job, cr.month)]
    else if cr.Writing? && cr.done >= LEDGER_WRITTEN then [ReservedRow(cr.draft)]
    else []
  }

  function KeyOf(d: Draft): (TenantId, Key) { (d.job.req.tenant, d.job.req.key) }

  /** enqueueScanRequested: ON CONFLICT replaces the payload. */
  function Enqueue(outbox: map<ScanId, Message>, d: Draft): map<ScanId, Message> {
    outbox[d.scan := Message(d.job.req.tenant, d.scan)]
  }

  /** What COMMIT publishes. */
  function CommitDraft(db: Db, d: Draft, figures: Figures): Db {
    db.(scans := db.scans[d.scan := ScanRowOf(d)],
        ledger := db.ledger + [ReservedRow(d)],
        keys := db.keys[KeyOf(d) := KeyRow(Some(d.job.fingerprint), d.scan)],
        outbox := Enqueue(db.outbox, d),
        snapshots := UpsertSnapshot(db.snapshots, d.job.req.tenant, d.month, figures))
  }

  function StoredFingerprint(row: KeyRow, scan: ScanRow): Fingerprint {
    if row.fingerprint.Some? then row.fingerprint.value else scan.fingerprint
  }

  /** selectExisting: the idempotency row joined with its scan. */
  function SelectExisting(db: Db, req: Request): Option<(ScanId, Fingerprint)> {
    var k := (req.tenant, req.key);
    if k in db.keys && db.keys[k].scan in db.scans && db.scans[db.keys[k].scan].tenant == req.tenant
    then Some((db.keys[k].scan, StoredFingerprint(db.keys[k], db.scans[db.keys[k].scan])))
    else None
  }

  /** Answer for a key that is already bound. */
  function Resolve(job: Job, scan: ScanId, stored: Fingerprint): Creator {
    Finished(job.req, Some(job.fingerprint), if stored == job.fingerprint then Replayed(scan) else KeyConflict)
  }

  /** Quota decision of authorizeScan, after getUsageCounts. */
  ghost function Decide(db: Db, job: Job, month: Month, plan: Plan): Creator {
    if Unmetered(plan) then Admitted(job, month, false, Cents(job.units * plan.unitMicros))
    else if Usage(db.scans, job.req.tenant, month) + job.units > plan.quotaLimit.value
      then Blocked(job, month, 0, NOTHING)
    else Admitted(job, month, true, 0)
  }

  /** The next statement of a creator, where it needs no choice from outside. */
  ghost function Statement(c: Config, db: Db, now: Month, cr: Creator): Creator {
    match cr
    case Authorized(job) =>
      var existing := SelectExisting(db, job.req);
      if existing.Some? then Resolve(job, existing.value.0, existing.value.1) else Missed(job)
    case Missed(job) => Dated(job, now)
    case Dated(job, month) => Locked(job, month)
    case Locked(job, month) =>
      var t := job.req.tenant;
      if t !in db.tenants || !db.tenants[t].active then Finished(job.req, Some(job.fingerprint), TenantMissing)
      else
        var plan := PlanDefinition(c, db.tenants[t].plan);
        if plan.None? then Finished(job.req, Some(job.fingerprint), PlanUnsupported)
        else PlanRead(job, month, db.tenants[t].plan, plan.value)
    case PlanRead(job, month, code, plan) =>
      if ActiveCount(db.scans, job.req.tenant) >= ActiveScanLimit(c, code)
      then Finished(job.req, Some(job.fingerprint), TooManyActive)
      else Unpressured(job, month, plan)
    case Unpressured(job, month, plan) => Decide(db, job, month, plan)
    case Blocked(job, month, done, _) =>
      if done == 0 then Blocked(job, month, REFUSAL_WRITTEN, NOTHING)
      else if done == REFUSAL_WRITTEN then
        Blocked(job, month, REFUSAL_SUMMED, FoldLedger(db.ledger + OwnRows(cr), job.req.tenant, month))
      else Finished(job.req, Some(job.fingerprint), QuotaExceeded)
    case Writing(d, done, figures) =>
      if done == SCAN_WRITTEN then Writing(d, LEDGER_WRITTEN, figures)
      else if done == LEDGER_WRITTEN then
        Writing(d, SNAPSHOT_WRITTEN, FoldLedger(db.ledger + OwnRows(cr), d.job.req.tenant, d.month))
      else if done == SNAPSHOT_WRITTEN then
        (if KeyOf(d) in db.keys then Collided(d.job) else Writing(d, KEY_WRITTEN, figures))
      else if done == KEY_WRITTEN then Writing(d, ALL_WRITTEN, figures)
      else cr
    case Collided(job) =>
      var existing := SelectExisting(db, job.req);
      if existing.Some? then Resolve(job, existing.value.0, existing.value.1)
      else Finished(job.req, Some(job.fingerprint), UniqueViolation)
    case _ => cr
  }

  // ---------------------------------------------------------------- backfills

  datatype Candidate = Candidate(scan: ScanId, row: ScanRow, plan: PlanCode)

  // prices is the configuration the script reads from its own environment
  datatype Backfill =
    | Waiting(prices: Config, todo: seq<Candidate>)
    // the scan row is updated and locked; wrote: the ledger INSERT took effect
    | Holding(prices: Config, todo: seq<Candidate>, cand: Candidate, cents: int, done: nat, wrote: bool,
        figures: Figures)

  /** The state finalStateForScanStatus maps a finished scan to. */
  function FinalState(status: Status): BillingState { if status == Done then Consumed else Refunded }

  function FinalEvent(status: Status): EventType { if status == Done then ScanConsumed else ScanRefunded }

  /** amountForScan, with the sign applyCandidate gives a refund. */
  function SettlementCents(cand: Candidate, plan: Plan): int {
    var amount := if cand.row.included then 0 else Cents(cand.row.units * plan.unitMicros);
    if cand.row.status == Done then amount else -amount
  }

  function SettlementRow(cand: Candidate, cents: int): LedgerRow {
    LedgerRow(cand.row.tenant, Some(cand.scan), FinalEvent(cand.row.status), cand.row.month, cand.row.units, cents)
  }

  predicate Unsettled(ledger: seq<LedgerRow>, scan: ScanId) {
    CountEvents(ledger, scan, ScanConsumed) == 0 && CountEvents(ledger, scan, ScanRefunded) == 0
  }

  /** A row findCandidates may return. */
  predicate IsCandidate(db: Db, cand: Candidate) {
    && cand.scan in db.scans && db.scans[cand.scan] == cand.row
    && cand.row.billing == Reserved
    && (cand.row.status == Done || cand.row.status == Failed)
    && cand.row.tenant in db.tenants && db.tenants[cand.row.tenant].plan == cand.plan
    && Unsettled(db.ledger, cand.scan)
  }

  function HeldScan(b: Backfill): Option<ScanId> {
    if b.Holding? then Some(b.cand.scan) else None
  }

  function OwnLedger(db: Db, b: Backfill): seq<LedgerRow>
    requires b.Holding?
  {
    if b.wrote then db.ledger + [SettlementRow(b.cand, b.cents)] else db.ledger
  }

  /** The row is still as findCandidates saw it. */
  predicate Stands(db: Db, cand: Candidate) {
    cand.scan in db.scans && db.scans[cand.scan].billing == Reserved && db.scans[cand.scan].status == cand.row.status
  }

  /** UPDATE scans ... WHERE billing_state = 'RESERVED' AND status = the candidate's. */
  function TakeCandidate(db: Db, b: Backfill): Backfill
    requires b.Waiting? && b.todo != []
  {
    var cand := b.todo[0];
    var plan := PlanDefinition(b.prices, cand.plan);
    if plan.None? then b.(todo := [])
    else if Stands(db, cand)
    then Holding(b.prices, b.todo[1..], cand, SettlementCents(cand, plan.value), 1, false, NOTHING)
    else b.(todo := b.todo[1..])
  }

  /** INSERT ... WHERE NOT EXISTS, then the snapshot refresh. */
  function BackfillStatement(db: Db, b: Backfill): Backfill
    requires b.Holding?
  {
    if b.done == 1 then
      b.(done := 2, wrote := CountEvents(db.ledger, b.cand.scan, FinalEvent(b.cand.row.status)) == 0)
    else
      b.(done := 3, figures := FoldLedger(OwnLedger(db, b), b.cand.row.tenant, b.cand.row.month))
  }

  function SetBilling(scans: map<ScanId, ScanRow>, id: ScanId, state: BillingState): map<ScanId, ScanRow> {
    if id in scans then scans[id := scans[id].(billing := state)] else scans
  }

  function CommitBackfill(db: Db, b: Backfill): Db
    requires b.Holding?
  {
    db.(scans := SetBilling(db.scans, b.cand.scan, FinalState(b.cand.row.status)),
        ledger := OwnLedger(db, b),
        snapshots := UpsertSnapshot(db.snapshots, b.cand.row.tenant, b.cand.row.month, b.figures))
  }

  // ---------------------------------------------------------------- worker, retention, administration

  function SetStatus(scans: map<ScanId, ScanRow>, id: ScanId, status: Status): map<ScanId, ScanRow> {
    if id in scans then scans[id := scans[id].(status := status)] else scans
  }

  function LastReserved(ledger: seq<LedgerRow>, id: ScanId): Option<LedgerRow> {
    if ledger == [] then None
    else
      var last := ledger[|ledger| - 1];
      if last.scan == Some(id) && last.event == ScanReserved then Some(last)
      else LastReserved(ledger[..|ledger| - 1], id)
  }

  /** transitionBillingState: the worker settles inside the transaction that finishes the scan. */
  function WorkerSettle(db: Db, id: ScanId, status: Status): Db {
    var finished := db.(scans := SetBilling(SetStatus(db.scans, id, status), id, FinalState(status)));
    var reserved := LastReserved(db.ledger, id);
    if reserved.None? || CountEvents(db.ledger, id, FinalEvent(status)) != 0 then finished
    else
      var cents := if status == Failed then 0 else reserved.value.cents;
      finished.(ledger := db.ledger + [reserved.value.(event := FinalEvent(status), cents := cents)])
  }

  /** Retention: DELETE FROM scans, with ON DELETE CASCADE and ON DELETE SET NULL. */
  function DeleteScans(db: Db, gone: set<ScanId>): Db {
    db.(scans := db.scans - gone,
        ledger := NullScans(db.ledger, gone),
        keys := map k | k in db.keys && db.keys[k].scan !in gone :: db.keys[k])
  }

  /** closeBillingMonth's UPDATE. */
  function CloseMonth(db: Db, m: Month): Db {
    db.(snapshots := map k | k in db.snapshots ::
      if k.1 == m then db.snapshots[k].(closed := true) else db.snapshots[k])
  }

  // ---------------------------------------------------------------- the customer's overview

  // getTenantBillingOverview takes no advisory lock: the figures it has summed up, not yet committed
  datatype Overview = Overview(tenant: TenantId, month: Month, figures: Figures)

  // ---------------------------------------------------------------- the machine

  type Pid = nat

  datatype State = State(db: Db, creators: map<Pid, Creator>, backfills: map<Pid, Backfill>,
                         overviews: map<Pid, Overview>, now: Month, used: set<ScanId>)

  datatype Event =
    | Arrive(p: Pid, req: Request)
    | Authorize(p: Pid, fingerprint: Fingerprint, units: nat)
    | RefuseTargets(p: Pid)
    | Proceed(p: Pid)
    | InsertScan(p: Pid, scan: ScanId)
    | Commit(p: Pid)
    | LoseCommitAnswer(p: Pid)          // committed, but the caller saw an error
    | Break(p: Pid)                     // a statement failed; ROLLBACK
    | FindCandidates(p: Pid, prices: Config, todo: seq<Candidate>)
    | Take(p: Pid)
    | Settle(p: Pid)
    | CommitSettlement(p: Pid)
    | StopBackfill(p: Pid)
    | SumOverview(p: Pid, tenant: TenantId, month: Month)
    | StoreOverview(p: Pid)
    | DropOverview(p: Pid)
    | WorkerStart(scan: ScanId)
    | WorkerRetry(scan: ScanId)
    | WorkerFinish(scan: ScanId, status: Status)
    | FinishUnbilled(scan: ScanId, status: Status)   // scans finished before the worker settled them
    | Retain(gone: set<ScanId>)
    | ExpireKeys(expired: set<(TenantId, Key)>)
    | SetActive(tenant: TenantId, on: bool)
    | NextMonth(month: Month)
    | CloseBilling(month: Month)

  /** No backfill holds the row lock of this scan. */
  ghost predicate RowFree(s: State, id: ScanId) {
    forall b :: b in s.backfills ==> HeldScan(s.backfills[b]) != Some(id)
  }

  /** Enabledness: a statement that would wait for a lock is not enabled. */
  ghost predicate Enabled(s: State, e: Event) {
    match e
    case Arrive(p, _) => p !in s.creators
    case Authorize(p, _, units) => p in s.creators && s.creators[p].Arrived? && 1 <= units
    case RefuseTargets(p) => p in s.creators && s.creators[p].Arrived?
    case Proceed(p) =>
      && p in s.creators
      && (s.creators[p].Dated? ==>
            forall q :: q in s.creators ==>
              LockOf(s.creators[q]) != Some((s.creators[p].job.req.tenant, s.creators[p].month)))
      && (s.creators[p].Writing? && s.creators[p].done == SNAPSHOT_WRITTEN ==>
            forall q :: q in s.creators && s.creators[q].Writing? && s.creators[q].done >= KEY_WRITTEN ==>
              KeyOf(s.creators[q].draft) != KeyOf(s.creators[p].draft))
    case InsertScan(p, scan) => p in s.creators && s.creators[p].Admitted? && scan !in s.used
    case Commit(p) => p in s.creators && s.creators[p].Writing? && s.creators[p].done == ALL_WRITTEN
    case LoseCommitAnswer(p) => p in s.creators && s.creators[p].Writing? && s.creators[p].done == ALL_WRITTEN
    case Break(p) => p in s.creators && !s.creators[p].Finished?
    case FindCandidates(p, _, todo) => p !in s.backfills && forall i :: 0 <= i < |todo| ==> IsCandidate(s.db, todo[i])
    case Take(p) =>
      p in s.backfills && s.backfills[p].Waiting? && s.backfills[p].todo != []
          && RowFree(s, s.backfills[p].todo[0].scan)
    case Settle(p) => p in s.backfills && s.backfills[p].Holding? && s.backfills[p].done < 3
    case CommitSettlement(p) => p in s.backfills && s.backfills[p].Holding? && s.backfills[p].done == 3
    case StopBackfill(p) => p in s.backfills
    // the month was read from the clock before
    case SumOverview(p, t, m) =>
      p !in s.overviews && t in s.db.tenants && !s.db.tenants[t].plan.Unsupported? && m <= s.now
    case StoreOverview(p) => p in s.overviews
    case DropOverview(p) => p in s.overviews
    case WorkerStart(id) => id in s.db.scans && s.db.scans[id].status == Pending && RowFree(s, id)
    case WorkerRetry(id) => id in s.db.scans && s.db.scans[id].status == InProgress && RowFree(s, id)
    case WorkerFinish(id, status) =>
      && id in s.db.scans && RowFree(s, id)
      && ((status == Done && s.db.scans[id].status == InProgress)
        || (status == Failed && Active(s.db.scans[id].status)))
    case FinishUnbilled(id, status) =>
      && id in s.db.scans && RowFree(s, id)
      && ((status == Done && s.db.scans[id].status == InProgress)
        || (status == Failed && Active(s.db.scans[id].status)))
    case Retain(gone) =>
      forall id :: id in gone && id in s.db.scans ==> !Active(s.db.scans[id].status) && RowFree(s, id)
    case ExpireKeys(_) => true
    case SetActive(t, _) => t in s.db.tenants
    case NextMonth(m) => s.now < m
    case CloseBilling(m) => m < s.now && (exists k :: k in s.db.snapshots && k.1 == m)
                            && forall k :: k in s.db.snapshots && k.1 == m ==> !s.db.snapshots[k].closed
  }

  function Put(s: State, p: Pid, cr: Creator): State { s.(creators := s.creators[p := cr]) }

  function FinishedAs(cr: Creator, outcome: Outcome): Creator {
    Finished(RequestOf(cr), if cr.Writing? then Some(cr.draft.job.fingerprint) else None, outcome)
  }

  /** The committed tables after an event. */
  ghost function DbAfter(s: State, e: Event): Db
    requires Enabled(s, e)
  {
    match e
    case Commit(p) => CommitDraft(s.db, s.creators[p].draft, s.creators[p].figures)
    case LoseCommitAnswer(p) => CommitDraft(s.db, s.creators[p].draft, s.creators[p].figures)
    case CommitSettlement(p) => CommitBackfill(s.db, s.backfills[p])
    case StoreOverview(p) =>
      var o := s.overviews[p];
      s.db.(snapshots := UpsertSnapshot(s.db.snapshots, o.tenant, o.month, o.figures))
    case WorkerStart(id) => s.db.(scans := SetStatus(s.db.scans, id, InProgress))
    case WorkerRetry(id) => s.db.(scans := SetStatus(s.db.scans, id, Pending))
    case WorkerFinish(id, status) => WorkerSettle(s.db, id, status)
    case FinishUnbilled(id, status) => s.db.(scans := SetStatus(s.db.scans, id, status))
    case Retain(gone) => DeleteScans(s.db, gone)
    case ExpireKeys(expired) => s.db.(keys := s.db.keys - expired)
    case SetActive(t, on) => s.db.(tenants := s.db.tenants[t := s.db.tenants[t].(active := on)])
    case CloseBilling(m) => CloseMonth(s.db, m)
    case _ => s.db
  }

  /** The request transactions after an event. */
  ghost function CreatorsAfter(c: Config, s: State, e: Event): map<Pid, Creator>
    requires Enabled(s, e)
  {
    match e
    case Arrive(p, req) => s.creators[p := Arrived(req)]
    case Authorize(p, fp, units) => s.creators[p := Authorized(Job(s.creators[p].req, fp, units))]
    case RefuseTargets(p) => s.creators[p := FinishedAs(s.creators[p], TargetsRefused)]
    case Proceed(p) => s.creators[p := Statement(c, s.db, s.now, s.creators[p])]
    case InsertScan(p, scan) =>
      var cr := s.creators[p];
      s.creators[p := Writing(Draft(cr.job, cr.month, cr.included, cr.cents, scan), SCAN_WRITTEN, NOTHING)]
    case Commit(p) => s.creators[p := FinishedAs(s.creators[p], Created(s.creators[p].draft.scan))]
    case LoseCommitAnswer(p) => s.creators[p := FinishedAs(s.creators[p], Broken)]
    case Break(p) => s.creators[p := FinishedAs(s.creators[p], Broken)]
    case _ => s.creators
  }

  /** The backfills after an event. */
  ghost function BackfillsAfter(s: State, e: Event): map<Pid, Backfill>
    requires Enabled(s, e)
  {
    match e
    case FindCandidates(p, prices, todo) => s.backfills[p := Waiting(prices, todo)]
    case Take(p) => s.backfills[p := TakeCandidate(s.db, s.backfills[p])]
    case Settle(p) => s.backfills[p := BackfillStatement(s.db, s.backfills[p])]
    case CommitSettlement(p) => s.backfills[p := Waiting(s.backfills[p].prices, s.backfills[p].todo)]
    case StopBackfill(p) => s.backfills - {p}
    case _ => s.backfills
  }

  /** The open overviews after an event. */
  ghost function OverviewsAfter(s: State, e: Event): map<Pid, Overview>
    requires Enabled(s, e)
  {
    match e
    case SumOverview(p, t, m) => s.overviews[p := Overview(t, m, FoldLedger(s.db.ledger, t, m))]
    case StoreOverview(p) => s.overviews - {p}
    case DropOverview(p) => s.overviews - {p}
    case _ => s.overviews
  }

  ghost function Next(c: Config, s: State, e: Event): State
    requires Enabled(s, e)
  {
    State(DbAfter(s, e), CreatorsAfter(c, s, e), BackfillsAfter(s, e), OverviewsAfter(s, e),
          if e.NextMonth? then e.month else s.now, if e.InsertScan? then s.used + {e.scan} else s.used)
  }

  /** A run: every event is enabled where it happens. */
  ghost predicate IsRun(c: Config, s: State, events: seq<Event>)
    decreases |events|
  {
    events == [] || (Enabled(s, events[0]) && IsRun(c, Next(c, s, events[0]), events[1..]))
  }

  ghost function After(c: Config, s: State, events: seq<Event>): State
    requires IsRun(c, s, events)
    decreases |events|
  {
    if events == [] then s else After(c, Next(c, s, events[0]), events[1..])
  }

  /** An installation with tenants but no scans, keys, events or requests yet. */
  ghost predicate Fresh(s: State) {
    && s.db.scans == map[] && s.db.ledger == [] && s.db.keys == map[] && s.db.outbox == map[]
    && s.db.snapshots == map[] && s.creators == map[] && s.backfills == map[] && s.overviews == map[]
    && s.used == {}
  }
}
