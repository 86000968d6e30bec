// Quota and active-scan limits over every interleaving.
module IntakeQuota {
  import opened Wrappers
  import opened Tables
  import opened Billing
  import opened Intake

  // ---------------------------------------------------------------- what the tables must respect

  predicate Metered(c: Config, db: Db, t: TenantId) {
    t in db.tenants && PlanDefinition(c, db.tenants[t].plan).Some?
        && !Unmetered(PlanDefinition(c, db.tenants[t].plan).value)
  }

  function Quota(c: Config, db: Db, t: TenantId): nat
    requires Metered(c, db, t)
  {
    PlanDefinition(c, db.tenants[t].plan).value.quotaLimit.value
  }

  /** The limit in force for a tenant whose plan is supported. */
  function Limit(c: Config, db: Db, t: TenantId): nat
    requires t in db.tenants
  {
    ActiveScanLimit(c, db.tenants[t].plan)
  }

  ghost predicate WithinQuota(c: Config, db: Db) {
    forall t, m :: Metered(c, db, t) ==> Usage(db.scans, t, m) <= Quota(c, db, t)
  }

  // ---------------------------------------------------------------- what a transaction in flight knows

  ghost predicate Fits(c: Config, db: Db, job: Job, m: Month, included: bool) {
    included ==>
      (Metered(c, db, job.req.tenant)
       && Usage(db.scans, job.req.tenant, m) + job.units <= Quota(c, db, job.req.tenant))
  }

  predicate KnowsPlan(c: Config, db: Db, job: Job, plan: Plan) {
    job.req.tenant in db.tenants && PlanDefinition(c, db.tenants[job.req.tenant].plan) == Some(plan)
  }

  ghost predicate CreatorFits(c: Config, db: Db, cr: Creator) {
    match cr
    case PlanRead(job, _, code, plan) => KnowsPlan(c, db, job, plan) && code == db.tenants[job.req.tenant].plan
    case Unpressured(job, _, plan) => KnowsPlan(c, db, job, plan)
    case Admitted(job, m, included, _) => Fits(c, db, job, m, included)
    case Writing(d, _, _) => Fits(c, db, d.job, d.month, d.included) && d.scan !in db.scans
    case _ => true
  }

  /** Two transactions never hold one advisory lock, nor insert one scan id. */
  ghost predicate Separate(s: State) {
    && (forall p, q :: p in s.creators && q in s.creators && p != q && LockOf(s.creators[p]).Some? ==>
          LockOf(s.creators[p]) != LockOf(s.creators[q]))
    && (forall p, q ::
          p in s.creators && q in s.creators && p != q && s.creators[p].Writing? && s.creators[q].Writing? ==>
            s.creators[p].draft.scan != s.creators[q].draft.scan)
    && (forall p :: p in s.creators && s.creators[p].Writing? ==> s.creators[p].draft.scan in s.used)
    && s.db.scans.Keys <= s.used
  }

  ghost predicate QuotaInv(c: Config, s: State) {
    && Separate(s)
    && WithinQuota(c, s.db)
    && forall p :: p in s.creators ==> CreatorFits(c, s.db, s.creators[p])
  }

  // ---------------------------------------------------------------- how one event moves the tables

  /** No usage grows and no plan changes. */
  ghost predicate Shrinks(db: Db, db': Db) {
    && db'.scans.Keys <= db.scans.Keys
    && (forall t, m :: Usage(db'.scans, t, m) <= Usage(db.scans, t, m))
    && (forall t :: ActiveCount(db'.scans, t) <= ActiveCount(db.scans, t))
    && db'.tenants.Keys == db.tenants.Keys
    && (forall t :: t in db.tenants ==> db'.tenants[t].plan == db.tenants[t].plan)
  }

  lemma StatusNeverAddsUsage(scans: map<ScanId, ScanRow>, id: ScanId, status: Status)
    requires id in scans && Active(scans[id].status)
    ensures forall t, m :: Usage(SetStatus(scans, id, status), t, m) <= Usage(scans, t, m)
    ensures forall t :: ActiveCount(SetStatus(scans, id, status), t) <= ActiveCount(scans, t)
  {
    var row := scans[id].(status := status);
    forall t, m ensures Usage(SetStatus(scans, id, status), t, m) <= Usage(scans, t, m) {
      TotalUpdate(scans, id, row, IncludedUnits(t, m));
    }
    forall t ensures ActiveCount(SetStatus(scans, id, status), t) <= ActiveCount(scans, t) {
      TotalUpdate(scans, id, row, ActiveScan(t));
    }
  }

  lemma BillingStateCarriesNoUsage(scans: map<ScanId, ScanRow>, id: ScanId, state: BillingState)
    ensures forall t, m :: Usage(SetBilling(scans, id, state), t, m) == Usage(scans, t, m)
    ensures forall t :: ActiveCount(SetBilling(scans, id, state), t) == ActiveCount(scans, t)
  {
    if id in scans {
      var row := scans[id].(billing := state);
      forall t, m ensures Usage(SetBilling(scans, id, state), t, m) == Usage(scans, t, m) {
        TotalUpdate(scans, id, row, IncludedUnits(t, m));
      }
      forall t ensures ActiveCount(SetBilling(scans, id, state), t) == ActiveCount(scans, t) {
        TotalUpdate(scans, id, row, ActiveScan(t));
      }
    }
  }

  lemma DeletingNeverAddsUsage(scans: map<ScanId, ScanRow>, gone: set<ScanId>)
    ensures forall t, m :: Usage(scans - gone, t, m) <= Usage(scans, t, m)
    ensures forall t :: ActiveCount(scans - gone, t) <= ActiveCount(scans, t)
  {
    forall t, m ensures Usage(scans - gone, t, m) <= Usage(scans, t, m) {
      TotalDelete(scans, gone, IncludedUnits(t, m));
    }
    forall t ensures ActiveCount(scans - gone, t) <= ActiveCount(scans, t) {
      TotalDelete(scans, gone, ActiveScan(t));
    }
  }

  predicate Publishes(e: Event) { e.Commit? || e.LoseCommitAnswer? }

  predicate OfWorker(e: Event) { e.WorkerStart? || e.WorkerRetry? || e.FinishUnbilled? || e.WorkerFinish? }

  lemma WorkerAddsNoUsage(s: State, e: Event)
    requires Enabled(s, e) && OfWorker(e)
    ensures Shrinks(s.db, DbAfter(s, e))
  {
    match e {
      case WorkerStart(id) => StatusNeverAddsUsage(s.db.scans, id, InProgress);
      case WorkerRetry(id) => StatusNeverAddsUsage(s.db.scans, id, Pending);
      case FinishUnbilled(id, status) => StatusNeverAddsUsage(s.db.scans, id, status);
      case WorkerFinish(id, status) =>
        StatusNeverAddsUsage(s.db.scans, id, status);
        BillingStateCarriesNoUsage(SetStatus(s.db.scans, id, status), id, FinalState(status));
    }
  }

  /** Only a creator's commit can add usage. */
  lemma OnlyCommitsAddUsage(s: State, e: Event)
    requires Enabled(s, e) && !Publishes(e)
    ensures Shrinks(s.db, DbAfter(s, e))
  {
    if OfWorker(e) {
      WorkerAddsNoUsage(s, e);
    } else if e.CommitSettlement? {
      var b := s.backfills[e.p];
      BillingStateCarriesNoUsage(s.db.scans, b.cand.scan, FinalState(b.cand.row.status));
    } else if e.Retain? {
      DeletingNeverAddsUsage(s.db.scans, e.gone);
    }
  }

  // ---------------------------------------------------------------- preservation

  lemma ShrinkKeepsFit(c: Config, db: Db, db': Db, cr: Creator)
    requires Shrinks(db, db') && CreatorFits(c, db, cr)
    ensures CreatorFits(c, db', cr)
  {
  }

  /** A creator moves by its own event only; new facts come from Proceed and InsertScan. */
  lemma CreatorMoves(c: Config, s: State, e: Event, p: Pid)
    requires Enabled(s, e) && p in Next(c, s, e).creators
    ensures var cr' := Next(c, s, e).creators[p];
      || (p in s.creators && cr' == s.creators[p])
      || (e == Proceed(p) && cr' == Statement(c, s.db, s.now, s.creators[p]))
      || (e.InsertScan? && p == e.p && s.creators[p].Admitted? && cr'.Writing?
          && cr'.draft == Draft(s.creators[p].job, s.creators[p].month, s.creators[p].included, s.creators[p].cents,
              e.scan))
      || cr'.Arrived? || cr'.Authorized? || cr'.Finished?
  {
  }

  lemma StatementFits(c: Config, db: Db, now: Month, cr: Creator)
    requires CreatorFits(c, db, cr)
    ensures CreatorFits(c, db, Statement(c, db, now, cr))
  {
  }

  /** A creator's decision was taken on the latest committed usage. */
  lemma MovedCreatorFits(c: Config, s: State, e: Event, p: Pid)
    requires Separate(s) && Enabled(s, e) && p in Next(c, s, e).creators
    requires p in s.creators ==> CreatorFits(c, s.db, s.creators[p])
    ensures CreatorFits(c, s.db, Next(c, s, e).creators[p])
  {
    CreatorMoves(c, s, e, p);
    if e == Proceed(p) {
      StatementFits(c, s.db, s.now, s.creators[p]);
    }
  }

  lemma SeparateKept(c: Config, s: State, e: Event)
    requires Separate(s) && Enabled(s, e)
    ensures Separate(Next(c, s, e))
  {
    var s' := Next(c, s, e);
    ScansStayUsed(c, s, e);
    forall p, q | p in s'.creators && q in s'.creators && p != q && LockOf(s'.creators[p]).Some?
      ensures LockOf(s'.creators[p]) != LockOf(s'.creators[q])
    {
      LocksStaySeparate(c, s, e, p, q);
    }
    forall p, q | p in s'.creators && q in s'.creators && p != q && s'.creators[p].Writing? && s'.creators[q].Writing?
      ensures s'.creators[p].draft.scan != s'.creators[q].draft.scan
    {
      DraftIsKeptOrFresh(c, s, e, p);
      DraftIsKeptOrFresh(c, s, e, q);
    }
    forall p | p in s'.creators && s'.creators[p].Writing?
      ensures s'.creators[p].draft.scan in s'.used
    {
      DraftIsKeptOrFresh(c, s, e, p);
    }
  }

  lemma ScansStayUsed(c: Config, s: State, e: Event)
    requires Separate(s) && Enabled(s, e)
    ensures Next(c, s, e).db.scans.Keys <= Next(c, s, e).used
    ensures s.used <= Next(c, s, e).used
  {
  }

  /** A draft's scan id never changes, and is new when the draft starts. */
  lemma DraftIsKeptOrFresh(c: Config, s: State, e: Event, p: Pid)
    requires Enabled(s, e) && p in Next(c, s, e).creators && Next(c, s, e).creators[p].Writing?
    ensures p in s.creators
    ensures var d' := Next(c, s, e).creators[p].draft;
      (s.creators[p].Writing? && s.creators[p].draft == d')
      || (e == InsertScan(p, d'.scan) && d'.scan !in s.used && d'.scan in Next(c, s, e).used)
  {
  }

  lemma LocksStaySeparate(c: Config, s: State, e: Event, p: Pid, q: Pid)
    requires Separate(s) && Enabled(s, e)
    requires var s' := Next(c, s, e); p in s'.creators && q in s'.creators && p != q && LockOf(s'.creators[p]).Some?
    ensures LockOf(Next(c, s, e).creators[p]) != LockOf(Next(c, s, e).creators[q])
  {
    LockOnlyTakenWhenFree(c, s, e, p);
    LockOnlyTakenWhenFree(c, s, e, q);
  }

  lemma StatementLocks(c: Config, db: Db, now: Month, cr: Creator)
    ensures var cr' := Statement(c, db, now, cr);
      LockOf(cr').Some? ==>
        LockOf(cr') == LockOf(cr) || (cr.Dated? && LockOf(cr') == Some((cr.job.req.tenant, cr.month)))
  {
  }

  /** A lock is kept, dropped, or taken by Proceed once the month is read. */
  lemma LockOnlyTakenWhenFree(c: Config, s: State, e: Event, p: Pid)
    requires Enabled(s, e) && p in Next(c, s, e).creators
    ensures var cr' := Next(c, s, e).creators[p];
      LockOf(cr').Some? ==>
        p in s.creators
        && (LockOf(cr') == LockOf(s.creators[p])
            || (e == Proceed(p) && s.creators[p].Dated?
                && LockOf(cr') == Some((s.creators[p].job.req.tenant, s.creators[p].month))))
  {
    CreatorMoves(c, s, e, p);
    if e == Proceed(p) {
      StatementLocks(c, s.db, s.now, s.creators[p]);
    }
  }

  lemma PublishingAddsItsUnits(db: Db, d: Draft, figures: Figures, t: TenantId, m: Month)
    requires d.scan !in db.scans
    ensures Usage(CommitDraft(db, d, figures).scans, t, m)
      == Usage(db.scans, t, m) + if t == d.job.req.tenant && m == d.month && d.included then d.job.units else 0
  {
    TotalInsert(db.scans, d.scan, ScanRowOf(d), IncludedUnits(t, m));
  }

  /** Whoever holds another lock has been admitted for another tenant-month. */
  lemma OthersStillFit(c: Config, db: Db, d: Draft, figures: Figures, cr: Creator)
    requires d.scan !in db.scans && CreatorFits(c, db, cr)
    requires LockOf(cr) != Some((d.job.req.tenant, d.month)) && (cr.Writing? ==> cr.draft.scan != d.scan)
    ensures CreatorFits(c, CommitDraft(db, d, figures), cr)
  {
    if cr.Admitted? {
      PublishingAddsItsUnits(db, d, figures, cr.job.req.tenant, cr.month);
    } else if cr.Writing? {
      PublishingAddsItsUnits(db, d, figures, cr.draft.job.req.tenant, cr.draft.month);
    }
  }

  lemma PublishingKeepsQuota(c: Config, db: Db, d: Draft, figures: Figures)
    requires d.scan !in db.scans && WithinQuota(c, db) && Fits(c, db, d.job, d.month, d.included)
    ensures WithinQuota(c, CommitDraft(db, d, figures))
  {
    forall t, m
      ensures Metered(c, db, t) ==> Usage(CommitDraft(db, d, figures).scans, t, m) <= Quota(c, db, t)
    {
      PublishingAddsItsUnits(db, d, figures, t, m);
    }
  }

  lemma CommitFits(c: Config, s: State, e: Event)
    requires QuotaInv(c, s) && Enabled(s, e) && Publishes(e)
    ensures WithinQuota(c, Next(c, s, e).db)
    ensures forall q :: q in Next(c, s, e).creators ==> CreatorFits(c, Next(c, s, e).db, Next(c, s, e).creators[q])
  {
    var s', cr := Next(c, s, e), s.creators[e.p];
    assert CreatorFits(c, s.db, cr);
    PublishingKeepsQuota(c, s.db, cr.draft, cr.figures);
    forall q | q in s'.creators
      ensures CreatorFits(c, s'.db, s'.creators[q])
    {
      if q != e.p {
        assert LockOf(cr) != LockOf(s.creators[q]) && CreatorFits(c, s.db, s.creators[q]);
        OthersStillFit(c, s.db, cr.draft, cr.figures, s.creators[q]);
      }
    }
  }

  lemma QuotaInvKept(c: Config, s: State, e: Event)
    requires QuotaInv(c, s) && Enabled(s, e)
    ensures QuotaInv(c, Next(c, s, e))
  {
    SeparateKept(c, s, e);
    if Publishes(e) {
      CommitFits(c, s, e);
    } else {
      OnlyCommitsAddUsage(s, e);
      var s' := Next(c, s, e);
      forall p | p in s'.creators
        ensures CreatorFits(c, s'.db, s'.creators[p])
      {
        MovedCreatorFits(c, s, e, p);
        ShrinkKeepsFit(c, s.db, s'.db, s'.creators[p]);
      }
    }
  }

  /** Quota safety: in no interleaving do the counted units of a tenant-month exceed its plan's quota. */
  lemma {:induction false} QuotaSafety(c: Config, s: State, events: seq<Event>)
    requires QuotaInv(c, s) && IsRun(c, s, events)
    ensures QuotaInv(c, After(c, s, events))
    decreases |events|
  {
    if events != [] {
      QuotaInvKept(c, s, events[0]);
      QuotaSafety(c, Next(c, s, events[0]), events[1..]);
    }
  }

  /** From an empty installation: every table a reader can ever see respects every quota. */
  lemma QuotaNeverExceeded(c: Config, s: State, events: seq<Event>, t: TenantId, m: Month)
    requires Fresh(s) && IsRun(c, s, events)
    ensures var db := After(c, s, events).db;
      Metered(c, db, t) ==> Usage(db.scans, t, m) <= Quota(c, db, t)
  {
    QuotaSafety(c, s, events);
  }

  /** Plan by plan, in the quotas of the configuration. */
  lemma QuotaByPlan(c: Config, s: State, events: seq<Event>, t: TenantId, m: Month)
    requires Fresh(s) && IsRun(c, s, events) && t in After(c, s, events).db.tenants
    ensures var db := After(c, s, events).db;
      && (db.tenants[t].plan == Free ==> Usage(db.scans, t, m) <= c.freeQuota)
      && (db.tenants[t].plan == Standard ==> Usage(db.scans, t, m) <= c.standardQuota)
      && (db.tenants[t].plan == Business ==> Usage(db.scans, t, m) <= c.businessQuota)
  {
    QuotaNeverExceeded(c, s, events, t, m);
  }
}
