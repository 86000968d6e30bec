// What single steps do to the numbers that decide about the next request: usage,
// active scans, keys, tenants and closed months.
module IntakeEffects {
  import opened Wrappers
  import opened Tables
  import opened Billing
  import opened Intake

  // ---------------------------------------------------------------- usage and active scans

  /** getUsageCounts and getActiveScanCount, all three sums. */
  datatype Load = Load(included: int, payg: int, active: int)

  ghost function LoadOf(db: Db, t: TenantId, m: Month): Load {
    Load(Usage(db.scans, t, m), Total(db.scans, PaygUnits(t, m)), ActiveCount(db.scans, t))
  }

  /** The share of one scan: its units until it fails, and one active scan until it is finished. */
  function Share(r: ScanRow, t: TenantId, m: Month): Load {
    var counts := r.tenant == t && r.month == m && r.status in {Pending, InProgress, Done};
    Load(if counts && r.included then r.units else 0,
         if counts && !r.included then r.units else 0,
         if r.tenant == t && r.status in {Pending, InProgress} then 1 else 0)
  }

  ghost predicate Moves(before: Load, less: Load, more: Load, after: Load) {
    && after.included == before.included - less.included + more.included
    && after.payg == before.payg - less.payg + more.payg
    && after.active == before.active - less.active + more.active
  }

  lemma OneRowChanges(db: Db, db': Db, id: ScanId, row: ScanRow, t: TenantId, m: Month)
    requires id in db.scans && db'.scans == db.scans[id := row]
    ensures Moves(LoadOf(db, t, m), Share(db.scans[id], t, m), Share(row, t, m), LoadOf(db', t, m))
  {
    TotalUpdate(db.scans, id, row, IncludedUnits(t, m));
    TotalUpdate(db.scans, id, row, PaygUnits(t, m));
    TotalUpdate(db.scans, id, row, ActiveScan(t));
  }

  /** A finished scan is no longer active; its units stay taken if it is done, and are given back if it failed. */
  lemma FinishingMovesLoad(s: State, e: Event, t: TenantId, m: Month)
    requires Enabled(s, e) && (e.WorkerFinish? || e.FinishUnbilled?)
    ensures e.scan in s.db.scans && e.status in {Done, Failed} && s.db.scans[e.scan].status in {Pending, InProgress}
    ensures var r, before, after := s.db.scans[e.scan], LoadOf(s.db, t, m), LoadOf(DbAfter(s, e), t, m);
      var back := if e.status == Failed && r.tenant == t && r.month == m then r.units else 0;
      && after.active == before.active - (if r.tenant == t then 1 else 0)
      && after.included == before.included - (if r.included then back else 0)
      && after.payg == before.payg - (if r.included then 0 else back)
  {
    FinishedRow(s, e);
    FinishedShare(s.db, DbAfter(s, e), e.scan, e.status, t, m);
  }

  /** Finishing is about the one scan, which was active, and about its status. */
  lemma FinishedRow(s: State, e: Event)
    requires Enabled(s, e) && (e.WorkerFinish? || e.FinishUnbilled?)
    ensures e.scan in s.db.scans && e.status in {Done, Failed} && s.db.scans[e.scan].status in {Pending, InProgress}
    ensures exists row :: DbAfter(s, e).scans == s.db.scans[e.scan := row]
                          && row.(billing := s.db.scans[e.scan].billing) == s.db.scans[e.scan].(status := e.status)
  {
    var row := DbAfter(s, e).scans[e.scan];
    assert DbAfter(s, e).scans == s.db.scans[e.scan := row];
  }

  lemma FinishedShare(db: Db, db': Db, id: ScanId, status: Status, t: TenantId, m: Month)
    requires id in db.scans && status in {Done, Failed} && db.scans[id].status in {Pending, InProgress}
    requires exists row :: db'.scans == db.scans[id := row]
                           && row.(billing := db.scans[id].billing) == db.scans[id].(status := status)
    ensures var r, before, after := db.scans[id], LoadOf(db, t, m), LoadOf(db', t, m);
      var back := if status == Failed && r.tenant == t && r.month == m then r.units else 0;
      && after.active == before.active - (if r.tenant == t then 1 else 0)
      && after.included == before.included - (if r.included then back else 0)
      && after.payg == before.payg - (if r.included then 0 else back)
  {
    var row :| db'.scans == db.scans[id := row]
               && row.(billing := db.scans[id].billing) == db.scans[id].(status := status);
    OneRowChanges(db, db', id, row, t, m);
    var r := db.scans[id];
    assert row.tenant == r.tenant && row.month == r.month && row.units == r.units && row.included == r.included
        && row.status == status;
  }

  /** Starting a scan and trying it again move nothing. */
  lemma StartingKeepsLoad(s: State, e: Event, t: TenantId, m: Month)
    requires Enabled(s, e) && (e.WorkerStart? || e.WorkerRetry?)
    ensures LoadOf(DbAfter(s, e), t, m) == LoadOf(s.db, t, m)
  {
    var db' := DbAfter(s, e);
    OneRowChanges(s.db, db', e.scan, db'.scans[e.scan], t, m);
  }

  /** A creation takes its units, inside the quota or beside it, and one active scan, from its own tenant and month. */
  lemma CreationAddsLoad(s: State, e: Event, t: TenantId, m: Month)
    requires Enabled(s, e) && (e.Commit? || e.LoseCommitAnswer?) && s.creators[e.p].draft.scan !in s.db.scans
    ensures var d, before, after := s.creators[e.p].draft, LoadOf(s.db, t, m), LoadOf(DbAfter(s, e), t, m);
      var ours := d.job.req.tenant == t;
      && after.active == before.active + (if ours then 1 else 0)
      && after.included == before.included + (if ours && d.month == m && d.included then d.job.units else 0)
      && after.payg == before.payg + (if ours && d.month == m && !d.included then d.job.units else 0)
  {
    var d := s.creators[e.p].draft;
    TotalInsert(s.db.scans, d.scan, ScanRowOf(d), IncludedUnits(t, m));
    TotalInsert(s.db.scans, d.scan, ScanRowOf(d), PaygUnits(t, m));
    TotalInsert(s.db.scans, d.scan, ScanRowOf(d), ActiveScan(t));
  }

  // ---------------------------------------------------------------- keys

  /** The scan that a key leads to: of this tenant, and not deleted. */
  predicate LeadsTo(db: Db, req: Request, id: ScanId) {
    var k := (req.tenant, req.key);
    k in db.keys && db.keys[k].scan == id && id in db.scans && db.scans[id].tenant == req.tenant
  }

  /** The fingerprint on the key's row counts; rows without one are compared by their scan's. */
  predicate BoundAs(db: Db, req: Request, id: ScanId, fingerprint: Fingerprint) {
    && LeadsTo(db, req, id)
    && var row := db.keys[(req.tenant, req.key)];
       && (row.fingerprint.Some? ==> fingerprint == row.fingerprint.value)
       && (row.fingerprint.None? ==> fingerprint == db.scans[id].fingerprint)
  }

  lemma ExistingIsBound(db: Db, req: Request)
    ensures SelectExisting(db, req) == None <==> forall id :: !LeadsTo(db, req, id)
    ensures SelectExisting(db, req).Some? ==>
      BoundAs(db, req, SelectExisting(db, req).value.0, SelectExisting(db, req).value.1)
  {
    if SelectExisting(db, req).Some? {
      assert LeadsTo(db, req, SelectExisting(db, req).value.0);
    }
  }

  /** Retention takes a key along with its scan, and leaves every other key as it was. */
  lemma RetentionTakesKeys(s: State, gone: set<ScanId>, req: Request)
    requires Enabled(s, Retain(gone))
    ensures var k, db' := (req.tenant, req.key), DbAfter(s, Retain(gone));
      && (k in db'.keys <==> k in s.db.keys && s.db.keys[k].scan !in gone)
      && (k in db'.keys ==> db'.keys[k] == s.db.keys[k])
      && SelectExisting(db', req)
         == if SelectExisting(s.db, req).Some? && SelectExisting(s.db, req).value.0 in gone then None
            else SelectExisting(s.db, req)
  {
  }

  // ---------------------------------------------------------------- tenants, plans, months

  /** A request that has the lock goes on exactly if its tenant is there, active and on a supported plan. */
  lemma TenantDecides(c: Config, db: Db, now: Month, job: Job, month: Month)
    ensures var next := Statement(c, db, now, Locked(job, month));
      var t := job.req.tenant;
      && (next == Finished(job.req, Some(job.fingerprint), TenantMissing) <==>
            !(t in db.tenants && db.tenants[t].active))
      && (next.PlanRead? <==> t in db.tenants && db.tenants[t].active && !db.tenants[t].plan.Unsupported?)
  {
  }

  /** Deactivating a tenant stops its requests at that point; activating it again lets them pass. */
  lemma ActivationDecides(c: Config, s: State, t: TenantId, on: bool, job: Job, month: Month)
    requires Enabled(s, SetActive(t, on)) && job.req.tenant == t && !s.db.tenants[t].plan.Unsupported?
    ensures var db' := DbAfter(s, SetActive(t, on));
      Statement(c, db', s.now, Locked(job, month)).PlanRead? <==> on
  {
    TenantDecides(c, DbAfter(s, SetActive(t, on)), s.now, job, month);
  }

  /** A plan that the backfill does not know ends its run: nothing but stopping is left for it. */
  lemma UnknownPlanEndsTheRun(c: Config, s: State, p: Pid)
    requires Enabled(s, Take(p)) && s.backfills[p].todo[0].plan.Unsupported?
    ensures var s' := Next(c, s, Take(p));
      s'.db == s.db && !Enabled(s', Take(p)) && !Enabled(s', Settle(p)) && !Enabled(s', CommitSettlement(p))
  {
  }

  /** Closing a month closes each of its snapshots, no other one, and changes no figure; it is not enabled again. */
  lemma ClosingAMonth(c: Config, s: State, m: Month)
    requires Enabled(s, CloseBilling(m))
    ensures var s' := Next(c, s, CloseBilling(m));
      && s'.db.snapshots.Keys == s.db.snapshots.Keys
      && (forall k :: k in s.db.snapshots ==>
            s'.db.snapshots[k] == Snapshot(s.db.snapshots[k].figures, s.db.snapshots[k].closed || k.1 == m))
      && (exists k :: k in s.db.snapshots && k.1 == m && !s.db.snapshots[k].closed && s'.db.snapshots[k].closed)
      && m < s.now && !Enabled(s', CloseBilling(m))
  {
    var k :| k in s.db.snapshots && k.1 == m;
    assert Next(c, s, CloseBilling(m)).db.snapshots[k].closed;
  }
}
