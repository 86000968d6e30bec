// The services as they run: methods over the mutable tables, one statement after
// another, with BEGIN, COMMIT and ROLLBACK. Each is proved to take the steps of the
// Intake machine, so what holds of every run of the machine holds of these methods.
module IntakeStore {
  import opened Wrappers
  import opened Tables
  import opened Billing
  import opened Intake
  import opened IntakeLedger
  import opened IntakeRuns
  import opened IntakeEffects

  datatype ScanProfile = Web | Entra | Infra | Full

  /** resolveBillingUnitsForAuthorizedScan */
  function BillingUnits(profile: ScanProfile, subscriptions: nat): (units: nat)
    ensures profile.Infra? || profile.Full? ==> units >= 1 && units >= subscriptions && units in {1, subscriptions}
    ensures !profile.Infra? && !profile.Full? ==> units == 1
  {
    if (profile.Infra? || profile.Full?) && subscriptions > 1 then subscriptions else 1
  }

  datatype Closing = Closed(count: nat) | NotCompleted | NotInitialized | AlreadyClosed

  datatype Targets = Refused | Granted(fingerprint: Fingerprint, subscriptions: nat)

  // ---------------------------------------------------------------- a request alone in the machine

  ghost function NextStatement(c: Config, db: Db, now: Month): Creator -> Creator {
    cr => Statement(c, db, now, cr)
  }

  ghost function Iterate(f: Creator -> Creator, cr: Creator, n: nat): Creator {
    if n == 0 then cr else f(Iterate(f, cr, n - 1))
  }

  ghost function StatementsFrom(c: Config, db: Db, now: Month, cr: Creator, n: nat): Creator {
    Iterate(NextStatement(c, db, now), cr, n)
  }

  function Proceeds(p: Pid, n: nat): seq<Event> {
    if n == 0 then [] else Proceeds(p, n - 1) + [Proceed(p)]
  }

  function Alone(db: Db, now: Month, cr: Creator): State {
    State(db, map[0 := cr], map[], map[], now, db.scans.Keys)
  }

  lemma {:induction false} AloneProceeds(c: Config, db: Db, now: Month, cr: Creator, n: nat)
    ensures Reaches(c, Alone(db, now, cr), Proceeds(0, n), Alone(db, now, StatementsFrom(c, db, now, cr, n)))
  {
    if n > 0 {
      AloneProceeds(c, db, now, cr, n - 1);
      var mid := Alone(db, now, StatementsFrom(c, db, now, cr, n - 1));
      var s' := Alone(db, now, StatementsFrom(c, db, now, cr, n));
      assert Put(mid, 0, s'.creators[0]) == s';
      OneStep(c, mid, Proceed(0), s');
      Chain(c, Alone(db, now, cr), Proceeds(0, n - 1), mid, [Proceed(0)], s');
    }
  }

  /** From the moment a request arrives, with nothing else running, the machine can end like this. */
  ghost predicate MachineCan(c: Config, db: Db, now: Month, req: Request, outcome: Outcome, db': Db) {
    exists events, s', fp ::
      Reaches(c, Alone(db, now, Arrived(req)), events, s') && s'.db == db'
          && s'.creators == map[0 := Finished(req, fp, outcome)]
  }

  const TO_DECISION := 9

  lemma DecisionIsARun(c: Config, db: Db, now: Month, job: Job, cr: Creator)
    requires 1 <= job.units && cr == StatementsFrom(c, db, now, Authorized(job), TO_DECISION)
    ensures Reaches(c, Alone(db, now, Arrived(job.req)),
                    [Authorize(0, job.fingerprint, job.units)] + Proceeds(0, TO_DECISION),
                    Alone(db, now, cr))
  {
    var s, mid := Alone(db, now, Arrived(job.req)), Alone(db, now, Authorized(job));
    assert Put(s, 0, Authorized(job)) == mid;
    OneStep(c, s, Authorize(0, job.fingerprint, job.units), mid);
    AloneProceeds(c, db, now, Authorized(job), TO_DECISION);
    Chain(c, s, [Authorize(0, job.fingerprint, job.units)], mid, Proceeds(0, TO_DECISION), Alone(db, now, cr));
  }

  lemma RefusalIsARun(c: Config, db: Db, now: Month, job: Job, cr: Creator)
    requires 1 <= job.units && cr == StatementsFrom(c, db, now, Authorized(job), TO_DECISION)
    requires cr.Finished? && cr.req == job.req
    ensures MachineCan(c, db, now, job.req, cr.outcome, db)
  {
    DecisionIsARun(c, db, now, job, cr);
  }

  lemma CreationIsARun(c: Config, db: Db, now: Month, job: Job, cr: Creator, scan: ScanId)
    requires 1 <= job.units && cr == StatementsFrom(c, db, now, Authorized(job), TO_DECISION)
    requires cr.Admitted? && cr.job == job && scan !in db.scans && (job.req.tenant, job.req.key) !in db.keys
    ensures var d := DraftOf(cr, scan);
      MachineCan(c, db, now, job.req, Created(scan), CommitDraft(db, d, FiguresFor(db, d)))
  {
    var d := DraftOf(cr, scan);
    var s, mid := Alone(db, now, Arrived(job.req)), Alone(db, now, cr);
    DecisionIsARun(c, db, now, job, cr);
    var s' := Put(mid, 0, Finished(d.job.req, Some(d.job.fingerprint), Created(scan)))
                .(db := CommitDraft(db, d, FiguresFor(db, d)), used := mid.used + {scan});
    SoloPublication(c, mid, 0, scan, s');
    var decision := [Authorize(0, job.fingerprint, job.units)] + Proceeds(0, TO_DECISION);
    Chain(c, s, decision, mid, PublicationEvents(0, scan), s');
    assert s'.creators == map[0 := Finished(job.req, Some(job.fingerprint), Created(scan))];
  }

  /** A key that another scan already has: nothing is left of the request's writes, and the recovery read decides. */
  lemma CollisionIsARun(c: Config, db: Db, now: Month, job: Job, cr: Creator, scan: ScanId, end: Creator)
    requires 1 <= job.units && cr == StatementsFrom(c, db, now, Authorized(job), TO_DECISION)
    requires cr.Admitted? && cr.job == job && scan !in db.scans && (job.req.tenant, job.req.key) in db.keys
    requires end == Statement(c, db, now, Collided(job))
    ensures MachineCan(c, db, now, job.req, end.outcome, db)
  {
    var s, mid := Alone(db, now, Arrived(job.req)), Alone(db, now, cr);
    DecisionIsARun(c, db, now, job, cr);
    var s' := Put(mid, 0, end).(used := mid.used + {scan});
    CollisionEnds(c, mid, job, scan, end, s');
    var decision := [Authorize(0, job.fingerprint, job.units)] + Proceeds(0, TO_DECISION);
    Chain(c, s, decision, mid, RefreshEvents(0, scan) + [Proceed(0)] + [Proceed(0)], s');
    assert s'.creators == map[0 := end];
  }

  /** From the decision on: the INSERTs up to the key that is taken, ROLLBACK, and the recovery read. */
  lemma CollisionEnds(c: Config, s: State, job: Job, scan: ScanId, end: Creator, s': State)
    requires 0 in s.creators && s.creators[0].Admitted? && s.creators[0].job == job && s.creators.Keys == {0}
    requires scan !in s.used && (job.req.tenant, job.req.key) in s.db.keys
    requires end == Statement(c, s.db, s.now, Collided(job)) && s' == Put(s, 0, end).(used := s.used + {scan})
    ensures Reaches(c, s, RefreshEvents(0, scan) + [Proceed(0)] + [Proceed(0)], s')
  {
    var s1 := Put(s, 0, Collided(job)).(used := s.used + {scan});
    SoloCollision(c, s, 0, scan, s1);
    OneStep(c, s1, Proceed(0), s');
    Chain(c, s, RefreshEvents(0, scan) + [Proceed(0)], s1, [Proceed(0)], s');
  }

  // ---------------------------------------------------------------- SQL aggregates

  /** getUsageCounts */
  method UsageCounts(scans: map<ScanId, ScanRow>, t: TenantId, m: Month) returns (included: int, payg: int)
    ensures included == Usage(scans, t, m)
    ensures payg == Total(scans, PaygUnits(t, m))
  {
    included, payg := 0, 0;
    var rest := scans;
    while rest != map[]
      invariant rest.Keys <= scans.Keys
      invariant included + Total(rest, IncludedUnits(t, m)) == Total(scans, IncludedUnits(t, m))
      invariant payg + Total(rest, PaygUnits(t, m)) == Total(scans, PaygUnits(t, m))
      decreases |rest|
    {
      var id :| id in rest;
      TotalRemove(rest, id, IncludedUnits(t, m));
      TotalRemove(rest, id, PaygUnits(t, m));
      included := included + IncludedUnits(t, m)(rest[id]);
      payg := payg + PaygUnits(t, m)(rest[id]);
      rest := rest - {id};
    }
  }

  /** getActiveScanCount */
  method ActiveScans(scans: map<ScanId, ScanRow>, t: TenantId) returns (count: int)
    ensures count == ActiveCount(scans, t)
  {
    count := 0;
    var rest := scans;
    while rest != map[]
      invariant count + Total(rest, ActiveScan(t)) == Total(scans, ActiveScan(t))
      decreases |rest|
    {
      var id :| id in rest;
      TotalRemove(rest, id, ActiveScan(t));
      count := count + ActiveScan(t)(rest[id]);
      rest := rest - {id};
    }
  }

  /** The aggregate query of upsertSnapshot. */
  method SumLedger(ledger: seq<LedgerRow>, t: TenantId, m: Month) returns (figures: Figures)
    ensures figures == FoldLedger(ledger, t, m) == Columns(ledger, t, m)
    ensures NonnegativeCharges(ledger) ==> figures.Total() == Settled(ledger, t, m)
  {
    figures := NOTHING;
    for i := 0 to |ledger|
      invariant figures == FoldLedger(ledger[..i], t, m)
    {
      assert ledger[..i + 1][..i] == ledger[..i];
      if ledger[i].tenant == t && ledger[i].month == m {
        figures := figures.Plus(RowFigures(ledger[i]));
      }
    }
    assert ledger[..|ledger|] == ledger;
    FoldIsColumns(ledger, t, m);
    if NonnegativeCharges(ledger) {
      TotalIsSettledMoney(ledger, t, m);
    }
  }

  /**
    * The snapshot of one tenant-month says what the ledger says; every
    * other one, and whether a month is closed, stays.
    */
  ghost predicate Refreshed(before: map<(TenantId, Month), Snapshot>, after: map<(TenantId, Month), Snapshot>,
                            ledger: seq<LedgerRow>, t: TenantId, m: Month)
  {
    && after.Keys == before.Keys + {(t, m)}
    && after[(t, m)].figures == FoldLedger(ledger, t, m) == Columns(ledger, t, m)
    && (NonnegativeCharges(ledger) ==> after[(t, m)].figures.Total() == Settled(ledger, t, m))
    && (after[(t, m)].closed <==> (t, m) in before && before[(t, m)].closed)
    && forall k :: k in before && k != (t, m) ==> after[k] == before[k]
  }

  /** It is what the machine's upsert makes of it. */
  lemma RefreshedIsUpsert(before: map<(TenantId, Month), Snapshot>, after: map<(TenantId, Month), Snapshot>,
                          ledger: seq<LedgerRow>, t: TenantId, m: Month)
    requires Refreshed(before, after, ledger, t, m)
    ensures after == UpsertSnapshot(before, t, m, FoldLedger(ledger, t, m))
  {
    var upserted := UpsertSnapshot(before, t, m, FoldLedger(ledger, t, m));
    assert after.Keys == upserted.Keys;
    forall k | k in after ensures after[k] == upserted[k] {
      if k != (t, m) {
        assert k in before;
      }
    }
  }

  function OfMonth(snapshots: map<(TenantId, Month), Snapshot>, m: Month, closedOnly: bool): set<(TenantId, Month)> {
    set k | k in snapshots && k.1 == m && (closedOnly ==> snapshots[k].closed)
  }

  // ---------------------------------------------------------------- the services

  class Services {
    const config: Config
    var tenants: map<TenantId, Tenant>
    var scans: map<ScanId, ScanRow>
    var ledger: seq<LedgerRow>
    var keys: map<(TenantId, Key), KeyRow>
    var outbox: map<ScanId, Message>
    var snapshots: map<(TenantId, Month), Snapshot>

    constructor (config: Config, tenants: map<TenantId, Tenant>)
      ensures this.config == config
      ensures Contents() == Db(tenants, map[], [], map[], map[], map[])
    {
      this.config := config;
      this.tenants := tenants;
      scans, ledger, keys, outbox, snapshots := map[], [], map[], map[], map[];
    }

    function Contents(): Db
      reads this
    {
      Db(tenants, scans, ledger, keys, outbox, snapshots)
    }

    /** ROLLBACK */
    method Restore(db: Db)
      modifies this
      ensures Contents() == db
    {
      tenants, scans, ledger := db.tenants, db.scans, db.ledger;
      keys, outbox, snapshots := db.keys, db.outbox, db.snapshots;
    }

    /** upsertSnapshot */
    method RefreshSnapshot(t: TenantId, m: Month)
      modifies this`snapshots
      ensures Refreshed(old(snapshots), snapshots, ledger, t, m)
    {
      var figures := SumLedger(ledger, t, m);
      if (t, m) in snapshots {
        snapshots := snapshots[(t, m) := snapshots[(t, m)].(figures := figures)];
      } else {
        snapshots := snapshots[(t, m) := Snapshot(figures, false)];
      }
    }

    /** authorizeScan, from the clock to the quota decision. Before the quota error it writes; the caller rolls back. */
    method AuthorizeScan(now: Month, job: Job) returns (cr: Creator)
      modifies this`ledger, this`snapshots
      ensures cr == StatementsFrom(config, old(Contents()), now, Missed(job), 8)
      ensures cr.Admitted? || cr.Finished?
      ensures cr.Finished? ==>
        cr.req == job.req && cr.outcome in {TenantMissing, PlanUnsupported, TooManyActive, QuotaExceeded}
      ensures cr.Admitted? ==> cr.job == job && cr.month == now
      ensures cr.Finished? && cr.outcome.QuotaExceeded? ==>
        && ledger == old(ledger) + [LedgerRow(job.req.tenant, None, ScanBlockedQuota, now, job.units, 0)]
          && Refreshed(old(snapshots), snapshots, ledger, job.req.tenant, now)
      ensures cr.Admitted? || !cr.outcome.QuotaExceeded? ==> Contents() == old(Contents())
      ensures ByPlan(config, old(Contents()), now, job, cr)
    {
      ghost var db := Contents();
      var t := job.req.tenant;
      DecidesInEight(config, db, now, job);
      DecidedByPlan(config, db, now, job);
      if t !in tenants || !tenants[t].active {
        return Finished(job.req, Some(job.fingerprint), TenantMissing);
      }
      var plan := PlanDefinition(config, tenants[t].plan);
      if plan.None? {
        return Finished(job.req, Some(job.fingerprint), PlanUnsupported);
      }
      var active := ActiveScans(scans, t);
      if active >= ActiveScanLimit(config, tenants[t].plan) {
        return Finished(job.req, Some(job.fingerprint), TooManyActive);
      }
      var included, _ := UsageCounts(scans, t, now);
      if Unmetered(plan.value) {
        return Admitted(job, now, false, Cents(job.units * plan.value.unitMicros));
      }
      if included + job.units > plan.value.quotaLimit.value {
        ledger := ledger + [RefusalRow(job, now)];
        RefreshSnapshot(t, now);
        return Finished(job.req, Some(job.fingerprint), QuotaExceeded);
      }
      return Admitted(job, now, true, 0);
    }

    /** The writes of an admitted request, up to COMMIT. */
    method Publish(d: Draft) returns (committed: bool)
      requires d.scan !in scans
      modifies this
      ensures committed <==> KeyOf(d) !in old(keys)
      ensures committed ==> Contents() == CommitDraft(old(Contents()), d, FiguresFor(old(Contents()), d))
      ensures !committed ==> Contents() == old(Contents())
    {
      var before := Contents();
      scans := scans[d.scan := ScanRowOf(d)];
      ledger := ledger + [ReservedRow(d)];
      RefreshSnapshot(d.job.req.tenant, d.month);
      RefreshedIsUpsert(before.snapshots, snapshots, ledger, d.job.req.tenant, d.month);
      if KeyOf(d) in keys {
        Restore(before);
        return false;
      }
      keys := keys[KeyOf(d) := KeyRow(Some(d.job.fingerprint), d.scan)];
      outbox := Enqueue(outbox, d);
      return true;
    }

    /** The catch block after a uniqueness failure: the key is looked up again. */
    method Recover(now: Month, job: Job) returns (cr: Creator)
      ensures cr == Statement(config, Contents(), now, Collided(job)) && cr.Finished? && cr.req == job.req
      ensures cr.outcome.UniqueViolation? <==> SelectExisting(Contents(), job.req) == None
      ensures cr.outcome.Replayed? <==>
        SelectExisting(Contents(), job.req).Some? && SelectExisting(Contents(), job.req).value.1 == job.fingerprint
      ensures cr.outcome.Replayed? ==> cr.outcome.replayed == SelectExisting(Contents(), job.req).value.0
    {
      var existing := SelectExisting(Contents(), job.req);
      if existing.Some? {
        return Resolve(job, existing.value.0, existing.value.1);
      }
      return Finished(job.req, Some(job.fingerprint), UniqueViolation);
    }

    /** From the clock to COMMIT or ROLLBACK, for a request whose key was not found. */
    method CreateAuthorised(now: Month, job: Job, scanId: ScanId) returns (outcome: Outcome)
      requires scanId !in scans && 1 <= job.units && SelectExisting(Contents(), job.req) == None
      modifies this
      ensures outcome == AnswerTo(config, old(Contents()), now, job, scanId)
      ensures MachineCan(config, old(Contents()), now, job.req, outcome, Contents())
      ensures !outcome.Created? ==> Contents() == old(Contents())
      ensures outcome.Created? ==> IsPublished(config, old(Contents()), now, job, scanId, Contents())
    {
      var before := Contents();
      DecidesInEight(config, before, now, job);
      var cr := AuthorizeScan(now, job);
      MissedAfterOne(config, before, now, job, cr);
      if cr.Finished? {
        Restore(before);
        RefusalIsARun(config, before, now, job, cr);
        return cr.outcome;
      }
      var d := DraftOf(cr, scanId);
      var committed := Publish(d);
      if !committed {
        var end := Recover(now, job);
        CollisionIsARun(config, before, now, job, cr, scanId, end);
        return end.outcome;
      }
      CreationIsARun(config, before, now, job, cr, scanId);
      return Created(scanId);
    }

    /** The transaction of a request whose targets are authorised, and its recovery. */
    method CreateGranted(now: Month, job: Job, scanId: ScanId) returns (outcome: Outcome)
      requires scanId !in scans && 1 <= job.units
      modifies this
      ensures outcome != TargetsRefused && outcome == AnswerFor(config, old(Contents()), now, job, scanId)
      ensures MachineCan(config, old(Contents()), now, job.req, outcome, Contents())
      ensures !outcome.Created? ==> Contents() == old(Contents())
      ensures outcome.Created? ==> IsPublished(config, old(Contents()), now, job, scanId, Contents())
    {
      var before := Contents();
      var existing := SelectExisting(before, job.req);
      if existing.Some? {
        var answer := Resolve(job, existing.value.0, existing.value.1);
        AnsweredAtOnce(config, before, now, job);
        RefusalIsARun(config, before, now, job, answer);
        return answer.outcome;
      }
      outcome := CreateAuthorised(now, job, scanId);
    }

    /** createScanRequest, with nothing else running. */
    method CreateScanRequest(now: Month, req: Request, profile: ScanProfile, targets: Targets, scanId: ScanId)
      returns (outcome: Outcome)
      requires scanId !in scans
      modifies this
      ensures outcome == TargetsRefused <==> targets.Refused?
      ensures targets.Granted? ==>
        var job := Job(req, targets.fingerprint, BillingUnits(profile, targets.subscriptions));
        && outcome == AnswerFor(config, old(Contents()), now, job, scanId)
        && AnsweredByKey(old(Contents()), job, outcome)
        && (SelectExisting(old(Contents()), req) == None ==> AnsweredByPlan(config, old(Contents()), now, job, outcome))
        && (outcome.Created? ==>
              && IsPublished(config, old(Contents()), now, job, scanId, Contents())
              && Shows(config, old(Contents()), now, job, scanId, Contents()))
      ensures MachineCan(config, old(Contents()), now, req, outcome, Contents())
      ensures !outcome.Created? ==> Contents() == old(Contents())
      ensures outcome.Created? ==>
        && outcome.created == scanId && scans.Keys == old(scans).Keys + {scanId}
        && outbox == old(outbox)[scanId := Message(req.tenant, scanId)]
        && (req.tenant, now) in snapshots && snapshots[(req.tenant, now)].figures == FoldLedger(ledger, req.tenant, now)
      ensures outcome == UniqueViolation ==>
        (req.tenant, req.key) in keys && SelectExisting(old(Contents()), req) == None
    {
      ghost var before := Contents();
      if targets.Refused? {
        TargetRefusalIsARun(config, before, now, req);
        return TargetsRefused;
      }
      var job := Job(req, targets.fingerprint, BillingUnits(profile, targets.subscriptions));
      outcome := CreateGranted(now, job, scanId);
      DecidedByPlan(config, before, now, job);
      KeyAnswers(config, before, now, job, scanId);
      if outcome.Created? {
        PublishedShows(config, before, now, job, scanId, Contents());
      }
    }

    // -------------------------------------------------------------- closing a month

    /** SELECT COUNT(*) of a month's snapshots, or of the closed ones among them. */
    method CountSnapshots(m: Month, closedOnly: bool) returns (count: nat)
      ensures count == |OfMonth(snapshots, m, closedOnly)|
      ensures count == 0 <==> forall k :: k in snapshots && k.1 == m ==> closedOnly && !snapshots[k].closed
    {
      var rows := OfMonth(snapshots, m, closedOnly);
      if |rows| == 0 {
        assert forall k :: k in snapshots && k.1 == m && (closedOnly ==> snapshots[k].closed) ==> k in rows;
      } else {
        var k :| k in rows;
      }
      count := |rows|;
    }

    /** closeBillingMonth, for a month in the right format; now is the current one. */
    method CloseBillingMonth(now: Month, m: Month) returns (r: Closing)
      modifies this`snapshots
      ensures r == NotCompleted <==> now <= m
      ensures r == NotInitialized <==> m < now && forall k :: k in old(snapshots) ==> k.1 != m
      ensures r == AlreadyClosed <==> m < now && exists k :: k in old(snapshots) && k.1 == m && old(snapshots)[k].closed
      ensures r.Closed? ==> Enabled(State(old(Contents()), map[], map[], map[], now, {}), CloseBilling(m))
      ensures r.Closed? ==> Contents() == CloseMonth(old(Contents()), m)
      ensures r.Closed? ==> r.count == |OfMonth(old(snapshots), m, false)| > 0
      ensures !r.Closed? ==> snapshots == old(snapshots)
    {
      if m >= now {
        return NotCompleted;
      }
      var count := CountSnapshots(m, false);
      if count == 0 {
        return NotInitialized;
      }
      var alreadyClosed := CountSnapshots(m, true);
      if alreadyClosed > 0 {
        return AlreadyClosed;
      }
      snapshots := map k | k in snapshots :: if k.1 == m then snapshots[k].(closed := true) else snapshots[k];
      return Closed(count);
    }

    // -------------------------------------------------------------- backfill of final billing states

    /** findCandidates, without its optional tenant, scan and date filters. */
    method FindCandidates(includeFailed: bool, limit: nat) returns (todo: seq<Candidate>)
      ensures |todo| <= limit
      ensures forall i :: 0 <= i < |todo| ==>
        Eligible(Contents(), includeFailed, todo[i].scan) && todo[i] == CandidateOf(Contents(), todo[i].scan)
      ensures forall i :: 0 <= i < |todo| ==> ReadFrom(Contents(), includeFailed, todo[i])
      ensures forall i, j :: 0 <= i < j < |todo| ==> todo[i].scan != todo[j].scan
      ensures |todo| < limit ==>
        forall id :: Eligible(Contents(), includeFailed, id) ==> exists i :: 0 <= i < |todo| && todo[i].scan == id
    {
      todo := [];
      var rest := scans;
      while rest != map[] && |todo| < limit
        invariant rest.Keys <= scans.Keys && |todo| <= limit
        invariant forall i :: 0 <= i < |todo| ==>
          Eligible(Contents(), includeFailed, todo[i].scan) && todo[i] == CandidateOf(Contents(), todo[i].scan)
          && todo[i].scan !in rest
        invariant forall i, j :: 0 <= i < j < |todo| ==> todo[i].scan != todo[j].scan
        invariant forall id :: Eligible(Contents(), includeFailed, id) && id !in rest ==>
          exists i :: 0 <= i < |todo| && todo[i].scan == id
        decreases |rest|
      {
        var id :| id in rest;
        rest := rest - {id};
        if Eligible(Contents(), includeFailed, id) {
          ghost var before := todo;
          todo := todo + [CandidateOf(Contents(), id)];
          assert todo[|before|].scan == id;
          assert forall i :: 0 <= i < |before| ==> todo[i] == before[i];
        }
      }
      forall i | 0 <= i < |todo| ensures ReadFrom(Contents(), includeFailed, todo[i]) {
        CandidateIsRead(Contents(), includeFailed, todo[i].scan);
      }
    }

    /** applyCandidate: UPDATE, INSERT ... WHERE NOT EXISTS, snapshot refresh, COMMIT. */
    method ApplyCandidate(prices: Config, cand: Candidate) returns (applied: bool)
      requires PlanDefinition(prices, cand.plan).Some?
      modifies this
      ensures Contents() == Applied(prices, old(Contents()), cand)
      ensures applied <==> Stands(old(Contents()), cand)
      ensures applied ==> Refreshed(old(snapshots), snapshots, ledger, cand.row.tenant, cand.row.month)
    {
      var cents := SettlementCents(cand, PlanDefinition(prices, cand.plan).value);
      AppliedIs(prices, Contents(), cand);
      if !Stands(Contents(), cand) {
        return false;
      }
      ghost var before := snapshots;
      var unsettled := CountEvents(ledger, cand.scan, FinalEvent(cand.row.status)) == 0;
      scans := SetBilling(scans, cand.scan, FinalState(cand.row.status));
      if unsettled {
        ledger := ledger + [SettlementRow(cand, cents)];
      }
      RefreshSnapshot(cand.row.tenant, cand.row.month);
      RefreshedIsUpsert(before, snapshots, ledger, cand.row.tenant, cand.row.month);
      return true;
    }

    /** One iteration of the loop over the candidates. */
    method SettleNext(ghost start: Db, prices: Config, includeFailed: bool, todo: seq<Candidate>, n: nat)
      requires n < |todo| && Progress(start, Contents(), prices, includeFailed, todo, n)
      requires PlanDefinition(prices, todo[n].plan).Some?
      modifies this
      ensures Progress(start, Contents(), prices, includeFailed, todo, n + 1)
    {
      ghost var db := Contents();
      SettlingOneCandidate(prices, db, todo[n]);
      ProgressStep(start, db, Applied(prices, db, todo[n]), prices, includeFailed, todo, n);
      var _ := ApplyCandidate(prices, todo[n]);
    }

    /** The loop over the candidates; it stops at a plan it does not know. */
    method SettleAll(ghost start: Db, prices: Config, includeFailed: bool, todo: seq<Candidate>) returns (settled: nat)
      requires Progress(start, Contents(), prices, includeFailed, todo, 0)
      modifies this
      ensures settled <= |todo| && Progress(start, Contents(), prices, includeFailed, todo, settled)
      ensures settled < |todo| ==> PlanDefinition(prices, todo[settled].plan).None?
    {
      settled := 0;
      while settled < |todo| && PlanDefinition(prices, todo[settled].plan).Some?
        invariant settled <= |todo| && Progress(start, Contents(), prices, includeFailed, todo, settled)
      {
        SettleNext(start, prices, includeFailed, todo, settled);
        settled := settled + 1;
      }
    }

    /** main: one run of the backfill in apply mode. */
    method RunBackfill(prices: Config, includeFailed: bool, limit: nat) returns (todo: seq<Candidate>, settled: nat)
      requires AllBooked(Contents())
      modifies this
      ensures settled <= |todo| <= limit && Progress(old(Contents()), Contents(), prices, includeFailed, todo, settled)
      ensures settled < |todo| ==> PlanDefinition(prices, todo[settled].plan).None?
      ensures settled == |todo| < limit ==> forall id :: !Eligible(Contents(), includeFailed, id)
    {
      todo := FindCandidates(includeFailed, limit);
      ghost var start := Contents();
      NoProgressYet(start, prices, includeFailed, todo);
      settled := SettleAll(start, prices, includeFailed, todo);
      if settled == |todo| < limit {
        NothingLeft(start, Contents(), prices, includeFailed, todo);
      }
    }
  }

  predicate Selected(start: Db, includeFailed: bool, todo: seq<Candidate>) {
    && (forall i, j :: 0 <= i < j < |todo| ==> todo[i].scan != todo[j].scan)
    && (forall i :: 0 <= i < |todo| ==>
          Eligible(start, includeFailed, todo[i].scan) && todo[i] == CandidateOf(start, todo[i].scan))
  }

  predicate AllKnownPlans(prices: Config, todo: seq<Candidate>) {
    forall i :: 0 <= i < |todo| ==> PlanDefinition(prices, todo[i].plan).Some?
  }

  function SettlementOf(prices: Config, cand: Candidate): LedgerRow
    requires PlanDefinition(prices, cand.plan).Some?
  {
    SettlementRow(cand, SettlementCents(cand, PlanDefinition(prices, cand.plan).value))
  }

  /** One settlement row per candidate, in their order. */
  function SettlementRows(prices: Config, todo: seq<Candidate>): (rows: seq<LedgerRow>)
    requires AllKnownPlans(prices, todo)
    ensures |rows| == |todo| && forall i :: 0 <= i < |rows| ==> rows[i] == SettlementOf(prices, todo[i])
  {
    seq(|todo|, i requires 0 <= i < |todo| => SettlementOf(prices, todo[i]))
  }

  /** The first n candidates are settled, and no other column of a scan has moved. */
  predicate ScansProgress(start: Db, db: Db, todo: seq<Candidate>, n: nat)
    requires n <= |todo|
  {
    && db.scans.Keys == start.scans.Keys
    && (forall i :: 0 <= i < n && todo[i].scan in db.scans ==>
          db.scans[todo[i].scan] == todo[i].row.(billing := FinalState(todo[i].row.status)))
    && (forall id :: id in start.scans && (forall i :: 0 <= i < n ==> todo[i].scan != id) ==>
          db.scans[id] == start.scans[id])
  }

  predicate Touched(todo: seq<Candidate>, n: nat, k: (TenantId, Month))
    requires n <= |todo|
  {
    exists i :: 0 <= i < n && (todo[i].row.tenant, todo[i].row.month) == k
  }

  /** The month of a settled candidate shows the ledger; any other is as it was; none is opened or closed. */
  ghost predicate SnapshotProgress(start: Db, db: Db, todo: seq<Candidate>, n: nat, k: (TenantId, Month))
    requires n <= |todo|
  {
    && (k in db.snapshots <==> k in start.snapshots || Touched(todo, n, k))
    && (k in db.snapshots ==>
          && (db.snapshots[k].closed <==> k in start.snapshots && start.snapshots[k].closed)
          && (if Touched(todo, n, k) then db.snapshots[k].figures == FoldLedger(db.ledger, k.0, k.1)
              else db.snapshots[k].figures == start.snapshots[k].figures))
  }

  ghost predicate SnapshotsProgress(start: Db, db: Db, todo: seq<Candidate>, n: nat)
    requires n <= |todo|
  {
    forall k :: SnapshotProgress(start, db, todo, n, k)
  }

  /** The first n candidates are settled by one ledger row each; nothing else has moved. */
  ghost predicate Progress(start: Db, db: Db, prices: Config, includeFailed: bool, todo: seq<Candidate>, n: nat)
    requires n <= |todo|
  {
    && AllBooked(db) && Selected(start, includeFailed, todo) && AllKnownPlans(prices, todo[..n])
    && db.tenants == start.tenants && db.keys == start.keys && db.outbox == start.outbox
    && db.ledger == start.ledger + SettlementRows(prices, todo[..n])
    && ScansProgress(start, db, todo, n) && SnapshotsProgress(start, db, todo, n)
  }

  lemma NoProgressYet(start: Db, prices: Config, includeFailed: bool, todo: seq<Candidate>)
    requires AllBooked(start) && Selected(start, includeFailed, todo)
    ensures Progress(start, start, prices, includeFailed, todo, 0)
  {
    assert start.ledger + [] == start.ledger;
  }

  lemma ScansProgressStep(start: Db, db: Db, db': Db, todo: seq<Candidate>, n: nat)
    requires n < |todo| && ScansProgress(start, db, todo, n) && todo[n].scan in db.scans
    requires forall i, j :: 0 <= i < j < |todo| ==> todo[i].scan != todo[j].scan
    requires db'.scans == db.scans[todo[n].scan := todo[n].row.(billing := FinalState(todo[n].row.status))]
    ensures ScansProgress(start, db', todo, n + 1)
  {
    forall id | id in start.scans && (forall i :: 0 <= i < n + 1 ==> todo[i].scan != id)
      ensures db'.scans[id] == start.scans[id]
    {
      assert todo[n].scan != id;
    }
  }

  lemma TouchedByOneMore(todo: seq<Candidate>, n: nat, k: (TenantId, Month))
    requires n < |todo|
    ensures Touched(todo, n + 1, k) <==> Touched(todo, n, k) || k == (todo[n].row.tenant, todo[n].row.month)
  {
    if Touched(todo, n, k) {
      var i :| 0 <= i < n && (todo[i].row.tenant, todo[i].row.month) == k;
      assert 0 <= i < n + 1;
    }
  }

  lemma SnapshotProgressStep(start: Db, db: Db, db': Db, row: LedgerRow, todo: seq<Candidate>, n: nat,
                             k: (TenantId, Month))
    requires n < |todo| && SnapshotProgress(start, db, todo, n, k)
    requires row.tenant == todo[n].row.tenant && row.month == todo[n].row.month && db'.ledger == db.ledger + [row]
    requires db'.snapshots
      == UpsertSnapshot(db.snapshots, row.tenant, row.month, FoldLedger(db'.ledger, row.tenant, row.month))
    ensures SnapshotProgress(start, db', todo, n + 1, k)
  {
    TouchedByOneMore(todo, n, k);
    FoldAppend(db.ledger, row, k.0, k.1);
  }

  lemma SnapshotsProgressStep(start: Db, db: Db, db': Db, row: LedgerRow, todo: seq<Candidate>, n: nat, n': nat)
    requires n' == n + 1 <= |todo| && SnapshotsProgress(start, db, todo, n)
    requires row.tenant == todo[n].row.tenant && row.month == todo[n].row.month && db'.ledger == db.ledger + [row]
    requires db'.snapshots
      == UpsertSnapshot(db.snapshots, row.tenant, row.month, FoldLedger(db'.ledger, row.tenant, row.month))
    ensures SnapshotsProgress(start, db', todo, n')
  {
    forall k ensures SnapshotProgress(start, db', todo, n', k) {
      assert SnapshotProgress(start, db, todo, n, k);
      SnapshotProgressStep(start, db, db', row, todo, n, k);
    }
  }

  lemma OneMoreSettlement(ledger: seq<LedgerRow>, prices: Config, todo: seq<Candidate>, n: nat)
    requires n < |todo| && AllKnownPlans(prices, todo[..n]) && PlanDefinition(prices, todo[n].plan).Some?
    ensures AllKnownPlans(prices, todo[..n + 1])
    ensures ledger + SettlementRows(prices, todo[..n]) + [SettlementOf(prices, todo[n])]
      == ledger + SettlementRows(prices, todo[..n + 1])
  {
    assert todo[..n + 1] == todo[..n] + [todo[n]];
    assert SettlementRows(prices, todo[..n + 1]) == SettlementRows(prices, todo[..n]) + [SettlementOf(prices, todo[n])];
  }

  lemma ProgressStep(start: Db, db: Db, db': Db, prices: Config, includeFailed: bool, todo: seq<Candidate>, n: nat)
    requires n < |todo| && Progress(start, db, prices, includeFailed, todo, n)
      && PlanDefinition(prices, todo[n].plan).Some?
    requires AllBooked(db') && db'.tenants == db.tenants && db'.keys == db.keys && db'.outbox == db.outbox
    requires db'.ledger == db.ledger + [SettlementOf(prices, todo[n])]
    requires db'.scans == db.scans[todo[n].scan := todo[n].row.(billing := FinalState(todo[n].row.status))]
    requires var r := todo[n].row;
      db'.snapshots == UpsertSnapshot(db.snapshots, r.tenant, r.month, FoldLedger(db'.ledger, r.tenant, r.month))
    ensures Progress(start, db', prices, includeFailed, todo, n + 1)
  {
    OneMoreSettlement(start.ledger, prices, todo, n);
    ScansProgressStep(start, db, db', todo, n);
    SnapshotsProgressStep(start, db, db', SettlementOf(prices, todo[n]), todo, n, n + 1);
  }

  predicate Eligible(db: Db, includeFailed: bool, id: ScanId) {
    && id in db.scans && db.scans[id].billing == Reserved
    && (db.scans[id].status == Done || (db.scans[id].status == Failed && includeFailed))
    && db.scans[id].tenant in db.tenants
    && Unsettled(db.ledger, id)
  }

  function CandidateOf(db: Db, id: ScanId): (cand: Candidate)
    requires id in db.scans && db.scans[id].tenant in db.tenants
    ensures cand.scan == id
  {
    Candidate(id, db.scans[id], db.tenants[db.scans[id].tenant].plan)
  }

  /** A candidate's columns are those of its scan and of its tenant's plan; failed scans are only taken on demand. */
  predicate ReadFrom(db: Db, includeFailed: bool, cand: Candidate) {
    && cand.scan in db.scans && cand.row == db.scans[cand.scan] && cand.row.billing == Reserved
    && cand.row.tenant in db.tenants && cand.plan == db.tenants[cand.row.tenant].plan
    && cand.row.status in (if includeFailed then {Done, Failed} else {Done})
    && CountEvents(db.ledger, cand.scan, ScanConsumed) == 0 == CountEvents(db.ledger, cand.scan, ScanRefunded)
  }

  /** Exactly such scans are eligible. */
  lemma CandidateIsRead(db: Db, includeFailed: bool, id: ScanId)
    ensures Eligible(db, includeFailed, id) <==>
      id in db.scans && db.scans[id].tenant in db.tenants && ReadFrom(db, includeFailed, CandidateOf(db, id))
    ensures Eligible(db, includeFailed, id) ==> IsCandidate(db, CandidateOf(db, id))
  {
  }

  predicate AllBooked(db: Db) {
    forall id :: id in db.scans ==> ScanBooked(db, id)
  }

  /** What the machine's backfill does to the tables for one candidate, alone. */
  function Applied(prices: Config, db: Db, cand: Candidate): Db {
    var taken := TakeCandidate(db, Waiting(prices, [cand]));
    if taken.Holding? then CommitBackfill(db, BackfillStatement(db, BackfillStatement(db, taken))) else db
  }

  lemma AppliedIs(prices: Config, db: Db, cand: Candidate)
    requires PlanDefinition(prices, cand.plan).Some?
    ensures !Stands(db, cand) ==> Applied(prices, db, cand) == db
    ensures Stands(db, cand) ==>
      var ledger := if CountEvents(db.ledger, cand.scan, FinalEvent(cand.row.status)) != 0 then db.ledger
                    else db.ledger + [SettlementOf(prices, cand)];
      var t, m := cand.row.tenant, cand.row.month;
      Applied(prices, db, cand)
      == db.(scans := SetBilling(db.scans, cand.scan, FinalState(cand.row.status)), ledger := ledger,
             snapshots := UpsertSnapshot(db.snapshots, t, m, FoldLedger(ledger, t, m)))
  {
    if Stands(db, cand) {
      var cents := SettlementOf(prices, cand).cents;
      assert TakeCandidate(db, Waiting(prices, [cand])) == Holding(prices, [], cand, cents, 1, false, NOTHING);
    }
  }

  /** A candidate that still stands is settled by exactly one new ledger row; its month's snapshot shows the ledger. */
  lemma SettlingOneCandidate(prices: Config, db: Db, cand: Candidate)
    requires AllBooked(db) && cand.scan in db.scans && db.scans[cand.scan] == cand.row
    requires cand.row.billing == Reserved && !Active(cand.row.status) && PlanDefinition(prices, cand.plan).Some?
    ensures var db' := Applied(prices, db, cand);
      && AllBooked(db') && db'.ledger == db.ledger + [SettlementOf(prices, cand)]
      && db'.tenants == db.tenants && db'.keys == db.keys && db'.outbox == db.outbox
      && db'.scans == db.scans[cand.scan := cand.row.(billing := FinalState(cand.row.status))]
      && db'.snapshots == UpsertSnapshot(db.snapshots, cand.row.tenant, cand.row.month,
                                         FoldLedger(db'.ledger, cand.row.tenant, cand.row.month))
  {
    assert ScanBooked(db, cand.scan);
    AppliedIs(prices, db, cand);
    var row, db' := SettlementOf(prices, cand), Applied(prices, db, cand);
    forall id | id in db'.scans ensures ScanBooked(db', id) {
      assert ScanBooked(db, id);
      if id == cand.scan {
        SettlementBooks(db.ledger, row, id, cand.row.status);
      } else {
        AppendKeepsOthers(db, row, id);
      }
    }
  }

  /** A scan still eligible after the run was never a candidate of it. */
  lemma StillEligible(start: Db, db: Db, includeFailed: bool, todo: seq<Candidate>, id: ScanId)
    requires AllBooked(start) && ScansProgress(start, db, todo, |todo|) && start.tenants == db.tenants
    requires Eligible(db, includeFailed, id)
    ensures Eligible(start, includeFailed, id) && forall i :: 0 <= i < |todo| ==> todo[i].scan != id
  {
    assert ScanBooked(start, id);
  }

  lemma NothingLeft(start: Db, db: Db, prices: Config, includeFailed: bool, todo: seq<Candidate>)
    requires AllBooked(start) && Progress(start, db, prices, includeFailed, todo, |todo|)
    requires forall id :: Eligible(start, includeFailed, id) ==> exists i :: 0 <= i < |todo| && todo[i].scan == id
    ensures forall id :: !Eligible(db, includeFailed, id)
  {
    forall id ensures !Eligible(db, includeFailed, id) {
      if Eligible(db, includeFailed, id) {
        StillEligible(start, db, includeFailed, todo, id);
      }
    }
  }

  lemma TargetRefusalIsARun(c: Config, db: Db, now: Month, req: Request)
    ensures MachineCan(c, db, now, req, TargetsRefused, db)
  {
    var s := Alone(db, now, Arrived(req));
    var s' := Alone(db, now, Finished(req, None, TargetsRefused));
    assert Put(s, 0, Finished(req, None, TargetsRefused)) == s';
    OneStep(c, s, RefuseTargets(0), s');
  }

  lemma {:induction false} FinishedStutters(c: Config, db: Db, now: Month, cr: Creator, n: nat)
    requires cr.Finished?
    ensures StatementsFrom(c, db, now, cr, n) == cr
  {
    if n > 0 {
      FinishedStutters(c, db, now, cr, n - 1);
    }
  }

  lemma {:induction false} IterateAdd(f: Creator -> Creator, cr: Creator, m: nat, n: nat)
    ensures Iterate(f, cr, m + n) == Iterate(f, Iterate(f, cr, m), n)
  {
    if n > 0 {
      IterateAdd(f, cr, m, n - 1);
    }
  }

  lemma StatementsAdd(c: Config, db: Db, now: Month, cr: Creator, m: nat, n: nat)
    ensures StatementsFrom(c, db, now, cr, m + n) == StatementsFrom(c, db, now, StatementsFrom(c, db, now, cr, m), n)
  {
    IterateAdd(NextStatement(c, db, now), cr, m, n);
  }

  lemma AnsweredAtOnce(c: Config, db: Db, now: Month, job: Job)
    requires SelectExisting(db, job.req).Some?
    ensures var e := SelectExisting(db, job.req).value;
      StatementsFrom(c, db, now, Authorized(job), TO_DECISION) == Resolve(job, e.0, e.1)
  {
    var e := SelectExisting(db, job.req).value;
    StatementsAdd(c, db, now, Authorized(job), 1, 8);
    assert StatementsFrom(c, db, now, Authorized(job), 0) == Authorized(job);
    assert StatementsFrom(c, db, now, Authorized(job), 1) == Resolve(job, e.0, e.1);
    FinishedStutters(c, db, now, Resolve(job, e.0, e.1), 8);
  }

  lemma MissedAfterOne(c: Config, db: Db, now: Month, job: Job, cr: Creator)
    requires SelectExisting(db, job.req) == None && cr == StatementsFrom(c, db, now, Missed(job), 8)
    ensures cr == StatementsFrom(c, db, now, Authorized(job), TO_DECISION)
  {
    assert StatementsFrom(c, db, now, Authorized(job), 0) == Authorized(job);
    assert StatementsFrom(c, db, now, Authorized(job), 1) == Missed(job);
    StatementsAdd(c, db, now, Authorized(job), 1, 8);
  }

  /** Two statements take a request from the lookup to the lock. */
  lemma LockedAfterTwo(c: Config, db: Db, now: Month, job: Job)
    ensures StatementsFrom(c, db, now, Missed(job), 2) == Locked(job, now)
  {
    assert StatementsFrom(c, db, now, Missed(job), 0) == Missed(job);
    assert StatementsFrom(c, db, now, Missed(job), 1) == Dated(job, now);
  }

  /** The machine's answer after the six statements that follow the lock. */
  ghost function Decision(c: Config, db: Db, now: Month, job: Job): Creator {
    var t := job.req.tenant;
    if t !in db.tenants || !db.tenants[t].active then Finished(job.req, Some(job.fingerprint), TenantMissing)
    else if PlanDefinition(c, db.tenants[t].plan).None? then Finished(job.req, Some(job.fingerprint), PlanUnsupported)
    else if ActiveCount(db.scans, t) >= ActiveScanLimit(c, db.tenants[t].plan) then
      Finished(job.req, Some(job.fingerprint), TooManyActive)
    else
      var cr := Decide(db, job, now, PlanDefinition(c, db.tenants[t].plan).value);
      if cr.Blocked? then Finished(job.req, Some(job.fingerprint), QuotaExceeded) else cr
  }

  /** What a request whose key leads to no scan is told: the refusal, or what comes of inserting its key. */
  ghost function AnswerTo(c: Config, db: Db, now: Month, job: Job, scanId: ScanId): Outcome {
    var cr := Decision(c, db, now, job);
    if cr.Finished? then cr.outcome
    else if (job.req.tenant, job.req.key) in db.keys then UniqueViolation
    else Created(scanId)
  }

  /** A key that leads to a scan decides at once; otherwise the request is decided and inserted. */
  ghost function AnswerFor(c: Config, db: Db, now: Month, job: Job, scanId: ScanId): Outcome {
    var existing := SelectExisting(db, job.req);
    if existing.Some? then Resolve(job, existing.value.0, existing.value.1).outcome
    else AnswerTo(c, db, now, job, scanId)
  }

  /** A key that leads to a scan answers for it: the same scan for the same fingerprint, a conflict for another. */
  ghost predicate AnsweredByKey(db: Db, job: Job, outcome: Outcome) {
    && (outcome.Replayed? ==> BoundAs(db, job.req, outcome.replayed, job.fingerprint))
    && (outcome == KeyConflict ==> exists id, stored :: BoundAs(db, job.req, id, stored) && stored != job.fingerprint)
    && (outcome.Replayed? || outcome == KeyConflict <==> exists id :: LeadsTo(db, job.req, id))
  }

  lemma KeyAnswers(c: Config, db: Db, now: Month, job: Job, scanId: ScanId)
    ensures AnsweredByKey(db, job, AnswerFor(c, db, now, job, scanId))
  {
    ExistingIsBound(db, job.req);
    var existing := SelectExisting(db, job.req);
    if existing.Some? {
      assert LeadsTo(db, job.req, existing.value.0);
    } else {
      AnswerToIsFresh(c, db, now, job, scanId);
    }
  }

  lemma AnswerToIsFresh(c: Config, db: Db, now: Month, job: Job, scanId: ScanId)
    ensures !AnswerTo(c, db, now, job, scanId).Replayed? && AnswerTo(c, db, now, job, scanId) != KeyConflict
  {
  }

  /** The tables after the draft of an admitted request has been committed. */
  ghost predicate IsPublished(c: Config, db: Db, now: Month, job: Job, scanId: ScanId, db': Db) {
    && SelectExisting(db, job.req) == None && Decision(c, db, now, job).Admitted?
    && var d := DraftOf(Decision(c, db, now, job), scanId);
       db' == CommitDraft(db, d, FiguresFor(db, d))
  }

  /** What the plan of an active tenant below its active limit says of a request, in the fields of the configuration. */
  ghost predicate ByPlan(c: Config, db: Db, now: Month, job: Job, cr: Creator) {
    var t := job.req.tenant;
    t in db.tenants && db.tenants[t].active ==>
      var used, refused := Usage(db.scans, t, now) + job.units, Finished(job.req, Some(job.fingerprint), QuotaExceeded);
      var crowded := Finished(job.req, Some(job.fingerprint), TooManyActive);
      if !db.tenants[t].plan.Unsupported? && AtActiveLimit(c, db, t) then cr == crowded
      else
        match db.tenants[t].plan
        case Free => cr == if used > c.freeQuota then refused else Admitted(job, now, true, 0)
        case Standard => cr == if used > c.standardQuota then refused else Admitted(job, now, true, 0)
        case Business => cr == if used > c.businessQuota then refused else Admitted(job, now, true, 0)
        case Payg => cr == Admitted(job, now, false, Cents(job.units * c.paygUnitMicros))
        case Unsupported(_) => cr == Finished(job.req, Some(job.fingerprint), PlanUnsupported)
  }

  /** The plan's own limit counts, else that of the standard plan, else 3. */
  ghost predicate AtActiveLimit(c: Config, db: Db, t: TenantId)
    requires t in db.tenants
  {
    var plan, count := db.tenants[t].plan, ActiveCount(db.scans, t);
    && (plan in c.activeLimits ==> count >= c.activeLimits[plan])
    && (plan !in c.activeLimits && Standard in c.activeLimits ==> count >= c.activeLimits[Standard])
    && (plan !in c.activeLimits && Standard !in c.activeLimits ==> count >= 3)
  }

  /** Each plan is decided by its own quota, and only PAYG is charged. */
  lemma DecidedByPlan(c: Config, db: Db, now: Month, job: Job)
    ensures ByPlan(c, db, now, job, Decision(c, db, now, job))
  {
  }

  lemma DecisionIsAbout(c: Config, db: Db, now: Month, job: Job)
    requires Decision(c, db, now, job).Admitted?
    ensures Decision(c, db, now, job).job == job && Decision(c, db, now, job).month == now
  {
  }

  /** The same of the outcome of a request whose key leads to no scan. */
  ghost predicate AnsweredByPlan(c: Config, db: Db, now: Month, job: Job, outcome: Outcome) {
    var t := job.req.tenant;
    if t !in db.tenants || !db.tenants[t].active then outcome == TenantMissing
    else if db.tenants[t].plan.Unsupported? then outcome == PlanUnsupported
    else if AtActiveLimit(c, db, t) then outcome == TooManyActive
    else
      var used := Usage(db.scans, t, now) + job.units;
      match db.tenants[t].plan
      case Free => outcome == QuotaExceeded <==> used > c.freeQuota
      case Standard => outcome == QuotaExceeded <==> used > c.standardQuota
      case Business => outcome == QuotaExceeded <==> used > c.businessQuota
      case _ => outcome != QuotaExceeded
  }

  /** The rows of a creation, column by column: inside the quota and free, or charged by the PAYG unit price. */
  ghost predicate Shows(c: Config, db: Db, now: Month, job: Job, scanId: ScanId, db': Db) {
    var t := job.req.tenant;
    t in db.tenants &&
    var payg := db.tenants[t].plan.Payg?;
    var cents := if payg then Cents(job.units * c.paygUnitMicros) else 0;
    && db'.scans == db.scans[scanId := ScanRow(t, now, job.units, !payg, Pending, Reserved, job.fingerprint)]
    && db'.ledger == db.ledger + [LedgerRow(t, Some(scanId), ScanReserved, now, job.units, cents)]
    && db'.keys == db.keys[(t, job.req.key) := KeyRow(Some(job.fingerprint), scanId)]
  }

  lemma PublishedShows(c: Config, db: Db, now: Month, job: Job, scanId: ScanId, db': Db)
    requires IsPublished(c, db, now, job, scanId, db')
    ensures var t := job.req.tenant;
      && db'.scans.Keys == db.scans.Keys + {scanId} && db'.outbox == db.outbox[scanId := Message(t, scanId)]
      && (t, now) in db'.snapshots && db'.snapshots[(t, now)].figures == FoldLedger(db'.ledger, t, now)
      && Shows(c, db, now, job, scanId, db')
  {
    DecisionIsAbout(c, db, now, job);
    DecidedByPlan(c, db, now, job);
  }

  lemma {:induction false} AdmittedStutters(c: Config, db: Db, now: Month, cr: Creator, n: nat)
    requires cr.Admitted?
    ensures StatementsFrom(c, db, now, cr, n) == cr
  {
    if n > 0 {
      AdmittedStutters(c, db, now, cr, n - 1);
    }
  }

  lemma BlockedEnds(c: Config, db: Db, now: Month, job: Job)
    ensures StatementsFrom(c, db, now, Blocked(job, now, 0, NOTHING), 3)
      == Finished(job.req, Some(job.fingerprint), QuotaExceeded)
  {
    var b := Blocked(job, now, 0, NOTHING);
    assert StatementsFrom(c, db, now, b, 0) == b;
    assert StatementsFrom(c, db, now, b, 1) == Blocked(job, now, REFUSAL_WRITTEN, NOTHING);
    assert StatementsFrom(c, db, now, b, 2).done == REFUSAL_SUMMED;
  }

  /** The quota decision, from the usage count on. */
  lemma DecidesInFour(c: Config, db: Db, now: Month, job: Job, plan: Plan)
    ensures var cr := Decide(db, job, now, plan);
      StatementsFrom(c, db, now, Unpressured(job, now, plan), 4)
      == if cr.Blocked? then Finished(job.req, Some(job.fingerprint), QuotaExceeded) else cr
  {
    var u, cr := Unpressured(job, now, plan), Decide(db, job, now, plan);
    StatementsAdd(c, db, now, u, 1, 3);
    assert StatementsFrom(c, db, now, u, 0) == u && StatementsFrom(c, db, now, u, 1) == cr;
    if cr.Blocked? {
      BlockedEnds(c, db, now, job);
    } else {
      AdmittedStutters(c, db, now, cr, 3);
    }
  }

  lemma DecidesInSix(c: Config, db: Db, now: Month, job: Job)
    ensures StatementsFrom(c, db, now, Locked(job, now), 6) == Decision(c, db, now, job)
  {
    var l := Locked(job, now);
    var one := Statement(c, db, now, l);
    var two := Statement(c, db, now, one);
    assert StatementsFrom(c, db, now, l, 0) == l && StatementsFrom(c, db, now, l, 1) == one;
    assert StatementsFrom(c, db, now, l, 2) == two;
    StatementsAdd(c, db, now, l, 2, 4);
    if two.Finished? {
      FinishedStutters(c, db, now, two, 4);
    } else {
      DecidesInFour(c, db, now, job, two.plan);
    }
  }

  lemma DecidesInEight(c: Config, db: Db, now: Month, job: Job)
    ensures StatementsFrom(c, db, now, Missed(job), 8) == Decision(c, db, now, job)
  {
    LockedAfterTwo(c, db, now, job);
    StatementsAdd(c, db, now, Missed(job), 2, 6);
    DecidesInSix(c, db, now, job);
  }
}
