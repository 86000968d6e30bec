// Runs of the intake machine: concatenation, and what one request does when
// nothing else moves between two of its statements.
module IntakeRuns {
  import opened Wrappers
  import opened Billing
  import opened Intake

  ghost predicate Reaches(c: Config, s: State, events: seq<Event>, s': State) {
    IsRun(c, s, events) && After(c, s, events) == s'
  }

  lemma {:induction false} Chain(c: Config, s: State, a: seq<Event>, mid: State, b: seq<Event>, s': State)
    requires Reaches(c, s, a, mid) && Reaches(c, mid, b, s')
    ensures Reaches(c, s, a + b, s')
    decreases |a|
  {
    if a == [] {
      assert a + b == b;
    } else {
      assert (a + b)[1..] == a[1..] + b;
      Chain(c, Next(c, s, a[0]), a[1..], mid, b, s');
    }
  }

  lemma OneStep(c: Config, s: State, e: Event, s': State)
    requires Enabled(s, e) && Next(c, s, e) == s'
    ensures Reaches(c, s, [e], s')
  {
    assert After(c, s', []) == s' && [e][1..] == [];
  }

  lemma TwoSteps(c: Config, s: State, e: Event, mid: State, f: Event, s': State)
    requires Enabled(s, e) && Next(c, s, e) == mid && Enabled(mid, f) && Next(c, mid, f) == s'
    ensures Reaches(c, s, [e, f], s')
  {
    OneStep(c, s, e, mid);
    OneStep(c, mid, f, s');
    Chain(c, s, [e], mid, [f], s');
    assert [e] + [f] == [e, f];
  }

  function OpeningEvents(p: Pid, req: Request, fp: Fingerprint, units: nat): seq<Event> {
    [Arrive(p, req), Authorize(p, fp, units)]
  }

  lemma SoloOpening(c: Config, s: State, p: Pid, req: Request, fp: Fingerprint, units: nat, s': State)
    requires p !in s.creators && 1 <= units
    requires s' == Put(s, p, Authorized(Job(req, fp, units)))
    ensures Reaches(c, s, OpeningEvents(p, req, fp, units), s')
  {
    assert s' == Put(Put(s, p, Arrived(req)), p, Authorized(Job(req, fp, units)));
    TwoSteps(c, s, Arrive(p, req), Put(s, p, Arrived(req)), Authorize(p, fp, units), s');
  }

  function ClockEvents(p: Pid): seq<Event> { [Proceed(p), Proceed(p)] }

  function AdmissionEvents(p: Pid): seq<Event> { [Proceed(p), Proceed(p)] + [Proceed(p), Proceed(p)] }

  function RefreshEvents(p: Pid, scan: ScanId): seq<Event> { [InsertScan(p, scan), Proceed(p)] + [Proceed(p)] }

  function FinishEvents(p: Pid): seq<Event> { [Proceed(p), Proceed(p)] + [Commit(p)] }

  function PublicationEvents(p: Pid, scan: ScanId): seq<Event> {
    RefreshEvents(p, scan) + FinishEvents(p)
  }

  /** The plan under which a request that has read this month is admitted, if it is. */
  ghost predicate Admissible(c: Config, db: Db, job: Job, month: Month, plan: Plan) {
    var t := job.req.tenant;
    && t in db.tenants && db.tenants[t].active
    && PlanDefinition(c, db.tenants[t].plan) == Some(plan)
    && ActiveCount(db.scans, t) < ActiveScanLimit(c, db.tenants[t].plan)
    && Decide(db, job, month, plan).Admitted?
  }

  ghost predicate LockFree(s: State, t: TenantId, month: Month) {
    forall q :: q in s.creators ==> LockOf(s.creators[q]) != Some((t, month))
  }

  /** The lookup misses and the month is read. */
  lemma SoloClock(c: Config, s: State, p: Pid, s': State)
    requires p in s.creators && s.creators[p].Authorized? && SelectExisting(s.db, s.creators[p].job.req) == None
    requires s' == Put(s, p, Dated(s.creators[p].job, s.now))
    ensures Reaches(c, s, ClockEvents(p), s')
  {
    var mid := Put(s, p, Missed(s.creators[p].job));
    assert Next(c, mid, Proceed(p)) == s';
    TwoSteps(c, s, Proceed(p), mid, Proceed(p), s');
  }

  /** A new request up to its reading of the clock. */
  function NewcomerEvents(q: Pid, job: Job): seq<Event> {
    OpeningEvents(q, job.req, job.fingerprint, job.units) + ClockEvents(q)
  }

  lemma Newcomer(c: Config, s: State, q: Pid, job: Job, s': State)
    requires q !in s.creators && 1 <= job.units && (job.req.tenant, job.req.key) !in s.db.keys
    requires s' == Put(s, q, Dated(job, s.now))
    ensures Reaches(c, s, NewcomerEvents(q, job), s')
  {
    var mid := Put(s, q, Authorized(job));
    SoloOpening(c, s, q, job.req, job.fingerprint, job.units, mid);
    SoloClock(c, mid, q, s');
    Chain(c, s, OpeningEvents(q, job.req, job.fingerprint, job.units), mid, ClockEvents(q), s');
  }

  /** The lock is taken and the plan read. */
  lemma SoloLock(c: Config, s: State, p: Pid, plan: Plan, s': State)
    requires p in s.creators && s.creators[p].Dated?
    requires LockFree(s, s.creators[p].job.req.tenant, s.creators[p].month)
    requires var t := s.creators[p].job.req.tenant;
      && t in s.db.tenants && s.db.tenants[t].active && PlanDefinition(c, s.db.tenants[t].plan) == Some(plan)
      && s' == Put(s, p, PlanRead(s.creators[p].job, s.creators[p].month, s.db.tenants[t].plan, plan))
    ensures Reaches(c, s, [Proceed(p), Proceed(p)], s')
  {
    var mid := Put(s, p, Locked(s.creators[p].job, s.creators[p].month));
    assert Next(c, mid, Proceed(p)) == s';
    TwoSteps(c, s, Proceed(p), mid, Proceed(p), s');
  }

  /** Four statements take a request that has read the month, alone, to its admission. */
  lemma SoloAdmission(c: Config, s: State, p: Pid, plan: Plan, s': State)
    requires p in s.creators && s.creators[p].Dated?
    requires LockFree(s, s.creators[p].job.req.tenant, s.creators[p].month)
    requires Admissible(c, s.db, s.creators[p].job, s.creators[p].month, plan)
    requires s' == Put(s, p, Decide(s.db, s.creators[p].job, s.creators[p].month, plan))
    ensures Reaches(c, s, AdmissionEvents(p), s')
  {
    var job, month := s.creators[p].job, s.creators[p].month;
    var s1 := Put(s, p, PlanRead(job, month, s.db.tenants[job.req.tenant].plan, plan));
    SoloLock(c, s, p, plan, s1);
    var s2 := Put(s, p, Unpressured(job, month, plan));
    assert Next(c, s1, Proceed(p)) == s2 && Next(c, s2, Proceed(p)) == s';
    TwoSteps(c, s1, Proceed(p), s2, Proceed(p), s');
    Chain(c, s, [Proceed(p), Proceed(p)], s1, [Proceed(p), Proceed(p)], s');
  }

  /** A new request is admitted in the month that is now. */
  lemma SoloArrival(c: Config, s: State, q: Pid, job: Job, plan: Plan, s': State)
    requires q !in s.creators && 1 <= job.units && (job.req.tenant, job.req.key) !in s.db.keys
    requires LockFree(s, job.req.tenant, s.now) && Admissible(c, s.db, job, s.now, plan)
    requires s' == Put(s, q, Decide(s.db, job, s.now, plan))
    ensures Reaches(c, s, NewcomerEvents(q, job) + AdmissionEvents(q), s')
  {
    var mid := Put(s, q, Dated(job, s.now));
    Newcomer(c, s, q, job, mid);
    SoloAdmission(c, mid, q, plan, s');
    Chain(c, s, NewcomerEvents(q, job), mid, AdmissionEvents(q), s');
  }

  function DraftOf(cr: Creator, scan: ScanId): Draft
    requires cr.Admitted?
  {
    Draft(cr.job, cr.month, cr.included, cr.cents, scan)
  }

  function FiguresFor(db: Db, d: Draft): Figures {
    FoldLedger(db.ledger + [ReservedRow(d)], d.job.req.tenant, d.month)
  }

  /** Scan, ledger row and snapshot are written; nothing is committed yet. */
  lemma SoloRefresh(c: Config, s: State, p: Pid, scan: ScanId, s': State)
    requires p in s.creators && s.creators[p].Admitted? && scan !in s.used
    requires var d := DraftOf(s.creators[p], scan);
      s' == Put(s, p, Writing(d, SNAPSHOT_WRITTEN, FiguresFor(s.db, d))).(used := s.used + {scan})
    ensures Reaches(c, s, RefreshEvents(p, scan), s')
  {
    var d := DraftOf(s.creators[p], scan);
    var u := s.(used := s.used + {scan});
    var s1, s2 := Put(u, p, Writing(d, SCAN_WRITTEN, NOTHING)), Put(u, p, Writing(d, LEDGER_WRITTEN, NOTHING));
    TwoSteps(c, s, InsertScan(p, scan), s1, Proceed(p), s2);
    OneStep(c, s2, Proceed(p), s');
    Chain(c, s, [InsertScan(p, scan), Proceed(p)], s2, [Proceed(p)], s');
  }

  /** Key and event are written as well. */
  lemma SoloKey(c: Config, s: State, p: Pid, s': State)
    requires p in s.creators && s.creators[p].Writing? && s.creators[p].done == SNAPSHOT_WRITTEN
    requires KeyOf(s.creators[p].draft) !in s.db.keys
    requires forall q :: q in s.creators && q != p ==> !s.creators[q].Writing?
    requires s' == Put(s, p, Writing(s.creators[p].draft, ALL_WRITTEN, s.creators[p].figures))
    ensures Reaches(c, s, [Proceed(p), Proceed(p)], s')
  {
    var mid := Put(s, p, Writing(s.creators[p].draft, KEY_WRITTEN, s.creators[p].figures));
    TwoSteps(c, s, Proceed(p), mid, Proceed(p), s');
  }

  /** Key and event are written, and everything is committed with the figures computed earlier. */
  lemma SoloFinish(c: Config, s: State, p: Pid, s': State)
    requires p in s.creators && s.creators[p].Writing? && s.creators[p].done == SNAPSHOT_WRITTEN
    requires KeyOf(s.creators[p].draft) !in s.db.keys
    requires forall q :: q in s.creators && q != p ==> !s.creators[q].Writing?
    requires var d := s.creators[p].draft;
      s' == Put(s, p, Finished(d.job.req, Some(d.job.fingerprint), Created(d.scan)))
              .(db := CommitDraft(s.db, d, s.creators[p].figures))
    ensures Reaches(c, s, FinishEvents(p), s')
  {
    var mid := Put(s, p, Writing(s.creators[p].draft, ALL_WRITTEN, s.creators[p].figures));
    SoloKey(c, s, p, mid);
    OneStep(c, mid, Commit(p), s');
    Chain(c, s, [Proceed(p), Proceed(p)], mid, [Commit(p)], s');
  }

  /** Six statements take an admitted request, alone, to its commit. */
  lemma SoloPublication(c: Config, s: State, p: Pid, scan: ScanId, s': State)
    requires p in s.creators && s.creators[p].Admitted? && scan !in s.used
    requires var req := s.creators[p].job.req; (req.tenant, req.key) !in s.db.keys
    requires forall q :: q in s.creators ==> !s.creators[q].Writing?
    requires var d := DraftOf(s.creators[p], scan);
      s' == Put(s, p, Finished(d.job.req, Some(d.job.fingerprint), Created(scan)))
              .(db := CommitDraft(s.db, d, FiguresFor(s.db, d)), used := s.used + {scan})
    ensures Reaches(c, s, PublicationEvents(p, scan), s')
  {
    var d := DraftOf(s.creators[p], scan);
    var mid := Put(s, p, Writing(d, SNAPSHOT_WRITTEN, FiguresFor(s.db, d))).(used := s.used + {scan});
    SoloRefresh(c, s, p, scan, mid);
    SoloFinish(c, mid, p, s');
    Chain(c, s, RefreshEvents(p, scan), mid, FinishEvents(p), s');
  }

  /** The state after an admitted request has published alone. */
  ghost function Published(s: State, p: Pid, scan: ScanId): State
    requires p in s.creators && s.creators[p].Admitted?
  {
    var d := DraftOf(s.creators[p], scan);
    Put(s, p, Finished(d.job.req, Some(d.job.fingerprint), Created(scan)))
      .(db := CommitDraft(s.db, d, FiguresFor(s.db, d)), used := s.used + {scan})
  }

  function CreationEvents(q: Pid, job: Job, scan: ScanId): seq<Event> {
    NewcomerEvents(q, job) + AdmissionEvents(q) + PublicationEvents(q, scan)
  }

  /** A new request creates its scan, alone. */
  lemma SoloCreation(c: Config, s: State, q: Pid, job: Job, plan: Plan, scan: ScanId)
    requires q !in s.creators && 1 <= job.units && (job.req.tenant, job.req.key) !in s.db.keys && scan !in s.used
    requires LockFree(s, job.req.tenant, s.now) && Admissible(c, s.db, job, s.now, plan)
    requires forall p :: p in s.creators ==> !s.creators[p].Writing?
    ensures Reaches(c, s, CreationEvents(q, job, scan), Published(Put(s, q, Decide(s.db, job, s.now, plan)), q, scan))
  {
    var mid := Put(s, q, Decide(s.db, job, s.now, plan));
    SoloArrival(c, s, q, job, plan, mid);
    SoloPublication(c, mid, q, scan, Published(mid, q, scan));
    Chain(c, s, NewcomerEvents(q, job) + AdmissionEvents(q), mid, PublicationEvents(q, scan), Published(mid, q, scan));
  }

  /** A request whose key is taken finds out when it inserts its own, and is rolled back. */
  lemma SoloCollision(c: Config, s: State, p: Pid, scan: ScanId, s': State)
    requires p in s.creators && s.creators[p].Admitted? && scan !in s.used
    requires var req := s.creators[p].job.req; (req.tenant, req.key) in s.db.keys
    requires forall q :: q in s.creators ==> !s.creators[q].Writing?
    requires s' == Put(s, p, Collided(s.creators[p].job)).(used := s.used + {scan})
    ensures Reaches(c, s, RefreshEvents(p, scan) + [Proceed(p)], s')
  {
    var d := DraftOf(s.creators[p], scan);
    var mid := Put(s, p, Writing(d, SNAPSHOT_WRITTEN, FiguresFor(s.db, d))).(used := s.used + {scan});
    SoloRefresh(c, s, p, scan, mid);
    OneStep(c, mid, Proceed(p), s');
    Chain(c, s, RefreshEvents(p, scan), mid, [Proceed(p)], s');
  }
}
