// The active-scan limit counts scans of every month but is guarded by a lock per
// month, so it holds only while no month begins between the moment a request of the
// tenant reads the clock and the end of its transaction.
module IntakeLimit {
  import opened Wrappers
  import opened Tables
  import opened Billing
  import opened Intake
  import opened IntakeQuota
  import opened IntakeRuns

  /** The tenant-month a request goes by, from its reading of the clock to the end of its transaction. */
  function MonthOf(cr: Creator): Option<(TenantId, Month)> {
    if cr.Dated? then Some((cr.job.req.tenant, cr.month)) else LockOf(cr)
  }

  ghost predicate NoMonthRead(s: State, t: TenantId) {
    forall p :: p in s.creators && MonthOf(s.creators[p]).Some? ==> MonthOf(s.creators[p]).value.0 != t
  }

  /** Every month begins while no request of the tenant is between its clock and the end of its transaction. */
  ghost predicate QuietRollovers(c: Config, s: State, events: seq<Event>, t: TenantId)
    requires IsRun(c, s, events)
    decreases |events|
  {
    events == [] ||
    ((events[0].NextMonth? ==> NoMonthRead(s, t)) && QuietRollovers(c, Next(c, s, events[0]), events[1..], t))
  }

  ghost predicate HasRoom(c: Config, db: Db, t: TenantId) {
    t in db.tenants && ActiveCount(db.scans, t) + 1 <= Limit(c, db, t)
  }

  /** A request of the tenant that has been counted in leaves room for its own scan. */
  ghost predicate CreatorHasRoom(c: Config, db: Db, cr: Creator, t: TenantId) {
    (cr.Unpressured? || cr.Admitted? || cr.Writing?) && LockOf(cr).value.0 == t ==> HasRoom(c, db, t)
  }

  ghost predicate MonthsAreCurrent(s: State, t: TenantId) {
    forall p :: p in s.creators && MonthOf(s.creators[p]).Some? && MonthOf(s.creators[p]).value.0 == t ==>
      MonthOf(s.creators[p]).value.1 == s.now
  }

  ghost predicate LimitInv(c: Config, s: State, t: TenantId) {
    && QuotaInv(c, s)
    && MonthsAreCurrent(s, t)
    && (t in s.db.tenants ==> ActiveCount(s.db.scans, t) <= Limit(c, s.db, t))
    && forall p :: p in s.creators ==> CreatorHasRoom(c, s.db, s.creators[p], t)
  }

  lemma StatementMonths(c: Config, db: Db, now: Month, cr: Creator)
    ensures var cr' := Statement(c, db, now, cr);
      MonthOf(cr').Some? ==> MonthOf(cr') == MonthOf(cr) || MonthOf(cr').value.1 == now
  {
  }

  /** A month is kept, dropped, or read from the clock. */
  lemma MonthIsKeptOrRead(c: Config, s: State, e: Event, p: Pid)
    requires Enabled(s, e) && p in Next(c, s, e).creators && MonthOf(Next(c, s, e).creators[p]).Some?
    ensures p in s.creators
    ensures MonthOf(Next(c, s, e).creators[p]) == MonthOf(s.creators[p])
      || (e == Proceed(p) && MonthOf(Next(c, s, e).creators[p]).value.1 == s.now)
  {
    CreatorMoves(c, s, e, p);
    if e == Proceed(p) {
      StatementMonths(c, s.db, s.now, s.creators[p]);
    }
  }

  lemma MonthsStayCurrent(c: Config, s: State, e: Event, t: TenantId)
    requires MonthsAreCurrent(s, t) && Enabled(s, e) && (e.NextMonth? ==> NoMonthRead(s, t))
    ensures MonthsAreCurrent(Next(c, s, e), t)
  {
    var s' := Next(c, s, e);
    forall p | p in s'.creators && MonthOf(s'.creators[p]).Some? && MonthOf(s'.creators[p]).value.0 == t
      ensures MonthOf(s'.creators[p]).value.1 == s'.now
    {
      MonthIsKeptOrRead(c, s, e, p);
    }
  }

  lemma StatementHasRoom(c: Config, db: Db, now: Month, cr: Creator, t: TenantId)
    requires CreatorHasRoom(c, db, cr, t) && CreatorFits(c, db, cr)
    ensures CreatorHasRoom(c, db, Statement(c, db, now, cr), t)
  {
  }

  lemma ShrinkKeepsRoom(c: Config, db: Db, db': Db, cr: Creator, t: TenantId)
    requires Shrinks(db, db') && CreatorHasRoom(c, db, cr, t)
    ensures CreatorHasRoom(c, db', cr, t)
  {
  }

  lemma MovedCreatorHasRoom(c: Config, s: State, e: Event, p: Pid, t: TenantId)
    requires LimitInv(c, s, t) && Enabled(s, e) && p in Next(c, s, e).creators
    ensures CreatorHasRoom(c, s.db, Next(c, s, e).creators[p], t)
  {
    CreatorMoves(c, s, e, p);
    if p in s.creators {
      assert CreatorHasRoom(c, s.db, s.creators[p], t) && CreatorFits(c, s.db, s.creators[p]);
      StatementHasRoom(c, s.db, s.now, s.creators[p], t);
    }
  }

  lemma PublishingAddsOne(db: Db, d: Draft, figures: Figures, t: TenantId)
    requires d.scan !in db.scans
    ensures ActiveCount(CommitDraft(db, d, figures).scans, t)
      == ActiveCount(db.scans, t) + if t == d.job.req.tenant then 1 else 0
  {
    TotalInsert(db.scans, d.scan, ScanRowOf(d), ActiveScan(t));
  }

  lemma CommitLeavesRoom(c: Config, s: State, e: Event, t: TenantId)
    requires LimitInv(c, s, t) && Enabled(s, e) && Publishes(e)
    ensures var db' := Next(c, s, e).db; t in db'.tenants ==> ActiveCount(db'.scans, t) <= Limit(c, db', t)
    ensures forall q :: q in Next(c, s, e).creators ==>
      CreatorHasRoom(c, Next(c, s, e).db, Next(c, s, e).creators[q], t)
  {
    var s', cr := Next(c, s, e), s.creators[e.p];
    assert CreatorFits(c, s.db, cr) && CreatorHasRoom(c, s.db, cr, t);
    PublishingAddsOne(s.db, cr.draft, cr.figures, t);
    forall q | q in s'.creators
      ensures CreatorHasRoom(c, s'.db, s'.creators[q], t)
    {
      if q != e.p {
        OthersKeepRoom(c, s, e.p, q, t);
      }
    }
  }

  /** Nobody else of the tenant has been counted in: they would hold the same lock. */
  lemma OthersKeepRoom(c: Config, s: State, p: Pid, q: Pid, t: TenantId)
    requires LimitInv(c, s, t) && p in s.creators && q in s.creators && p != q && s.creators[p].Writing?
    ensures CreatorHasRoom(c, CommitDraft(s.db, s.creators[p].draft, s.creators[p].figures), s.creators[q], t)
  {
    var cr := s.creators[p];
    assert LockOf(cr) != LockOf(s.creators[q]) && CreatorFits(c, s.db, cr);
    assert CreatorHasRoom(c, s.db, s.creators[q], t);
    PublishingAddsOne(s.db, cr.draft, cr.figures, t);
  }

  lemma LimitInvKept(c: Config, s: State, e: Event, t: TenantId)
    requires LimitInv(c, s, t) && Enabled(s, e) && (e.NextMonth? ==> NoMonthRead(s, t))
    ensures LimitInv(c, Next(c, s, e), t)
  {
    QuotaInvKept(c, s, e);
    MonthsStayCurrent(c, s, e, t);
    if Publishes(e) {
      CommitLeavesRoom(c, s, e, t);
    } else {
      OnlyCommitsAddUsage(s, e);
      var s' := Next(c, s, e);
      forall p | p in s'.creators
        ensures CreatorHasRoom(c, s'.db, s'.creators[p], t)
      {
        MovedCreatorHasRoom(c, s, e, p, t);
        ShrinkKeepsRoom(c, s.db, s'.db, s'.creators[p], t);
      }
    }
  }

  lemma {:induction false} LimitSafety(c: Config, s: State, events: seq<Event>, t: TenantId)
    requires LimitInv(c, s, t) && IsRun(c, s, events) && QuietRollovers(c, s, events, t)
    ensures LimitInv(c, After(c, s, events), t)
    decreases |events|
  {
    if events != [] {
      LimitInvKept(c, s, events[0], t);
      LimitSafety(c, Next(c, s, events[0]), events[1..], t);
    }
  }

  /** Active scans of a tenant never exceed its limit, if every rollover is quiet for it. */
  lemma ActiveLimitHolds(c: Config, s: State, events: seq<Event>, t: TenantId)
    requires Fresh(s) && IsRun(c, s, events) && QuietRollovers(c, s, events, t)
    ensures var db := After(c, s, events).db;
      t in db.tenants ==> ActiveCount(db.scans, t) <= Limit(c, db, t)
  {
    LimitSafety(c, s, events, t);
  }

  // ---------------------------------------------------------------- why the rollovers must be quiet

  /** Nobody writes, and nobody holds a lock of the tenant for this month. */
  ghost predicate Idle(s: State, t: TenantId, m: Month) {
    && LockFree(s, t, m) && s.db.scans.Keys <= s.used
    && forall q :: q in s.creators ==> !s.creators[q].Writing?
  }

  /** A request that has not arrived yet, and will be admitted in month m under this plan. */
  ghost predicate WouldBeAdmitted(c: Config, s: State, q: Pid, job: Job, m: Month, plan: Plan) {
    && q !in s.creators && 1 <= job.units && (job.req.tenant, job.req.key) !in s.db.keys
    && Admissible(c, s.db, job, m, plan)
  }

  /** A month begins, and a new request is admitted in it. */
  function ArrivalEvents(q: Pid, job: Job, m: Month): seq<Event> {
    [NextMonth(m)] + (NewcomerEvents(q, job) + AdmissionEvents(q))
  }

  lemma ArrivesInTheNewMonth(c: Config, s: State, q: Pid, job: Job, m: Month, plan: Plan, s': State)
    requires s.now < m && LockFree(s, job.req.tenant, m) && WouldBeAdmitted(c, s, q, job, m, plan)
    requires s' == Put(s, q, Decide(s.db, job, m, plan)).(now := m)
    ensures Reaches(c, s, ArrivalEvents(q, job, m), s')
  {
    var s1 := s.(now := m);
    OneStep(c, s, NextMonth(m), s1);
    SoloArrival(c, s1, q, job, plan, s');
    Chain(c, s, [NextMonth(m)], s1, NewcomerEvents(q, job) + AdmissionEvents(q), s');
  }

  ghost predicate BothAdmitted(s: State, p: Pid, q: Pid) {
    && p in s.creators && q in s.creators && p != q && s.creators[p].Admitted? && s.creators[q].Admitted?
    && s.creators[p].job.req.tenant == s.creators[q].job.req.tenant
    && s.creators[p].job.req.key != s.creators[q].job.req.key
    && (s.creators[p].job.req.tenant, s.creators[p].job.req.key) !in s.db.keys
    && (s.creators[q].job.req.tenant, s.creators[q].job.req.key) !in s.db.keys
    && s.db.scans.Keys <= s.used && forall r :: r in s.creators ==> !s.creators[r].Writing?
  }

  lemma BothPublish(c: Config, s: State, p: Pid, q: Pid, scan: ScanId, scan': ScanId)
    requires BothAdmitted(s, p, q) && scan !in s.used && scan' !in s.used && scan != scan'
    ensures var events, s' :=
      PublicationEvents(p, scan) + PublicationEvents(q, scan'), Published(Published(s, p, scan), q, scan');
      && Reaches(c, s, events, s') && s'.db.tenants == s.db.tenants
      && ActiveCount(s'.db.scans, s.creators[p].job.req.tenant)
        == ActiveCount(s.db.scans, s.creators[p].job.req.tenant) + 2
  {
    var s1 := Published(s, p, scan);
    var d, d' := DraftOf(s.creators[p], scan), DraftOf(s.creators[q], scan');
    SoloPublication(c, s, p, scan, s1);
    SoloPublication(c, s1, q, scan', Published(s1, q, scan'));
    Chain(c, s, PublicationEvents(p, scan), s1, PublicationEvents(q, scan'), Published(s1, q, scan'));
    PublishingAddsOne(s.db, d, FiguresFor(s.db, d), d.job.req.tenant);
    PublishingAddsOne(s1.db, d', FiguresFor(s1.db, d'), d.job.req.tenant);
  }

  /** One more active scan than the tenant may have. */
  ghost predicate OverLimit(c: Config, db: Db, t: TenantId) {
    t in db.tenants && ActiveCount(db.scans, t) == Limit(c, db, t) + 1
  }

  /** Room for one scan, taken by two: whatever the state, if a month begins while a request is admitted. */
  lemma RolloverAfterAdmission(c: Config, s: State, p: Pid, q: Pid, job: Job, m: Month, plan: Plan, scan: ScanId,
                               scan': ScanId)
    requires p in s.creators && s.creators[p].Admitted? && s.now < m
    requires var req := s.creators[p].job.req;
      && job.req.tenant == req.tenant && job.req.key != req.key && (req.tenant, req.key) !in s.db.keys
      && Idle(s, req.tenant, m) && WouldBeAdmitted(c, s, q, job, m, plan)
      && ActiveCount(s.db.scans, req.tenant) + 1 == Limit(c, s.db, req.tenant)
    requires scan !in s.used && scan' !in s.used && scan != scan'
    ensures var events := ArrivalEvents(q, job, m) + (PublicationEvents(p, scan) + PublicationEvents(q, scan'));
      IsRun(c, s, events) && OverLimit(c, After(c, s, events).db, job.req.tenant)
  {
    var mid := Put(s, q, Decide(s.db, job, m, plan)).(now := m);
    ArrivesInTheNewMonth(c, s, q, job, m, plan, mid);
    BothPublish(c, mid, p, q, scan, scan');
    Chain(c, s, ArrivalEvents(q, job, m), mid, PublicationEvents(p, scan) + PublicationEvents(q, scan'),
          Published(Published(mid, p, scan), q, scan'));
  }

  /** The same if it begins while a request has read the clock and holds no lock yet. */
  lemma RolloverAfterClock(c: Config, s: State, p: Pid, q: Pid, job: Job, m: Month, plan: Plan, plan': Plan,
                           scan: ScanId, scan': ScanId)
    requires p in s.creators && s.creators[p].Dated? && s.creators[p].month <= s.now < m
    requires var req := s.creators[p].job.req;
      && job.req.tenant == req.tenant && job.req.key != req.key && (req.tenant, req.key) !in s.db.keys
      && Idle(s, req.tenant, m) && WouldBeAdmitted(c, s, q, job, m, plan)
      && LockFree(s, req.tenant, s.creators[p].month)
      && Admissible(c, s.db, s.creators[p].job, s.creators[p].month, plan')
      && ActiveCount(s.db.scans, req.tenant) + 1 == Limit(c, s.db, req.tenant)
    requires scan !in s.used && scan' !in s.used && scan != scan'
    ensures var events :=
      ArrivalEvents(q, job, m) + AdmissionEvents(p) + (PublicationEvents(p, scan) + PublicationEvents(q, scan'));
      IsRun(c, s, events) && OverLimit(c, After(c, s, events).db, job.req.tenant)
  {
    var s1 := Put(s, q, Decide(s.db, job, m, plan)).(now := m);
    var s2 := Put(s1, p, Decide(s.db, s.creators[p].job, s.creators[p].month, plan'));
    BothAreAdmitted(c, s, p, q, job, m, plan, plan', s2);
    BothPublish(c, s2, p, q, scan, scan');
    Chain(c, s, ArrivalEvents(q, job, m) + AdmissionEvents(p), s2,
          PublicationEvents(p, scan) + PublicationEvents(q, scan'),
          Published(Published(s2, p, scan), q, scan'));
  }

  lemma BothAreAdmitted(c: Config, s: State, p: Pid, q: Pid, job: Job, m: Month, plan: Plan, plan': Plan, s': State)
    requires p in s.creators && s.creators[p].Dated? && s.creators[p].month <= s.now < m
    requires job.req.tenant == s.creators[p].job.req.tenant
    requires LockFree(s, job.req.tenant, m) && WouldBeAdmitted(c, s, q, job, m, plan)
    requires LockFree(s, job.req.tenant, s.creators[p].month)
    requires Admissible(c, s.db, s.creators[p].job, s.creators[p].month, plan')
    requires s' == Put(Put(s, q, Decide(s.db, job, m, plan)).(now := m), p,
                       Decide(s.db, s.creators[p].job, s.creators[p].month, plan'))
    ensures Reaches(c, s, ArrivalEvents(q, job, m) + AdmissionEvents(p), s')
  {
    var mid := Put(s, q, Decide(s.db, job, m, plan)).(now := m);
    ArrivesInTheNewMonth(c, s, q, job, m, plan, mid);
    SoloAdmission(c, mid, p, plan', s');
    Chain(c, s, ArrivalEvents(q, job, m), mid, AdmissionEvents(p), s');
  }

  /** Such states are reached: with a limit of one, two requests of a new tenant suffice. */
  lemma RolloverFromTheStart(c: Config, s: State, p: Pid, q: Pid, job: Job, job': Job, m: Month, plan: Plan,
                             plan': Plan, scan: ScanId, scan': ScanId)
    requires Fresh(s) && p != q && s.now < m && scan != scan'
    requires job.req.tenant == job'.req.tenant && job.req.key != job'.req.key
    requires WouldBeAdmitted(c, s, p, job, s.now, plan) && WouldBeAdmitted(c, s, q, job', m, plan')
    requires Limit(c, s.db, job.req.tenant) == 1
    ensures var events := NewcomerEvents(p, job) + (ArrivalEvents(q, job', m) + AdmissionEvents(p)
                          + (PublicationEvents(p, scan) + PublicationEvents(q, scan')));
      IsRun(c, s, events) && OverLimit(c, After(c, s, events).db, job.req.tenant)
  {
    var mid := Put(s, p, Dated(job, s.now));
    Newcomer(c, s, p, job, mid);
    RolloverAfterClock(c, mid, p, q, job', m, plan', plan, scan, scan');
    var rest := ArrivalEvents(q, job', m) + AdmissionEvents(p)
      + (PublicationEvents(p, scan) + PublicationEvents(q, scan'));
    Chain(c, s, NewcomerEvents(p, job), mid, rest, After(c, mid, rest));
  }
}
