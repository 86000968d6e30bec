// Idempotent creation, over every interleaving in which retention spares the key and
// its scan, and the atomic bundle, over those without retention.
module IntakeKeys {
  import opened Wrappers
  import opened Billing
  import opened Intake
  import opened IntakeQuota
  import opened IntakeLedger
  import opened IntakeRuns

  predicate Deletes(e: Event) { e.Retain? || e.ExpireKeys? }

  predicate NoRetention(events: seq<Event>) {
    forall i :: 0 <= i < |events| ==> !Deletes(events[i])
  }

  predicate Succeeded(cr: Creator) {
    cr.Finished? && (cr.outcome.Created? || cr.outcome.Replayed?)
  }

  function ScanIdOf(o: Outcome): ScanId
    requires o.Created? || o.Replayed?
  {
    if o.Created? then o.created else o.replayed
  }

  /** A scan, its idempotency row and its outbox event exist together and name one tenant. */
  predicate Bundled(db: Db, id: ScanId)
    requires id in db.scans
  {
    && id in db.outbox && db.outbox[id] == Message(db.scans[id].tenant, id)
    && exists k :: k in db.keys && db.keys[k].scan == id && k.0 == db.scans[id].tenant
  }

  predicate KeyBound(db: Db, k: (TenantId, Key))
    requires k in db.keys
  {
    && db.keys[k].scan in db.scans
    && db.scans[db.keys[k].scan].tenant == k.0
    && forall k2 :: k2 in db.keys && db.keys[k2].scan == db.keys[k].scan ==> k2 == k
  }

  /** A success names the scan its key is bound to, and carries the fingerprint stored with it. */
  predicate AnswerStands(db: Db, cr: Creator) {
    Succeeded(cr) ==>
      cr.fingerprint.Some? && SelectExisting(db, cr.req) == Some((ScanIdOf(cr.outcome), cr.fingerprint.value))
  }

  function KeyOfRequest(req: Request): (TenantId, Key) { (req.tenant, req.key) }

  predicate InsertedKey(cr: Creator) { cr.Writing? && cr.done >= KEY_WRITTEN }

  predicate IsCreation(cr: Creator) { cr.Finished? && cr.outcome.Created? }

  /** p has inserted this key and not committed yet. */
  predicate Inserts(s: State, p: Pid, k: (TenantId, Key)) {
    p in s.creators && InsertedKey(s.creators[p]) && KeyOf(s.creators[p].draft) == k
  }

  /** p has been told that it created a scan under this key. */
  predicate Creates(s: State, p: Pid, k: (TenantId, Key)) {
    p in s.creators && IsCreation(s.creators[p]) && KeyOfRequest(s.creators[p].req) == k
  }

  /** Open drafts have scan ids of their own, which nobody has committed. */
  ghost predicate DraftsNew(s: State) {
    Separate(s) && forall p :: p in s.creators && s.creators[p].Writing? ==> s.creators[p].draft.scan !in s.db.scans
  }

  /** Answers for one key stand, and it is inserted by one request at a time and created once. */
  ghost predicate KeyInv(s: State, k: (TenantId, Key)) {
    && (forall p :: p in s.creators && KeyOfRequest(RequestOf(s.creators[p])) == k ==>
          AnswerStands(s.db, s.creators[p]))
    && (forall p :: Inserts(s, p, k) ==> k !in s.db.keys)
    && (forall p, q :: Inserts(s, p, k) && Inserts(s, q, k) ==> p == q)
    && (forall p, q :: Creates(s, p, k) && Creates(s, q, k) ==> p == q)
  }

  /** Scans, idempotency rows and outbox events exist together. */
  ghost predicate TablesBound(db: Db) {
    && (forall id :: id in db.scans ==> Bundled(db, id))
    && db.outbox.Keys == db.scans.Keys
    && (forall k :: k in db.keys ==> KeyBound(db, k))
  }

  ghost predicate KeysInv(s: State) {
    DraftsNew(s) && TablesBound(s.db) && forall k :: KeyInv(s, k)
  }

  // ---------------------------------------------------------------- tables

  /** Apart from the commit of a creation, no event touches keys, outbox or the tenant of a scan. */
  predicate SameBindings(db: Db, db': Db) {
    && db'.keys == db.keys && db'.outbox == db.outbox && db'.scans.Keys == db.scans.Keys
    && forall id :: id in db.scans ==>
         db'.scans[id].tenant == db.scans[id].tenant && db'.scans[id].fingerprint == db.scans[id].fingerprint
  }

  lemma WorkerKeepsBindings(s: State, e: Event)
    requires Enabled(s, e) && OfWorker(e)
    ensures SameBindings(s.db, DbAfter(s, e))
  {
    if e.WorkerFinish? {
      assert WorkerSettle(s.db, e.scan, e.status).keys == s.db.keys;
    }
  }

  lemma OnlyCommitsBind(s: State, e: Event)
    requires Enabled(s, e) && !Publishes(e) && !Deletes(e)
    ensures SameBindings(s.db, DbAfter(s, e))
  {
    if OfWorker(e) {
      WorkerKeepsBindings(s, e);
    }
  }

  lemma SameBindingsKeep(db: Db, db': Db)
    requires SameBindings(db, db')
    requires (forall id :: id in db.scans ==> Bundled(db, id)) && (forall k :: k in db.keys ==> KeyBound(db, k))
    ensures (forall id :: id in db'.scans ==> Bundled(db', id)) && (forall k :: k in db'.keys ==> KeyBound(db', k))
    ensures forall req :: SelectExisting(db', req) == SelectExisting(db, req)
  {
    forall id | id in db'.scans ensures Bundled(db', id) {
      assert Bundled(db, id);
    }
    forall k | k in db'.keys ensures KeyBound(db', k) {
      assert KeyBound(db, k);
    }
    forall req ensures SelectExisting(db', req) == SelectExisting(db, req) {
      var k := (req.tenant, req.key);
      if k in db.keys && db.keys[k].scan in db.scans {
      }
    }
  }

  /** The published scan has its bundle, and the older ones keep theirs. */
  lemma CommitBundles(db: Db, d: Draft, figures: Figures, id: ScanId)
    requires d.scan !in db.scans && KeyOf(d) !in db.keys && id in CommitDraft(db, d, figures).scans
    requires id in db.scans ==> Bundled(db, id)
    ensures Bundled(CommitDraft(db, d, figures), id)
  {
    var db' := CommitDraft(db, d, figures);
    if id == d.scan {
      assert db'.keys[KeyOf(d)].scan == id;
    } else {
      var k :| k in db.keys && db.keys[k].scan == id && k.0 == db.scans[id].tenant;
      assert db'.keys[k].scan == id;
    }
  }

  lemma CommitBinds(db: Db, d: Draft, figures: Figures)
    requires d.scan !in db.scans && KeyOf(d) !in db.keys
    requires (forall id :: id in db.scans ==> Bundled(db, id)) && (forall k :: k in db.keys ==> KeyBound(db, k))
    requires db.outbox.Keys == db.scans.Keys
    ensures var db' := CommitDraft(db, d, figures);
      (forall id :: id in db'.scans ==> Bundled(db', id)) && (forall k :: k in db'.keys ==> KeyBound(db', k))
      && db'.outbox.Keys == db'.scans.Keys
    ensures SelectExisting(CommitDraft(db, d, figures), d.job.req) == Some((d.scan, d.job.fingerprint))
  {
    var db' := CommitDraft(db, d, figures);
    forall id | id in db'.scans ensures Bundled(db', id) {
      CommitBundles(db, d, figures, id);
    }
    forall k | k in db'.keys ensures KeyBound(db', k) {
      if k != KeyOf(d) {
        assert KeyBound(db, k);
      }
      forall k2 | k2 in db'.keys && db'.keys[k2].scan == db'.keys[k].scan ensures k2 == k {
        if k2 != KeyOf(d) {
          assert KeyBound(db, k2);
        }
      }
    }
  }

  /** The committed key leads to the committed scan. */
  lemma CommitLooksUp(db: Db, d: Draft, figures: Figures)
    ensures SelectExisting(CommitDraft(db, d, figures), d.job.req) == Some((d.scan, d.job.fingerprint))
  {
  }

  lemma TablesStayBound(c: Config, s: State, e: Event)
    requires KeysInv(s) && Enabled(s, e) && !Deletes(e)
    ensures TablesBound(Next(c, s, e).db)
  {
    if Publishes(e) {
      var cr := s.creators[e.p];
      assert KeyInv(s, KeyOf(cr.draft)) && Inserts(s, e.p, KeyOf(cr.draft));
      CommitBinds(s.db, cr.draft, cr.figures);
    } else {
      OnlyCommitsBind(s, e);
      SameBindingsKeep(s.db, Next(c, s, e).db);
    }
  }

  // ---------------------------------------------------------------- creators

  lemma StatementAnswers(c: Config, db: Db, now: Month, cr: Creator)
    requires AnswerStands(db, cr)
    ensures AnswerStands(db, Statement(c, db, now, cr))
  {
  }

  /** Answers are given from the tables the request reads. */
  lemma AnswersAreRead(c: Config, s: State, e: Event, p: Pid)
    requires Enabled(s, e) && !Publishes(e) && p in Next(c, s, e).creators
    requires p in s.creators ==> AnswerStands(s.db, s.creators[p])
    ensures AnswerStands(s.db, Next(c, s, e).creators[p])
  {
    CreatorMoves(c, s, e, p);
    if e == Proceed(p) {
      StatementAnswers(c, s.db, s.now, s.creators[p]);
    }
  }

  lemma CommitAnswers(db: Db, d: Draft, figures: Figures, outcome: Outcome)
    requires SelectExisting(CommitDraft(db, d, figures), d.job.req) == Some((d.scan, d.job.fingerprint))
    requires outcome == Created(d.scan) || outcome == Broken
    ensures AnswerStands(CommitDraft(db, d, figures), Finished(d.job.req, Some(d.job.fingerprint), outcome))
  {
  }

  /** Retention leaves this key and its scan alone. */
  predicate Spares(s: State, e: Event, k: (TenantId, Key)) {
    match e
    case Retain(gone) => k in s.db.keys ==> s.db.keys[k].scan !in gone
    case ExpireKeys(expired) => k !in expired
    case _ => true
  }

  predicate PublishesKey(s: State, e: Event, k: (TenantId, Key)) {
    Publishes(e) && e.p in s.creators && s.creators[e.p].Writing? && KeyOf(s.creators[e.p].draft) == k
  }

  /** What a key leads to stays, unless retention takes it away. */
  lemma LookupStays(s: State, e: Event, req: Request)
    requires DraftsNew(s) && Enabled(s, e) && Spares(s, e, KeyOfRequest(req)) && !PublishesKey(s, e, KeyOfRequest(req))
    requires SelectExisting(s.db, req).Some?
    ensures SelectExisting(DbAfter(s, e), req) == SelectExisting(s.db, req)
  {
    if !Publishes(e) && !Deletes(e) {
      OnlyCommitsBind(s, e);
    }
  }

  /** Nobody has an answer for a key that is only being inserted. */
  lemma NoAnswerYet(db: Db, cr: Creator)
    requires AnswerStands(db, cr) && KeyOfRequest(RequestOf(cr)) !in db.keys
    ensures !Succeeded(cr)
  {
  }

  lemma AnswerStays(c: Config, s: State, e: Event, k: (TenantId, Key), p: Pid)
    requires DraftsNew(s) && Enabled(s, e) && Spares(s, e, k) && !PublishesKey(s, e, k)
    requires p in Next(c, s, e).creators && KeyOfRequest(RequestOf(Next(c, s, e).creators[p])) == k
    requires p in s.creators && KeyOfRequest(RequestOf(s.creators[p])) == k ==> AnswerStands(s.db, s.creators[p])
    ensures AnswerStands(Next(c, s, e).db, Next(c, s, e).creators[p])
  {
    if Publishes(e) {
      OnlyPublisherMoves(c, s, e, p);
    }
    var cr' := Next(c, s, e).creators[p];
    if !Publishes(e) {
      AnswersAreRead(c, s, e, p);
    }
    if Succeeded(cr') {
      LookupStays(s, e, cr'.req);
    }
  }

  /** A commit moves the request that commits, which keeps its tenant and key. */
  lemma OnlyPublisherMoves(c: Config, s: State, e: Event, p: Pid)
    requires Enabled(s, e) && Publishes(e) && p in Next(c, s, e).creators
    ensures p in s.creators
    ensures if p == e.p then KeyOfRequest(RequestOf(Next(c, s, e).creators[p])) == KeyOf(s.creators[p].draft)
            else Next(c, s, e).creators[p] == s.creators[p]
  {
  }

  /** A request keeps its tenant and key. */
  lemma RequestsStay(c: Config, s: State, e: Event, p: Pid)
    requires Enabled(s, e) && p in Next(c, s, e).creators && p in s.creators
    ensures RequestOf(Next(c, s, e).creators[p]) == RequestOf(s.creators[p])
  {
  }

  /** A key is inserted once checked against committed keys and waited for against open ones. */
  lemma KeyIsKeptOrChecked(c: Config, s: State, e: Event, p: Pid)
    requires Enabled(s, e) && p in Next(c, s, e).creators && InsertedKey(Next(c, s, e).creators[p])
    ensures p in s.creators && s.creators[p].Writing? && Next(c, s, e).creators[p].draft == s.creators[p].draft
    ensures InsertedKey(s.creators[p])
      || (e == Proceed(p) && s.creators[p].done == SNAPSHOT_WRITTEN && KeyOf(s.creators[p].draft) !in s.db.keys)
  {
  }

  lemma InsertionStays(c: Config, s: State, e: Event, k: (TenantId, Key), p: Pid, q: Pid)
    requires Enabled(s, e) && Inserts(Next(c, s, e), p, k) && Inserts(Next(c, s, e), q, k)
    requires Inserts(s, p, k) && Inserts(s, q, k) ==> p == q
    ensures p == q
  {
    KeyIsKeptOrChecked(c, s, e, p);
    KeyIsKeptOrChecked(c, s, e, q);
  }

  lemma KeysAppearByCommit(s: State, e: Event)
    requires Enabled(s, e)
    ensures DbAfter(s, e).keys.Keys <= s.db.keys.Keys + if Publishes(e) then {KeyOf(s.creators[e.p].draft)} else {}
  {
    if !Publishes(e) && !Deletes(e) {
      OnlyCommitsBind(s, e);
    }
  }

  lemma KeyStaysNew(c: Config, s: State, e: Event, k: (TenantId, Key), p: Pid)
    requires Enabled(s, e) && Inserts(Next(c, s, e), p, k)
    requires Inserts(s, p, k) ==> k !in s.db.keys
    requires forall q :: Inserts(s, p, k) && Inserts(s, q, k) ==> p == q
    ensures k !in DbAfter(s, e).keys
  {
    KeyIsKeptOrChecked(c, s, e, p);
    KeysAppearByCommit(s, e);
    if PublishesKey(s, e, k) {
      assert Inserts(s, e.p, k);
    }
  }

  lemma CreationIsKeptOrCommitted(c: Config, s: State, e: Event, p: Pid)
    requires Enabled(s, e) && p in Next(c, s, e).creators && IsCreation(Next(c, s, e).creators[p])
    ensures p in s.creators
    ensures s.creators[p] == Next(c, s, e).creators[p]
      || (e == Commit(p) && s.creators[p].Writing?
          && Next(c, s, e).creators[p].outcome.created == s.creators[p].draft.scan)
  {
  }

  lemma CreationStaysSingle(c: Config, s: State, e: Event, k: (TenantId, Key), p: Pid, q: Pid)
    requires KeyInv(s, k) && Enabled(s, e) && Creates(Next(c, s, e), p, k) && Creates(Next(c, s, e), q, k)
    ensures p == q
  {
    CreationIsKeptOrCommitted(c, s, e, p);
    CreationIsKeptOrCommitted(c, s, e, q);
    if p != q {
      assert !(Creates(s, p, k) && Creates(s, q, k));
      var first := if e == Commit(p) then q else p;
      assert Creates(s, first, k) && Inserts(s, e.p, k);
      NoAnswerYet(s.db, s.creators[first]);
    }
  }

  lemma DraftsStayNew(c: Config, s: State, e: Event)
    requires DraftsNew(s) && Enabled(s, e)
    ensures DraftsNew(Next(c, s, e))
  {
    var s' := Next(c, s, e);
    SeparateKept(c, s, e);
    ScansAppearByCommit(s, e);
    forall p | p in s'.creators && s'.creators[p].Writing? ensures s'.creators[p].draft.scan !in s'.db.scans {
      DraftIsKeptOrFresh(c, s, e, p);
      DraftStaysNew(c, s, e, p);
    }
  }

  lemma DraftStaysNew(c: Config, s: State, e: Event, p: Pid)
    requires DraftsNew(s) && Enabled(s, e) && p in Next(c, s, e).creators && Next(c, s, e).creators[p].Writing?
    ensures Next(c, s, e).creators[p].draft.scan !in Next(c, s, e).db.scans
  {
    DraftIsKeptOrFresh(c, s, e, p);
    ScansAppearByCommit(s, e);
  }

  /** The request that publishes a key is the only one with an answer for it. */
  lemma PublishedAnswerStands(c: Config, s: State, e: Event, k: (TenantId, Key), p: Pid)
    requires DraftsNew(s) && KeyInv(s, k) && Enabled(s, e) && PublishesKey(s, e, k)
    requires p in Next(c, s, e).creators && KeyOfRequest(RequestOf(Next(c, s, e).creators[p])) == k
    ensures AnswerStands(Next(c, s, e).db, Next(c, s, e).creators[p])
  {
    var cr := s.creators[e.p];
    assert Inserts(s, e.p, k);
    if p == e.p {
      CommitLooksUp(s.db, cr.draft, cr.figures);
      CommitAnswers(s.db, cr.draft, cr.figures, if e.Commit? then Created(cr.draft.scan) else Broken);
    } else {
      RequestsStay(c, s, e, p);
      NoAnswerYet(s.db, s.creators[p]);
    }
  }

  lemma AnswersStand(c: Config, s: State, e: Event, k: (TenantId, Key), p: Pid)
    requires DraftsNew(s) && KeyInv(s, k) && Enabled(s, e) && Spares(s, e, k)
    requires p in Next(c, s, e).creators && KeyOfRequest(RequestOf(Next(c, s, e).creators[p])) == k
    ensures AnswerStands(Next(c, s, e).db, Next(c, s, e).creators[p])
  {
    if PublishesKey(s, e, k) {
      PublishedAnswerStands(c, s, e, k, p);
    } else {
      AnswerStays(c, s, e, k, p);
    }
  }

  lemma KeyInvKept(c: Config, s: State, e: Event, k: (TenantId, Key))
    requires DraftsNew(s) && KeyInv(s, k) && Enabled(s, e) && Spares(s, e, k)
    ensures KeyInv(Next(c, s, e), k)
  {
    var s' := Next(c, s, e);
    forall p | p in s'.creators && KeyOfRequest(RequestOf(s'.creators[p])) == k
      ensures AnswerStands(s'.db, s'.creators[p])
    {
      AnswersStand(c, s, e, k, p);
    }
    forall p | Inserts(s', p, k) ensures k !in s'.db.keys {
      KeyStaysNew(c, s, e, k, p);
    }
    forall p, q | Inserts(s', p, k) && Inserts(s', q, k) ensures p == q {
      InsertionStays(c, s, e, k, p, q);
    }
    forall p, q | Creates(s', p, k) && Creates(s', q, k) ensures p == q {
      CreationStaysSingle(c, s, e, k, p, q);
    }
  }

  lemma KeysInvKept(c: Config, s: State, e: Event)
    requires KeysInv(s) && Enabled(s, e) && !Deletes(e)
    ensures KeysInv(Next(c, s, e))
  {
    DraftsStayNew(c, s, e);
    TablesStayBound(c, s, e);
    forall k ensures KeyInv(Next(c, s, e), k) {
      assert KeyInv(s, k);
      KeyInvKept(c, s, e, k);
    }
  }

  lemma {:induction false} KeysSafety(c: Config, s: State, events: seq<Event>)
    requires KeysInv(s) && IsRun(c, s, events) && NoRetention(events)
    ensures KeysInv(After(c, s, events))
    decreases |events|
  {
    if events != [] {
      assert !Deletes(events[0]);
      assert forall i :: 0 <= i < |events| - 1 ==> events[1..][i] == events[i + 1];
      KeysInvKept(c, s, events[0]);
      KeysSafety(c, Next(c, s, events[0]), events[1..]);
    }
  }

  /** No retention of the run takes the key or its scan away. */
  ghost predicate Spared(c: Config, s: State, events: seq<Event>, k: (TenantId, Key))
    requires IsRun(c, s, events)
    decreases |events|
  {
    events == [] || (Spares(s, events[0], k) && Spared(c, Next(c, s, events[0]), events[1..], k))
  }

  lemma {:induction false} KeySafety(c: Config, s: State, events: seq<Event>, k: (TenantId, Key))
    requires DraftsNew(s) && KeyInv(s, k) && IsRun(c, s, events) && Spared(c, s, events, k)
    ensures KeyInv(After(c, s, events), k)
    decreases |events|
  {
    if events != [] {
      DraftsStayNew(c, s, events[0]);
      KeyInvKept(c, s, events[0], k);
      KeySafety(c, Next(c, s, events[0]), events[1..], k);
    }
  }

  // ---------------------------------------------------------------- main results

  /** All successes for one (tenant, key) name one scan and carry one fingerprint; at most one of them created it. */
  lemma IdempotentCreation(c: Config, s: State, events: seq<Event>, p: Pid, q: Pid)
    requires Fresh(s) && IsRun(c, s, events)
    requires var s' := After(c, s, events);
      && p in s'.creators && q in s'.creators && Succeeded(s'.creators[p]) && Succeeded(s'.creators[q])
      && s'.creators[p].req == s'.creators[q].req && Spared(c, s, events, KeyOfRequest(s'.creators[p].req))
    ensures var a, b := After(c, s, events).creators[p], After(c, s, events).creators[q];
      ScanIdOf(a.outcome) == ScanIdOf(b.outcome) && a.fingerprint == b.fingerprint
      && (p != q ==> !(a.outcome.Created? && b.outcome.Created?))
  {
    var s' := After(c, s, events);
    var k := KeyOfRequest(s'.creators[p].req);
    KeySafety(c, s, events, k);
    assert AnswerStands(s'.db, s'.creators[p]) && AnswerStands(s'.db, s'.creators[q]);
    assert Creates(s', p, k) && Creates(s', q, k) ==> p == q;
  }

  /**
    * Every committed scan comes with exactly one reservation, one
    * idempotency row and one outbox event, all of its tenant.
    */
  lemma AtomicBundle(c: Config, s: State, events: seq<Event>, id: ScanId)
    requires Fresh(s) && IsRun(c, s, events) && NoRetention(events)
    ensures var db := After(c, s, events).db;
      && (id in db.outbox <==> id in db.scans)
      && (id in db.scans ==>
            && CountEvents(db.ledger, id, ScanReserved) == 1
            && SameTenant(db.ledger, id, db.scans[id].tenant)
            && db.outbox[id] == Message(db.scans[id].tenant, id)
            && (exists k :: k in db.keys && db.keys[k].scan == id && k.0 == db.scans[id].tenant
                  && forall k2 :: k2 in db.keys && db.keys[k2].scan == id ==> k2 == k))
  {
    KeysSafety(c, s, events);
    LedgerSafety(c, s, events);
    var db := After(c, s, events).db;
    if id in db.scans {
      assert Bundled(db, id) && ScanBooked(db, id);
      var k :| k in db.keys && db.keys[k].scan == id && k.0 == db.scans[id].tenant;
      assert KeyBound(db, k);
    }
  }

  // ---------------------------------------------------------------- why retention must spare the key

  function ReuseEvents(q: Pid, job: Job, scan: ScanId): seq<Event> {
    [ExpireKeys({KeyOfRequest(job.req)})] + CreationEvents(q, job, scan)
  }

  function KeyExpired(s: State, k: (TenantId, Key)): State { s.(db := s.db.(keys := s.db.keys - {k})) }

  ghost predicate CanReuse(c: Config, s: State, q: Pid, job: Job, plan: Plan, scan: ScanId) {
    && q !in s.creators && 1 <= job.units && scan !in s.used
    && LockFree(s, job.req.tenant, s.now) && Admissible(c, s.db, job, s.now, plan)
    && forall p :: p in s.creators ==> !s.creators[p].Writing?
  }

  lemma ReuseRun(c: Config, s: State, q: Pid, job: Job, plan: Plan, scan: ScanId, mid: State)
    requires CanReuse(c, s, q, job, plan, scan) && mid == KeyExpired(s, KeyOfRequest(job.req))
    ensures Decide(mid.db, job, s.now, plan).Admitted?
    ensures Reaches(c, s, ReuseEvents(q, job, scan), Published(Put(mid, q, Decide(mid.db, job, s.now, plan)), q, scan))
  {
    OneStep(c, s, ExpireKeys({KeyOfRequest(job.req)}), mid);
    assert Admissible(c, mid.db, job, s.now, plan);
    SoloCreation(c, mid, q, job, plan, scan);
    Chain(c, s, [ExpireKeys({KeyOfRequest(job.req)})], mid, CreationEvents(q, job, scan),
          Published(Put(mid, q, Decide(mid.db, job, s.now, plan)), q, scan));
  }

  /** Whatever a key has created: once retention has taken it, an admissible request with it creates another scan. */
  lemma ExpiredKeyCreatesAgain(c: Config, s: State, q: Pid, job: Job, plan: Plan, scan: ScanId)
    requires CanReuse(c, s, q, job, plan, scan)
    ensures IsRun(c, s, ReuseEvents(q, job, scan))
    ensures var s' := After(c, s, ReuseEvents(q, job, scan));
      && Creates(s', q, KeyOfRequest(job.req)) && s'.creators[q].outcome == Created(scan)
      && forall p :: p in s.creators ==> p in s'.creators && s'.creators[p] == s.creators[p]
  {
    ReuseRun(c, s, q, job, plan, scan, KeyExpired(s, KeyOfRequest(job.req)));
  }

  // ---------------------------------------------------------------- refusals

  /** No statement of request p ever changed a committed table. */
  ghost predicate NeverWrites(c: Config, s: State, events: seq<Event>, p: Pid)
    requires IsRun(c, s, events)
    decreases |events|
  {
    events == [] || ((OwnEvent(events[0], p) ==> Next(c, s, events[0]).db == s.db)
                     && NeverWrites(c, Next(c, s, events[0]), events[1..], p))
  }

  lemma {:induction false} FinishedIsFinal(c: Config, s: State, events: seq<Event>, p: Pid)
    requires IsRun(c, s, events) && p in s.creators && s.creators[p].Finished?
    ensures p in After(c, s, events).creators && After(c, s, events).creators[p] == s.creators[p]
    decreases |events|
  {
    if events != [] {
      FinishedIsFinal(c, Next(c, s, events[0]), events[1..], p);
    }
  }

  /** A request that ends in a refusal, a conflict or a replay left every table as it was. */
  lemma {:induction false} RefusedRequestsWriteNothing(c: Config, s: State, events: seq<Event>, p: Pid)
    requires IsRun(c, s, events)
    requires var s' := After(c, s, events);
      p in s'.creators && s'.creators[p].Finished? && !s'.creators[p].outcome.Created?
          && !s'.creators[p].outcome.Broken?
    ensures NeverWrites(c, s, events, p)
    decreases |events|
  {
    if events != [] {
      var mid := Next(c, s, events[0]);
      if OwnEvent(events[0], p) && Publishes(events[0]) {
        FinishedIsFinal(c, mid, events[1..], p);
      }
      RefusedRequestsWriteNothing(c, mid, events[1..], p);
    }
  }
}
