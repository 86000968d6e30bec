// Refreshes of subscription scopes at the same time. No lock keeps two refreshes of
// one Microsoft tenant apart but the row locks of their statements: the UPDATE that
// marks rows stale sees the rows committed when it starts, waits for those of them
// that are locked, and looks at these again; an upsert waits for its own row.
module Refreshes {
  import opened Wrappers
  import opened Scopes

  type Pid = nat

  // what a refresh has discovered, and for whom
  datatype Job = Job(tenant: string, ms: string, found: seq<Subscription>, session: Option<nat>, now: nat)

  datatype Refresh =
    | Discovered(job: Job)
    | Scanning(job: Job, seen: set<Key>)          // the UPDATE has begun
    | Writing(job: Job, own: Table, done: nat)    // rows written and locked; done counts the upserts
    | Finished

  datatype State = State(table: Table, refreshes: map<Pid, Refresh>)

  datatype Event =
    | Discover(p: Pid, job: Job)
    | Scan(p: Pid)
    | MarkStale(p: Pid)
    | Upsert(p: Pid)
    | Commit(p: Pid)
    | Abort(p: Pid)
    | Register(key: Key, row: Scope)    // an operator registers a scope by hand

  /** Nobody but p holds the lock of this row. */
  predicate FreeFor(s: State, p: Pid, k: Key) {
    forall q :: q in s.refreshes && q != p && s.refreshes[q].Writing? ==> k !in s.refreshes[q].own
  }

  predicate Target(job: Job, k: Key) { k.tenant == job.tenant && k.ms == job.ms && k.sub.Some? }

  function KeyOf(job: Job, id: string): Key { Key(job.tenant, job.ms, Some(id)) }

  /** The rows that the WHERE clause of the UPDATE matches. */
  function Matching(t: Table, job: Job): set<Key> {
    set k | k in t && Discoverable(k, t[k], job.tenant, job.ms)
  }

  /** The rows seen at the start of the UPDATE that still match, as it leaves them. */
  function StaleRows(t: Table, job: Job, seen: set<Key>): Table {
    map k | k in t && k in seen && Discoverable(k, t[k], job.tenant, job.ms) ::
      t[k].(active := false, status := Stale, updatedAt := job.now)
  }

  predicate Enabled(s: State, e: Event) {
    match e
    case Discover(p, _) => p !in s.refreshes
    case Scan(p) => p in s.refreshes && s.refreshes[p].Discovered?
    case MarkStale(p) =>
      p in s.refreshes && s.refreshes[p].Scanning? && forall k :: k in s.refreshes[p].seen ==> FreeFor(s, p, k)
    case Upsert(p) =>
      && p in s.refreshes && s.refreshes[p].Writing? && s.refreshes[p].done < |s.refreshes[p].job.found|
      && FreeFor(s, p, KeyOf(s.refreshes[p].job, s.refreshes[p].job.found[s.refreshes[p].done].id))
    case Commit(p) => p in s.refreshes && s.refreshes[p].Writing? && s.refreshes[p].done == |s.refreshes[p].job.found|
    case Abort(p) => p in s.refreshes
    case Register(k, row) =>
      row.source != AdminConsent && forall q :: q in s.refreshes && s.refreshes[q].Writing? ==> k !in s.refreshes[q].own
  }

  /** One more upsert, on top of the latest version of its row. */
  function WithUpsert(t: Table, r: Refresh): Refresh
    requires r.Writing? && r.done < |r.job.found|
  {
    var sub := r.job.found[r.done];
    var k := KeyOf(r.job, sub.id);
    var row := Verify(t + r.own, r.job.tenant, r.job.ms, sub, r.job.session, r.job.now)[k];
    r.(own := r.own[k := row], done := r.done + 1)
  }

  function Next(s: State, e: Event): State
    requires Enabled(s, e)
  {
    match e
    case Discover(p, job) => s.(refreshes := s.refreshes[p := Discovered(job)])
    case Scan(p) =>
      var job := s.refreshes[p].job;
      s.(refreshes := s.refreshes[p := Scanning(job, Matching(s.table, job))])
    case MarkStale(p) =>
      var job := s.refreshes[p].job;
      s.(refreshes := s.refreshes[p := Writing(job, StaleRows(s.table, job, s.refreshes[p].seen), 0)])
    case Upsert(p) => s.(refreshes := s.refreshes[p := WithUpsert(s.table, s.refreshes[p])])
    case Commit(p) => State(s.table + s.refreshes[p].own, s.refreshes[p := Finished])
    case Abort(p) => s.(refreshes := s.refreshes[p := Finished])
    case Register(k, row) =>
      s.(table := s.table[k := if k in s.table then row.(createdAt := s.table[k].createdAt) else row])
  }

  predicate IsRun(s: State, events: seq<Event>)
    decreases |events|
  {
    events == [] || (Enabled(s, events[0]) && IsRun(Next(s, events[0]), events[1..]))
  }

  function After(s: State, events: seq<Event>): State
    requires IsRun(s, events)
    decreases |events|
  {
    if events == [] then s else After(Next(s, events[0]), events[1..])
  }

  // ---------------------------------------------------------------- the invariant

  /**
    * What a refresh has written: what it upserted is verified, the rest
    * is stale; creation times are those of the table.
    */
  predicate OwnRow(t: Table, r: Refresh, k: Key)
    requires r.Writing? && k in r.own && r.done <= |r.job.found|
  {
    && Target(r.job, k) && r.own[k].source == AdminConsent
    && (r.own[k].active <==> Has(r.job.found[..r.done], k.sub.value))
    && (r.own[k].active ==> r.own[k].status == Verified)
    && (k in t ==> r.own[k].createdAt == t[k].createdAt)
  }

  ghost predicate RefreshGood(t: Table, r: Refresh) {
    r.Writing? ==>
      && r.done <= |r.job.found|
      && (forall k :: k in r.own ==> OwnRow(t, r, k))
      && (forall id :: Has(r.job.found[..r.done], id) ==> KeyOf(r.job, id) in r.own)
  }

  /** No row is locked twice. */
  predicate Apart(s: State, p: Pid, q: Pid) {
    (p in s.refreshes && q in s.refreshes && p != q && s.refreshes[p].Writing? && s.refreshes[q].Writing?) ==>
      forall k :: k in s.refreshes[p].own ==> k !in s.refreshes[q].own
  }

  ghost predicate Inv(s: State) {
    && (forall p :: p in s.refreshes ==> RefreshGood(s.table, s.refreshes[p]))
    && (forall p, q :: Apart(s, p, q))
  }

  lemma MarkedIsGood(t: Table, job: Job, seen: set<Key>)
    ensures RefreshGood(t, Writing(job, StaleRows(t, job, seen), 0))
  {
  }

  lemma UpsertIsGood(t: Table, r: Refresh)
    requires r.Writing? && r.done < |r.job.found| && RefreshGood(t, r)
    ensures RefreshGood(t, WithUpsert(t, r))
    ensures WithUpsert(t, r).own.Keys == r.own.Keys + {KeyOf(r.job, r.job.found[r.done].id)}
  {
    var r', more := WithUpsert(t, r), r.job.found[..r.done + 1];
    assert more[..r.done] == r.job.found[..r.done];
    forall id ensures Has(more, id) <==> Has(r.job.found[..r.done], id) || id == r.job.found[r.done].id {
      HasMore(more, id);
    }
    forall k | k in r'.own ensures OwnRow(t, r', k) {
      assert k in r.own ==> OwnRow(t, r, k);
    }
  }

  /** The rows of a refresh are untouched in the table while it holds their locks. */
  lemma LockedRowsRest(s: State, e: Event, p: Pid, k: Key)
    requires Enabled(s, e) && p in s.refreshes && s.refreshes[p].Writing? && k in s.refreshes[p].own
    requires e.Commit? ==> e.p != p && Apart(s, p, e.p)
    ensures k in Next(s, e).table <==> k in s.table
    ensures k in s.table ==> Next(s, e).table[k] == s.table[k]
  {
  }

  lemma OthersStayGood(s: State, e: Event, p: Pid)
    requires Enabled(s, e) && p in s.refreshes && RefreshGood(s.table, s.refreshes[p])
    requires e.Commit? ==> e.p != p && Apart(s, p, e.p)
    ensures RefreshGood(Next(s, e).table, s.refreshes[p])
  {
    var r, t' := s.refreshes[p], Next(s, e).table;
    if r.Writing? {
      forall k | k in r.own ensures OwnRow(t', r, k) {
        assert OwnRow(s.table, r, k);
        LockedRowsRest(s, e, p, k);
      }
    }
  }

  lemma ActorStaysGood(s: State, e: Event)
    requires Enabled(s, e) && !e.Register? && (e.p in s.refreshes ==> RefreshGood(s.table, s.refreshes[e.p]))
    ensures e.p in Next(s, e).refreshes && RefreshGood(Next(s, e).table, Next(s, e).refreshes[e.p])
  {
    match e
    case MarkStale(p) => MarkedIsGood(s.table, s.refreshes[p].job, s.refreshes[p].seen);
    case Upsert(p) => UpsertIsGood(s.table, s.refreshes[p]);
    case _ =>
  }

  /** A row is locked once it is free. */
  lemma RowsStayApart(s: State, e: Event, p: Pid, q: Pid)
    requires Enabled(s, e) && Apart(s, p, q) && Apart(s, q, p)
    ensures Apart(Next(s, e), p, q)
  {
  }

  lemma InvKept(s: State, e: Event)
    requires Inv(s) && Enabled(s, e)
    ensures Inv(Next(s, e))
  {
    var s' := Next(s, e);
    forall p | p in s'.refreshes ensures RefreshGood(s'.table, s'.refreshes[p]) {
      if !e.Register? && e.p == p {
        ActorStaysGood(s, e);
      } else {
        assert e.Commit? ==> Apart(s, p, e.p);
        OthersStayGood(s, e, p);
      }
    }
    forall p, q ensures Apart(s', p, q) {
      assert Apart(s, p, q) && Apart(s, q, p);
      RowsStayApart(s, e, p, q);
    }
  }

  lemma {:induction false} Safety(s: State, events: seq<Event>)
    requires Inv(s) && IsRun(s, events)
    ensures Inv(After(s, events))
    decreases |events|
  {
    if events != [] {
      InvKept(s, events[0]);
      Safety(Next(s, events[0]), events[1..]);
    }
  }

  predicate Fresh(s: State) { s.refreshes == map[] }

  /** A refresh that is aborted leaves the table as it is, and its rows are free for everybody. */
  lemma AbortReleases(s: State, p: Pid, q: Pid, k: Key)
    requires Inv(s) && Enabled(s, Abort(p))
    ensures var s' := Next(s, Abort(p));
      && s'.table == s.table
      && (s.refreshes[p].Writing? && k in s.refreshes[p].own ==> FreeFor(s', q, k))
      && (FreeFor(s, q, k) ==> FreeFor(s', q, k))
  {
    var s' := Next(s, Abort(p));
    if s.refreshes[p].Writing? && k in s.refreshes[p].own {
      forall r | r in s'.refreshes && r != q && s'.refreshes[r].Writing? ensures k !in s'.refreshes[r].own {
        assert Apart(s, p, r);
      }
    }
  }

  // ---------------------------------------------------------------- when a commit is exact

  /** Active by consent, but neither discovered by p nor seen by the UPDATE of p. */
  predicate Overlooked(s: State, p: Pid, id: string)
    requires p in s.refreshes && s.refreshes[p].Writing?
  {
    var r := s.refreshes[p];
    ActiveByConsent(s.table, r.job.tenant, r.job.ms, id) && KeyOf(r.job, id) !in r.own
  }

  /** The active consented subscriptions are the discovered ones. */
  ghost predicate Exact(t: Table, job: Job) {
    forall id :: ActiveByConsent(t, job.tenant, job.ms, id) <==> Has(job.found, id)
  }

  /** What is active after a commit: the discovery, and what the refresh has overlooked. */
  lemma CommitLeaves(s: State, p: Pid, id: string)
    requires Inv(s) && Enabled(s, Commit(p))
    ensures var job := s.refreshes[p].job;
      ActiveByConsent(Next(s, Commit(p)).table, job.tenant, job.ms, id) <==> Has(job.found, id) || Overlooked(s, p, id)
  {
    var r := s.refreshes[p];
    assert RefreshGood(s.table, r) && r.job.found[..r.done] == r.job.found;
    var k := KeyOf(r.job, id);
    assert k in r.own ==> OwnRow(s.table, r, k);
  }

  /** Over every interleaving: a refresh leaves exactly its discovery active, exactly if it has overlooked nothing. */
  lemma ExactUnlessOverlooked(s: State, events: seq<Event>, p: Pid)
    requires Fresh(s) && IsRun(s, events) && Enabled(After(s, events), Commit(p))
    ensures var s' := After(s, events);
      Exact(Next(s', Commit(p)).table, s'.refreshes[p].job) <==> forall id :: !Overlooked(s', p, id)
  {
    Safety(s, events);
    var s' := After(s, events);
    forall id
      ensures ActiveByConsent(Next(s', Commit(p)).table, s'.refreshes[p].job.tenant, s'.refreshes[p].job.ms, id)
        <==> Has(s'.refreshes[p].job.found, id) || Overlooked(s', p, id)
    {
      CommitLeaves(s', p, id);
    }
    assert forall id :: Overlooked(s', p, id) ==> !Has(s'.refreshes[p].job.found, id) by {
      assert RefreshGood(s'.table, s'.refreshes[p]);
      assert s'.refreshes[p].job.found[..s'.refreshes[p].done] == s'.refreshes[p].job.found;
    }
  }

  predicate Underway(s: State, p: Pid) {
    p in s.refreshes && (s.refreshes[p].Scanning? || s.refreshes[p].Writing?)
  }

  /** Another refresh of the same Microsoft tenant commits while p is between its UPDATE and its COMMIT. */
  predicate Overtakes(s: State, e: Event, p: Pid) {
    e.Commit? && e.p != p && Underway(s, p) && e.p in s.refreshes && s.refreshes[e.p].Writing?
    && s.refreshes[e.p].job.tenant == s.refreshes[p].job.tenant && s.refreshes[e.p].job.ms == s.refreshes[p].job.ms
  }

  predicate NeverOvertaken(s: State, events: seq<Event>, p: Pid)
    requires IsRun(s, events)
    decreases |events|
  {
    events == [] || (!Overtakes(s, events[0], p) && NeverOvertaken(Next(s, events[0]), events[1..], p))
  }

  /** Whatever matches now has been seen. */
  predicate SeesAll(s: State, p: Pid) {
    Underway(s, p) ==>
      var r := s.refreshes[p];
      forall k :: k in Matching(s.table, r.job) ==> if r.Scanning? then k in r.seen else k in r.own
  }

  lemma SeesAllStays(s: State, e: Event, p: Pid)
    requires Inv(s) && Enabled(s, e) && SeesAll(s, p) && !Overtakes(s, e, p)
    ensures SeesAll(Next(s, e), p)
  {
    if Underway(s, p) && e.Commit? && e.p != p {
      var q := s.refreshes[e.p];
      assert RefreshGood(s.table, q);
      assert forall k :: k in q.own ==> OwnRow(s.table, q, k) && Target(q.job, k);
    }
  }

  lemma {:induction false} SeesAllAlong(s: State, events: seq<Event>, p: Pid)
    requires Inv(s) && IsRun(s, events) && SeesAll(s, p) && NeverOvertaken(s, events, p)
    ensures SeesAll(After(s, events), p)
    decreases |events|
  {
    if events != [] {
      InvKept(s, events[0]);
      SeesAllStays(s, events[0], p);
      SeesAllAlong(Next(s, events[0]), events[1..], p);
    }
  }

  /** A refresh that no other one of its Microsoft tenant overtakes is exact, whatever else runs beside it. */
  lemma ExactUnlessOvertaken(s: State, events: seq<Event>, p: Pid)
    requires Fresh(s) && IsRun(s, events) && Enabled(After(s, events), Commit(p)) && NeverOvertaken(s, events, p)
    ensures Exact(Next(After(s, events), Commit(p)).table, After(s, events).refreshes[p].job)
  {
    SeesAllAlong(s, events, p);
    var s' := After(s, events);
    forall id ensures !Overlooked(s', p, id) {
      var job := s'.refreshes[p].job;
      assert ActiveByConsent(s'.table, job.tenant, job.ms, id) ==> KeyOf(job, id) in Matching(s'.table, job);
    }
    ExactUnlessOverlooked(s, events, p);
  }

  // ---------------------------------------------------------------- creation times

  /** No interleaving of refreshes and registrations ever changes the creation time of a row, or loses a row. */
  lemma {:induction false} CreationTimesStand(s: State, events: seq<Event>, k: Key)
    requires Inv(s) && IsRun(s, events) && k in s.table
    ensures k in After(s, events).table && After(s, events).table[k].createdAt == s.table[k].createdAt
    decreases |events|
  {
    if events != [] {
      var e := events[0];
      if e.Commit? {
        assert RefreshGood(s.table, s.refreshes[e.p]);
        assert k in s.refreshes[e.p].own ==> OwnRow(s.table, s.refreshes[e.p], k);
      }
      InvKept(s, e);
      CreationTimesStand(Next(s, e), events[1..], k);
    }
  }

  // ---------------------------------------------------------------- one refresh alone, and two that mix

  predicate Reaches(s: State, events: seq<Event>, s': State) {
    IsRun(s, events) && After(s, events) == s'
  }

  lemma {:induction false} Extend(s: State, events: seq<Event>, mid: State, e: Event, s': State)
    requires Reaches(s, events, mid) && Enabled(mid, e) && s' == Next(mid, e)
    ensures Reaches(s, events + [e], s')
    decreases |events|
  {
    if events == [] {
      assert [e][1..] == [] && After(s', []) == s';
    } else {
      assert (events + [e])[1..] == events[1..] + [e];
      Extend(Next(s, events[0]), events[1..], mid, e, s');
    }
  }

  predicate NobodyWrites(s: State) { forall q :: q in s.refreshes ==> !s.refreshes[q].Writing? }

  function Upserts(p: Pid, n: nat): seq<Event> { if n == 0 then [] else Upserts(p, n - 1) + [Upsert(p)] }

  /** The refresh after n upserts. */
  function AfterUpserts(t: Table, job: Job, stale: Table, n: nat): (r: Refresh)
    requires n <= |job.found|
    ensures r.Writing? && r.job == job && r.done == n
  {
    if n == 0 then Writing(job, stale, 0) else WithUpsert(t, AfterUpserts(t, job, stale, n - 1))
  }

  lemma MarkedOnTop(t: Table, job: Job)
    ensures t + StaleRows(t, job, Matching(t, job)) == MarkedStale(t, job.tenant, job.ms, job.now)
  {
  }

  lemma UpsertOnTop(t: Table, r: Refresh)
    requires r.Writing? && r.done < |r.job.found|
    ensures t + WithUpsert(t, r).own
      == Verify(t + r.own, r.job.tenant, r.job.ms, r.job.found[r.done], r.job.session, r.job.now)
  {
    var k := KeyOf(r.job, r.job.found[r.done].id);
    var row := Verify(t + r.own, r.job.tenant, r.job.ms, r.job.found[r.done], r.job.session, r.job.now)[k];
    assert t + r.own[k := row] == (t + r.own)[k := row];
  }

  /** What it has written so far is what the reconciling function makes of the table. */
  lemma {:induction false} UpsertedIsVerified(t: Table, job: Job, n: nat)
    requires n <= |job.found|
    ensures t + AfterUpserts(t, job, StaleRows(t, job, Matching(t, job)), n).own
      == VerifiedAll(MarkedStale(t, job.tenant, job.ms, job.now), job.tenant, job.ms, job.found[..n], job.session,
          job.now)
  {
    MarkedOnTop(t, job);
    if n > 0 {
      UpsertedIsVerified(t, job, n - 1);
      assert job.found[..n][..n - 1] == job.found[..n - 1];
      UpsertOnTop(t, AfterUpserts(t, job, StaleRows(t, job, Matching(t, job)), n - 1));
    }
  }

  /** All upserts of one refresh, with nobody else's locks in the way. */
  lemma {:induction false} UpsertsRun(s: State, p: Pid, stale: Table, n: nat, before: seq<Event>, from: State)
    requires p in s.refreshes && s.refreshes[p].Writing? && n <= |s.refreshes[p].job.found|
    requires s.refreshes[p] == Writing(s.refreshes[p].job, stale, 0) && Reaches(from, before, s)
    requires forall q :: q in s.refreshes && q != p ==> !s.refreshes[q].Writing?
    ensures Reaches(from, before + Upserts(p, n),
        s.(refreshes := s.refreshes[p := AfterUpserts(s.table, s.refreshes[p].job, stale, n)]))
  {
    var job := s.refreshes[p].job;
    if n == 0 {
      assert before + [] == before && s.refreshes[p := s.refreshes[p]] == s.refreshes;
    } else {
      UpsertsRun(s, p, stale, n - 1, before, from);
      var mid := s.(refreshes := s.refreshes[p := AfterUpserts(s.table, job, stale, n - 1)]);
      var s' := s.(refreshes := s.refreshes[p := AfterUpserts(s.table, job, stale, n)]);
      assert Next(mid, Upsert(p)) == s';
      Extend(from, before + Upserts(p, n - 1), mid, Upsert(p), s');
      assert before + Upserts(p, n - 1) + [Upsert(p)] == before + Upserts(p, n);
    }
  }

  /** The statements of p from its UPDATE to its last upsert. */
  function WritingEvents(p: Pid, n: nat): seq<Event> { [MarkStale(p)] + Upserts(p, n) }

  lemma WritesAlone(from: State, before: seq<Event>, s: State, p: Pid)
    requires Reaches(from, before, s) && p in s.refreshes && s.refreshes[p].Scanning? && NobodyWrites(s)
    ensures var job := s.refreshes[p].job;
      var stale := StaleRows(s.table, job, s.refreshes[p].seen);
      Reaches(from, before + WritingEvents(p, |job.found|),
              s.(refreshes := s.refreshes[p := AfterUpserts(s.table, job, stale, |job.found|)]))
  {
    var job := s.refreshes[p].job;
    var stale := StaleRows(s.table, job, s.refreshes[p].seen);
    var mid := s.(refreshes := s.refreshes[p := Writing(job, stale, 0)]);
    Extend(from, before, s, MarkStale(p), mid);
    UpsertsRun(mid, p, stale, |job.found|, before + [MarkStale(p)], from);
    assert before + [MarkStale(p)] + Upserts(p, |job.found|) == before + WritingEvents(p, |job.found|);
    assert mid.refreshes[p := AfterUpserts(s.table, job, stale, |job.found|)]
      == s.refreshes[p := AfterUpserts(s.table, job, stale, |job.found|)];
  }

  /** A refresh alone leaves the reconciled table. */
  lemma AloneIsReconciled(s: State, p: Pid)
    requires p in s.refreshes && s.refreshes[p].Discovered? && NobodyWrites(s)
    ensures var job := s.refreshes[p].job;
      Reaches(s, [] + [Scan(p)] + WritingEvents(p, |job.found|) + [Commit(p)],
              State(Reconciled(s.table, job.tenant, job.ms, job.found, job.session, job.now),
                    s.refreshes[p := Finished]))
  {
    var job := s.refreshes[p].job;
    var s1 := Next(s, Scan(p));
    Extend(s, [], s, Scan(p), s1);
    WritesAlone(s, [] + [Scan(p)], s1, p);
    var r := AfterUpserts(s.table, job, StaleRows(s.table, job, Matching(s.table, job)), |job.found|);
    var s2 := s1.(refreshes := s1.refreshes[p := r]);
    UpsertedIsVerified(s.table, job, |job.found|);
    assert job.found[..|job.found|] == job.found;
    var s' := State(s.table + r.own, s.refreshes[p := Finished]);
    assert Next(s2, Commit(p)).refreshes == s'.refreshes;
    Extend(s, [] + [Scan(p)] + WritingEvents(p, |job.found|), s2, Commit(p), s');
  }

  lemma {:induction false} AfterUpsertsIsGood(t: Table, job: Job, seen: set<Key>, n: nat)
    requires n <= |job.found|
    ensures RefreshGood(t, AfterUpserts(t, job, StaleRows(t, job, seen), n))
  {
    MarkedIsGood(t, job, seen);
    if n > 0 {
      AfterUpsertsIsGood(t, job, seen, n - 1);
      UpsertIsGood(t, AfterUpserts(t, job, StaleRows(t, job, seen), n - 1));
    }
  }

  /** Which rows a refresh has written after n upserts. */
  lemma {:induction false} AfterUpsertsKeys(t: Table, job: Job, stale: Table, n: nat, k: Key)
    requires n <= |job.found| && Target(job, k)
    ensures k in AfterUpserts(t, job, stale, n).own <==> k in stale || Has(job.found[..n], k.sub.value)
  {
    if n > 0 {
      AfterUpsertsKeys(t, job, stale, n - 1, k);
      assert job.found[..n][..n - 1] == job.found[..n - 1];
      HasMore(job.found[..n], k.sub.value);
    }
  }

  function JobTable(t: Table, job: Job): Table {
    Reconciled(t, job.tenant, job.ms, job.found, job.session, job.now)
  }

  /** The table that p leaves when its UPDATE began before q committed, and ended after. */
  function MixedTable(t: Table, p: Job, q: Job): Table {
    var t' := JobTable(t, q);
    t' + AfterUpserts(t', p, StaleRows(t', p, Matching(t, p)), |p.found|).own
  }

  /** Then q's subscriptions stay active beside p's, unless p has found them too or their rows were there before. */
  lemma MixedIsActive(t: Table, p: Job, q: Job, id: string)
    requires p.tenant == q.tenant && p.ms == q.ms
    ensures ActiveByConsent(MixedTable(t, p, q), p.tenant, p.ms, id) <==>
      Has(p.found, id) || (Has(q.found, id) && KeyOf(p, id) !in Matching(t, p))
  {
    var t', k := JobTable(t, q), KeyOf(p, id);
    var r := AfterUpserts(t', p, StaleRows(t', p, Matching(t, p)), |p.found|);
    AfterUpsertsIsGood(t', p, Matching(t, p), |p.found|);
    AfterUpsertsKeys(t', p, StaleRows(t', p, Matching(t, p)), |p.found|, k);
    assert p.found[..|p.found|] == p.found;
    ReconciledAt(t, q.tenant, q.ms, q.found, q.session, q.now, k);
    assert k in StaleRows(t', p, Matching(t, p)) <==> k in Matching(t, p);
    assert k in r.own ==> OwnRow(t', r, k);
  }

  function MixingEvents(p: Pid, pn: nat, q: Pid, qn: nat): seq<Event> {
    [] + [Scan(q)] + WritingEvents(q, qn) + [Scan(p)] + [Commit(q)] + WritingEvents(p, pn) + [Commit(p)]
  }

  /** Any two refreshes of a Microsoft tenant can end like that. */
  lemma RefreshesMix(s: State, p: Pid, q: Pid)
    requires p in s.refreshes && q in s.refreshes && p != q && NobodyWrites(s)
    requires s.refreshes[p].Discovered? && s.refreshes[q].Discovered?
    requires s.refreshes[p].job.tenant == s.refreshes[q].job.tenant && s.refreshes[p].job.ms == s.refreshes[q].job.ms
    ensures var a, b := s.refreshes[p].job, s.refreshes[q].job;
      Reaches(s, MixingEvents(p, |a.found|, q, |b.found|),
              State(MixedTable(s.table, a, b), s.refreshes[q := Finished][p := Finished]))
  {
    var a, b := s.refreshes[p].job, s.refreshes[q].job;
    var before := [] + [Scan(q)] + WritingEvents(q, |b.found|) + [Scan(p)] + [Commit(q)];
    var mid := State(JobTable(s.table, b), s.refreshes[p := Scanning(a, Matching(s.table, a))][q := Finished]);
    CommitsInBetween(s, p, q, mid);
    LastWriter(s, before, mid, p);
    assert mid.refreshes[p := Finished] == s.refreshes[q := Finished][p := Finished];
  }

  /** The UPDATE of p begins before q commits. */
  lemma CommitsInBetween(s: State, p: Pid, q: Pid, s': State)
    requires p in s.refreshes && q in s.refreshes && p != q && NobodyWrites(s)
    requires s.refreshes[p].Discovered? && s.refreshes[q].Discovered?
    requires var a, b := s.refreshes[p].job, s.refreshes[q].job;
      s' == State(JobTable(s.table, b), s.refreshes[p := Scanning(a, Matching(s.table, a))][q := Finished])
    ensures Reaches(s, [] + [Scan(q)] + WritingEvents(q, |s.refreshes[q].job.found|) + [Scan(p)] + [Commit(q)], s')
  {
    var a, b := s.refreshes[p].job, s.refreshes[q].job;
    var s1 := Next(s, Scan(q));
    Extend(s, [], s, Scan(q), s1);
    WritesAlone(s, [] + [Scan(q)], s1, q);
    var r := AfterUpserts(s.table, b, StaleRows(s.table, b, Matching(s.table, b)), |b.found|);
    var s2 := State(s.table, s1.refreshes[q := r]);
    var s3 := Next(s2, Scan(p));
    var e2 := [] + [Scan(q)] + WritingEvents(q, |b.found|);
    Extend(s, e2, s2, Scan(p), s3);
    UpsertedIsVerified(s.table, b, |b.found|);
    assert b.found[..|b.found|] == b.found;
    assert s3.refreshes[q := Finished] == s'.refreshes;
    Extend(s, e2 + [Scan(p)], s3, Commit(q), s');
  }

  lemma LastWriter(from: State, before: seq<Event>, s: State, p: Pid)
    requires Reaches(from, before, s) && p in s.refreshes && s.refreshes[p].Scanning? && NobodyWrites(s)
    ensures var job := s.refreshes[p].job;
      Reaches(from, before + WritingEvents(p, |job.found|) + [Commit(p)],
              State(s.table + AfterUpserts(s.table, job, StaleRows(s.table, job, s.refreshes[p].seen), |job.found|).own,
                    s.refreshes[p := Finished]))
  {
    var job := s.refreshes[p].job;
    var r := AfterUpserts(s.table, job, StaleRows(s.table, job, s.refreshes[p].seen), |job.found|);
    WritesAlone(from, before, s, p);
    var mid := s.(refreshes := s.refreshes[p := r]);
    assert mid.refreshes[p := Finished] == s.refreshes[p := Finished];
    Extend(from, before + WritingEvents(p, |job.found|), mid, Commit(p),
        State(s.table + r.own, s.refreshes[p := Finished]));
  }
}
