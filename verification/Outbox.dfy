// The outbox: rows enqueued by committed creations, claimed under a ten-minute
// lease, sent to the bus, then marked published or failed. Any number of publishers
// run at once; one SQL statement, or one send, is one step.
module Outbox {
  import opened Wrappers
  import opened Powers
  import opened Tables

  type EventId = nat
  type Time = nat      // seconds

  const LEASE: nat := 600
  const MAX_BACKOFF: nat := 3600

  datatype RowStatus = Pending | Processing | Published | Failed

  datatype Row = Row(status: RowStatus, attempts: nat, nextAt: Time, lockedAt: Option<Time>, createdAt: Time)

  datatype Config = Config(maxAttempts: nat, baseBackoff: nat, onTime: bool)

  // ---------------------------------------------------------------- statements

  /** LEAST(3600, base * POWER(2, attempts)) */
  function Backoff(base: nat, attempts: nat): nat {
    if base * Pow2(attempts) <= MAX_BACKOFF then base * Pow2(attempts) else MAX_BACKOFF
  }

  function NewRow(now: Time): Row { Row(Pending, 0, now, None, now) }

  /** INSERT ... ON CONFLICT: a row not yet published is pending again at once. */
  function EnqueueRow(rows: map<EventId, Row>, id: EventId, now: Time): map<EventId, Row> {
    if id !in rows then rows[id := NewRow(now)]
    else if rows[id].status == Published then rows
    else rows[id := rows[id].(status := Pending, nextAt := now)]
  }

  /** The WHERE clause of claimPending. */
  predicate Claimable(c: Config, row: Row, now: Time) {
    && (row.status == Pending || row.status == Failed
        || (row.status == Processing && row.lockedAt.Some? && row.lockedAt.value + LEASE < now))
    && row.attempts < c.maxAttempts
    && row.nextAt <= now
  }

  function Claimed(row: Row, now: Time): Row { row.(status := Processing, lockedAt := Some(now)) }

  function ClaimRows(rows: map<EventId, Row>, ids: seq<EventId>, now: Time): map<EventId, Row> {
    map id | id in rows :: if id in ids then Claimed(rows[id], now) else rows[id]
  }

  function PublishedRow(row: Row): Row { row.(status := Published, lockedAt := None) }

  function FailedRow(c: Config, row: Row, now: Time): Row {
    row.(status := Failed, attempts := row.attempts + 1, lockedAt := None,
         nextAt := now + Backoff(c.baseBackoff, row.attempts))
  }

  // ---------------------------------------------------------------- the machine

  // todo: claimed rows still to be handled, in order; sent: the first one was accepted by the bus
  datatype Publisher = Publisher(claimedAt: Time, todo: seq<EventId>, sent: bool)

  type Pid = nat

  datatype State = State(rows: map<EventId, Row>, publishers: map<Pid, Publisher>, sent: multiset<EventId>, now: Time)

  datatype Event =
    | Enqueue(id: EventId)
    | Tick(now: Time)
    | Claim(p: Pid, ids: seq<EventId>)
    | Send(p: Pid)
    | MarkPublished(p: Pid)
    | MarkFailed(p: Pid)
    | LeaveRow(p: Pid)      // the failure could not be recorded either
    | Crash(p: Pid)

  predicate Working(s: State, p: Pid) { p in s.publishers && s.publishers[p].todo != [] }

  predicate InLease(q: Publisher, now: Time) { now <= q.claimedAt + LEASE }

  /** With c.onTime, a publisher only acts on a row inside its own lease. */
  predicate MayAct(c: Config, s: State, p: Pid) {
    Working(s, p) && (c.onTime ==> InLease(s.publishers[p], s.now))
  }

  predicate Distinct(ids: seq<EventId>) {
    forall i, j :: 0 <= i < j < |ids| ==> ids[i] != ids[j]
  }

  predicate Enabled(c: Config, s: State, e: Event) {
    match e
    case Enqueue(id) => id !in s.rows       // scan ids are fresh
    case Tick(now) => s.now < now
    case Claim(p, ids) =>
      && !Working(s, p) && Distinct(ids)
      && forall i :: 0 <= i < |ids| ==> ids[i] in s.rows && Claimable(c, s.rows[ids[i]], s.now)
    case Send(p) => MayAct(c, s, p) && !s.publishers[p].sent && s.publishers[p].todo[0] in s.rows
    case MarkPublished(p) => MayAct(c, s, p) && s.publishers[p].sent && s.publishers[p].todo[0] in s.rows
    case MarkFailed(p) => MayAct(c, s, p) && s.publishers[p].todo[0] in s.rows
    case LeaveRow(p) => Working(s, p)
    case Crash(p) => Working(s, p)
  }

  function Rest(q: Publisher): Publisher
    requires q.todo != []
  {
    Publisher(q.claimedAt, q.todo[1..], false)
  }

  function Next(c: Config, s: State, e: Event): State
    requires Enabled(c, s, e)
  {
    match e
    case Enqueue(id) => s.(rows := EnqueueRow(s.rows, id, s.now))
    case Tick(now) => s.(now := now)
    case Claim(p, ids) =>
      s.(rows := ClaimRows(s.rows, ids, s.now), publishers := s.publishers[p := Publisher(s.now, ids, false)])
    case Send(p) =>
      s.(sent := s.sent + multiset{s.publishers[p].todo[0]},
         publishers := s.publishers[p := s.publishers[p].(sent := true)])
    case MarkPublished(p) =>
      var id := s.publishers[p].todo[0];
      s.(rows := s.rows[id := PublishedRow(s.rows[id])], publishers := s.publishers[p := Rest(s.publishers[p])])
    case MarkFailed(p) =>
      var id := s.publishers[p].todo[0];
      s.(rows := s.rows[id := FailedRow(c, s.rows[id], s.now)], publishers := s.publishers[p := Rest(s.publishers[p])])
    case LeaveRow(p) => s.(publishers := s.publishers[p := Rest(s.publishers[p])])
    case Crash(p) => s.(publishers := s.publishers - {p})
  }

  predicate IsRun(c: Config, s: State, events: seq<Event>)
    decreases |events|
  {
    events == [] || (Enabled(c, s, events[0]) && IsRun(c, Next(c, s, events[0]), events[1..]))
  }

  function After(c: Config, s: State, events: seq<Event>): State
    requires IsRun(c, s, events)
    decreases |events|
  {
    if events == [] then s else After(c, Next(c, s, events[0]), events[1..])
  }

  predicate Fresh(s: State) { s.rows == map[] && s.publishers == map[] && s.sent == multiset{} }

  // ---------------------------------------------------------------- the invariant

  /** p may still act on id. */
  predicate Holds(s: State, p: Pid, id: EventId) {
    p in s.publishers && id in s.publishers[p].todo && InLease(s.publishers[p], s.now)
  }

  predicate OwnClaim(c: Config, s: State, p: Pid, id: EventId)
    requires p in s.publishers
  {
    id in s.rows && s.rows[id].status == Processing && s.rows[id].lockedAt == Some(s.publishers[p].claimedAt)
    && s.rows[id].attempts < c.maxAttempts
  }

  predicate RowGood(c: Config, s: State, id: EventId)
    requires id in s.rows
  {
    && s.rows[id].attempts <= c.maxAttempts
    && (s.rows[id].status == Published ==> id in s.sent && s.rows[id].attempts < c.maxAttempts)
  }

  predicate PublisherGood(s: State, q: Publisher) {
    && q.claimedAt <= s.now && Distinct(q.todo)
    && (q.sent ==> q.todo != [] && q.todo[0] in s.sent)
  }

  ghost predicate Inv(c: Config, s: State) {
    && (forall id :: id in s.rows ==> RowGood(c, s, id))
    && (forall p :: p in s.publishers ==> PublisherGood(s, s.publishers[p]))
    && (forall p, id :: Holds(s, p, id) ==> OwnClaim(c, s, p, id))
    && (forall p, q, id :: Holds(s, p, id) && Holds(s, q, id) ==> p == q)
  }

  /** A row in force is held as before, or has just been claimed while nobody held it. */
  lemma HoldIsKeptOrClaimed(c: Config, s: State, e: Event, p: Pid, id: EventId)
    requires Enabled(c, s, e) && Holds(Next(c, s, e), p, id)
    ensures (Holds(s, p, id) && Next(c, s, e).publishers[p].claimedAt == s.publishers[p].claimedAt)
      || (e.Claim? && e.p == p && id in e.ids && Next(c, s, e).publishers[p].claimedAt == s.now)
  {
  }

  lemma ClaimableIsFree(c: Config, s: State, id: EventId, p: Pid)
    requires Inv(c, s) && id in s.rows && Claimable(c, s.rows[id], s.now)
    ensures !Holds(s, p, id)
  {
  }

  lemma HoldsStayExclusive(c: Config, s: State, e: Event, p: Pid, q: Pid, id: EventId)
    requires Inv(c, s) && Enabled(c, s, e) && Holds(Next(c, s, e), p, id) && Holds(Next(c, s, e), q, id)
    ensures p == q
  {
    HoldIsKeptOrClaimed(c, s, e, p, id);
    HoldIsKeptOrClaimed(c, s, e, q, id);
    if e.Claim? && id in e.ids {
      ClaimableIsFree(c, s, id, p);
      ClaimableIsFree(c, s, id, q);
    }
  }

  lemma ClaimsStayOwn(c: Config, s: State, e: Event, p: Pid, id: EventId)
    requires c.onTime && Inv(c, s) && Enabled(c, s, e) && Holds(Next(c, s, e), p, id)
    ensures OwnClaim(c, Next(c, s, e), p, id)
  {
    HoldIsKeptOrClaimed(c, s, e, p, id);
    if Holds(s, p, id) {
      assert OwnClaim(c, s, p, id);
      if e.Claim? && id in e.ids {
        ClaimableIsFree(c, s, id, p);
      } else if e.MarkPublished? || e.MarkFailed? {
        assert Holds(s, e.p, s.publishers[e.p].todo[0]);
        forall q | Holds(s, q, id) ensures q == p {}
      }
    }
  }

  lemma RowsStayGood(c: Config, s: State, e: Event, id: EventId)
    requires c.onTime && Inv(c, s) && Enabled(c, s, e) && id in Next(c, s, e).rows
    ensures RowGood(c, Next(c, s, e), id)
  {
    if id in s.rows {
      assert RowGood(c, s, id);
      if e.MarkPublished? || e.MarkFailed? {
        assert Holds(s, e.p, s.publishers[e.p].todo[0]);
        assert PublisherGood(s, s.publishers[e.p]);
      }
    }
  }

  lemma PublishersStayGood(c: Config, s: State, e: Event, p: Pid)
    requires Inv(c, s) && Enabled(c, s, e) && p in Next(c, s, e).publishers
    ensures PublisherGood(Next(c, s, e), Next(c, s, e).publishers[p])
  {
    if p in s.publishers {
      assert PublisherGood(s, s.publishers[p]);
    }
  }

  lemma InvKept(c: Config, s: State, e: Event)
    requires c.onTime && Inv(c, s) && Enabled(c, s, e)
    ensures Inv(c, Next(c, s, e))
  {
    var s' := Next(c, s, e);
    forall id | id in s'.rows ensures RowGood(c, s', id) {
      RowsStayGood(c, s, e, id);
    }
    forall p | p in s'.publishers ensures PublisherGood(s', s'.publishers[p]) {
      PublishersStayGood(c, s, e, p);
    }
    forall p, id | Holds(s', p, id) ensures OwnClaim(c, s', p, id) {
      ClaimsStayOwn(c, s, e, p, id);
    }
    forall p, q, id | Holds(s', p, id) && Holds(s', q, id) ensures p == q {
      HoldsStayExclusive(c, s, e, p, q, id);
    }
  }

  lemma {:induction false} Safety(c: Config, s: State, events: seq<Event>)
    requires c.onTime && Inv(c, s) && IsRun(c, s, events)
    ensures Inv(c, After(c, s, events))
    decreases |events|
  {
    if events != [] {
      InvKept(c, s, events[0]);
      Safety(c, Next(c, s, events[0]), events[1..]);
    }
  }

  // ---------------------------------------------------------------- main results

  /** No event is in the hands of two publishers, and a held event is marked with its holder's claim. */
  lemma Exclusive(c: Config, s: State, events: seq<Event>, p: Pid, q: Pid, id: EventId)
    requires c.onTime && Fresh(s) && IsRun(c, s, events)
    requires var s' := After(c, s, events); Holds(s', p, id) && Holds(s', q, id)
    ensures p == q && OwnClaim(c, After(c, s, events), p, id)
  {
    Safety(c, s, events);
  }

  /** What is marked as published was sent, and a publisher that is about to mark a row has sent it. */
  ghost predicate SentFirst(s: State) {
    && (forall id :: id in s.rows && s.rows[id].status == Published ==> id in s.sent)
    && (forall p :: p in s.publishers && s.publishers[p].sent ==>
          s.publishers[p].todo != [] && s.publishers[p].todo[0] in s.sent)
  }

  lemma SentFirstKept(c: Config, s: State, e: Event)
    requires SentFirst(s) && Enabled(c, s, e)
    ensures SentFirst(Next(c, s, e))
  {
  }

  lemma {:induction false} SentFirstAlong(c: Config, s: State, events: seq<Event>)
    requires SentFirst(s) && IsRun(c, s, events)
    ensures SentFirst(After(c, s, events))
    decreases |events|
  {
    if events != [] {
      SentFirstKept(c, s, events[0]);
      SentFirstAlong(c, Next(c, s, events[0]), events[1..]);
    }
  }

  predicate PublishedRowOf(s: State, id: EventId) { id in s.rows && s.rows[id].status == Published }

  /** PUBLISHED means the payload was accepted by the bus, whether or not leases are kept. */
  lemma PublishedWasSent(c: Config, s: State, events: seq<Event>, id: EventId)
    requires Fresh(s) && IsRun(c, s, events) && PublishedRowOf(After(c, s, events), id)
    ensures id in After(c, s, events).sent
  {
    SentFirstAlong(c, s, events);
  }

  /** With publishers inside their lease, attempts never pass the maximum. */
  lemma AttemptsAreBounded(c: Config, s: State, events: seq<Event>, id: EventId)
    requires c.onTime && Fresh(s) && IsRun(c, s, events) && id in After(c, s, events).rows
    ensures After(c, s, events).rows[id].attempts <= c.maxAttempts
  {
    Safety(c, s, events);
    assert RowGood(c, After(c, s, events), id);
  }

  /** p may still write to the row of id. */
  predicate Threatens(c: Config, s: State, p: Pid, id: EventId) {
    p in s.publishers && id in s.publishers[p].todo && (c.onTime ==> InLease(s.publishers[p], s.now))
  }

  lemma UnthreatenedStep(c: Config, s: State, e: Event, id: EventId)
    requires Enabled(c, s, e) && PublishedRowOf(s, id) && forall p :: !Threatens(c, s, p, id)
    ensures id in Next(c, s, e).rows && Next(c, s, e).rows[id] == s.rows[id]
    ensures forall p :: !Threatens(c, Next(c, s, e), p, id)
  {
    if e.Send? || e.MarkPublished? || e.MarkFailed? {
      assert !Threatens(c, s, e.p, id);
    }
    forall p ensures !Threatens(c, Next(c, s, e), p, id) {
      assert !Threatens(c, s, p, id);
    }
  }

  lemma {:induction false} UnthreatenedStays(c: Config, s: State, events: seq<Event>, id: EventId)
    requires IsRun(c, s, events) && PublishedRowOf(s, id) && forall p :: !Threatens(c, s, p, id)
    ensures id in After(c, s, events).rows && After(c, s, events).rows[id] == s.rows[id]
    decreases |events|
  {
    if events != [] {
      UnthreatenedStep(c, s, events[0], id);
      UnthreatenedStays(c, Next(c, s, events[0]), events[1..], id);
    }
  }

  /** A publisher that still has the row on its list can reach it and report a failure. */
  lemma {:induction false} ThreatActs(c: Config, s: State, p: Pid, id: EventId) returns (events: seq<Event>)
    requires Threatens(c, s, p, id) && PublishedRowOf(s, id)
    ensures IsRun(c, s, events) && id in After(c, s, events).rows && After(c, s, events).rows[id].status == Failed
    decreases |s.publishers[p].todo|
  {
    var e := if s.publishers[p].todo[0] == id then MarkFailed(p) else LeaveRow(p);
    var s' := Next(c, s, e);
    if e.MarkFailed? {
      events := [];
    } else {
      events := ThreatActs(c, s', p, id);
    }
    assert ([e] + events)[1..] == events;
    events := [e] + events;
  }

  /** A PUBLISHED row can still change, along some run, exactly if some publisher may still write to it. */
  lemma PublishedCanChange(c: Config, s: State, id: EventId)
    requires PublishedRowOf(s, id)
    ensures (exists p :: Threatens(c, s, p, id)) <==>
      exists events :: IsRun(c, s, events)
                       && !(id in After(c, s, events).rows && After(c, s, events).rows[id] == s.rows[id])
  {
    if p :| Threatens(c, s, p, id) {
      var events := ThreatActs(c, s, p, id);
      assert IsRun(c, s, events) && After(c, s, events).rows[id] != s.rows[id];
    } else {
      forall events | IsRun(c, s, events)
        ensures id in After(c, s, events).rows && After(c, s, events).rows[id] == s.rows[id]
      {
        UnthreatenedStays(c, s, events, id);
      }
    }
  }

  /** With publishers inside their lease nobody may: PUBLISHED is final from the moment it is reached. */
  lemma PublishedIsFinal(c: Config, s: State, before: seq<Event>, events: seq<Event>, id: EventId)
    requires c.onTime && Fresh(s) && IsRun(c, s, before) && PublishedRowOf(After(c, s, before), id)
    requires IsRun(c, After(c, s, before), events)
    ensures var s' := After(c, s, before);
      id in After(c, s', events).rows && After(c, s', events).rows[id] == s'.rows[id]
  {
    Safety(c, s, before);
    var s' := After(c, s, before);
    forall p ensures !Threatens(c, s', p, id) {
      assert Holds(s', p, id) ==> OwnClaim(c, s', p, id);
    }
    UnthreatenedStays(c, s', events, id);
  }

  /** Only rows of the table are ever claimed or sent. */
  predicate Known(s: State) {
    && (forall id :: id in s.sent ==> id in s.rows)
    && (forall p, i :: p in s.publishers && 0 <= i < |s.publishers[p].todo| ==> s.publishers[p].todo[i] in s.rows)
  }

  lemma KnownKept(c: Config, s: State, e: Event)
    requires Known(s) && Enabled(c, s, e)
    ensures Known(Next(c, s, e))
    ensures Next(c, s, e).rows.Keys == s.rows.Keys + if e.Enqueue? then {e.id} else {}
  {
  }

  // ---------------------------------------------------------------- how much work there can be

  /** Tries that were recorded, one way or the other. */
  function Completed(events: seq<Event>): nat {
    if events == [] then 0
    else (if events[0].MarkPublished? || events[0].MarkFailed? then 1 else 0) + Completed(events[1..])
  }

  /** Recorded tries of one row. */
  function Tries(): Row -> int { (row: Row) => row.attempts + if row.status == Published then 1 else 0 }

  lemma ClaimingKeepsTries(c: Config, s: State, e: Event)
    requires Enabled(c, s, e) && e.Claim?
    ensures Total(Next(c, s, e).rows, Tries()) == Total(s.rows, Tries())
  {
    TotalPointwise(s.rows, Next(c, s, e).rows, Tries());
  }

  lemma OneTryPerMark(c: Config, s: State, e: Event)
    requires c.onTime && Inv(c, s) && Enabled(c, s, e)
    ensures Total(Next(c, s, e).rows, Tries())
         == Total(s.rows, Tries()) + if e.MarkPublished? || e.MarkFailed? then 1 else 0
  {
    match e
    case Enqueue(id) => TotalInsert(s.rows, id, NewRow(s.now), Tries());
    case Claim(_, _) => ClaimingKeepsTries(c, s, e);
    case MarkPublished(p) =>
      var id := s.publishers[p].todo[0];
      assert Holds(s, p, id);
      TotalUpdate(s.rows, id, PublishedRow(s.rows[id]), Tries());
    case MarkFailed(p) =>
      var id := s.publishers[p].todo[0];
      assert Holds(s, p, id);
      TotalUpdate(s.rows, id, FailedRow(c, s.rows[id], s.now), Tries());
    case _ =>
  }

  lemma {:induction false} TriesAreCounted(c: Config, s: State, events: seq<Event>)
    requires c.onTime && Inv(c, s) && IsRun(c, s, events)
    ensures Total(After(c, s, events).rows, Tries()) == Total(s.rows, Tries()) + Completed(events)
    decreases |events|
  {
    if events != [] {
      InvKept(c, s, events[0]);
      OneTryPerMark(c, s, events[0]);
      TriesAreCounted(c, Next(c, s, events[0]), events[1..]);
    }
  }

  /** N events need at most N * maxAttempts recorded tries, over any run. */
  lemma WorkIsBounded(c: Config, s: State, events: seq<Event>)
    requires c.onTime && Fresh(s) && IsRun(c, s, events)
    ensures Completed(events) <= |After(c, s, events).rows| * c.maxAttempts
  {
    Safety(c, s, events);
    TriesAreCounted(c, s, events);
    var rows := After(c, s, events).rows;
    forall id | id in rows ensures Tries()(rows[id]) <= c.maxAttempts {
      assert RowGood(c, After(c, s, events), id);
    }
    TotalBounded(rows, Tries(), c.maxAttempts);
  }

  // ---------------------------------------------------------------- how often a payload is sent

  /** 1 for a publisher that has sent id and recorded nothing yet. */
  function InFlight(id: EventId): Publisher -> int {
    (q: Publisher) => if q.sent && q.todo != [] && q.todo[0] == id then 1 else 0
  }

  function TriesOf(s: State, id: EventId): int { if id in s.rows then Tries()(s.rows[id]) else 0 }

  predicate Heads(s: State, p: Pid, id: EventId) { Working(s, p) && s.publishers[p].todo[0] == id }

  /** A send of id whose outcome this event leaves unrecorded. */
  predicate Forgets(s: State, e: Event, id: EventId) {
    (e.LeaveRow? || e.Crash?) && Heads(s, e.p, id) && s.publishers[e.p].sent
  }

  /** A failure of id that is recorded without a send before it. */
  predicate Rejects(s: State, e: Event, id: EventId) {
    e.MarkFailed? && Heads(s, e.p, id) && !s.publishers[e.p].sent
  }

  function CountForgotten(c: Config, s: State, events: seq<Event>, id: EventId): nat
    requires IsRun(c, s, events)
    decreases |events|
  {
    if events == [] then 0
    else (if Forgets(s, events[0], id) then 1 else 0) + CountForgotten(c, Next(c, s, events[0]), events[1..], id)
  }

  function CountRejected(c: Config, s: State, events: seq<Event>, id: EventId): nat
    requires IsRun(c, s, events)
    decreases |events|
  {
    if events == [] then 0
    else (if Rejects(s, events[0], id) then 1 else 0) + CountRejected(c, Next(c, s, events[0]), events[1..], id)
  }

  /** How the sends in flight move under an event. */
  lemma FlightMoves(c: Config, s: State, e: Event, id: EventId)
    requires Inv(c, s) && Enabled(c, s, e)
    ensures Total(Next(c, s, e).publishers, InFlight(id)) == Total(s.publishers, InFlight(id))
      + (if e.Send? && Heads(s, e.p, id) then 1 else 0)
      - (if Forgets(s, e, id) || ((e.MarkPublished? || e.MarkFailed?) && Heads(s, e.p, id) && s.publishers[e.p].sent)
         then 1 else 0)
  {
    var s', f := Next(c, s, e), InFlight(id);
    match e
    case Enqueue(_) =>
    case Tick(_) =>
    case Crash(p) => TotalRemove(s.publishers, p, f);
    case Claim(p, ids) =>
      if p in s.publishers {
        TotalUpdate(s.publishers, p, s'.publishers[p], f);
      } else {
        TotalInsert(s.publishers, p, s'.publishers[p], f);
      }
    case _ =>
      assert s'.publishers == s.publishers[e.p := s'.publishers[e.p]];
      TotalUpdate(s.publishers, e.p, s'.publishers[e.p], f);
  }

  lemma TriesMove(c: Config, s: State, e: Event, id: EventId)
    requires c.onTime && Inv(c, s) && Enabled(c, s, e)
    ensures TriesOf(Next(c, s, e), id)
      == TriesOf(s, id) + if (e.MarkPublished? || e.MarkFailed?) && Heads(s, e.p, id) then 1 else 0
  {
    if (e.MarkPublished? || e.MarkFailed?) && Heads(s, e.p, id) {
      assert Holds(s, e.p, id);
    }
  }

  /** Every send of a payload is a recorded try, is in flight, or was left unrecorded. */
  lemma {:induction false} SendsAreAccountedFor(c: Config, s: State, events: seq<Event>, id: EventId)
    requires c.onTime && Inv(c, s) && IsRun(c, s, events)
    ensures var s' := After(c, s, events);
      s'.sent[id] - s.sent[id] + CountRejected(c, s, events, id)
      == TriesOf(s', id) - TriesOf(s, id) + Total(s'.publishers, InFlight(id)) - Total(s.publishers, InFlight(id))
         + CountForgotten(c, s, events, id)
    decreases |events|
  {
    if events != [] {
      InvKept(c, s, events[0]);
      FlightMoves(c, s, events[0], id);
      TriesMove(c, s, events[0], id);
      SendsAreAccountedFor(c, Next(c, s, events[0]), events[1..], id);
    }
  }

  /** So duplicates come from recorded failures and unrecorded endings only: at least once, and no more than that. */
  lemma SendsAreBounded(c: Config, s: State, events: seq<Event>, id: EventId)
    requires c.onTime && Fresh(s) && IsRun(c, s, events) && id in After(c, s, events).rows
    ensures var s' := After(c, s, events);
      s'.sent[id] <= s'.rows[id].attempts + (if s'.rows[id].status == Published then 1 else 0)
                     + Total(s'.publishers, InFlight(id)) + CountForgotten(c, s, events, id)
  {
    SendsAreAccountedFor(c, s, events, id);
  }

  // ---------------------------------------------------------------- backoff

  /** The delay never shrinks from one failure to the next, and never exceeds an hour. */
  lemma BackoffGrowsToCap(base: nat, m: nat, n: nat)
    requires m <= n
    ensures Backoff(base, m) <= Backoff(base, n) <= MAX_BACKOFF
    ensures base >= 1 && Pow2(n) >= MAX_BACKOFF ==> Backoff(base, n) == MAX_BACKOFF
  {
    Pow2Grows(m, n);
    ScalingKeepsOrder(base, Pow2(m), Pow2(n));
    if base >= 1 {
      ScalingKeepsOrder(Pow2(n), 1, base);
      assert base * Pow2(n) == Pow2(n) * base >= Pow2(n) * 1;
    }
  }

  /** The delay after a failure that had k before it, in seconds. */
  function Delay(base: nat, k: nat): nat {
    if base * Pow2(k) < 3600 then base * Pow2(k) else 3600
  }

  /** A row that failed after k earlier failures can be claimed again once the delay is over, while tries remain. */
  lemma FailedRowWaits(c: Config, row: Row, now: Time, later: Time)
    ensures Claimable(c, FailedRow(c, row, now), later) <==>
      row.attempts + 1 < c.maxAttempts && now + Delay(c.baseBackoff, row.attempts) <= later
  {
  }

  /** p sends id or records how its try ended. */
  predicate TriesOn(s: State, e: Event, p: Pid, id: EventId) {
    (e == Send(p) || e == MarkPublished(p) || e == MarkFailed(p)) && Heads(s, p, id)
  }

  /** A failed row rests until its time. */
  predicate RestsUntil(s: State, id: EventId, row: Row) {
    row.status == Failed && id in s.rows && (s.rows[id] == row || row.nextAt <= s.now)
  }

  lemma RestsOn(c: Config, s: State, e: Event, id: EventId, row: Row)
    requires c.onTime && Inv(c, s) && Enabled(c, s, e) && RestsUntil(s, id, row)
    ensures RestsUntil(Next(c, s, e), id, row)
  {
    if e.MarkPublished? || e.MarkFailed? {
      assert Holds(s, e.p, s.publishers[e.p].todo[0]);
    }
  }

  lemma {:induction false} RestsAlong(c: Config, s: State, events: seq<Event>, id: EventId, row: Row)
    requires c.onTime && Inv(c, s) && IsRun(c, s, events) && RestsUntil(s, id, row)
    ensures Inv(c, After(c, s, events)) && RestsUntil(After(c, s, events), id, row)
    decreases |events|
  {
    if events != [] {
      InvKept(c, s, events[0]);
      RestsOn(c, s, events[0], id, row);
      RestsAlong(c, Next(c, s, events[0]), events[1..], id, row);
    }
  }

  /** Over every run: after a recorded failure, nobody sends the event or records anything of it before the delay. */
  lemma TriesLieApart(c: Config, s: State, before: seq<Event>, p: Pid, id: EventId, events: seq<Event>, q: Pid,
                      e: Event)
    requires c.onTime && Fresh(s) && IsRun(c, s, before)
    requires var s1 := After(c, s, before);
      && Enabled(c, s1, MarkFailed(p)) && Heads(s1, p, id) && IsRun(c, Next(c, s1, MarkFailed(p)), events)
      && var s2 := After(c, Next(c, s1, MarkFailed(p)), events);
         Enabled(c, s2, e) && TriesOn(s2, e, q, id)
    ensures var s1 := After(c, s, before);
      var s2 := After(c, Next(c, s1, MarkFailed(p)), events);
      s1.now + Delay(c.baseBackoff, s1.rows[id].attempts) <= s2.now
  {
    Safety(c, s, before);
    var s1 := After(c, s, before);
    var s1' := Next(c, s1, MarkFailed(p));
    InvKept(c, s1, MarkFailed(p));
    RestsAlong(c, s1', events, id, s1'.rows[id]);
    var s2 := After(c, s1', events);
    assert Holds(s2, q, id) && OwnClaim(c, s2, q, id);
  }

  // ---------------------------------------------------------------- how long a claim lasts

  /** A row just claimed can be claimed again after ten minutes. */
  lemma ClaimExpires(c: Config, row: Row, now: Time, later: Time)
    requires Claimable(c, row, now)
    ensures Claimable(c, Claimed(row, now), later) <==> now + 600 < later
  {
  }

  /** This event records how a try of id ended. */
  predicate Records(s: State, e: Event, id: EventId) {
    (e.MarkPublished? || e.MarkFailed?) && Heads(s, e.p, id)
  }

  predicate NeverRecorded(c: Config, s: State, events: seq<Event>, id: EventId)
    requires IsRun(c, s, events)
    decreases |events|
  {
    events == [] || (!Records(s, events[0], id) && NeverRecorded(c, Next(c, s, events[0]), events[1..], id))
  }

  /** Over every run, late publishers and crashes included: a claim keeps everyone else from the row for ten minutes. */
  lemma {:induction false} ClaimKeepsOthersOut(c: Config, s: State, events: seq<Event>, id: EventId, t: Time)
    requires id in s.rows && s.rows[id].status == Processing && s.rows[id].lockedAt == Some(t)
    requires IsRun(c, s, events) && NeverRecorded(c, s, events, id)
    ensures var s' := After(c, s, events);
      s'.now <= t + 600 ==>
        id in s'.rows && s'.rows[id] == s.rows[id] && forall p, ids :: id in ids ==> !Enabled(c, s', Claim(p, ids))
    decreases |events|
  {
    if events != [] {
      var next := Next(c, s, events[0]);
      TimeNeverRunsBack(c, next, events[1..]);
      if next.now <= t + 600 {
        assert next.rows[id] == s.rows[id];
        ClaimKeepsOthersOut(c, next, events[1..], id, t);
      }
    }
  }

  lemma {:induction false} TimeNeverRunsBack(c: Config, s: State, events: seq<Event>)
    requires IsRun(c, s, events)
    ensures s.now <= After(c, s, events).now
    decreases |events|
  {
    if events != [] {
      TimeNeverRunsBack(c, Next(c, s, events[0]), events[1..]);
    }
  }

  // ---------------------------------------------------------------- why the lease matters

  predicate Reaches(c: Config, s: State, events: seq<Event>, s': State) {
    IsRun(c, s, events) && After(c, s, events) == s'
  }

  lemma {:induction false} Extend(c: Config, s: State, events: seq<Event>, mid: State, e: Event, s': State)
    requires Reaches(c, s, events, mid) && Enabled(c, mid, e) && s' == Next(c, mid, e)
    ensures Reaches(c, s, events + [e], s')
    decreases |events|
  {
    if events == [] {
      assert [e][1..] == [] && After(c, s', []) == s';
    } else {
      assert (events + [e])[1..] == events[1..] + [e];
      Extend(c, Next(c, s, events[0]), events[1..], mid, e, s');
    }
  }

  /** Whatever row can be claimed, a publisher that outlives its lease can turn it from PUBLISHED into FAILED. */
  lemma LatePublisherUnpublishes(c: Config, s: State, p: Pid, q: Pid, id: EventId)
    returns (events: seq<Event>, mid: State)
    requires !c.onTime && p != q && !Working(s, p) && !Working(s, q) && id in s.rows && Claimable(c, s.rows[id], s.now)
    ensures Reaches(c, s, events, mid) && PublishedRowOf(mid, id) && Enabled(c, mid, MarkFailed(p))
    ensures Reaches(c, s, events + [MarkFailed(p)], Next(c, mid, MarkFailed(p)))
    ensures id in Next(c, mid, MarkFailed(p)).rows && Next(c, mid, MarkFailed(p)).rows[id].status == Failed
  {
    var s1 := Next(c, s, Claim(p, [id]));
    Extend(c, s, [], s, Claim(p, [id]), s1);
    var s2 := Next(c, s1, Tick(s.now + LEASE + 1));
    Extend(c, s, [] + [Claim(p, [id])], s1, Tick(s.now + LEASE + 1), s2);
    events, mid := SecondPublisher(c, s, [] + [Claim(p, [id])] + [Tick(s.now + LEASE + 1)], s2, p, q, id);
    Extend(c, s, events, mid, MarkFailed(p), Next(c, mid, MarkFailed(p)));
  }

  lemma SecondPublisher(c: Config, s: State, events: seq<Event>, t: State, p: Pid, q: Pid, id: EventId)
    returns (longer: seq<Event>, mid: State)
    requires Reaches(c, s, events, t) && !c.onTime && p != q && !Working(t, q)
    requires p in t.publishers && t.publishers[p].todo == [id] && id in t.rows && Claimable(c, t.rows[id], t.now)
    ensures Reaches(c, s, longer, mid) && PublishedRowOf(mid, id)
    ensures p in mid.publishers && mid.publishers[p].todo == [id]
  {
    var t1 := Next(c, t, Claim(q, [id]));
    Extend(c, s, events, t, Claim(q, [id]), t1);
    assert t1.publishers[q].todo == [id] && t1.publishers[p] == t.publishers[p];
    var t2 := Next(c, t1, Send(q));
    Extend(c, s, events + [Claim(q, [id])], t1, Send(q), t2);
    mid := Next(c, t2, MarkPublished(q));
    Extend(c, s, events + [Claim(q, [id])] + [Send(q)], t2, MarkPublished(q), mid);
    longer := events + [Claim(q, [id])] + [Send(q)] + [MarkPublished(q)];
  }

  /** Nor do late publishers keep to the maximum: two of them can use up two tries where one was left. */
  lemma LatePublisherOverspends(c: Config, s: State, p: Pid, q: Pid, id: EventId)
    returns (events: seq<Event>, s': State)
    requires !c.onTime && p != q && !Working(s, p) && !Working(s, q) && id in s.rows && Claimable(c, s.rows[id], s.now)
    ensures Reaches(c, s, events, s') && id in s'.rows && s'.rows[id].attempts == s.rows[id].attempts + 2
    ensures s.rows[id].attempts + 1 == c.maxAttempts ==> s'.rows[id].attempts == c.maxAttempts + 1
  {
    var s1 := Next(c, s, Claim(p, [id]));
    Extend(c, s, [], s, Claim(p, [id]), s1);
    var s2 := Next(c, s1, Tick(s.now + LEASE + 1));
    Extend(c, s, [] + [Claim(p, [id])], s1, Tick(s.now + LEASE + 1), s2);
    var s3 := Next(c, s2, Claim(q, [id]));
    events := [] + [Claim(p, [id])] + [Tick(s.now + LEASE + 1)];
    Extend(c, s, events, s2, Claim(q, [id]), s3);
    assert s3.publishers[q].todo == [id] && s3.publishers[p].todo == [id];
    var s4 := Next(c, s3, MarkFailed(q));
    Extend(c, s, events + [Claim(q, [id])], s3, MarkFailed(q), s4);
    s' := Next(c, s4, MarkFailed(p));
    Extend(c, s, events + [Claim(q, [id])] + [MarkFailed(q)], s4, MarkFailed(p), s');
    events := events + [Claim(q, [id])] + [MarkFailed(q)] + [MarkFailed(p)];
  }
}
