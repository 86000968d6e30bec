// publishPending as it runs: claim a batch, then send and mark row by row.
// Its effect on the table is stated outright, and is shown to be a run of the machine.
module OutboxService {
  import opened Wrappers
  import opened Outbox

  // ids are those of the published rows
  datatype Stats = Stats(claimed: nat, published: nat, failed: nat, ids: seq<EventId>)

  // what becomes of one claimed row; the send may be refused, and may be accepted without its row being marked
  datatype Try =
    | Accepted              // sent, marked and acknowledged
    | Unacknowledged        // sent and marked, but the answer to COMMIT was lost with the connection
    | AcceptedThenFailed    // sent, not marked, and then marked as a failure
    | AcceptedUnrecorded    // sent, and neither recorded
    | FailureRecorded
    | NothingRecorded

  predicate Sends(t: Try) { !t.FailureRecorded? && !t.NothingRecorded? }

  predicate Fails(t: Try) { t.AcceptedThenFailed? || t.FailureRecorded? }

  predicate Counts(t: Try) { t.Accepted? }

  function Settle(c: Config, row: Row, now: Time, outcome: Try): Row {
    match outcome
    case Accepted => PublishedRow(row)
    case Unacknowledged => PublishedRow(row)
    case AcceptedThenFailed => FailedRow(c, row, now)
    case FailureRecorded => FailedRow(c, row, now)
    case _ => row
  }

  /** The row of a claimed event after its try, column by column. */
  predicate Recorded(c: Config, before: Row, after: Row, now: Time, outcome: Try) {
    match outcome
    case Accepted => after == Row(Published, before.attempts, before.nextAt, None, before.createdAt)
    case Unacknowledged => after == Row(Published, before.attempts, before.nextAt, None, before.createdAt)
    case AcceptedThenFailed =>
      after == Row(Failed, before.attempts + 1, now + Delay(c.baseBackoff, before.attempts), None, before.createdAt)
    case FailureRecorded =>
      after == Row(Failed, before.attempts + 1, now + Delay(c.baseBackoff, before.attempts), None, before.createdAt)
    case AcceptedUnrecorded => InProgressSince(before, after, now)
    case NothingRecorded => InProgressSince(before, after, now)
  }

  predicate InProgressSince(before: Row, after: Row, now: Time) {
    after == Row(Processing, before.attempts, before.nextAt, Some(now), before.createdAt)
  }

  lemma TryIsRecorded(c: Config, row: Row, now: Time, outcome: Try)
    ensures Recorded(c, row, Settle(c, Claimed(row, now), now, outcome), now, outcome)
  {
  }

  /** The ids whose outcome is of this kind, in order. */
  function Those(ids: seq<EventId>, outcome: EventId -> Try, kind: Try -> bool): (r: seq<EventId>)
    ensures |r| <= |ids| && forall id :: id in r <==> id in ids && kind(outcome(id))
  {
    if ids == [] then []
    else Those(ids[..|ids| - 1], outcome, kind) + if kind(outcome(ids[|ids| - 1])) then [ids[|ids| - 1]] else []
  }

  /** Some row that a claim may take, and that is at least as old as every other one. */
  predicate Oldest(c: Config, rows: map<EventId, Row>, now: Time, taken: seq<EventId>, id: EventId) {
    && id in rows && id !in taken && Claimable(c, rows[id], now)
    && forall other :: other in rows && other !in taken && Claimable(c, rows[other], now) ==>
         rows[id].createdAt <= rows[other].createdAt
  }

  class OutboxTable {
    const config: Config
    var rows: map<EventId, Row>
    var bus: seq<EventId>      // payloads the bus has accepted

    constructor (config: Config)
      ensures this.config == config && rows == map[] && bus == []
    {
      this.config := config;
      rows, bus := map[], [];
    }

    /** enqueueScanRequested */
    method Enqueue(id: EventId, now: Time)
      modifies this`rows
      ensures rows == EnqueueRow(old(rows), id, now)
      ensures id in old(rows) && old(rows)[id].status == Published ==> rows == old(rows)
      ensures rows.Keys == old(rows).Keys + {id} && forall k :: k in old(rows) && k != id ==> rows[k] == old(rows)[k]
      ensures id !in old(rows) ==> rows[id] == Row(Pending, 0, now, None, now)
      ensures id in old(rows) && old(rows)[id].status != Published ==>
        rows[id].attempts == old(rows)[id].attempts && rows[id].createdAt == old(rows)[id].createdAt
      ensures rows[id].status != Published ==>
        forall later :: Claimable(config, rows[id], later) <==> rows[id].attempts < config.maxAttempts && now <= later
      ensures rows[id].status == Published <==> id in old(rows) && old(rows)[id].status == Published
    {
      rows := EnqueueRow(rows, id, now);
    }

    /** The oldest claimable row not yet taken, if any. */
    method PickOldest(now: Time, taken: seq<EventId>) returns (pick: Option<EventId>)
      ensures pick.Some? ==> Oldest(config, rows, now, taken, pick.value)
      ensures pick.None? ==> forall id :: id in rows && id !in taken ==> !Claimable(config, rows[id], now)
    {
      pick := None;
      var rest := rows.Keys;
      while rest != {}
        invariant rest <= rows.Keys
        invariant pick.Some? ==>
          && pick.value in rows && pick.value !in taken && Claimable(config, rows[pick.value], now)
          && forall id :: id in rows && id !in rest && id !in taken && Claimable(config, rows[id], now) ==>
               rows[pick.value].createdAt <= rows[id].createdAt
        invariant pick.None? ==> forall id :: id in rows && id !in rest && id !in taken ==>
          !Claimable(config, rows[id], now)
        decreases |rest|
      {
        var id :| id in rest;
        rest := rest - {id};
        if id !in taken && Claimable(config, rows[id], now)
           && (pick.None? || rows[id].createdAt < rows[pick.value].createdAt) {
          pick := Some(id);
        }
      }
    }

    /** claimPending: ORDER BY created_at LIMIT. */
    method ClaimPending(now: Time, limit: nat) returns (ids: seq<EventId>)
      modifies this`rows
      ensures |ids| <= limit && Distinct(ids) && rows == ClaimRows(old(rows), ids, now)
      ensures forall i :: 0 <= i < |ids| ==> Oldest(config, old(rows), now, ids[..i], ids[i])
      ensures |ids| < limit ==> forall id :: id in old(rows) && id !in ids ==> !Claimable(config, old(rows)[id], now)
      ensures forall id :: id in ids ==> id in old(rows) && InProgressSince(old(rows)[id], rows[id], now)
    {
      ids := [];
      var more := true;
      while more && |ids| < limit
        invariant |ids| <= limit && Distinct(ids) && rows == old(rows)
        invariant forall i :: 0 <= i < |ids| ==> Oldest(config, rows, now, ids[..i], ids[i])
        invariant !more ==> forall id :: id in rows && id !in ids ==> !Claimable(config, rows[id], now)
        decreases more, limit - |ids|
      {
        var pick := PickOldest(now, ids);
        if pick.Some? {
          ghost var before := ids;
          ids := ids + [pick.value];
          assert forall i :: 0 <= i < |before| ==> ids[..i] == before[..i];
          assert ids[..|before|] == before;
        } else {
          more := false;
        }
      }
      rows := ClaimRows(rows, ids, now);
    }

    /** One iteration: send, then markPublished or markFailed. */
    method PublishRow(now: Time, id: EventId, answer: Try) returns (published: bool)
      requires id in rows
      modifies this
      ensures rows == old(rows)[id := Settle(config, old(rows)[id], now, answer)]
      ensures bus == old(bus) + if Sends(answer) then [id] else []
      ensures published <==> answer == Accepted
    {
      if Sends(answer) {
        bus := bus + [id];
      }
      if answer.Accepted? || answer.Unacknowledged? {
        rows := rows[id := PublishedRow(rows[id])];
      } else if answer.AcceptedThenFailed? || answer.FailureRecorded? {
        rows := rows[id := FailedRow(config, rows[id], now)];
      } else {
        assert rows[id := rows[id]] == rows;
      }
      published := answer.Accepted?;
    }

    method PublishNext(now: Time, ids: seq<EventId>, n: nat, outcome: EventId -> Try, done: seq<EventId>, failed: nat,
                       ghost claimed: map<EventId, Row>, ghost sent: seq<EventId>, ghost start: State,
                       ghost before: seq<Event>)
      returns (done': seq<EventId>, failed': nat, ghost events: seq<Event>)
      requires Distinct(ids) && n < |ids| && ids[n] in claimed
      requires BatchAt(config, claimed, sent, now, ids, n, outcome, start, before, rows, bus, done)
      modifies this
      ensures BatchAt(config, claimed, sent, now, ids, n + 1, outcome, start, events, rows, bus, done')
      ensures |done'| + failed' == |done| + failed + 1
    {
      events := BatchStep(config, claimed, sent, now, ids, n, outcome, start, before, rows, bus, done);
      var published := PublishRow(now, ids[n], outcome(ids[n]));
      done', failed' := done, failed;
      if published {
        done' := done + [ids[n]];
      } else {
        failed' := failed + 1;
      }
    }

    /** The loop over a claimed batch; done lists what was published and acknowledged. */
    method PublishBatch(now: Time, ids: seq<EventId>, outcome: EventId -> Try, ghost start: State,
                        ghost claim: seq<Event>)
      returns (done: seq<EventId>, failed: nat, ghost events: seq<Event>)
      requires Distinct(ids) && forall i :: 0 <= i < |ids| ==> ids[i] in rows
      requires Reaches(config, start, claim, Mid(rows, ids, bus, now))
      modifies this
      ensures done == Those(ids, outcome, Counts) && |done| + failed == |ids|
      ensures bus == old(bus) + Those(ids, outcome, Sends) && rows == Tried(config, old(rows), ids, now, outcome)
      ensures Reaches(config, start, events, Mid(rows, [], bus, now))
    {
      ghost var claimed, sent := rows, bus;
      events := claim;
      done, failed := [], 0;
      BatchStarts(config, rows, bus, now, ids, outcome, start, claim);
      for n := 0 to |ids|
        invariant |done| + failed == n
        invariant BatchAt(config, claimed, sent, now, ids, n, outcome, start, events, rows, bus, done)
      {
        done, failed, events := PublishNext(now, ids, n, outcome, done, failed, claimed, sent, start, events);
      }
      BatchEnds(config, claimed, sent, now, ids, outcome, start, events, rows, bus, done);
    }

    /** publishPending, with the bus and the database answering as given. */
    method PublishPending(now: Time, limit: nat, outcome: EventId -> Try)
      returns (stats: Stats, ghost ids: seq<EventId>, ghost events: seq<Event>)
      modifies this
      ensures |ids| == stats.claimed <= limit && stats.published + stats.failed == stats.claimed
      ensures Distinct(ids) && forall i :: 0 <= i < |ids| ==> Oldest(config, old(rows), now, ids[..i], ids[i])
      ensures |ids| < limit ==> forall id :: id in old(rows) && id !in ids ==> !Claimable(config, old(rows)[id], now)
      ensures stats.published == |stats.ids| && stats.ids == Those(ids, outcome, Counts)
      ensures bus == old(bus) + Those(ids, outcome, Sends)
      ensures rows == Tried(config, ClaimRows(old(rows), ids, now), ids, now, outcome)
      ensures forall id :: id in ids ==> id in old(rows) && id in rows
      ensures forall id, later :: id in ids && Fails(outcome(id)) ==>
        (Claimable(config, rows[id], later) <==>
           old(rows)[id].attempts + 1 < config.maxAttempts
           && now + Delay(config.baseBackoff, old(rows)[id].attempts) <= later)
      ensures forall id :: id in ids ==> Recorded(config, old(rows)[id], rows[id], now, outcome(id))
      ensures old(bus) <= bus && forall id :: id in bus[|old(bus)|..] <==>
        id in ids && outcome(id) !in {FailureRecorded, NothingRecorded}
      ensures forall id :: id in stats.ids <==> id in ids && outcome(id) == Accepted
      ensures Reaches(config, State(old(rows), map[], multiset(old(bus)), now), events, Mid(rows, [], bus, now))
    {
      ghost var start := State(rows, map[], multiset(bus), now);
      var claimed := ClaimPending(now, limit);
      ids := claimed;
      Extend(config, start, [], start, Claim(0, ids), Mid(rows, ids, bus, now));
      var done, failed;
      done, failed, events := PublishBatch(now, claimed, outcome, start, [] + [Claim(0, ids)]);
      stats := Stats(|claimed|, |done|, failed, done);
      EveryTryIsRecorded(config, start.rows, ids, now, outcome);
    }
  }

  /** The machine while publisher 0 still has todo to handle. */
  ghost function Mid(rows: map<EventId, Row>, todo: seq<EventId>, bus: seq<EventId>, now: Time): State {
    State(rows, map[0 := Publisher(now, todo, false)], multiset(bus), now)
  }

  /** The claimed rows in ids have been tried once each; the others are as they were. */
  function Tried(c: Config, rows: map<EventId, Row>, ids: seq<EventId>, now: Time,
                 outcome: EventId -> Try): map<EventId,
                 Row> {
    map id | id in rows :: if id in ids then Settle(c, rows[id], now, outcome(id)) else rows[id]
  }

  lemma TriedNext(c: Config, claimed: map<EventId, Row>, ids: seq<EventId>, n: nat, now: Time, outcome: EventId -> Try)
    requires n < |ids| && Distinct(ids) && ids[n] in claimed
    ensures var before := Tried(c, claimed, ids[..n], now, outcome);
      ids[n] in before
      && Tried(c, claimed, ids[..n + 1], now, outcome)
        == before[ids[n] := Settle(c, before[ids[n]], now, outcome(ids[n]))]
  {
    assert ids[..n + 1] == ids[..n] + [ids[n]];
    assert ids[n] !in ids[..n];
  }

  lemma ThoseNext(ids: seq<EventId>, n: nat, outcome: EventId -> Try, kind: Try -> bool)
    requires n < |ids|
    ensures Those(ids[..n + 1], outcome, kind)
      == Those(ids[..n], outcome, kind) + if kind(outcome(ids[n])) then [ids[n]] else []
  {
    assert ids[..n + 1][..n] == ids[..n];
  }

  lemma EveryTryIsRecorded(c: Config, before: map<EventId, Row>, ids: seq<EventId>, now: Time, outcome: EventId -> Try)
    requires forall id :: id in ids ==> id in before
    ensures var rows := Tried(c, ClaimRows(before, ids, now), ids, now, outcome);
      && (forall id :: id in ids ==> Recorded(c, before[id], rows[id], now, outcome(id)))
      && forall id, later :: id in ids && Fails(outcome(id)) ==>
           (Claimable(c, rows[id], later) <==>
              before[id].attempts + 1 < c.maxAttempts && now + Delay(c.baseBackoff, before[id].attempts) <= later)
  {
    var rows := Tried(c, ClaimRows(before, ids, now), ids, now, outcome);
    forall id | id in ids
      ensures Recorded(c, before[id], rows[id], now, outcome(id))
    {
      TryIsRecorded(c, before[id], now, outcome(id));
    }
    forall id, later | id in ids && Fails(outcome(id))
      ensures Claimable(c, rows[id], later) <==>
        before[id].attempts + 1 < c.maxAttempts && now + Delay(c.baseBackoff, before[id].attempts) <= later
    {
      FailedRowWaits(c, Claimed(before[id], now), now, later);
    }
  }

  /** The machine's events for one try. */
  function TryEvents(answer: Try): seq<Event> {
    (if Sends(answer) then [Send(0)] else []) +
    match answer
    case Accepted => [MarkPublished(0)]
    case Unacknowledged => [MarkPublished(0)]
    case AcceptedThenFailed => [MarkFailed(0)]
    case FailureRecorded => [MarkFailed(0)]
    case _ => [LeaveRow(0)]
  }

  /** Publisher 0's machine state once its send has been accepted. */
  lemma MachineSend(c: Config, start: State, events: seq<Event>, rows: map<EventId, Row>, todo: seq<EventId>,
                    bus: seq<EventId>, now: Time, s': State)
    requires Reaches(c, start, events, Mid(rows, todo, bus, now)) && todo != [] && todo[0] in rows
    requires s' == State(rows, map[0 := Publisher(now, todo, true)], multiset(bus + [todo[0]]), now)
    ensures Reaches(c, start, events + [Send(0)], s')
  {
    Extend(c, start, events, Mid(rows, todo, bus, now), Send(0), s');
  }

  /** The first n rows of the batch have been tried, and the machine has followed. */
  ghost predicate BatchAt(c: Config, claimed: map<EventId, Row>, sent: seq<EventId>, now: Time, ids: seq<EventId>,
                          n: nat, outcome: EventId -> Try, start: State, events: seq<Event>, rows: map<EventId, Row>,
                          bus: seq<EventId>, done: seq<EventId>)
    requires n <= |ids|
  {
    && rows == Tried(c, claimed, ids[..n], now, outcome)
    && bus == sent + Those(ids[..n], outcome, Sends) && done == Those(ids[..n], outcome, Counts)
    && Reaches(c, start, events, Mid(rows, ids[n..], bus, now))
  }

  lemma BatchStarts(c: Config, rows: map<EventId, Row>, bus: seq<EventId>, now: Time, ids: seq<EventId>,
                    outcome: EventId -> Try, start: State, claim: seq<Event>)
    requires Reaches(c, start, claim, Mid(rows, ids, bus, now))
    ensures BatchAt(c, rows, bus, now, ids, 0, outcome, start, claim, rows, bus, [])
  {
    assert ids[0..] == ids && bus + [] == bus;
  }

  lemma BatchEnds(c: Config, claimed: map<EventId, Row>, sent: seq<EventId>, now: Time, ids: seq<EventId>,
                  outcome: EventId -> Try, start: State, events: seq<Event>, rows: map<EventId, Row>,
                  bus: seq<EventId>, done: seq<EventId>)
    requires BatchAt(c, claimed, sent, now, ids, |ids|, outcome, start, events, rows, bus, done)
    ensures done == Those(ids, outcome, Counts) && bus == sent + Those(ids, outcome, Sends)
    ensures rows == Tried(c, claimed, ids, now, outcome) && Reaches(c, start, events, Mid(rows, [], bus, now))
  {
    assert ids[..|ids|] == ids && ids[|ids|..] == [];
  }

  lemma BatchStep(c: Config, claimed: map<EventId, Row>, sent: seq<EventId>, now: Time, ids: seq<EventId>, n: nat,
                  outcome: EventId -> Try, start: State, before: seq<Event>, rows: map<EventId, Row>,
                  bus: seq<EventId>, done: seq<EventId>)
    returns (events: seq<Event>)
    requires Distinct(ids) && n < |ids| && ids[n] in claimed
    requires BatchAt(c, claimed, sent, now, ids, n, outcome, start, before, rows, bus, done)
    ensures ids[n] in rows
    ensures var answer := outcome(ids[n]);
      BatchAt(c, claimed, sent, now, ids, n + 1, outcome, start, events,
          rows[ids[n] := Settle(c, rows[ids[n]], now, answer)],
              bus + (if Sends(answer) then [ids[n]] else []), done + if answer.Accepted? then [ids[n]] else [])
  {
    TriedNext(c, claimed, ids, n, now, outcome);
    ThoseNext(ids, n, outcome, Sends);
    ThoseNext(ids, n, outcome, Counts);
    events := MachineTry(c, start, before, rows, ids[n..], bus, now, outcome(ids[n]));
    assert ids[n..][1..] == ids[n + 1..];
  }

  /** How publisher 0 leaves a row behind, sent or not. */
  lemma MachineEnd(c: Config, start: State, events: seq<Event>, rows: map<EventId, Row>, todo: seq<EventId>,
                   bus: seq<EventId>, now: Time, answer: Try, s: State)
    requires todo != [] && todo[0] in rows && Reaches(c, start, events, s)
    requires s == State(rows, map[0 := Publisher(now, todo, Sends(answer))], multiset(bus), now)
    ensures var e := TryEvents(answer)[|TryEvents(answer)| - 1];
      Reaches(c, start, events + [e], Mid(rows[todo[0] := Settle(c, rows[todo[0]], now, answer)], todo[1..], bus, now))
  {
    var e := TryEvents(answer)[|TryEvents(answer)| - 1];
    assert rows[todo[0] := rows[todo[0]]] == rows;
    Extend(c, start, events, s, e, Mid(rows[todo[0] := Settle(c, rows[todo[0]], now, answer)], todo[1..], bus, now));
  }

  lemma MachineTry(c: Config, start: State, events: seq<Event>, rows: map<EventId, Row>, todo: seq<EventId>,
                   bus: seq<EventId>, now: Time, answer: Try)
    returns (more: seq<Event>)
    requires Reaches(c, start, events, Mid(rows, todo, bus, now)) && todo != [] && todo[0] in rows
    ensures Reaches(c, start, more, Mid(rows[todo[0] := Settle(c, rows[todo[0]], now, answer)], todo[1..],
                                        bus + if Sends(answer) then [todo[0]] else [], now))
  {
    var e := TryEvents(answer)[|TryEvents(answer)| - 1];
    if Sends(answer) {
      var mid := State(rows, map[0 := Publisher(now, todo, true)], multiset(bus + [todo[0]]), now);
      MachineSend(c, start, events, rows, todo, bus, now, mid);
      MachineEnd(c, start, events + [Send(0)], rows, todo, bus + [todo[0]], now, answer, mid);
      more := events + [Send(0)] + [e];
    } else {
      MachineEnd(c, start, events, rows, todo, bus, now, answer, Mid(rows, todo, bus, now));
      assert bus + [] == bus;
      more := events + [e];
    }
  }
}
