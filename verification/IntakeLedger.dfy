// One reservation and at most one settlement per scan, whatever creations,
// workers, backfills and retention sweeps do at the same time.
module IntakeLedger {
  import opened Wrappers
  import opened Billing
  import opened Intake
  import opened IntakeQuota

  function Times(b: bool): nat { if b then 1 else 0 }

  /** The ledger's account of a scan in a given billing state. */
  predicate BilledAs(ledger: seq<LedgerRow>, id: ScanId, state: BillingState) {
    && CountEvents(ledger, id, ScanConsumed) == Times(state == Consumed)
    && CountEvents(ledger, id, ScanRefunded) == Times(state == Refunded)
  }

  predicate Unmentioned(ledger: seq<LedgerRow>, id: ScanId) {
    forall i :: 0 <= i < |ledger| ==> ledger[i].scan != Some(id)
  }

  predicate SameTenant(ledger: seq<LedgerRow>, id: ScanId, t: TenantId) {
    forall i :: 0 <= i < |ledger| && ledger[i].scan == Some(id) ==> ledger[i].tenant == t
  }

  predicate ScanBooked(db: Db, id: ScanId)
    requires id in db.scans
  {
    && CountEvents(db.ledger, id, ScanReserved) == 1
    && BilledAs(db.ledger, id, db.scans[id].billing)
    && SameTenant(db.ledger, id, db.scans[id].tenant)
    && (db.scans[id].billing == Consumed ==> db.scans[id].status == Done)
    && (db.scans[id].billing == Refunded ==> db.scans[id].status == Failed)
  }

  /** The columns no statement updates. */
  predicate SameOrigin(a: ScanRow, b: ScanRow) {
    a.tenant == b.tenant && a.month == b.month && a.units == b.units && a.included == b.included
  }

  ghost predicate CandidateKnown(s: State, cand: Candidate) {
    && cand.scan in s.used
    && !Active(cand.row.status)
    && (forall p :: p in s.creators && s.creators[p].Writing? ==> s.creators[p].draft.scan != cand.scan)
    && (cand.scan in s.db.scans ==> SameOrigin(s.db.scans[cand.scan], cand.row))
  }

  predicate HoldIsGood(db: Db, b: Backfill)
    requires b.Holding?
  {
    && b.cand.scan in db.scans
    && db.scans[b.cand.scan].billing == Reserved
    && db.scans[b.cand.scan].status == b.cand.row.status
    && (b.done >= 2 ==> b.wrote)
    && b.done >= 1
  }

  ghost predicate BackfillGood(s: State, b: Backfill) {
    && (forall cand :: cand in b.todo ==> CandidateKnown(s, cand))
    && (b.Holding? ==> CandidateKnown(s, b.cand) && HoldIsGood(s.db, b))
  }

  ghost predicate HoldsApart(s: State) {
    forall a, b :: a in s.backfills && b in s.backfills && a != b && HeldScan(s.backfills[a]).Some? ==>
      HeldScan(s.backfills[a]) != HeldScan(s.backfills[b])
  }

  ghost predicate LedgerInv(s: State) {
    && Separate(s)
    && HoldsApart(s)
    && (forall id :: id in s.db.scans ==> ScanBooked(s.db, id))
    && (forall i :: 0 <= i < |s.db.ledger| ==> RowKnown(s.db.ledger[i], s.used))
    && (forall p :: p in s.creators && s.creators[p].Writing? ==>
          s.creators[p].draft.scan !in s.db.scans && Unmentioned(s.db.ledger, s.creators[p].draft.scan))
    && (forall b :: b in s.backfills ==> BackfillGood(s, s.backfills[b]))
  }

  // ---------------------------------------------------------------- appending one row

  lemma UnmentionedCounts(ledger: seq<LedgerRow>, id: ScanId, event: EventType)
    requires Unmentioned(ledger, id)
    ensures CountEvents(ledger, id, event) == 0
  {
    CountZero(ledger, id, event);
  }

  lemma AppendKeepsOthers(db: Db, row: LedgerRow, id: ScanId)
    requires id in db.scans && ScanBooked(db, id) && row.scan != Some(id)
    ensures ScanBooked(db.(ledger := db.ledger + [row]), id)
  {
    CountAppend(db.ledger, row, id, ScanReserved);
    CountAppend(db.ledger, row, id, ScanConsumed);
    CountAppend(db.ledger, row, id, ScanRefunded);
  }

  lemma ReservationBooks(ledger: seq<LedgerRow>, d: Draft)
    requires Unmentioned(ledger, d.scan)
    ensures var after := ledger + [ReservedRow(d)];
      CountEvents(after, d.scan, ScanReserved) == 1 && BilledAs(after, d.scan, Reserved)
      && SameTenant(after, d.scan, d.job.req.tenant)
  {
    UnmentionedCounts(ledger, d.scan, ScanReserved);
    UnmentionedCounts(ledger, d.scan, ScanConsumed);
    UnmentionedCounts(ledger, d.scan, ScanRefunded);
    CountAppend(ledger, ReservedRow(d), d.scan, ScanReserved);
    CountAppend(ledger, ReservedRow(d), d.scan, ScanConsumed);
    CountAppend(ledger, ReservedRow(d), d.scan, ScanRefunded);
  }

  lemma SettlementBooks(ledger: seq<LedgerRow>, row: LedgerRow, id: ScanId, status: Status)
    requires !Active(status) && BilledAs(ledger, id, Reserved) && CountEvents(ledger, id, ScanReserved) == 1
    requires row.scan == Some(id) && row.event == FinalEvent(status)
    ensures BilledAs(ledger + [row], id, FinalState(status))
    ensures CountEvents(ledger + [row], id, ScanReserved) == 1
  {
    CountAppend(ledger, row, id, ScanReserved);
    CountAppend(ledger, row, id, ScanConsumed);
    CountAppend(ledger, row, id, ScanRefunded);
  }

  lemma {:induction false} ReservationIsFound(ledger: seq<LedgerRow>, id: ScanId, t: TenantId)
    requires CountEvents(ledger, id, ScanReserved) >= 1 && SameTenant(ledger, id, t)
    ensures var r := LastReserved(ledger, id);
      r.Some? && r.value.scan == Some(id) && r.value.tenant == t
  {
    var last := ledger[|ledger| - 1];
    if !(last.scan == Some(id) && last.event == ScanReserved) {
      var front := ledger[..|ledger| - 1];
      assert forall i :: 0 <= i < |front| ==> front[i] == ledger[i];
      ReservationIsFound(front, id, t);
    }
  }

  // ---------------------------------------------------------------- every scan stays booked

  lemma CommitBooks(c: Config, s: State, e: Event, id: ScanId)
    requires LedgerInv(s) && Enabled(s, e) && Publishes(e) && id in Next(c, s, e).db.scans
    ensures ScanBooked(Next(c, s, e).db, id)
  {
    var d := s.creators[e.p].draft;
    var db' := Next(c, s, e).db;
    if id == d.scan {
      ReservationBooks(s.db.ledger, d);
    } else {
      AppendKeepsOthers(s.db, ReservedRow(d), id);
      assert db'.scans[id] == s.db.scans[id];
    }
  }

  lemma BackfillBooks(db: Db, b: Backfill, id: ScanId)
    requires b.Holding? && b.wrote && HoldIsGood(db, b) && !Active(b.cand.row.status)
    requires id in db.scans && ScanBooked(db, id) && ScanBooked(db, b.cand.scan)
    requires SameOrigin(db.scans[b.cand.scan], b.cand.row)
    ensures ScanBooked(CommitBackfill(db, b), id)
  {
    var row := SettlementRow(b.cand, b.cents);
    if id == b.cand.scan {
      SettlementBooks(db.ledger, row, id, b.cand.row.status);
    } else {
      AppendKeepsOthers(db, row, id);
    }
  }

  lemma SettlementStaysBooked(c: Config, s: State, p: Pid, id: ScanId)
    requires LedgerInv(s) && Enabled(s, CommitSettlement(p)) && id in Next(c, s, CommitSettlement(p)).db.scans
    ensures ScanBooked(Next(c, s, CommitSettlement(p)).db, id)
  {
    var b := s.backfills[p];
    assert BackfillGood(s, b) && ScanBooked(s.db, id) && ScanBooked(s.db, b.cand.scan);
    BackfillBooks(s.db, b, id);
  }

  /** A finished scan that is booked as reserved gets its one final row. */
  lemma WorkerSettles(db: Db, done: ScanId, status: Status)
    requires done in db.scans && ScanBooked(db, done) && db.scans[done].billing == Reserved && !Active(status)
    ensures LastReserved(db.ledger, done).Some?
    ensures var row := WorkerRow(db, done, status);
      row.scan == Some(done) && row.event == FinalEvent(status) && row.tenant == db.scans[done].tenant
      && WorkerSettle(db, done, status).ledger == db.ledger + [row]
  {
    ReservationIsFound(db.ledger, done, db.scans[done].tenant);
  }

  function WorkerRow(db: Db, done: ScanId, status: Status): LedgerRow
    requires LastReserved(db.ledger, done).Some?
  {
    var reserved := LastReserved(db.ledger, done).value;
    reserved.(event := FinalEvent(status), cents := if status == Failed then 0 else reserved.cents)
  }

  lemma WorkerBooks(db: Db, done: ScanId, status: Status, id: ScanId)
    requires id in db.scans && ScanBooked(db, id) && done in db.scans && ScanBooked(db, done)
    requires db.scans[done].billing == Reserved && !Active(status)
    ensures ScanBooked(WorkerSettle(db, done, status), id)
    ensures WorkerSettle(db, done, status).ledger != db.ledger
  {
    WorkerSettles(db, done, status);
    var row := WorkerRow(db, done, status);
    if id == done {
      SettlementBooks(db.ledger, row, id, status);
    } else {
      AppendKeepsOthers(db, row, id);
    }
  }

  lemma WorkerStaysBooked(c: Config, s: State, done: ScanId, status: Status, id: ScanId)
    requires LedgerInv(s) && Enabled(s, WorkerFinish(done, status)) && id in s.db.scans
    ensures ScanBooked(WorkerSettle(s.db, done, status), id)
    ensures WorkerSettle(s.db, done, status).ledger != s.db.ledger
  {
    assert ScanBooked(s.db, id) && ScanBooked(s.db, done);
    WorkerBooks(s.db, done, status, id);
  }

  lemma RetentionStaysBooked(db: Db, gone: set<ScanId>, id: ScanId)
    requires id in db.scans && id !in gone && ScanBooked(db, id)
    ensures ScanBooked(DeleteScans(db, gone), id)
  {
    NullKeepsOtherCounts(db.ledger, gone, id, ScanReserved);
    NullKeepsOtherCounts(db.ledger, gone, id, ScanConsumed);
    NullKeepsOtherCounts(db.ledger, gone, id, ScanRefunded);
  }

  /** Other events move at most the status of a scan that is still running. */
  lemma QuietEventsKeepBooks(c: Config, s: State, e: Event, id: ScanId)
    requires Enabled(s, e) && !Publishes(e) && !e.CommitSettlement? && !e.WorkerFinish? && !e.Retain?
    requires id in s.db.scans
    ensures Next(c, s, e).db.ledger == s.db.ledger && id in Next(c, s, e).db.scans
    ensures var row, row' := s.db.scans[id], Next(c, s, e).db.scans[id];
      row' == row || (Active(row.status) && row' == row.(status := row'.status))
  {
  }

  lemma ScansStayBooked(c: Config, s: State, e: Event, id: ScanId)
    requires LedgerInv(s) && Enabled(s, e) && id in Next(c, s, e).db.scans
    ensures ScanBooked(Next(c, s, e).db, id)
  {
    ScansAppearByCommit(s, e);
    if Publishes(e) {
      CommitBooks(c, s, e, id);
    } else if e.CommitSettlement? {
      SettlementStaysBooked(c, s, e.p, id);
    } else if e.WorkerFinish? {
      WorkerStaysBooked(c, s, e.scan, e.status, id);
    } else {
      assert ScanBooked(s.db, id);
      UnsettledStaysBooked(c, s, e, id);
    }
  }

  lemma UnsettledStaysBooked(c: Config, s: State, e: Event, id: ScanId)
    requires Enabled(s, e) && !Publishes(e) && !e.CommitSettlement? && !e.WorkerFinish?
    requires id in s.db.scans && ScanBooked(s.db, id) && id in Next(c, s, e).db.scans
    ensures ScanBooked(Next(c, s, e).db, id)
  {
    if e.Retain? {
      RetentionStaysBooked(s.db, e.gone, id);
    } else {
      QuietEventsKeepBooks(c, s, e, id);
    }
  }

  // ---------------------------------------------------------------- ledger rows

  /** The ledger row an event commits, if any. */
  function Entry(s: State, e: Event): Option<LedgerRow> {
    match e
    case Commit(p) =>
      if p in s.creators && s.creators[p].Writing? then Some(ReservedRow(s.creators[p].draft)) else None
    case LoseCommitAnswer(p) =>
      if p in s.creators && s.creators[p].Writing? then Some(ReservedRow(s.creators[p].draft)) else None
    case CommitSettlement(p) =>
      if p in s.backfills && s.backfills[p].Holding? && s.backfills[p].wrote
      then Some(SettlementRow(s.backfills[p].cand, s.backfills[p].cents)) else None
    case WorkerFinish(id, status) =>
      var reserved := LastReserved(s.db.ledger, id);
      if reserved.None? || CountEvents(s.db.ledger, id, FinalEvent(status)) != 0 then None
      else
        var cents := if status == Failed then 0 else reserved.value.cents;
        Some(reserved.value.(event := FinalEvent(status), cents := cents))
    case _ => None
  }

  lemma LedgerGrowsByEntry(s: State, e: Event)
    requires Enabled(s, e) && !e.Retain?
    ensures DbAfter(s, e).ledger == s.db.ledger + if Entry(s, e).Some? then [Entry(s, e).value] else []
  {
  }

  /** An entry is never a refusal; it is about the published draft or about a scan that exists. */
  lemma EntryIsAboutAKnownScan(s: State, e: Event)
    requires LedgerInv(s) && Enabled(s, e) && Entry(s, e).Some?
    ensures var row := Entry(s, e).value;
      row.event != ScanBlockedQuota && row.scan.Some?
      && (if Publishes(e) then row.scan.value == s.creators[e.p].draft.scan else row.scan.value in s.db.scans)
  {
    if e.CommitSettlement? {
      assert BackfillGood(s, s.backfills[e.p]);
    } else if e.WorkerFinish? {
      assert ScanBooked(s.db, e.scan);
      ReservationIsFound(s.db.ledger, e.scan, s.db.scans[e.scan].tenant);
    }
  }

  /** The scan is known, and the row is no refusal. */
  predicate RowKnown(row: LedgerRow, used: set<ScanId>) {
    (row.scan.Some? ==> row.scan.value in used) && row.event != ScanBlockedQuota
  }

  lemma RowsStayKnown(c: Config, s: State, e: Event)
    requires LedgerInv(s) && Enabled(s, e)
    ensures forall i :: 0 <= i < |Next(c, s, e).db.ledger| ==> RowKnown(Next(c, s, e).db.ledger[i], s.used)
  {
    if e.Retain? {
      assert Next(c, s, e).db.ledger == NullScans(s.db.ledger, e.gone);
      forall i | 0 <= i < |s.db.ledger| ensures RowKnown(Next(c, s, e).db.ledger[i], s.used) {
        assert RowKnown(s.db.ledger[i], s.used);
      }
    } else {
      LedgerGrowsByEntry(s, e);
      if Entry(s, e).Some? {
        EntryIsAboutAKnownScan(s, e);
      }
    }
  }

  lemma RowsKnowMore(ledger: seq<LedgerRow>, used: set<ScanId>, more: set<ScanId>)
    requires used <= more && forall i :: 0 <= i < |ledger| ==> RowKnown(ledger[i], used)
    ensures forall i :: 0 <= i < |ledger| ==> RowKnown(ledger[i], more)
  {
  }

  lemma StayUnmentioned(c: Config, s: State, e: Event, id: ScanId)
    requires Enabled(s, e) && Unmentioned(s.db.ledger, id)
    requires Entry(s, e).Some? ==> Entry(s, e).value.scan != Some(id)
    ensures Unmentioned(Next(c, s, e).db.ledger, id)
  {
    if e.Retain? {
      assert Next(c, s, e).db.ledger == NullScans(s.db.ledger, e.gone);
    } else {
      LedgerGrowsByEntry(s, e);
    }
  }

  /** Scans are only added by the commit that publishes them. */
  lemma ScansAppearByCommit(s: State, e: Event)
    requires Enabled(s, e)
    ensures DbAfter(s, e).scans.Keys <= s.db.scans.Keys + if Publishes(e) then {s.creators[e.p].draft.scan} else {}
  {
  }

  lemma DraftsStayUnmentioned(c: Config, s: State, e: Event, p: Pid)
    requires LedgerInv(s) && Enabled(s, e)
    requires p in Next(c, s, e).creators && Next(c, s, e).creators[p].Writing?
    ensures var s' := Next(c, s, e);
      s'.creators[p].draft.scan !in s'.db.scans && Unmentioned(s'.db.ledger, s'.creators[p].draft.scan)
  {
    DraftIsKeptOrFresh(c, s, e, p);
    ScansAppearByCommit(s, e);
    if Entry(s, e).Some? {
      EntryIsAboutAKnownScan(s, e);
    }
    StayUnmentioned(c, s, e, Next(c, s, e).creators[p].draft.scan);
  }

  // ---------------------------------------------------------------- backfills

  lemma OriginsNeverChange(s: State, e: Event, id: ScanId)
    requires Enabled(s, e) && id in s.db.scans && id in DbAfter(s, e).scans
    requires Publishes(e) ==> s.creators[e.p].draft.scan != id
    ensures SameOrigin(DbAfter(s, e).scans[id], s.db.scans[id])
  {
    if OfWorker(e) {
      WorkerKeepsOrigins(s, e, id);
    } else if e.CommitSettlement? {
      SettlingKeepsOrigins(s.db.scans, s.backfills[e.p].cand.scan, s.backfills[e.p].cand.row.status, id);
    }
  }

  lemma WorkerKeepsOrigins(s: State, e: Event, id: ScanId)
    requires Enabled(s, e) && OfWorker(e) && id in s.db.scans
    ensures id in DbAfter(s, e).scans && SameOrigin(DbAfter(s, e).scans[id], s.db.scans[id])
  {
    if e.WorkerFinish? {
      SettlingKeepsOrigins(s.db.scans, e.scan, e.status, id);
    }
  }

  lemma SettlingKeepsOrigins(scans: map<ScanId, ScanRow>, done: ScanId, status: Status, id: ScanId)
    requires id in scans
    ensures var finished := SetStatus(scans, done, status);
      id in finished && SameOrigin(finished[id], scans[id])
      && SameOrigin(SetBilling(finished, done, FinalState(status))[id], scans[id])
      && SameOrigin(SetBilling(scans, done, FinalState(status))[id], scans[id])
  {
  }

  /** A finished row locked by a backfill is not touched by anyone else. */
  lemma HeldRowsRest(s: State, e: Event, b: Pid)
    requires Enabled(s, e) && HoldsApart(s) && b in s.backfills && s.backfills[b].Holding?
    requires s.backfills[b].cand.scan in s.db.scans && !(e.CommitSettlement? && e.p == b)
    requires Publishes(e) ==> s.creators[e.p].draft.scan != s.backfills[b].cand.scan
    ensures var id := s.backfills[b].cand.scan;
      id in DbAfter(s, e).scans && DbAfter(s, e).scans[id] == s.db.scans[id]
  {
    assert HeldScan(s.backfills[b]) == Some(s.backfills[b].cand.scan);
  }

  /** A held scan was free when taken; what is held is kept until it is let go. */
  lemma HoldIsKeptOrTaken(c: Config, s: State, e: Event, b: Pid)
    requires Enabled(s, e) && b in Next(c, s, e).backfills && Next(c, s, e).backfills[b].Holding?
    ensures b in s.backfills
    ensures var h' := Next(c, s, e).backfills[b];
      (s.backfills[b].Holding? && s.backfills[b].cand == h'.cand)
      || (e == Take(b) && RowFree(s, h'.cand.scan) && s.backfills[b].Waiting?
          && s.backfills[b].todo != [] && h'.cand == s.backfills[b].todo[0])
  {
  }

  lemma HoldsStayApart(c: Config, s: State, e: Event)
    requires HoldsApart(s) && Enabled(s, e)
    ensures HoldsApart(Next(c, s, e))
  {
    var s' := Next(c, s, e);
    forall a, b | a in s'.backfills && b in s'.backfills && a != b && HeldScan(s'.backfills[a]).Some?
      ensures HeldScan(s'.backfills[a]) != HeldScan(s'.backfills[b])
    {
      if HeldScan(s'.backfills[b]).Some? {
        HoldIsKeptOrTaken(c, s, e, a);
        HoldIsKeptOrTaken(c, s, e, b);
      }
    }
  }

  lemma CandidatesStayKnown(c: Config, s: State, e: Event, cand: Candidate)
    requires LedgerInv(s) && Enabled(s, e) && CandidateKnown(s, cand)
    ensures CandidateKnown(Next(c, s, e), cand)
  {
    var s' := Next(c, s, e);
    ScansStayUsed(c, s, e);
    CandidatesAreNotDrafts(c, s, e, cand);
    ScansAppearByCommit(s, e);
    if cand.scan in s'.db.scans {
      OriginsNeverChange(s, e, cand.scan);
    }
  }

  lemma CandidatesAreNotDrafts(c: Config, s: State, e: Event, cand: Candidate)
    requires Enabled(s, e) && CandidateKnown(s, cand)
    ensures forall p :: p in Next(c, s, e).creators && Next(c, s, e).creators[p].Writing? ==>
      Next(c, s, e).creators[p].draft.scan != cand.scan
  {
    forall p | p in Next(c, s, e).creators && Next(c, s, e).creators[p].Writing?
      ensures Next(c, s, e).creators[p].draft.scan != cand.scan
    {
      DraftIsKeptOrFresh(c, s, e, p);
    }
  }

  lemma FoundCandidatesAreKnown(s: State, cand: Candidate)
    requires LedgerInv(s) && IsCandidate(s.db, cand)
    ensures CandidateKnown(s, cand)
  {
  }

  /** What is still to do has been found before, or is found now. */
  lemma TodoIsKeptOrFound(c: Config, s: State, e: Event, b: Pid, cand: Candidate)
    requires Enabled(s, e) && b in Next(c, s, e).backfills && cand in Next(c, s, e).backfills[b].todo
    ensures (b in s.backfills && cand in s.backfills[b].todo) || IsCandidate(s.db, cand)
  {
  }

  lemma TodoStaysKnown(c: Config, s: State, e: Event, b: Pid, cand: Candidate)
    requires LedgerInv(s) && Enabled(s, e) && b in Next(c, s, e).backfills && cand in Next(c, s, e).backfills[b].todo
    ensures CandidateKnown(Next(c, s, e), cand)
  {
    TodoIsKeptOrFound(c, s, e, b, cand);
    if b in s.backfills && cand in s.backfills[b].todo {
      assert BackfillGood(s, s.backfills[b]);
    } else {
      FoundCandidatesAreKnown(s, cand);
    }
    CandidatesStayKnown(c, s, e, cand);
  }

  lemma HoldsStayGood(c: Config, s: State, e: Event, b: Pid)
    requires LedgerInv(s) && Enabled(s, e) && b in Next(c, s, e).backfills && Next(c, s, e).backfills[b].Holding?
    ensures var s' := Next(c, s, e); CandidateKnown(s', s'.backfills[b].cand) && HoldIsGood(s'.db, s'.backfills[b])
  {
    HoldIsKeptOrTaken(c, s, e, b);
    assert BackfillGood(s, s.backfills[b]);
    CandidatesStayKnown(c, s, e, Next(c, s, e).backfills[b].cand);
    if s.backfills[b].Holding? {
      assert ScanBooked(s.db, s.backfills[b].cand.scan);
      KeptHoldStaysGood(c, s, e, b);
    } else {
      TakenHoldIsGood(c, s, b);
    }
  }

  lemma KeptHoldStaysGood(c: Config, s: State, e: Event, b: Pid)
    requires Enabled(s, e) && HoldsApart(s) && b in s.backfills && s.backfills[b].Holding?
    requires b in Next(c, s, e).backfills && Next(c, s, e).backfills[b].Holding?
    requires Next(c, s, e).backfills[b].cand == s.backfills[b].cand && !Active(s.backfills[b].cand.row.status)
    requires HoldIsGood(s.db, s.backfills[b]) && ScanBooked(s.db, s.backfills[b].cand.scan)
    requires Publishes(e) ==> s.creators[e.p].draft.scan != s.backfills[b].cand.scan
    ensures HoldIsGood(Next(c, s, e).db, Next(c, s, e).backfills[b])
  {
    HeldRowsRest(s, e, b);
    HoldWrites(c, s, e, b);
  }

  lemma TakenHoldIsGood(c: Config, s: State, b: Pid)
    requires Enabled(s, Take(b)) && Next(c, s, Take(b)).backfills[b].Holding?
    ensures HoldIsGood(Next(c, s, Take(b)).db, Next(c, s, Take(b)).backfills[b])
  {
  }

  lemma HoldWrites(c: Config, s: State, e: Event, b: Pid)
    requires Enabled(s, e) && b in s.backfills && b in Next(c, s, e).backfills
    requires s.backfills[b].Holding? && Next(c, s, e).backfills[b].Holding?
    requires HoldIsGood(s.db, s.backfills[b]) && ScanBooked(s.db, s.backfills[b].cand.scan)
    requires !Active(s.backfills[b].cand.row.status)
    ensures var h := Next(c, s, e).backfills[b]; h.done >= 1 && (h.done >= 2 ==> h.wrote)
  {
  }

  // ---------------------------------------------------------------- the invariant over runs

  lemma LedgerInvKept(c: Config, s: State, e: Event)
    requires LedgerInv(s) && Enabled(s, e)
    ensures LedgerInv(Next(c, s, e))
  {
    var s' := Next(c, s, e);
    SeparateKept(c, s, e);
    HoldsStayApart(c, s, e);
    ScansStayUsed(c, s, e);
    RowsStayKnown(c, s, e);
    RowsKnowMore(s'.db.ledger, s.used, s'.used);
    forall id | id in s'.db.scans ensures ScanBooked(s'.db, id) {
      ScansStayBooked(c, s, e, id);
    }
    forall p | p in s'.creators && s'.creators[p].Writing?
      ensures s'.creators[p].draft.scan !in s'.db.scans && Unmentioned(s'.db.ledger, s'.creators[p].draft.scan)
    {
      DraftsStayUnmentioned(c, s, e, p);
    }
    forall b | b in s'.backfills ensures BackfillGood(s', s'.backfills[b]) {
      forall cand | cand in s'.backfills[b].todo ensures CandidateKnown(s', cand) {
        TodoStaysKnown(c, s, e, b, cand);
      }
      if s'.backfills[b].Holding? {
        HoldsStayGood(c, s, e, b);
      }
    }
  }

  lemma {:induction false} LedgerSafety(c: Config, s: State, events: seq<Event>)
    requires LedgerInv(s) && IsRun(c, s, events)
    ensures LedgerInv(After(c, s, events))
    decreases |events|
  {
    if events != [] {
      LedgerInvKept(c, s, events[0]);
      LedgerSafety(c, Next(c, s, events[0]), events[1..]);
    }
  }

  /** Settled once: the billing state of a scan and the ledger's final events tell the same story. */
  lemma SettledOnce(c: Config, s: State, events: seq<Event>, id: ScanId)
    requires Fresh(s) && IsRun(c, s, events) && id in After(c, s, events).db.scans
    ensures var db := After(c, s, events).db;
      var consumed, refunded := CountEvents(db.ledger, id, ScanConsumed), CountEvents(db.ledger, id, ScanRefunded);
      && CountEvents(db.ledger, id, ScanReserved) == 1
      && (db.scans[id].billing == Reserved <==> consumed == 0 && refunded == 0)
      && (db.scans[id].billing == Consumed <==> consumed == 1 && refunded == 0)
      && (db.scans[id].billing == Refunded <==> consumed == 0 && refunded == 1)
      && (consumed == 1 ==> db.scans[id].status == Done)
      && (refunded == 1 ==> db.scans[id].status == Failed)
  {
    LedgerSafety(c, s, events);
    assert ScanBooked(After(c, s, events).db, id);
  }

  /** A step that belongs to request p. */
  predicate OwnEvent(e: Event, p: Pid) {
    (e.Arrive? || e.Authorize? || e.RefuseTargets? || e.Proceed? || e.InsertScan? || e.Commit? || e.LoseCommitAnswer?
     || e.Break?)
    && e.p == p
  }

  /** What a transaction has inserted reaches the ledger with its commit, and in no other way. */
  lemma OwnRowsNeedACommit(c: Config, s: State, e: Event, p: Pid)
    requires Enabled(s, e) && OwnEvent(e, p)
    ensures Publishes(e) ==> p in s.creators && Next(c, s, e).db.ledger == s.db.ledger + OwnRows(s.creators[p])
    ensures !Publishes(e) ==> Next(c, s, e).db == s.db
  {
  }

  predicate NoRefusals(ledger: seq<LedgerRow>) {
    forall i :: 0 <= i < |ledger| ==> ledger[i].event != ScanBlockedQuota
  }

  lemma LedgerHasNoRefusals(s: State)
    requires LedgerInv(s)
    ensures NoRefusals(s.db.ledger)
  {
    forall i | 0 <= i < |s.db.ledger| ensures s.db.ledger[i].event != ScanBlockedQuota {
      assert RowKnown(s.db.ledger[i], s.used);
    }
  }

  /** A refused request sees its refusal row, nobody else ever does: the throw after it rolls it back. */
  lemma RefusalsAreNeverRecorded(c: Config, s: State, events: seq<Event>, p: Pid, e: Event)
    requires Fresh(s) && IsRun(c, s, events)
    requires var s' := After(c, s, events);
      p in s'.creators && s'.creators[p].Blocked? && s'.creators[p].done >= REFUSAL_WRITTEN && Enabled(s', e)
    ensures var s' := After(c, s, events);
      && NoRefusals(s'.db.ledger) && !NoRefusals(s'.db.ledger + OwnRows(s'.creators[p]))
      && NoRefusals(Next(c, s', e).db.ledger) && (OwnEvent(e, p) ==> Next(c, s', e).db == s'.db)
  {
    LedgerSafety(c, s, events);
    var s' := After(c, s, events);
    LedgerInvKept(c, s', e);
    LedgerHasNoRefusals(s');
    LedgerHasNoRefusals(Next(c, s', e));
    assert (s'.db.ledger + OwnRows(s'.creators[p]))[|s'.db.ledger|].event == ScanBlockedQuota;
    if OwnEvent(e, p) {
      OwnRowsNeedACommit(c, s', e, p);
    }
  }

  /** A settled scan is no candidate, and a stale candidate of one is skipped. */
  lemma SettledScansAreLeftAlone(c: Config, s: State, b: Pid, cand: Candidate)
    requires LedgerInv(s) && cand.scan in s.db.scans && s.db.scans[cand.scan].billing != Reserved
    ensures !IsCandidate(s.db, cand)
    ensures (b in s.backfills && s.backfills[b].Waiting? && s.backfills[b].todo != [] && s.backfills[b].todo[0] == cand
             && Enabled(s, Take(b)))
        ==> Next(c, s, Take(b)).db == s.db && Next(c, s, Take(b)).backfills[b].Waiting?
  {
  }
}
