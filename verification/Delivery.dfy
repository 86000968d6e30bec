// Intake and outbox together: a committed creation enqueues its event in the same
// transaction, publishers run against the same table. No message is sent for a scan
// that was not created, and every scan has its event.
module Delivery {
  import opened Wrappers
  import Billing
  import Intake
  import IntakeQuota
  import IntakeKeys
  import Outbox

  datatype State = State(intake: Intake.State, outbox: Outbox.State)

  datatype Event =
    | InIntake(intake: Intake.Event)
    | InOutbox(outbox: Outbox.Event)

  /** The id an intake event enqueues. */
  ghost function Enqueued(s: Intake.State, e: Intake.Event): Option<Billing.ScanId>
    requires Intake.Enabled(s, e)
  {
    if IntakeQuota.Publishes(e) then Some(s.creators[e.p].draft.scan) else None
  }

  ghost predicate Enabled(oc: Outbox.Config, s: State, e: Event) {
    match e
    case InIntake(i) => Intake.Enabled(s.intake, i)
    case InOutbox(o) => !o.Enqueue? && Outbox.Enabled(oc, s.outbox, o)
  }

  ghost function Next(c: Billing.Config, oc: Outbox.Config, s: State, e: Event): State
    requires Enabled(oc, s, e)
  {
    match e
    case InIntake(i) =>
      var id := Enqueued(s.intake, i);
      State(Intake.Next(c, s.intake, i),
            if id.Some? then s.outbox.(rows := Outbox.EnqueueRow(s.outbox.rows, id.value, s.outbox.now)) else s.outbox)
    case InOutbox(o) => State(s.intake, Outbox.Next(oc, s.outbox, o))
  }

  ghost predicate IsRun(c: Billing.Config, oc: Outbox.Config, s: State, events: seq<Event>)
    decreases |events|
  {
    events == [] || (Enabled(oc, s, events[0]) && IsRun(c, oc, Next(c, oc, s, events[0]), events[1..]))
  }

  ghost function After(c: Billing.Config, oc: Outbox.Config, s: State, events: seq<Event>): State
    requires IsRun(c, oc, s, events)
    decreases |events|
  {
    if events == [] then s else After(c, oc, Next(c, oc, s, events[0]), events[1..])
  }

  ghost predicate Fresh(s: State) { Intake.Fresh(s.intake) && Outbox.Fresh(s.outbox) }

  predicate NoRetention(events: seq<Event>) {
    forall i :: 0 <= i < |events| && events[i].InIntake? ==> !IntakeKeys.Deletes(events[i].intake)
  }

  ghost predicate Inv(oc: Outbox.Config, s: State) {
    && IntakeKeys.KeysInv(s.intake)
    && Outbox.Inv(oc, s.outbox)
    && s.outbox.rows.Keys == s.intake.db.outbox.Keys
    && Outbox.Known(s.outbox)
  }

  /** A commit enqueues an id the outbox has never seen, so it is the machine's Enqueue. */
  lemma CommitEnqueuesAfresh(c: Billing.Config, oc: Outbox.Config, s: State, e: Intake.Event)
    requires Inv(oc, s) && Intake.Enabled(s.intake, e) && IntakeQuota.Publishes(e)
    ensures var id := Enqueued(s.intake, e).value;
      Outbox.Enabled(oc, s.outbox, Outbox.Enqueue(id))
      && Next(c, oc, s, InIntake(e)).outbox == Outbox.Next(oc, s.outbox, Outbox.Enqueue(id))
      && Intake.Next(c, s.intake, e).db.outbox.Keys == s.intake.db.outbox.Keys + {id}
  {
  }

  lemma IntakeKeepsInv(c: Billing.Config, oc: Outbox.Config, s: State, e: Intake.Event)
    requires oc.onTime && Inv(oc, s) && Enabled(oc, s, InIntake(e)) && !IntakeKeys.Deletes(e)
    ensures Inv(oc, Next(c, oc, s, InIntake(e)))
  {
    IntakeKeys.KeysInvKept(c, s.intake, e);
    if IntakeQuota.Publishes(e) {
      CommitEnqueuesAfresh(c, oc, s, e);
      Outbox.InvKept(oc, s.outbox, Outbox.Enqueue(Enqueued(s.intake, e).value));
      Outbox.KnownKept(oc, s.outbox, Outbox.Enqueue(Enqueued(s.intake, e).value));
    } else {
      IntakeKeys.OnlyCommitsBind(s.intake, e);
    }
  }

  lemma OutboxKeepsInv(c: Billing.Config, oc: Outbox.Config, s: State, e: Outbox.Event)
    requires oc.onTime && Inv(oc, s) && Enabled(oc, s, InOutbox(e))
    ensures Inv(oc, Next(c, oc, s, InOutbox(e)))
  {
    Outbox.InvKept(oc, s.outbox, e);
    Outbox.KnownKept(oc, s.outbox, e);
  }

  lemma {:induction false} Safety(c: Billing.Config, oc: Outbox.Config, s: State, events: seq<Event>)
    requires oc.onTime && Inv(oc, s) && IsRun(c, oc, s, events) && NoRetention(events)
    ensures Inv(oc, After(c, oc, s, events))
    decreases |events|
  {
    if events != [] {
      match events[0] {
        case InIntake(i) => IntakeKeepsInv(c, oc, s, i);
        case InOutbox(o) => OutboxKeepsInv(c, oc, s, o);
      }
      assert forall i :: 0 <= i < |events| - 1 ==> events[1..][i] == events[i + 1];
      Safety(c, oc, Next(c, oc, s, events[0]), events[1..]);
    }
  }

  /** Every message sent is about a committed scan, and every committed scan has its event, sent if PUBLISHED. */
  lemma NoPhantomAndNoLostMessages(c: Billing.Config, oc: Outbox.Config, s: State, events: seq<Event>,
                                   id: Billing.ScanId)
    requires oc.onTime && Fresh(s) && IsRun(c, oc, s, events) && NoRetention(events)
    ensures var s' := After(c, oc, s, events);
      && (id in s'.outbox.sent ==> id in s'.intake.db.scans)
      && (id in s'.intake.db.scans <==> id in s'.outbox.rows)
      && (id in s'.intake.db.scans ==>
            id in s'.intake.db.outbox && s'.intake.db.outbox[id] == Intake.Message(s'.intake.db.scans[id].tenant, id)
            && (s'.outbox.rows[id].status == Outbox.Published ==> id in s'.outbox.sent))
  {
    Safety(c, oc, s, events);
    var s' := After(c, oc, s, events);
    if id in s'.intake.db.scans {
      assert IntakeKeys.Bundled(s'.intake.db, id) && Outbox.RowGood(oc, s'.outbox, id);
    }
  }
}
