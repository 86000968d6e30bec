// azure-onboarding-service.js over its tables. Each operation is executed alone here;
// Sessions.dfy interleaves what they do to sessions, Refreshes.dfy what they do to scopes.
module OnboardingService {
  import opened Wrappers
  import opened Scopes
  import opened Sessions

  datatype ConsentStatus = Consented | Active | NeedsRbac

  datatype Integration = Integration(consent: ConsentStatus, count: nat, failed: bool,
                                     consentedAt: Option<nat>, verifiedAt: nat)

  type Integrations = map<(string, string), Integration>

  datatype Verification = Verification(active: bool, count: nat, failed: bool)

  datatype Redirect = Rejected | Denied | Success(count: nat) | ActionNeeded(count: nat) | Error

  /** The first transaction of an accepted consent. */
  function WithConsent(i: Integrations, tenant: string, ms: string, now: nat): Integrations {
    var key := (tenant, ms);
    i[key := if key in i then i[key].(consent := ConsentStatus.Consented, verifiedAt := now,
                                      consentedAt := if i[key].consentedAt.Some? then i[key].consentedAt else Some(now))
             else Integration(ConsentStatus.Consented, 0, false, Some(now), now)]
  }

  /** UPDATE ... WHERE: an absent row stays absent. */
  function WithResult(i: Integrations, tenant: string, ms: string, found: Option<nat>, now: nat): Integrations {
    var key := (tenant, ms);
    if key !in i then i
    else if found.None? then i[key := i[key].(consent := NeedsRbac, failed := true, verifiedAt := now)]
    else
      var consent := if found.value > 0 then Active else NeedsRbac;
      i[key := i[key].(consent := consent, count := found.value, failed := false, verifiedAt := now)]
  }

  /**
    * The integrations after a refresh: its own result, then that of the
    * catch block if the store was not acknowledged.
    */
  function Refreshed(i: Integrations, tenant: string, ms: string, found: Option<nat>, stored: Reply, recovered: Reply,
                     now: nat): Integrations {
    var tried := if found.Some? && !stored.Refused? then WithResult(i, tenant, ms, found, now) else i;
    if (found.Some? && stored.Applied?) || recovered.Refused? then tried else WithResult(tried, tenant, ms, None, now)
  }

  // ---------------------------------------------------------------- the history of an integration

  datatype Change =
    | Consent(tenant: string, ms: string, now: nat)
    | Result(tenant: string, ms: string, found: Option<nat>, now: nat)

  function Changed(i: Integrations, c: Change): Integrations {
    match c
    case Consent(tenant, ms, now) => WithConsent(i, tenant, ms, now)
    case Result(tenant, ms, found, now) => WithResult(i, tenant, ms, found, now)
  }

  function ChangedAll(i: Integrations, changes: seq<Change>): Integrations {
    if changes == [] then i else Changed(ChangedAll(i, changes[..|changes| - 1]), changes[|changes| - 1])
  }

  function FirstConsent(changes: seq<Change>, tenant: string, ms: string): Option<nat> {
    if changes == [] then None
    else if changes[0].Consent? && changes[0].tenant == tenant && changes[0].ms == ms then Some(changes[0].now)
    else FirstConsent(changes[1..], tenant, ms)
  }

  lemma {:induction false} FirstOfMore(changes: seq<Change>, c: Change, tenant: string, ms: string)
    ensures FirstConsent(changes + [c], tenant, ms)
      == if FirstConsent(changes, tenant, ms).Some? then FirstConsent(changes, tenant, ms)
          else FirstConsent([c], tenant, ms)
  {
    if changes == [] {
      assert [] + [c] == [c];
    } else {
      assert (changes + [c])[1..] == changes[1..] + [c];
      FirstOfMore(changes[1..], c, tenant, ms);
    }
  }

  /**
    * Whatever consents and results follow, an integration keeps the time
    * of its first consent; results alone make none.
    */
  lemma {:induction false} FirstConsentStands(i: Integrations, changes: seq<Change>, tenant: string, ms: string)
    ensures var i' := ChangedAll(i, changes);
      && ((tenant, ms) in i' <==> (tenant, ms) in i || FirstConsent(changes, tenant, ms).Some?)
      && ((tenant, ms) in i' ==>
            i'[(tenant, ms)].consentedAt
            == if (tenant, ms) in i && i[(tenant, ms)].consentedAt.Some? then i[(tenant, ms)].consentedAt
               else FirstConsent(changes, tenant, ms))
  {
    if changes != [] {
      var front, last := changes[..|changes| - 1], changes[|changes| - 1];
      FirstConsentStands(i, front, tenant, ms);
      FirstOfMore(front, last, tenant, ms);
      assert front + [last] == changes;
    }
  }

  /** What the integration row then says: ACTIVE exactly for an acknowledged non-empty discovery. */
  lemma IntegrationTellsTheResult(i: Integrations, tenant: string, ms: string, found: Option<nat>, stored: Reply,
                                  recovered: Reply, now: nat)
    requires (tenant, ms) in i && (!recovered.Refused? || (found.Some? && stored.Applied?))
    ensures var i' := Refreshed(i, tenant, ms, found, stored, recovered, now);
      i'.Keys == i.Keys
      && (i'[(tenant, ms)].consent == Active <==> found.Some? && stored.Applied? && found.value > 0)
      && (i'[(tenant, ms)].consent in {Active, NeedsRbac} && i'[(tenant, ms)].verifiedAt == now)
      && i'[(tenant, ms)].consentedAt == i[(tenant, ms)].consentedAt
      && (i'[(tenant, ms)].failed <==> found.None? || !stored.Applied?)
      && (found.Some? && stored.Applied? ==> i'[(tenant, ms)].count == found.value)
      && (found.None? || stored.Refused? ==> i'[(tenant, ms)].count == i[(tenant, ms)].count)
      && (forall k :: k in i && k != (tenant, ms) ==> i'[k] == i[k])
  {
  }

  function TenantScope(t: Table, tenant: string, ms: string, sid: Sid, now: nat): Table {
    Upserted(t, Key(tenant, ms, None), "Tenant consent", AdminConsent, ScopeStatus.Consented,
        Metadata("", "", Some(sid)), now)
  }

  /** Consent authorises scans of the Microsoft tenant, and no refresh takes that back. */
  lemma ConsentAuthorizesTenant(t: Table, tenant: string, ms: string, sid: Sid, found: seq<Subscription>,
                                session: Option<nat>, now: nat, later: nat)
    ensures var after := Reconciled(TenantScope(t, tenant, ms, sid, now), tenant, ms, found, session, later);
      TenantAuthorized(after, tenant, ms)
      && forall other :: other != ms ==>
        (TenantAuthorized(after, tenant, other) <==> TenantAuthorized(t, tenant, other))
  {
    RefreshIsExact(TenantScope(t, tenant, ms, sid, now), tenant, ms, found, session, later);
  }

  /** The events of one refresh for a session. */
  function RefreshEvents(p: Pid, found: Option<nat>, stored: Reply, recovered: Reply): seq<Event> {
    if found.None? then [List(p, None), Recover(p, recovered)]
    else if stored.Applied? then [List(p, found), Store(p, Applied)]
    else [List(p, found), Store(p, stored), Recover(p, recovered)]
  }

  function Size(listing: Option<seq<Subscription>>): Option<nat> {
    if listing.Some? then Some(|listing.value|) else None
  }

  /** Subscriptions were listed, and storing them was acknowledged. */
  predicate Discovers(listing: Option<seq<Subscription>>, stored: Reply) { listing.Some? && stored.Applied? }

  /** The events of one callback. */
  function CallbackEvents(p: Pid, sid: Sid, consent: bool, now: nat, admitted: bool, committed: Reply,
                          found: Option<nat>, stored: Reply, recovered: Reply): seq<Event> {
    [Arrive(p, sid, consent, now)] +
    if !admitted then [] else
      [Commit(p, committed)] + if committed.Applied? && consent then RefreshEvents(p, found, stored, recovered) else []
  }

  /**
    * The scopes after an admitted callback: the whole Microsoft tenant
    * once consent is stored, then what was discovered.
    */
  function ScopesAfter(t: Table, tenant: string, ms: string, sid: Sid, consent: bool, now: nat, committed: Reply,
                       listing: Option<seq<Subscription>>, stored: Reply): Table {
    if !consent || committed.Refused? then t
    else if committed.Applied? && listing.Some? && !stored.Refused?
    then Reconciled(TenantScope(t, tenant, ms, sid, now), tenant, ms, listing.value, Some(sid), now)
    else TenantScope(t, tenant, ms, sid, now)
  }

  /** The integrations after an admitted callback. */
  function IntegrationsAfter(i: Integrations, tenant: string, ms: string, consent: bool, now: nat, committed: Reply,
                             found: Option<nat>, stored: Reply, recovered: Reply): Integrations {
    if !consent || committed.Refused? then i
    else if committed.Applied?
      then Refreshed(WithConsent(i, tenant, ms, now), tenant, ms, found, stored, recovered, now)
    else WithConsent(i, tenant, ms, now)
  }

  lemma TwoSteps(s: State, a: Event, b: Event)
    requires Enabled(s, a) && Enabled(Next(s, a), b)
    ensures Reaches(s, [a, b], Next(Next(s, a), b))
  {
    OneStep(Next(s, a), b);
    StepThen(s, a, [b], Next(Next(s, a), b));
    assert [a, b] == [a] + [b];
  }

  /** Where a refresh whose last commit is acknowledged leaves its session. */
  lemma RefreshEnds(s: State, p: Pid, found: Option<nat>, stored: Reply, recovered: Reply)
    requires p in s.callbacks && s.callbacks[p].Discovering? && s.callbacks[p].sid in s.sessions
    requires IsRun(s, RefreshEvents(p, found, stored, recovered))
    ensures var sid, s' := s.callbacks[p].sid, After(s, RefreshEvents(p, found, stored, recovered));
      sid in s'.sessions
      && (found.Some? && stored.Applied? ==>
            s'.sessions[sid].status == (if found.value > 0 then Completed else ActionRequired)
                && s'.sessions[sid].count == found)
      && ((found.None? || !stored.Applied?) && recovered.Applied? ==> s'.sessions[sid].status == ActionRequired)
  {
    var s1 := Next(s, List(p, found));
    if found.None? {
      TwoSteps(s, List(p, None), Recover(p, recovered));
    } else if stored.Applied? {
      TwoSteps(s, List(p, found), Store(p, Applied));
    } else {
      TwoSteps(s1, Store(p, stored), Recover(p, recovered));
      StepThen(s, List(p, found), [Store(p, stored), Recover(p, recovered)],
          Next(Next(s1, Store(p, stored)), Recover(p, recovered)));
      assert RefreshEvents(p, found, stored, recovered) == [List(p, found)] + [Store(p, stored), Recover(p, recovered)];
    }
  }

  class Onboarding {
    var scopes: Table
    var integrations: Integrations
    var sessions: map<Sid, Session>
    var callbacks: map<Pid, Callback>

    constructor ()
      ensures scopes == map[] && integrations == map[] && Sessions.Fresh(View())
    {
      scopes, integrations, sessions, callbacks := map[], map[], map[], map[];
    }

    function View(): State
      reads this
    {
      State(sessions, callbacks)
    }

    method UpsertTenantScope(key: Key, name: string, status: ScopeStatus, metadata: Metadata, now: nat)
      modifies `scopes
      ensures scopes == Upserted(old(scopes), key, name, AdminConsent, status, metadata, now)
      ensures key in old(scopes) ==> scopes[key].createdAt == old(scopes)[key].createdAt
      ensures forall k :: k in old(scopes) && k != key ==> k in scopes && scopes[k] == old(scopes)[k]
      ensures key.sub.None? && status != Stale && !status.OtherStatus? ==> TenantAuthorized(scopes, key.tenant, key.ms)
      ensures key.sub.Some? && status == Verified ==> Authorized(scopes, key.tenant, key.ms, key.sub.value)
    {
      if key in scopes {
        scopes := scopes[key := scopes[key].(name := name, active := true, source := AdminConsent, status := status,
                                             metadata := metadata, verifiedAt := now, updatedAt := now)];
      } else {
        scopes := scopes[key := Scope(name, true, AdminConsent, status, metadata, now, now, now)];
      }
    }

    method UpsertIntegration(tenant: string, ms: string, now: nat)
      modifies `integrations
      ensures integrations == WithConsent(old(integrations), tenant, ms, now)
      ensures integrations[(tenant, ms)].consent == ConsentStatus.Consented
        && integrations[(tenant, ms)].consentedAt.Some?
      ensures (tenant, ms) in old(integrations) && old(integrations)[(tenant, ms)].consentedAt.Some? ==>
        integrations[(tenant, ms)].consentedAt == old(integrations)[(tenant, ms)].consentedAt
      ensures forall k :: k in old(integrations) && k != (tenant, ms) ==>
        k in integrations && integrations[k] == old(integrations)[k]
    {
      var key := (tenant, ms);
      if key in integrations {
        var row := integrations[key];
        var since := row.consentedAt;
        if since.None? {
          since := Some(now);
        }
        integrations := integrations[key :=
            row.(consent := ConsentStatus.Consented, consentedAt := since, verifiedAt := now)];
      } else {
        integrations := integrations[key := Integration(ConsentStatus.Consented, 0, false, Some(now), now)];
      }
    }

    /** The reconciling statements of one transaction: mark stale, then upsert what was discovered. */
    method Reconcile(tenant: string, ms: string, found: seq<Subscription>, session: Option<nat>, now: nat)
      modifies `scopes
      ensures scopes == Reconciled(old(scopes), tenant, ms, found, session, now)
    {
      scopes := map k | k in scopes ::
        if Discoverable(k, scopes[k], tenant, ms) then scopes[k].(active := false, status := Stale, updatedAt := now)
          else scopes[k];
      ghost var stale := scopes;
      for i := 0 to |found|
        invariant scopes == VerifiedAll(stale, tenant, ms, found[..i], session, now)
      {
        assert found[..i + 1][..i] == found[..i];
        UpsertTenantScope(Key(tenant, ms, Some(found[i].id)), found[i].name, Verified,
                          Metadata(found[i].state, found[i].azureTenant, session), now);
      }
      assert found[..|found|] == found;
    }

    /** The transaction that stores a discovery for a session. */
    method StoreDiscovery(p: Pid, tenant: string, ms: string, found: seq<Subscription>, now: nat, stored: Reply)
      requires p in callbacks && callbacks[p].Discovering? && callbacks[p].sid in sessions
      modifies this
      ensures View() == Next(Next(old(View()), List(p, Some(|found|))), Store(p, stored))
      ensures scopes == if stored.Refused? then old(scopes)
                        else Reconciled(old(scopes), tenant, ms, found, Some(old(callbacks[p].sid)), now)
      ensures integrations
        == if stored.Refused? then old(integrations) else WithResult(old(integrations), tenant, ms, Some(|found|), now)
    {
      var sid := callbacks[p].sid;
      sessions := sessions[sid := sessions[sid].(listings := sessions[sid].listings + [|found|])];
      callbacks := callbacks[p := Storing(sid, |found|)];
      if !stored.Refused? {
        Reconcile(tenant, ms, found, Some(sid), now);
        integrations := WithResult(integrations, tenant, ms, Some(|found|), now);
        sessions := sessions[sid := Stored(sessions[sid], |found|)];
      }
      callbacks := callbacks[p := match stored case Applied => Finished case Refused => Recovering(sid, None)
                                               case Lost => Recovering(sid, Some(|found|))];
    }

    /** The transaction of the catch block. */
    method RecoverSession(p: Pid, tenant: string, ms: string, now: nat, recovered: Reply)
      requires p in callbacks && callbacks[p].Recovering? && callbacks[p].sid in sessions
      modifies `integrations, `sessions, `callbacks
      ensures View() == Next(old(View()), Recover(p, recovered))
      ensures integrations
        == if recovered.Refused? then old(integrations) else WithResult(old(integrations), tenant, ms, None, now)
    {
      var sid := callbacks[p].sid;
      if !recovered.Refused? {
        integrations := WithResult(integrations, tenant, ms, None, now);
        sessions := sessions[sid := Moved(sessions[sid], ActionRequired)];
      }
      callbacks := callbacks[p := Finished];
    }

    /** refreshSubscriptions, for a callback that is verifying a session. */
    method RefreshForSession(p: Pid, tenant: string, ms: string, listing: Option<seq<Subscription>>, now: nat,
                             stored: Reply, recovered: Reply)
      returns (r: Option<Verification>)
      requires p in callbacks && callbacks[p].Discovering? && callbacks[p].sid in sessions
      modifies this
      ensures Reaches(old(View()), RefreshEvents(p, Size(listing), stored, recovered), View())
      ensures scopes == if listing.Some? && !stored.Refused?
                        then Reconciled(old(scopes), tenant, ms, listing.value, Some(old(callbacks[p].sid)), now)
                            else old(scopes)
      ensures integrations == Refreshed(old(integrations), tenant, ms, Size(listing), stored, recovered, now)
      ensures r
        == if listing.Some? && stored.Applied? then Some(Verification(listing.value != [], |listing.value|, false))
                   else if recovered.Applied? then Some(Verification(false, 0, true)) else None
      ensures r.Some? ==> old(callbacks[p].sid) in sessions
      ensures r.Some? ==> sessions[old(callbacks[p].sid)].status == if r.value.active then Completed else ActionRequired
      ensures r.Some? && r.value.active ==>
        r.value.count > 0 && sessions[old(callbacks[p].sid)].count == Some(r.value.count)
    {
      ghost var s0 := View();
      ghost var listed := List(p, Size(listing));
      if listing.Some? {
        StoreDiscovery(p, tenant, ms, listing.value, now, stored);
        if stored.Applied? {
          TwoSteps(s0, listed, Store(p, stored));
          RefreshEnds(s0, p, Size(listing), stored, recovered);
          return Some(Verification(listing.value != [], |listing.value|, false));
        }
        RecoverSession(p, tenant, ms, now, recovered);
        TwoSteps(Next(s0, listed), Store(p, stored), Recover(p, recovered));
        StepThen(s0, listed, [Store(p, stored), Recover(p, recovered)], View());
        assert [listed] + [Store(p, stored), Recover(p, recovered)]
          == RefreshEvents(p, Size(listing), stored, recovered);
      } else {
        callbacks := callbacks[p := Recovering(callbacks[p].sid, None)];
        RecoverSession(p, tenant, ms, now, recovered);
        TwoSteps(s0, listed, Recover(p, recovered));
      }
      RefreshEnds(s0, p, Size(listing), stored, recovered);
      r := if recovered.Applied? then Some(Verification(false, 0, true)) else None;
    }

    /** reverifyTenant: refused without an integration; no session changes. */
    method ReverifyTenant(tenant: string, ms: string, listing: Option<seq<Subscription>>, now: nat, stored: Reply,
                          recovered: Reply)
      returns (known: bool, r: Option<Verification>)
      modifies `scopes, `integrations
      ensures known <==> (tenant, ms) in old(integrations)
      ensures scopes == if known && listing.Some? && !stored.Refused?
                        then Reconciled(old(scopes), tenant, ms, listing.value, None, now) else old(scopes)
      ensures integrations
        == if known then Refreshed(old(integrations), tenant, ms, Size(listing), stored, recovered, now)
                              else old(integrations)
      ensures known ==>
        r == if listing.Some? && stored.Applied? then Some(Verification(listing.value != [], |listing.value|, false))
                             else if recovered.Applied? then Some(Verification(false, 0, true)) else None
    {
      known, r := (tenant, ms) in integrations, None;
      if !known {
        return;
      }
      if listing.Some? && !stored.Refused? {
        Reconcile(tenant, ms, listing.value, None, now);
        integrations := WithResult(integrations, tenant, ms, Size(listing), now);
      }
      if listing.Some? && stored.Applied? {
        return true, Some(Verification(listing.value != [], |listing.value|, false));
      }
      if !recovered.Refused? {
        integrations := WithResult(integrations, tenant, ms, None, now);
      }
      r := if recovered.Applied? then Some(Verification(false, 0, true)) else None;
    }

    /** The callback's first transaction, once the locked session has been found open. */
    method ConsentTransaction(p: Pid, sid: Sid, tenant: string, ms: string, consent: bool, now: nat, committed: Reply)
      requires p !in callbacks && Unlocked(View(), sid) && Admits(View(), sid, now)
      modifies this
      ensures Reaches(old(View()), [Arrive(p, sid, consent, now), Commit(p, committed)], View())
      ensures committed.Applied? && consent ==> p in callbacks && callbacks[p] == Discovering(sid) && sid in sessions
      ensures committed.Applied? && !consent ==> sessions == old(sessions)[sid := Moved(old(sessions)[sid], Failed)]
      ensures scopes
        == if consent && !committed.Refused? then TenantScope(old(scopes), tenant, ms, sid, now) else old(scopes)
      ensures integrations
        == if consent && !committed.Refused? then WithConsent(old(integrations), tenant, ms, now) else old(integrations)
    {
      ghost var s0 := View();
      var draft := if consent then Verifying else Failed;
      if !committed.Refused? {
        if consent {
          UpsertIntegration(tenant, ms, now);
          UpsertTenantScope(Key(tenant, ms, None), "Tenant consent", ScopeStatus.Consented,
                            Metadata("", "", Some(sid)), now);
        }
        sessions := sessions[sid := Moved(sessions[sid], draft)];
      }
      if committed.Applied? && consent {
        sessions := sessions[sid := sessions[sid].(verifiers := sessions[sid].verifiers + [p])];
        callbacks := callbacks[p := Discovering(sid)];
      } else {
        callbacks := callbacks[p := Finished];
      }
      TwoSteps(s0, Arrive(p, sid, consent, now), Commit(p, committed));
    }

    /** The callback of an open session: its first transaction, then the refresh if consent was given. */
    method AdmittedCallback(p: Pid, sid: Sid, tenant: string, ms: string, consent: bool, now: nat, committed: Reply,
                            listing: Option<seq<Subscription>>, stored: Reply, recovered: Reply)
      returns (r: Redirect)
      requires p !in callbacks && Unlocked(View(), sid) && Admits(View(), sid, now)
      modifies this
      ensures Reaches(old(View()),
          CallbackEvents(p, sid, consent, now, true, committed, Size(listing), stored, recovered), View())
      ensures scopes == ScopesAfter(old(scopes), tenant, ms, sid, consent, now, committed, listing, stored)
      ensures integrations
        == IntegrationsAfter(old(integrations), tenant, ms, consent, now, committed, Size(listing), stored, recovered)
      ensures !r.Rejected? && (r == Denied <==> !consent && committed.Applied?)
      ensures r == Denied ==> sessions == old(sessions)[sid := Moved(old(sessions)[sid], Failed)]
      ensures r.Success? <==> consent && committed.Applied? && Discovers(listing, stored) && listing.value != []
      ensures r.ActionNeeded? <==>
        consent && committed.Applied? && if Discovers(listing, stored) then listing.value == [] else recovered.Applied?
      ensures r.Success? ==> r.count == |listing.value| > 0
      ensures r.Success? ==>
        sid in sessions && sessions[sid].status == Completed && sessions[sid].count == Some(r.count)
      ensures r.ActionNeeded? ==> r.count == 0 && sid in sessions && sessions[sid].status == ActionRequired
    {
      ghost var s0 := View();
      ghost var arrive, commit := Arrive(p, sid, consent, now), Commit(p, committed);
      ConsentTransaction(p, sid, tenant, ms, consent, now, committed);
      if !committed.Applied? || !consent {
        assert [arrive] + ([commit] + []) == [arrive, commit];
        return if committed.Applied? then Denied else Error;
      }
      ghost var s2 := View();
      var verification := RefreshForSession(p, tenant, ms, listing, now, stored, recovered);
      ghost var rest := RefreshEvents(p, Size(listing), stored, recovered);
      Chain(s0, [arrive, commit], s2, rest, View());
      assert [arrive] + ([commit] + rest) == [arrive, commit] + rest;
      r := if verification.None? then Error
           else if verification.value.active then Success(verification.value.count)
             else ActionNeeded(verification.value.count);
    }

    /**
      * handleCallback, with a state parameter that names session sid; consent means that no error was
      * reported, admin consent was given, and a Microsoft tenant was named.
      */
    method HandleCallback(p: Pid, sid: Sid, tenant: string, ms: string, consent: bool, now: nat, committed: Reply,
                          listing: Option<seq<Subscription>>, stored: Reply, recovered: Reply)
      returns (r: Redirect)
      requires p !in callbacks && Unlocked(View(), sid)
      modifies this
      ensures var admitted := Admits(old(View()), sid, now);
        && Reaches(old(View()),
            CallbackEvents(p, sid, consent, now, admitted, committed, Size(listing), stored, recovered), View())
        && (r == Rejected <==> !admitted)
        && scopes == (if !admitted then old(scopes)
                      else ScopesAfter(old(scopes), tenant, ms, sid, consent, now, committed, listing, stored))
        && integrations == (if !admitted then old(integrations)
                            else IntegrationsAfter(old(integrations), tenant, ms, consent, now, committed,
                                                   Size(listing), stored, recovered))
        && (r == Denied <==> admitted && !consent && committed.Applied?)
      ensures r == Denied ==>
        sid in old(sessions) && sessions == old(sessions)[sid := Moved(old(sessions)[sid], Failed)]
      ensures r.Success? <==>
        && Admits(old(View()), sid, now) && consent && committed.Applied?
        && Discovers(listing, stored) && listing.value != []
      ensures r.ActionNeeded? <==>
        && Admits(old(View()), sid, now) && consent && committed.Applied?
        && if Discovers(listing, stored) then listing.value == [] else recovered.Applied?
      ensures r.Success? ==> r.count == |listing.value| > 0
      ensures r.Success? ==>
        sid in sessions && sessions[sid].status == Completed && sessions[sid].count == Some(r.count)
      ensures r.ActionNeeded? ==> r.count == 0 && sid in sessions && sessions[sid].status == ActionRequired
    {
      if sid !in sessions || sessions[sid].status != Started || sessions[sid].expiresAt < now {
        ghost var s0 := View();
        callbacks := callbacks[p := Finished];
        OneStep(s0, Arrive(p, sid, consent, now));
        return Rejected;
      }
      r := AdmittedCallback(p, sid, tenant, ms, consent, now, committed, listing, stored, recovered);
    }
  }
}
