// Azure onboarding: the scope and integration tables, and the reconciliation of discovered subscriptions.
module Scopes {
  import opened Wrappers
  import opened Text

  datatype Source = AdminConsent | OtherSource(name: string)
  datatype ScopeStatus = Consented | Verified | Stale | OtherStatus(name: string)

  datatype Metadata = Metadata(state: string, azureTenant: string, session: Option<nat>)

  // sub is None for the scope of the whole Microsoft tenant; the two partial unique indexes make this the key
  datatype Key = Key(tenant: string, ms: string, sub: Option<string>)

  datatype Scope = Scope(name: string, active: bool, source: Source, status: ScopeStatus, metadata: Metadata,
                         verifiedAt: nat, createdAt: nat, updatedAt: nat)

  type Table = map<Key, Scope>

  datatype Subscription = Subscription(id: string, name: string, state: string, azureTenant: string)

  // ---------------------------------------------------------------- upsertTenantScope

  /** ON CONFLICT DO UPDATE: everything is overwritten but the creation time. */
  function Upserted(t: Table, key: Key, name: string, source: Source, status: ScopeStatus, meta: Metadata,
                    now: nat): Table {
    t[key := Scope(name, true, source, status, meta, now, if key in t then t[key].createdAt else now, now)]
  }

  // ---------------------------------------------------------------- refreshSubscriptions

  /** The subscriptions that an earlier consent discovered under this Microsoft tenant. */
  predicate Discoverable(key: Key, scope: Scope, tenant: string, ms: string) {
    key.tenant == tenant && key.ms == ms && key.sub.Some? && scope.source == AdminConsent
  }

  function MarkedStale(t: Table, tenant: string, ms: string, now: nat): Table {
    map k | k in t ::
        if Discoverable(k, t[k], tenant, ms) then t[k].(active := false, status := Stale, updatedAt := now) else t[k]
  }

  function Verify(t: Table, tenant: string, ms: string, s: Subscription, session: Option<nat>, now: nat): Table {
    Upserted(t, Key(tenant, ms, Some(s.id)), s.name, AdminConsent, Verified,
             Metadata(s.state, s.azureTenant, session), now)
  }

  function VerifiedAll(t: Table, tenant: string, ms: string, found: seq<Subscription>, session: Option<nat>,
                       now: nat): Table {
    if found == [] then t
    else
      var before := VerifiedAll(t, tenant, ms, found[..|found| - 1], session, now);
      Verify(before, tenant, ms, found[|found| - 1], session, now)
  }

  function Reconciled(t: Table, tenant: string, ms: string, found: seq<Subscription>, session: Option<nat>,
                      now: nat): Table {
    VerifiedAll(MarkedStale(t, tenant, ms, now), tenant, ms, found, session, now)
  }

  predicate Has(found: seq<Subscription>, id: string) {
    exists s :: s in found && s.id == id
  }

  /** The listing may name a subscription twice; the later mention wins. */
  function Last(found: seq<Subscription>, id: string): (r: Subscription)
    requires Has(found, id)
    ensures r in found && r.id == id
  {
    if found[|found| - 1].id == id then found[|found| - 1]
    else
      assert Has(found[..|found| - 1], id) by {
        var s :| s in found && s.id == id;
        assert s in found[..|found| - 1];
      }
      Last(found[..|found| - 1], id)
  }

  lemma HasMore(found: seq<Subscription>, id: string)
    requires found != []
    ensures Has(found, id) <==> Has(found[..|found| - 1], id) || found[|found| - 1].id == id
  {
    assert found == found[..|found| - 1] + [found[|found| - 1]];
    if Has(found, id) {
      var s :| s in found && s.id == id;
      assert s in found[..|found| - 1] || s == found[|found| - 1];
    }
    if Has(found[..|found| - 1], id) {
      var s :| s in found[..|found| - 1] && s.id == id;
      assert s in found;
    }
    if found[|found| - 1].id == id {
      assert found[|found| - 1] in found;
    }
  }

  lemma {:induction false} VerifiedAllAt(t: Table, tenant: string, ms: string, found: seq<Subscription>,
                                         session: Option<nat>, now: nat, k: Key)
    ensures var r := VerifiedAll(t, tenant, ms, found, session, now);
      if k.tenant == tenant && k.ms == ms && k.sub.Some? && Has(found, k.sub.value) then
        var s := Last(found, k.sub.value);
        k in r && r[k] == Scope(s.name, true, AdminConsent, Verified, Metadata(s.state, s.azureTenant, session),
                                now, if k in t then t[k].createdAt else now, now)
      else (k in r <==> k in t) && (k in t ==> r[k] == t[k])
  {
    if found != [] {
      VerifiedAllAt(t, tenant, ms, found[..|found| - 1], session, now, k);
      if k.sub.Some? {
        HasMore(found, k.sub.value);
      }
    }
  }

  // ---------------------------------------------------------------- the reconciliation law

  /** Every row of the table after a refresh. */
  lemma ReconciledAt(t: Table, tenant: string, ms: string, found: seq<Subscription>, session: Option<nat>, now: nat,
                     k: Key)
    ensures var r := Reconciled(t, tenant, ms, found, session, now);
      if k.tenant == tenant && k.ms == ms && k.sub.Some? && Has(found, k.sub.value) then
        var s := Last(found, k.sub.value);
        k in r && r[k] == Scope(s.name, true, AdminConsent, Verified, Metadata(s.state, s.azureTenant, session),
                                now, if k in t then t[k].createdAt else now, now)
      else if k in t && Discoverable(k, t[k], tenant, ms) then
        k in r && r[k] == t[k].(active := false, status := Stale, updatedAt := now)
      else (k in r <==> k in t) && (k in t ==> r[k] == t[k])
  {
    VerifiedAllAt(MarkedStale(t, tenant, ms, now), tenant, ms, found, session, now, k);
  }

  predicate ActiveByConsent(t: Table, tenant: string, ms: string, id: string) {
    var k := Key(tenant, ms, Some(id));
    k in t && t[k].active && t[k].source == AdminConsent
  }

  /**
    * After a refresh, the active consented subscriptions of the Microsoft tenant
    * are the discovered ones; no other scope has changed.
    */
  lemma RefreshIsExact(t: Table, tenant: string, ms: string, found: seq<Subscription>, session: Option<nat>, now: nat)
    ensures var r := Reconciled(t, tenant, ms, found, session, now);
      (forall id :: ActiveByConsent(r, tenant, ms, id) <==> Has(found, id))
      && (forall id :: Has(found, id) ==> r[Key(tenant, ms, Some(id))].status == Verified)
      && (forall k: Key :: k.tenant != tenant || k.ms != ms || k.sub.None? ==>
        (k in r <==> k in t) && (k in t ==> r[k] == t[k]))
      && (forall id :: var k := Key(tenant, ms, Some(id));
            !Has(found, id) && k in t && t[k].source != AdminConsent ==> k in r && r[k] == t[k])
      && (forall k :: k in t ==> k in r && r[k].createdAt == t[k].createdAt)
  {
    forall k: Key
      ensures var r := Reconciled(t, tenant, ms, found, session, now);
        if k.tenant == tenant && k.ms == ms && k.sub.Some? && Has(found, k.sub.value) then
          k in r && r[k].active && r[k].source == AdminConsent && r[k].status == Verified
          && (k in t ==> r[k].createdAt == t[k].createdAt)
        else if k in t && Discoverable(k, t[k], tenant, ms) then
          k in r && !r[k].active && r[k].createdAt == t[k].createdAt
        else (k in r <==> k in t) && (k in t ==> r[k] == t[k])
    {
      ReconciledAt(t, tenant, ms, found, session, now, k);
    }
  }

  /** Equal but for the times of verification and update, and for the session that discovered it. */
  predicate SameButTimes(a: Scope, b: Scope) {
    var metadata := b.metadata.(session := a.metadata.session);
    a == b.(verifiedAt := a.verifiedAt, updatedAt := a.updatedAt, metadata := metadata)
  }

  /** A second refresh with the same discovery changes nothing but timestamps and the session named by what it found. */
  lemma RefreshIsIdempotent(t: Table, tenant: string, ms: string, found: seq<Subscription>, session: Option<nat>,
                            now: nat, session': Option<nat>, later: nat)
    ensures var once := Reconciled(t, tenant, ms, found, session, now);
      var twice := Reconciled(once, tenant, ms, found, session', later);
      && once.Keys == twice.Keys
      && forall k :: k in once ==>
           && SameButTimes(once[k], twice[k])
           && twice[k].metadata.session
              == if k.tenant == tenant && k.ms == ms && k.sub.Some? && Has(found, k.sub.value) then session'
                 else once[k].metadata.session
  {
    var once := Reconciled(t, tenant, ms, found, session, now);
    forall k: Key
      ensures var twice := Reconciled(once, tenant, ms, found, session', later);
        && (k in once <==> k in twice)
        && (k in once ==>
              && SameButTimes(once[k], twice[k])
              && twice[k].metadata.session
                 == if k.tenant == tenant && k.ms == ms && k.sub.Some? && Has(found, k.sub.value) then session'
                    else once[k].metadata.session)
    {
      ReconciledAt(t, tenant, ms, found, session, now, k);
      ReconciledAt(once, tenant, ms, found, session', later, k);
    }
  }

  // ---------------------------------------------------------------- resolveAuthorizedAzureTenant

  /** The scope of the whole Microsoft tenant is active and consented or verified. */
  predicate TenantAuthorized(t: Table, tenant: string, ms: string) {
    var k := Key(tenant, ms, None);
    k in t && t[k].active && (t[k].status == Consented || t[k].status == Verified)
  }

  predicate TenantRow(t: Table, tenant: string, msFilter: Option<string>, ms: string) {
    TenantAuthorized(t, tenant, ms) && (msFilter.Some? ==> ms == msFilter.value)
  }

  /** Read off the columns: an active row without a subscription, CONSENTED or VERIFIED. */
  lemma TenantRowByColumns(t: Table, tenant: string, msFilter: Option<string>, k: Key)
    requires k.tenant == tenant && k.sub.None?
    ensures TenantRow(t, tenant, msFilter, k.ms) <==>
      && k in t && t[k].active && t[k].status in {Consented, Verified}
      && (msFilter == None || msFilter == Some(k.ms))
  {
    assert k == Key(tenant, k.ms, None);
  }

  /** The one Microsoft tenant that passes the filter, or why there is not exactly one. */
  method AuthorizedTenant(t: Table, tenant: string, msFilter: Option<string>) returns (r: Result<string, AuthError>)
    ensures r.Ok? <==>
      exists ms :: TenantRow(t, tenant, msFilter, ms)
                   && forall other :: TenantRow(t, tenant, msFilter, other) ==> other == ms
    ensures r.Ok? ==> TenantRow(t, tenant, msFilter, r.value)
    ensures r == Err(NoneVerified) <==> forall ms :: !TenantRow(t, tenant, msFilter, ms)
    ensures r.Err? ==> r.error == NoneVerified || r.error == ManyTenants
  {
    var rows := set k | k in t && k.tenant == tenant && k.sub.None? && TenantRow(t, tenant, msFilter, k.ms) :: k.ms;
    forall ms ensures ms in rows <==> TenantRow(t, tenant, msFilter, ms) {
      if TenantRow(t, tenant, msFilter, ms) {
        var k := Key(tenant, ms, None);
        assert k in t && k.tenant == tenant && k.sub.None? && k.ms == ms;
      }
    }
    if rows == {} {
      return Err(NoneVerified);
    }
    var ms :| ms in rows;
    r := if rows == {ms} then Ok(ms) else Err(ManyTenants);
  }

  // ---------------------------------------------------------------- resolveAuthorizedAzureSubscriptions

  datatype AuthError = InvalidUuid | Duplicates | NoneVerified | NotVerified(missing: seq<string>) | ManyTenants

  datatype Grant = Grant(ms: string, subscriptions: seq<string>)

  predicate Authorized(t: Table, tenant: string, ms: string, id: string) {
    var k := Key(tenant, ms, Some(id));
    k in t && t[k].active && t[k].status == Verified
  }

  /** The rows the query returns: the authorised subscriptions that pass the filters. */
  predicate Row(t: Table, tenant: string, msFilter: Option<string>, wanted: seq<string>, ms: string, id: string) {
    && Authorized(t, tenant, ms, id)
    && (msFilter.Some? ==> ms == msFilter.value)
    && (wanted != [] ==> id in wanted)
  }

  ghost predicate SomeRow(t: Table, tenant: string, msFilter: Option<string>, wanted: seq<string>) {
    exists ms, id :: Row(t, tenant, msFilter, wanted, ms, id)
  }

  ghost predicate Covered(t: Table, tenant: string, msFilter: Option<string>, wanted: seq<string>, id: string) {
    exists ms :: Row(t, tenant, msFilter, wanted, ms, id)
  }

  predicate Repeats(s: seq<string>) {
    exists i, j :: 0 <= i < j < |s| && s[i] == s[j]
  }

  /** What a caller may read off the answer, for filters that are already normalised. */
  ghost predicate Answers(t: Table, tenant: string, msFilter: Option<string>, wanted: seq<string>,
                          r: Result<Grant, AuthError>) {
    && (r == Err(Duplicates) <==> Repeats(wanted))
    && (r == Err(NoneVerified) <==> !Repeats(wanted) && !SomeRow(t, tenant, msFilter, wanted))
    && (r.Err? && r.error.NotVerified? <==>
          !Repeats(wanted) && SomeRow(t, tenant, msFilter, wanted) && !AllCovered(t, tenant, msFilter, wanted))
    && (r.Err? && r.error.NotVerified? ==> Missing(t, tenant, msFilter, wanted, r.error.missing))
    && (r == Err(ManyTenants) <==>
          !Repeats(wanted) && AllCovered(t, tenant, msFilter, wanted) && TwoTenants(t, tenant, msFilter, wanted))
    && (r.Ok? ==> Grants(t, tenant, msFilter, wanted, r.value))
    && (r.Err? ==> !r.error.InvalidUuid?)
  }

  ghost predicate AllCovered(t: Table, tenant: string, msFilter: Option<string>, wanted: seq<string>) {
    forall id :: id in wanted ==> Covered(t, tenant, msFilter, wanted, id)
  }

  ghost predicate TwoTenants(t: Table, tenant: string, msFilter: Option<string>, wanted: seq<string>) {
    exists ms, ms', id, id' ::
      ms != ms' && Row(t, tenant, msFilter, wanted, ms, id) && Row(t, tenant, msFilter, wanted, ms', id')
  }

  /** One Microsoft tenant with all its rows, in order; nothing that was asked for is missing. */
  ghost predicate Grants(t: Table, tenant: string, msFilter: Option<string>, wanted: seq<string>, g: Grant) {
    && Ascending(g.subscriptions) && g.subscriptions != []
    && (forall id :: id in wanted ==> id in g.subscriptions)
    && forall ms, id :: Row(t, tenant, msFilter, wanted, ms, id) <==> ms == g.ms && id in g.subscriptions
  }

  /** Exactly the requested identifiers without a row. */
  ghost predicate Missing(t: Table, tenant: string, msFilter: Option<string>, wanted: seq<string>,
                          missing: seq<string>) {
    forall id :: id in missing <==> id in wanted && !Covered(t, tenant, msFilter, wanted, id)
  }

  function Without(s: seq<string>, drop: set<string>): (r: seq<string>)
    ensures forall x :: x in r <==> x in s && x !in drop
  {
    if s == [] then [] else (if s[0] in drop then [] else [s[0]]) + Without(s[1..], drop)
  }

  /** The rows of the query, as their keys. */
  predicate AreRows(t: Table, tenant: string, msFilter: Option<string>, wanted: seq<string>, rows: set<Key>) {
    rows == set k | k in t && k.tenant == tenant && k.sub.Some?
        && Row(t, tenant, msFilter, wanted, k.ms, k.sub.value) :: k
  }

  /** The last check: all rows belong to one Microsoft tenant. */
  method GrantRows(t: Table, tenant: string, msFilter: Option<string>, wanted: seq<string>, rows: set<Key>)
    returns (r: Result<Grant, AuthError>)
    requires AreRows(t, tenant, msFilter, wanted, rows) && rows != {}
    requires !Repeats(wanted) && AllCovered(t, tenant, msFilter, wanted)
    ensures Answers(t, tenant, msFilter, wanted, r)
  {
    RowsAreRows(t, tenant, msFilter, wanted, rows);
    var returned := set k | k in rows :: k.sub.value;
    var tenants := set k | k in rows :: k.ms;
    var k :| k in rows;
    if exists ms :: ms in tenants && ms != k.ms {
      SeveralTenants(t, tenant, msFilter, wanted, rows, k);
      return Err(ManyTenants);
    }
    forall x | x in rows ensures x.ms == k.ms { assert x.ms in tenants; }
    var subscriptions := SortedList(returned);
    assert forall id :: id in wanted ==> Covered(t, tenant, msFilter, wanted, id);
    OneTenant(t, tenant, msFilter, wanted, rows, k, subscriptions);
    r := Ok(Grant(k.ms, subscriptions));
  }

  /** resolveAuthorizedAzureSubscriptions behind its normalisers. */
  method AuthorizedSubscriptions(t: Table, tenant: string, msFilter: Option<string>, wanted: seq<string>)
    returns (r: Result<Grant, AuthError>)
    ensures Answers(t, tenant, msFilter, wanted, r)
  {
    if Repeats(wanted) {
      return Err(Duplicates);
    }
    var rows := set k | k in t && k.tenant == tenant && k.sub.Some?
      && Row(t, tenant, msFilter, wanted, k.ms, k.sub.value) :: k;
    RowsAreRows(t, tenant, msFilter, wanted, rows);
    if rows == {} {
      return Err(NoneVerified);
    }
    var returned := set k | k in rows :: k.sub.value;
    var missing := Without(wanted, returned);
    MissingAreUncovered(t, tenant, msFilter, wanted, returned, missing);
    if missing != [] {
      return Err(NotVerified(missing));
    }
    r := GrantRows(t, tenant, msFilter, wanted, rows);
  }

  lemma MissingAreUncovered(t: Table, tenant: string, msFilter: Option<string>, wanted: seq<string>,
                            returned: set<string>, missing: seq<string>)
    requires forall id :: Covered(t, tenant, msFilter, wanted, id) <==> id in returned
    requires missing == Without(wanted, returned)
    ensures Missing(t, tenant, msFilter, wanted, missing)
    ensures missing == [] <==> AllCovered(t, tenant, msFilter, wanted)
  {
    if missing == [] {
      forall id | id in wanted ensures Covered(t, tenant, msFilter, wanted, id) {
        assert id !in returned ==> id in missing;
      }
    } else {
      HeadIn(missing);
    }
  }

  lemma SeveralTenants(t: Table, tenant: string, msFilter: Option<string>, wanted: seq<string>, rows: set<Key>, k: Key)
    requires k in rows && exists x :: x in rows && x.ms != k.ms
    requires forall x :: x in rows ==>
      x.tenant == tenant && x.sub.Some? && Row(t, tenant, msFilter, wanted, x.ms, x.sub.value)
    ensures TwoTenants(t, tenant, msFilter, wanted)
  {
    var x :| x in rows && x.ms != k.ms;
    assert Row(t, tenant, msFilter, wanted, k.ms, k.sub.value) && Row(t, tenant, msFilter, wanted, x.ms, x.sub.value);
  }

  lemma RowsAreRows(t: Table, tenant: string, msFilter: Option<string>, wanted: seq<string>, rows: set<Key>)
    requires AreRows(t, tenant, msFilter, wanted, rows)
    ensures forall ms, id :: Row(t, tenant, msFilter, wanted, ms, id) <==> Key(tenant, ms, Some(id)) in rows
    ensures rows == {} <==> !SomeRow(t, tenant, msFilter, wanted)
    ensures forall id :: Covered(t, tenant, msFilter, wanted, id) <==> id in (set k | k in rows :: k.sub.value)
  {
    forall k | k in rows ensures Row(t, tenant, msFilter, wanted, k.ms, k.sub.value) && k == Key(tenant, k.ms, k.sub) {}
    forall id
      ensures Covered(t, tenant, msFilter, wanted, id) <==> id in (set k | k in rows :: k.sub.value)
    {
      if Covered(t, tenant, msFilter, wanted, id) {
        var ms :| Row(t, tenant, msFilter, wanted, ms, id);
        assert Key(tenant, ms, Some(id)) in rows;
      }
      if id in (set k | k in rows :: k.sub.value) {
        var k :| k in rows && k.sub.value == id;
        assert Row(t, tenant, msFilter, wanted, k.ms, id);
      }
    }
  }

  lemma OneTenant(t: Table, tenant: string, msFilter: Option<string>, wanted: seq<string>, rows: set<Key>, only: Key,
                  list: seq<string>)
    requires only in rows && forall k :: k in rows ==> k.sub.Some? && k.ms == only.ms && k.tenant == tenant
    requires forall ms, id :: Row(t, tenant, msFilter, wanted, ms, id) <==> Key(tenant, ms, Some(id)) in rows
    requires Ascending(list) && forall y :: y in list <==> y in set k | k in rows :: k.sub.value
    requires forall id :: id in wanted ==> id in list
    ensures Grants(t, tenant, msFilter, wanted, Grant(only.ms, list)) && !TwoTenants(t, tenant, msFilter, wanted)
  {
    assert only.sub.value in list;
    forall ms, id
      ensures Row(t, tenant, msFilter, wanted, ms, id) <==> ms == only.ms && id in list
    {
      if ms == only.ms && id in list {
        var k :| k in rows && k.sub.value == id;
        assert k == Key(tenant, ms, Some(id));
      }
    }
  }

  /** An active VERIFIED row of the tenant that passes the filters. */
  predicate Passes(t: Table, tenant: string, msFilter: Option<string>, wanted: seq<string>, k: Key) {
    && k in t && k.tenant == tenant && k.sub.Some? && t[k].active && t[k].status == Verified
    && msFilter in {None, Some(k.ms)} && (wanted == [] || k.sub.value in wanted)
  }

  /** What an answer says of the rows of the table, column by column. */
  lemma AnswersByColumns(t: Table, tenant: string, msFilter: Option<string>, wanted: seq<string>,
                         r: Result<Grant, AuthError>)
    requires Answers(t, tenant, msFilter, wanted, r)
    ensures r.Ok? ==>
      forall k :: Passes(t, tenant, msFilter, wanted, k) <==>
        k.tenant == tenant && k.ms == r.value.ms && k.sub.Some? && k.sub.value in r.value.subscriptions
    ensures r == Err(NoneVerified) <==>
      !Repeats(wanted) && forall k :: !Passes(t, tenant, msFilter, wanted, k)
    ensures r.Err? && r.error.NotVerified? ==>
      forall id :: id in r.error.missing <==>
        id in wanted && forall ms :: !Passes(t, tenant, msFilter, wanted, Key(tenant, ms, Some(id)))
  {
    forall k: Key | k.tenant == tenant && k.sub.Some?
      ensures Passes(t, tenant, msFilter, wanted, k) <==> Row(t, tenant, msFilter, wanted, k.ms, k.sub.value)
    {
      assert k == Key(tenant, k.ms, k.sub);
    }
    forall ms, id
      ensures Row(t, tenant, msFilter, wanted, ms, id)
        <==> Passes(t, tenant, msFilter, wanted, Key(tenant, ms, Some(id)))
    {
    }
  }

  predicate AllUuids(raw: seq<string>) {
    forall x :: x in raw ==> Normalized(x).Some?
  }

  function AllNormalized(raw: seq<string>): seq<string>
    requires AllUuids(raw)
  {
    seq(|raw|, i requires 0 <= i < |raw| => assert raw[i] in raw; Normalized(raw[i]).value)
  }

  /** resolveAuthorizedAzureSubscriptions: identifiers in any letter case, malformed ones refused. */
  method ResolveAuthorizedSubscriptions(t: Table, tenant: string, msFilter: Option<string>,
                                        subscriptionIds: seq<string>)
    returns (r: Result<Grant, AuthError>)
    ensures r == Err(InvalidUuid) <==>
      (msFilter.Some? && Normalized(msFilter.value).None?) || !AllUuids(subscriptionIds)
    ensures r != Err(InvalidUuid) ==>
      Answers(t, tenant, if msFilter.Some? then Normalized(msFilter.value) else None, AllNormalized(subscriptionIds), r)
    ensures r.Ok? ==>
      forall k :: Passes(t, tenant, if msFilter.Some? then Normalized(msFilter.value) else None,
                         AllNormalized(subscriptionIds), k) <==>
        k.tenant == tenant && k.ms == r.value.ms && k.sub.Some? && k.sub.value in r.value.subscriptions
  {
    var filter := if msFilter.Some? then Normalized(msFilter.value) else None;
    if (msFilter.Some? && filter.None?) || !AllUuids(subscriptionIds) {
      return Err(InvalidUuid);
    }
    r := AuthorizedSubscriptions(t, tenant, filter, AllNormalized(subscriptionIds));
    AnswersByColumns(t, tenant, filter, AllNormalized(subscriptionIds), r);
  }

  /**
    * After a refresh, asking for that Microsoft tenant grants the
    * discovered subscriptions and the other verified ones.
    */
  lemma RefreshThenAuthorize(t: Table, tenant: string, ms: string, found: seq<Subscription>, session: Option<nat>,
                             now: nat, r: Result<Grant, AuthError>)
    requires Answers(Reconciled(t, tenant, ms, found, session, now), tenant, Some(ms), [], r)
    ensures r.Ok? <==> exists id :: GrantedAfter(t, tenant, ms, found, id)
    ensures r.Ok? ==> r.value.ms == ms && Ascending(r.value.subscriptions)
    ensures r.Ok? ==> forall id :: id in r.value.subscriptions <==> GrantedAfter(t, tenant, ms, found, id)
    ensures r.Err? ==> r.error == NoneVerified
  {
    var after := Reconciled(t, tenant, ms, found, session, now);
    forall id
      ensures Row(after, tenant, Some(ms), [], ms, id) <==> GrantedAfter(t, tenant, ms, found, id)
    {
      ReconciledAt(t, tenant, ms, found, session, now, Key(tenant, ms, Some(id)));
    }
    if r.Ok? {
      assert r.value.subscriptions[0] in r.value.subscriptions;
      assert Row(after, tenant, Some(ms), [], r.value.ms, r.value.subscriptions[0]);
    } else {
      assert !TwoTenants(after, tenant, Some(ms), []);
      match r.error
      case NotVerified(missing) => HeadIn(missing);
      case _ =>
    }
    if id :| GrantedAfter(t, tenant, ms, found, id) {
      assert Row(after, tenant, Some(ms), [], ms, id);
      assert SomeRow(after, tenant, Some(ms), []);
    }
  }

  /** Discovered now, or verified before by someone else than the consent flow. */
  predicate GrantedAfter(t: Table, tenant: string, ms: string, found: seq<Subscription>, id: string) {
    Has(found, id) || (Authorized(t, tenant, ms, id) && t[Key(tenant, ms, Some(id))].source != AdminConsent)
  }

  /** A manual registration is lost when one refresh finds the subscription and the next one does not. */
  lemma ManualScopeCanBeLost(t: Table, tenant: string, ms: string, id: string, first: seq<Subscription>,
                             second: seq<Subscription>, session: Option<nat>, now: nat, session': Option<nat>,
                             later: nat)
    requires Authorized(t, tenant, ms, id) && t[Key(tenant, ms, Some(id))].source != AdminConsent
    ensures var once := Reconciled(t, tenant, ms, first, session, now);
      Authorized(Reconciled(once, tenant, ms, second, session', later), tenant, ms, id) <==>
          !Has(first, id) || Has(second, id)
  {
    var k := Key(tenant, ms, Some(id));
    ReconciledAt(t, tenant, ms, first, session, now, k);
    ReconciledAt(Reconciled(t, tenant, ms, first, session, now), tenant, ms, second, session', later, k);
  }
}
