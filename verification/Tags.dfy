// auditTags: the tagging audit over one Resource Graph query.
module Tags {
  import opened Wrappers
  import opened Text
  import opened TextLaws
  import opened ResourceGraph

  datatype Resource = Resource(id: string, tagKeys: seq<string>)

  datatype Status = Pending | Success | Partial | Failed

  datatype Check = Check(id: string, passed: bool, affected: nat)

  const MANDATORY := ["environment", "owner"]

  // ---------------------------------------------------------------- what the audit is about

  /** A tag key counts whatever its letter case. */
  predicate HasTag(r: Resource, tag: string) {
    exists k :: k in r.tagKeys && LowerCase(k) == tag
  }

  predicate Untagged(r: Resource) { r.tagKeys == [] }

  predicate Compliant(r: Resource) { forall tag :: tag in MANDATORY ==> HasTag(r, tag) }

  /** An environment tag and an owner tag, in any letter case, are what it takes. */
  lemma CompliantByTags(r: Resource)
    ensures Compliant(r) <==>
      && (exists k :: k in r.tagKeys && UpperCase(k) == "ENVIRONMENT")
      && (exists k :: k in r.tagKeys && UpperCase(k) == "OWNER")
  {
    assert MANDATORY[0] == "environment" && MANDATORY[1] == "owner";
    assert UpperCase("environment") == "ENVIRONMENT" && UpperCase("owner") == "OWNER";
    assert LowerCase("environment") == "environment" && LowerCase("owner") == "owner";
    forall k: string
      ensures LowerCase(k) == "environment" <==> UpperCase(k) == "ENVIRONMENT"
      ensures LowerCase(k) == "owner" <==> UpperCase(k) == "OWNER"
    {
      CaseFolds(k, "environment");
      CaseFolds(k, "owner");
    }
    assert Compliant(r) <==> HasTag(r, "environment") && HasTag(r, "owner");
  }

  function MissingTags(r: Resource, tags: seq<string>): (m: seq<string>)
    ensures forall tag :: tag in m <==> tag in tags && !HasTag(r, tag)
  {
    if tags == [] then []
    else (if HasTag(r, tags[0]) then [] else [tags[0]]) + MissingTags(r, tags[1..])
  }

  function UntaggedOf(rows: seq<Resource>): seq<Resource> {
    if rows == [] then []
    else UntaggedOf(rows[..|rows| - 1]) + if Untagged(rows[|rows| - 1]) then [rows[|rows| - 1]] else []
  }

  /** Tagged, but without every mandatory tag; listed with the missing ones. */
  function IncompleteOf(rows: seq<Resource>): seq<(Resource, seq<string>)> {
    if rows == [] then []
    else
      var x := rows[|rows| - 1];
      var missing := MissingTags(x, MANDATORY);
      IncompleteOf(rows[..|rows| - 1]) + if !Untagged(x) && missing != [] then [(x, missing)] else []
  }

  lemma NothingMissing(x: Resource)
    ensures MissingTags(x, MANDATORY) == [] <==> Compliant(x)
  {
    HeadIn(MissingTags(x, MANDATORY));
  }

  /** The two lists hold exactly the resources of their kind. */
  lemma {:induction false} ListedOf(rows: seq<Resource>)
    ensures forall x :: x in UntaggedOf(rows) <==> x in rows && Untagged(x)
    ensures forall x :: x in IncompleteOf(rows) <==>
      x.0 in rows && !Untagged(x.0) && !Compliant(x.0) && x.1 == MissingTags(x.0, MANDATORY)
  {
    if rows != [] {
      var front, last := rows[..|rows| - 1], rows[|rows| - 1];
      ListedOf(front);
      NothingMissing(last);
      assert forall x :: x in rows <==> x in front || x == last;
    }
  }

  lemma OneMoreResource(rows: seq<Resource>, x: Resource)
    ensures UntaggedOf(rows + [x]) == UntaggedOf(rows) + if Untagged(x) then [x] else []
    ensures IncompleteOf(rows + [x])
      == IncompleteOf(rows) + var missing := MissingTags(x, MANDATORY);
                              if !Untagged(x) && missing != [] then [(x, missing)] else []
  {
    assert (rows + [x])[..|rows|] == rows;
  }

  function ChecksFor(untagged: seq<Resource>, missing: seq<(Resource, seq<string>)>, total: nat): seq<Check> {
    (if untagged != [] then [Check("CHECK-TAGS-001", false, |untagged|)] else [])
    + (if missing != [] then [Check("CHECK-TAGS-002", false, |missing|)] else [])
    + (if untagged == [] && missing == [] && total > 0 then [Check("CHECK-TAGS-000", true, 0)] else [])
    + (if total == 0 then [Check("CHECK-TAGS-EMPTY", true, 0)] else [])
  }

  // ---------------------------------------------------------------- the module result

  datatype QueryRecord = QueryRecord(name: string, pagesProcessed: nat, rowsReturned: nat, truncated: bool)

  class ModuleResult {
    var status: Status
    var checks: seq<Check>
    var untagged: seq<Resource>
    var missing: seq<(Resource, seq<string>)>
    var partialErrors: seq<string>
    var queries: seq<QueryRecord>
    var total: nat
    var truncated: bool

    constructor ()
      ensures status == Pending && checks == [] && untagged == [] && missing == [] && partialErrors == []
        && queries == []
    {
      status, checks, untagged, missing, partialErrors, queries, total, truncated :=
          Pending, [], [], [], [], [], 0, false;
    }

    /** recordResourceGraphResult: a truncated query leaves a partial error behind. */
    method Record(name: string, q: QueryResult<Resource>)
      modifies `queries, `partialErrors
      ensures queries == old(queries) + [QueryRecord(name, q.pagesProcessed, |q.rows|, q.truncated)]
      ensures partialErrors == old(partialErrors) + if q.truncated then ["RESOURCE_GRAPH_TRUNCATED"] else []
    {
      queries := queries + [QueryRecord(name, q.pagesProcessed, |q.rows|, q.truncated)];
      if q.truncated {
        partialErrors := partialErrors + ["RESOURCE_GRAPH_TRUNCATED"];
      }
    }

    /** The classification loop; false if the audit was aborted before the end. */
    method Classify(resources: seq<Resource>, aborted: nat -> bool) returns (finished: bool)
      requires untagged == [] && missing == []
      modifies `untagged, `missing
      ensures finished <==> forall i :: 0 <= i < |resources| ==> !aborted(i)
      ensures finished ==> untagged == UntaggedOf(resources) && missing == IncompleteOf(resources)
    {
      for i := 0 to |resources|
        invariant forall j :: 0 <= j < i ==> !aborted(j)
        invariant untagged == UntaggedOf(resources[..i]) && missing == IncompleteOf(resources[..i])
      {
        if aborted(i) {
          return false;
        }
        var resource := resources[i];
        assert resources[..i + 1] == resources[..i] + [resource];
        OneMoreResource(resources[..i], resource);
        if resource.tagKeys == [] {
          untagged := untagged + [resource];
        } else {
          var missingTags := MissingTags(resource, MANDATORY);
          if missingTags != [] {
            missing := missing + [(resource, missingTags)];
          }
        }
      }
      assert resources[..|resources|] == resources;
      finished := true;
    }

    method PushChecks()
      modifies `checks
      ensures checks == old(checks) + ChecksFor(untagged, missing, total)
    {
      if |untagged| > 0 {
        checks := checks + [Check("CHECK-TAGS-001", false, |untagged|)];
      }
      if |missing| > 0 {
        checks := checks + [Check("CHECK-TAGS-002", false, |missing|)];
      }
      if |untagged| == 0 && |missing| == 0 && total > 0 {
        checks := checks + [Check("CHECK-TAGS-000", true, 0)];
      }
      if total == 0 {
        checks := checks + [Check("CHECK-TAGS-EMPTY", true, 0)];
      }
    }

    /** The catch block. */
    method Fail(code: string)
      modifies `status, `partialErrors, `checks
      ensures status == Failed && checks == old(checks) + [Check("CHECK-TAGS-ERR", false, 0)]
      ensures partialErrors == old(partialErrors) + [code]
    {
      status := Failed;
      partialErrors := partialErrors + [code];
      checks := checks + [Check("CHECK-TAGS-ERR", false, 0)];
    }

    /** The part of auditTags up to the query. */
    method Inventory(subscriptions: seq<string>, hasAccess: bool, server: Server<Resource>, options: Settings,
                     configured: Settings)
      returns (answer: Option<QueryResult<Resource>>, ghost calls: seq<Call<Resource>>,
          ghost r: Result<QueryResult<Resource>, QueryError>)
      requires partialErrors == [] && checks == [] && status == Pending
      modifies `status, `partialErrors, `checks, `queries
      ensures Asked(subscriptions) && hasAccess ==> Reports(server, LimitsOf(options, configured), "", calls, r)
      ensures answer.Some? <==> Asked(subscriptions) && hasAccess && r.Ok?
      ensures answer.Some? ==> answer.value == r.value && status == Pending && checks == []
      ensures answer.Some? ==> partialErrors == if r.value.truncated then ["RESOURCE_GRAPH_TRUNCATED"] else []
      ensures answer.None? ==> status == Failed && checks == [Check("CHECK-TAGS-ERR", false, 0)] && partialErrors != []
    {
      answer, calls, r := None, [], Err(RepeatedToken);
      if subscriptions == [] {
        Fail("AZURE_SUBSCRIPTIONS_REQUIRED");
        return;
      }
      if !hasAccess {
        Fail("AZURE_CREDENTIAL_REQUIRED");
        return;
      }
      if forall s :: s in subscriptions ==> s == "" {
        Fail("TAGS_AUDIT_FAILED");
        return;
      }
      var reply;
      reply := RunQuery(server, LimitsOf(options, configured), "");
      r := reply;
      calls :| Reports(server, LimitsOf(options, configured), "", calls, r);
      if reply.Err? {
        Fail(if reply.error.RequestFailed? then reply.error.code else "RESOURCE_GRAPH_REPEATED_SKIP_TOKEN");
        return;
      }
      Record("tags.inventory", reply.value);
      answer := Some(reply.value);
    }

    /** The part of auditTags after the query. */
    method Conclude(q: QueryResult<Resource>, aborted: nat -> bool)
      requires untagged == [] && missing == [] && checks == []
      requires partialErrors == if q.truncated then ["RESOURCE_GRAPH_TRUNCATED"] else []
      modifies this
      ensures status == Failed <==> exists i :: 0 <= i < |q.rows| && aborted(i)
      ensures status != Failed ==>
        status == (if q.truncated then Partial else Success) && truncated == q.truncated && total == |q.rows|
      ensures status != Failed ==>
        untagged == UntaggedOf(q.rows) && missing == IncompleteOf(q.rows) && checks == Findings(q.rows)
      ensures status == Failed ==> checks == [Check("CHECK-TAGS-ERR", false, 0)] && partialErrors != []
    {
      total, truncated := |q.rows|, q.truncated;
      var finished := Classify(q.rows, aborted);
      if !finished {
        Fail("TAGS_AUDIT_FAILED");
        return;
      }
      ghost var found := ChecksFor(untagged, missing, total);
      assert [] + found == found == Findings(q.rows);
      PushChecks();
      status := if |partialErrors| > 0 then Partial else Success;
    }

    /** auditTags; aborted(i) is the abort signal before the i-th resource is looked at. */
    method Audit(subscriptions: seq<string>, hasAccess: bool, server: Server<Resource>, options: Settings,
                 configured: Settings, aborted: nat -> bool)
      returns (ghost calls: seq<Call<Resource>>, ghost r: Result<QueryResult<Resource>, QueryError>)
      requires status == Pending && checks == [] && untagged == [] && missing == [] && partialErrors == []
        && queries == []
      modifies this
      ensures Asked(subscriptions) && hasAccess ==> Reports(server, LimitsOf(options, configured), "", calls, r)
      ensures status == Failed <==>
        !Asked(subscriptions) || !hasAccess || r.Err? || exists i :: 0 <= i < |r.value.rows| && aborted(i)
      ensures status != Failed ==>
        status == (if r.value.truncated then Partial else Success) && truncated == r.value.truncated
            && total == |r.value.rows|
      ensures status != Failed ==>
        untagged == UntaggedOf(r.value.rows) && missing == IncompleteOf(r.value.rows)
            && checks == Findings(r.value.rows)
      ensures status == Failed ==> checks == [Check("CHECK-TAGS-ERR", false, 0)] && partialErrors != []
    {
      var answer;
      answer, calls, r := Inventory(subscriptions, hasAccess, server, options, configured);
      if answer.Some? {
        Conclude(answer.value, aborted);
      }
    }
  }

  /** Some subscription that is not empty. */
  predicate Asked(subscriptions: seq<string>) {
    exists s :: s in subscriptions && s != ""
  }

  function Findings(rows: seq<Resource>): seq<Check> {
    ChecksFor(UntaggedOf(rows), IncompleteOf(rows), |rows|)
  }

  // ---------------------------------------------------------------- what the checks mean

  function CompliantOf(rows: seq<Resource>): seq<Resource> {
    if rows == [] then []
    else CompliantOf(rows[..|rows| - 1]) + if Compliant(rows[|rows| - 1]) then [rows[|rows| - 1]] else []
  }

  lemma UntaggedIsNotCompliant(r: Resource)
    requires Untagged(r)
    ensures !Compliant(r)
  {
    assert MANDATORY[0] in MANDATORY;
  }

  /** Every resource is counted once: untagged, incompletely tagged, or compliant. */
  lemma {:induction false} Partition(rows: seq<Resource>)
    ensures |UntaggedOf(rows)| + |IncompleteOf(rows)| + |CompliantOf(rows)| == |rows|
  {
    if rows != [] {
      var x := rows[|rows| - 1];
      Partition(rows[..|rows| - 1]);
      NothingMissing(x);
      if Untagged(x) {
        UntaggedIsNotCompliant(x);
      }
    }
  }

  /** The passing check is only raised when every returned resource carries the mandatory tags. */
  lemma PassingMeansCompliant(rows: seq<Resource>)
    ensures Check("CHECK-TAGS-000", true, 0) in Findings(rows) <==> rows != [] && forall x :: x in rows ==> Compliant(x)
  {
    ListedOf(rows);
    if rows != [] && forall x :: x in rows ==> Compliant(x) {
      forall x | x in UntaggedOf(rows) ensures false {
        UntaggedIsNotCompliant(x);
      }
      HeadIn(UntaggedOf(rows));
      HeadIn(IncompleteOf(rows));
    }
    if UntaggedOf(rows) == [] && IncompleteOf(rows) == [] {
      forall x | x in rows ensures Compliant(x) {
        if !Compliant(x) {
          assert Untagged(x) ==> x in UntaggedOf(rows);
          assert !Untagged(x) ==> (x, MissingTags(x, MANDATORY)) in IncompleteOf(rows);
        }
      }
    }
  }

  lemma {:induction false} PagesAreInConcat(calls: seq<Call<Resource>>, i: nat, x: Resource)
    requires i < |calls| && x in calls[i].rows
    ensures x in Concat(calls)
  {
    if i < |calls| - 1 {
      PagesAreInConcat(calls[..|calls| - 1], i, x);
    }
  }

  /**
    * A successful audit that passes vouches for every row of every page
    * the service sent, and the service had no more.
    */
  lemma SuccessCoversEveryPage(server: Server<Resource>, limits: Limits, calls: seq<Call<Resource>>,
                               q: QueryResult<Resource>)
    requires Reports(server, limits, "", calls, Ok(q)) && !q.truncated
    requires Check("CHECK-TAGS-000", true, 0) in Findings(q.rows)
    ensures forall i, x :: 0 <= i < |calls| && x in calls[i].rows ==> Compliant(x)
    ensures calls != [] && calls[|calls| - 1].next == ""
  {
    PassingMeansCompliant(q.rows);
    assert q.rows == Concat(calls);
    forall i, x | 0 <= i < |calls| && x in calls[i].rows ensures Compliant(x) {
      PagesAreInConcat(calls, i, x);
    }
  }

  /** When the first page is cut, the passing check looks at its first maxRows rows only, whatever the others are. */
  lemma TruncatedMayHideResources(server: Server<Resource>, limits: Limits, rows: seq<Resource>, token: string)
    returns (calls: seq<Call<Resource>>, q: QueryResult<Resource>)
    requires 1 <= limits.pageSize && 1 <= limits.maxRows < |rows| && 1 <= limits.maxPages
    requires server(0, "", Min(limits.pageSize, limits.maxRows)) == Page(rows, token)
    ensures Reports(server, limits, "", calls, Ok(q)) && q.truncated && calls != [] && calls[0].rows == rows
    ensures Check("CHECK-TAGS-000", true, 0) in Findings(q.rows) <==>
      forall i :: 0 <= i < limits.maxRows ==> Compliant(rows[i])
  {
    calls := [Call("", Min(limits.pageSize, limits.maxRows), rows, token)];
    q := QueryResult(rows[..limits.maxRows], 1, true, Some(MaxRows));
    CutPage(server, limits, rows, token);
    PassingMeansCompliant(q.rows);
    forall i | 0 <= i < limits.maxRows ensures q.rows[i] == rows[i] && rows[i] in q.rows {
    }
  }
}
