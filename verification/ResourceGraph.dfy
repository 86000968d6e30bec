// runResourceGraphQueryDetailed: paging through Azure Resource Graph.
module ResourceGraph {
  import opened Wrappers

  // an empty token stands for an absent one; a call may also fail or be aborted
  datatype Reply<T> = Page(rows: seq<T>, token: string) | Failure(code: string)

  // the reply to the call with this number, skip token and number of rows asked for
  type Server<!T> = (nat, string, nat) -> Reply<T>

  datatype Reason = MaxPages | MaxRows

  datatype QueryResult<T> = QueryResult(rows: seq<T>, pagesProcessed: nat, truncated: bool, reason: Option<Reason>)

  datatype QueryError = RequestFailed(code: string) | RepeatedToken

  datatype Limits = Limits(pageSize: nat, maxRows: nat, maxPages: nat)

  // as given by a caller or by the environment; None is whatever does not read as an integer
  datatype Settings = Settings(pageSize: Option<int>, maxRows: Option<int>, maxPages: Option<int>)

  /** boundedInteger */
  function BoundedInteger(value: Option<int>, fallback: int, min: int, max: int): int {
    if value.None? || value.value < min || value.value > max then fallback else value.value
  }

  predicate Within(value: Option<int>, max: int) { value.Some? && 1 <= value.value <= max }

  /** The options over the configured defaults over the built-in ones: always within the service's bounds. */
  function LimitsOf(options: Settings, configured: Settings): (r: Limits)
    ensures 1 <= r.pageSize <= 1000 && 1 <= r.maxRows <= 1000000 && 1 <= r.maxPages <= 1000
    ensures Within(options.pageSize, 1000) ==> r.pageSize == options.pageSize.value
    ensures Within(options.maxRows, 1000000) ==> r.maxRows == options.maxRows.value
    ensures Within(options.maxPages, 1000) ==> r.maxPages == options.maxPages.value
    ensures !Within(options.pageSize, 1000) && Within(configured.pageSize, 1000) ==>
      r.pageSize == configured.pageSize.value
    ensures !Within(options.maxRows, 1000000) && Within(configured.maxRows, 1000000) ==>
      r.maxRows == configured.maxRows.value
    ensures !Within(options.maxPages, 1000) && Within(configured.maxPages, 1000) ==>
      r.maxPages == configured.maxPages.value
    ensures !Within(options.pageSize, 1000) && !Within(configured.pageSize, 1000) ==> r.pageSize == 1000
    ensures !Within(options.maxRows, 1000000) && !Within(configured.maxRows, 1000000) ==> r.maxRows == 100000
    ensures !Within(options.maxPages, 1000) && !Within(configured.maxPages, 1000) ==> r.maxPages == 250
  {
    Limits(BoundedInteger(options.pageSize, BoundedInteger(configured.pageSize, 1000, 1, 1000), 1, 1000),
           BoundedInteger(options.maxRows, BoundedInteger(configured.maxRows, 100000, 1, 1000000), 1, 1000000),
           BoundedInteger(options.maxPages, BoundedInteger(configured.maxPages, 250, 1, 1000), 1, 1000))
  }

  // ---------------------------------------------------------------- the exchange with the service

  datatype Call<T> = Call(token: string, top: nat, rows: seq<T>, next: string)

  function Concat<T>(calls: seq<Call<T>>): seq<T> {
    if calls == [] then [] else Concat(calls[..|calls| - 1]) + calls[|calls| - 1].rows
  }

  function Min(a: int, b: int): int { if a < b then a else b }

  /** What was asked at each step, and what the service answered. */
  ghost predicate Exchange<T(!new)>(server: Server<T>, limits: Limits, first: string, calls: seq<Call<T>>) {
    forall i :: 0 <= i < |calls| ==> Exchanged(server, limits, first, calls, i)
  }

  ghost predicate Exchanged<T(!new)>(server: Server<T>, limits: Limits, first: string, calls: seq<Call<T>>, i: nat)
    requires i < |calls|
  {
    && calls[i].token == (if i == 0 then first else calls[i - 1].next)
    && (i > 0 ==> calls[i - 1].next != "")
    && limits.maxRows > |Concat(calls[..i])|
    && calls[i].top == Min(limits.pageSize, limits.maxRows - |Concat(calls[..i])|)
    && server(i, calls[i].token, calls[i].top) == Page(calls[i].rows, calls[i].next)
  }

  /** The i-th answer names a page that was named before. */
  predicate Repeats<T>(calls: seq<Call<T>>, i: nat)
    requires i < |calls|
  {
    calls[i].next != "" && (calls[i].next == calls[i].token || exists j :: 0 <= j < i && calls[j].next == calls[i].next)
  }

  lemma SameRepeats<T>(calls: seq<Call<T>>, more: seq<Call<T>>, i: nat)
    requires i < |calls| <= |more| && calls == more[..|calls|]
    ensures Repeats(more, i) <==> Repeats(calls, i)
  {
    assert forall j :: 0 <= j <= i ==> more[j] == calls[j];
  }

  lemma ExchangedStays<T(!new)>(server: Server<T>, limits: Limits, first: string, calls: seq<Call<T>>,
                                more: seq<Call<T>>, i: nat)
    requires i < |calls| <= |more| && calls == more[..|calls|]
    requires Exchanged(server, limits, first, calls, i)
    ensures Exchanged(server, limits, first, more, i)
  {
    assert more[..i] == calls[..i];
    assert more[i] == calls[i] && (i > 0 ==> more[i - 1] == calls[i - 1]);
  }

  lemma ConcatMore<T>(calls: seq<Call<T>>, c: Call<T>)
    ensures Concat(calls + [c]) == Concat(calls) + c.rows
  {
    assert (calls + [c])[..|calls|] == calls;
  }

  lemma ExchangeMore<T(!new)>(server: Server<T>, limits: Limits, first: string, calls: seq<Call<T>>, c: Call<T>)
    requires Exchange(server, limits, first, calls)
    requires Exchanged(server, limits, first, calls + [c], |calls|)
    ensures Exchange(server, limits, first, calls + [c])
    ensures forall i :: 0 <= i < |calls| ==> (Repeats(calls + [c], i) <==> Repeats(calls, i))
  {
    var more := calls + [c];
    assert more[..|calls|] == calls;
    forall i | 0 <= i < |calls| ensures Exchanged(server, limits, first, more, i) {
      assert Exchanged(server, limits, first, calls, i);
      ExchangedStays(server, limits, first, calls, more, i);
    }
    forall i | 0 <= i < |calls| ensures Repeats(more, i) <==> Repeats(calls, i) {
      SameRepeats(calls, more, i);
    }
  }

  /** How a finished query relates to the exchange. */
  ghost predicate Reports<T(!new)>(server: Server<T>, limits: Limits, first: string, calls: seq<Call<T>>,
                                   r: Result<QueryResult<T>, QueryError>) {
    var all := Concat(calls);
    && Exchange(server, limits, first, calls) && |calls| <= limits.maxPages
    && (forall i :: 0 <= i < |calls| - 1 ==> !Repeats(calls, i))
    && (r.Ok? ==> Returned(limits, calls, r.value))
    && (r == Err(RepeatedToken) ==> |calls| > 0 && |all| <= limits.maxRows && Repeats(calls, |calls| - 1))
    && (r.Err? && r.error.RequestFailed? ==> Refused(server, limits, first, calls, r.error.code))
  }

  /**
    * The rows are the first maxRows of all pages; not truncated exactly if
    * nothing was cut and the last page carried no token.
    */
  ghost predicate Returned<T>(limits: Limits, calls: seq<Call<T>>, q: QueryResult<T>) {
    var all := Concat(calls);
    && |calls| > 0 && q.pagesProcessed == |calls|
    && q.rows == all[..Min(|all|, limits.maxRows)]
    && (!q.truncated <==> |all| <= limits.maxRows && calls[|calls| - 1].next == "")
    && (|all| <= limits.maxRows ==> !Repeats(calls, |calls| - 1))
    && q.reason == (if !q.truncated then None else if |all| >= limits.maxRows then Some(MaxRows) else Some(MaxPages))
    && (q.reason == Some(MaxPages) ==> |calls| == limits.maxPages)
  }

  ghost predicate Refused<T(!new)>(server: Server<T>, limits: Limits, first: string, calls: seq<Call<T>>,
                                   code: string) {
    && |Concat(calls)| < limits.maxRows && |calls| < limits.maxPages
    && server(|calls|, if calls == [] then first else calls[|calls| - 1].next,
              Min(limits.pageSize, limits.maxRows - |Concat(calls)|)) == Failure(code)
  }

  /** The paging loop of runResourceGraphQueryDetailed, on limits within the service's bounds. */
  method RunQuery<T(!new)>(server: Server<T>, limits: Limits, first: string)
    returns (r: Result<QueryResult<T>, QueryError>)
    requires 1 <= limits.pageSize && 1 <= limits.maxRows && 1 <= limits.maxPages
    ensures exists calls :: Reports(server, limits, first, calls, r)
  {
    ghost var calls: seq<Call<T>> := [];
    var rows: seq<T> := [];
    var seenTokens: set<string> := {};
    var skipToken := first;
    var pagesProcessed := 0;
    while true
      invariant pagesProcessed == |calls| <= limits.maxPages && |rows| <= limits.maxRows && rows == Concat(calls)
      invariant |rows| < limits.maxRows
      invariant skipToken == if calls == [] then first else calls[|calls| - 1].next
      invariant calls != [] ==> skipToken != ""
      invariant Exchange(server, limits, first, calls)
      invariant forall i :: 0 <= i < |calls| ==> !Repeats(calls, i)
      invariant forall t :: t in seenTokens <==> exists i :: 0 <= i < |calls| && calls[i].next == t
      decreases limits.maxPages - pagesProcessed
    {
      if pagesProcessed >= limits.maxPages {
        r := Ok(QueryResult(rows, pagesProcessed, true, Some(MaxPages)));
        assert Reports(server, limits, first, calls, r);
        return;
      }
      var remaining := limits.maxRows - |rows|;
      if remaining <= 0 {
        // never reached: a query that has all its rows has already stopped at the end of a page
        assert false;
      }
      var top := Min(limits.pageSize, remaining);
      var response := server(pagesProcessed, skipToken, top);
      if response.Failure? {
        r := Err(RequestFailed(response.code));
        assert Reports(server, limits, first, calls, r);
        return;
      }
      pagesProcessed := pagesProcessed + 1;
      ghost var before := calls;
      assert (before + [Call(skipToken, top, response.rows, response.token)])[..|before|] == before;
      ExchangeMore(server, limits, first, before, Call(skipToken, top, response.rows, response.token));
      ConcatMore(before, Call(skipToken, top, response.rows, response.token));
      calls := calls + [Call(skipToken, top, response.rows, response.token)];
      if |response.rows| > remaining {
        rows := rows + response.rows[..remaining];
        r := Ok(QueryResult(rows, pagesProcessed, true, Some(MaxRows)));
        assert Reports(server, limits, first, calls, r);
        return;
      }
      rows := rows + response.rows;
      if response.token == "" {
        r := Ok(QueryResult(rows, pagesProcessed, false, None));
        assert Reports(server, limits, first, calls, r);
        return;
      }
      if response.token in seenTokens || response.token == skipToken {
        r := Err(RepeatedToken);
        assert Reports(server, limits, first, calls, r);
        return;
      }
      seenTokens := seenTokens + {response.token};
      skipToken := response.token;
      if |rows| >= limits.maxRows {
        r := Ok(QueryResult(rows, pagesProcessed, true, Some(MaxRows)));
        assert Reports(server, limits, first, calls, r);
        return;
      }
    }
  }

  // ---------------------------------------------------------------- no page twice

  /** The token a page carries depends only on the token it was asked with. */
  ghost predicate TokenDeterministic<T(!new)>(server: Server<T>) {
    forall i: nat, j: nat, token, m: nat, n: nat ::
      server(i, token, m).Page? && server(j, token, n).Page? ==> server(i, token, m).token == server(j, token, n).token
  }

  /**
    * A result of such a service holds no page twice, unless its last page
    * was cut; in particular no untruncated one does.
    */
  lemma NoPageTwice<T(!new)>(server: Server<T>, limits: Limits, first: string, calls: seq<Call<T>>, q: QueryResult<T>,
                             i: nat, j: nat)
    requires TokenDeterministic(server) && Reports(server, limits, first, calls, Ok(q))
    requires !q.truncated || |Concat(calls)| <= limits.maxRows
    requires i < j < |calls|
    ensures calls[i].token != calls[j].token
  {
    assert Exchanged(server, limits, first, calls, i) && Exchanged(server, limits, first, calls, j);
    assert Exchanged(server, limits, first, calls, 1);
    if i > 0 {
      assert !Repeats(calls, j - 1);
    } else if calls[0].token == calls[j].token {
      assert server(0, first, calls[0].top).token == server(j, first, calls[j].top).token;
      assert calls[0].next == calls[j].next != "";
      assert Repeats(calls, j);
    }
  }

  /** Starting without a token, no page is asked for twice, whatever the service does and however the query ends. */
  lemma NoPageTwiceFromTheStart<T(!new)>(server: Server<T>, limits: Limits, calls: seq<Call<T>>,
                                         r: Result<QueryResult<T>, QueryError>, i: nat, j: nat)
    requires Reports(server, limits, "", calls, r) && i < j < |calls|
    ensures calls[i].token != calls[j].token
  {
    assert Exchanged(server, limits, "", calls, i) && Exchanged(server, limits, "", calls, j);
    assert !Repeats(calls, j - 1);
  }

  /** A first page with more rows than the query may return ends it, cut and truncated. */
  lemma CutPage<T(!new)>(server: Server<T>, limits: Limits, rows: seq<T>, token: string)
    requires 1 <= limits.pageSize && 1 <= limits.maxRows < |rows| && 1 <= limits.maxPages
    requires server(0, "", Min(limits.pageSize, limits.maxRows)) == Page(rows, token)
    ensures Reports(server, limits, "", [Call("", Min(limits.pageSize, limits.maxRows), rows, token)],
                    Ok(QueryResult(rows[..limits.maxRows], 1, true, Some(MaxRows))))
  {
    var calls := [Call("", Min(limits.pageSize, limits.maxRows), rows, token)];
    assert calls[..0] == [] && Exchanged(server, limits, "", calls, 0);
    assert Concat(calls) == rows;
  }
}
