// db-context.js: a pooled connection through one tenant transaction.
module DbContext {
  import opened Wrappers
  import opened Text

  // a failed statement may have taken effect on the server all the same
  datatype Outcome = Succeeds | Fails(code: string, applied: bool)

  // a body may swallow a failed statement, which leaves the transaction aborted
  datatype Body<T> = Returns(value: T, aborted: bool) | Throws(code: string)

  datatype Scenario<T> = Scenario(begin: Outcome, setTenant: Outcome, body: Body<T>, commit: Outcome, rollback: Outcome)

  datatype Tx = NoTx | Open | Aborted

  // commits counts the transactions whose changes were made durable
  datatype Conn = Conn(tx: Tx, tenant: Option<string>, commits: nat)

  const CONNECTION_CODES := {"ECONNRESET", "ECONNREFUSED", "EPIPE", "ETIMEDOUT", "57P01", "57P02", "57P03"}

  /** isConnectionFailure; the listed class 08 codes all have the prefix. */
  predicate IsConnectionFailure(code: string) {
    var c := UpperCase(code);
    c in CONNECTION_CODES || (|c| >= 2 && c[..2] == "08")
  }

  /** The listed codes and everything of class 08, in any letter case. */
  lemma ConnectionFailures(code: string)
    ensures IsConnectionFailure(code) <==>
      (|code| >= 2 && code[0] == '0' && code[1] == '8')
      || UpperCase(code) in ["ECONNRESET", "ECONNREFUSED", "EPIPE", "ETIMEDOUT", "57P01", "57P02", "57P03",
                             "08000", "08003", "08006", "08001", "08004", "08007", "08P01"]
    ensures IsConnectionFailure(LowerCase(code)) == IsConnectionFailure(code) == IsConnectionFailure(UpperCase(code))
  {
    var c := UpperCase(code);
    assert UpperCase(LowerCase(code)) == c == UpperCase(c);
    if |code| >= 2 {
      assert c[0] == '0' <==> code[0] == '0';
      assert c[1] == '8' <==> code[1] == '8';
      assert c[..2] == [c[0], c[1]];
    }
  }

  // ---------------------------------------------------------------- what a use of the connection does

  predicate TakesEffect(o: Outcome) { o.Succeeds? || o.applied }

  function Began(c: Conn, o: Outcome): Conn { if TakesEffect(o) then c.(tx := Open) else c }

  function Ended(c: Conn, o: Outcome, commit: bool): Conn {
    if !TakesEffect(o) then c
    else Conn(NoTx, None, c.commits + if commit && c.tx.Open? then 1 else 0)
  }

  /** The reusable connection, or None if it was destroyed; and the result, or the error's code. */
  datatype Use<T> = Use(conn: Option<Conn>, result: Result<T, string>)

  /** The BEGIN took effect, but failed for the caller with an error that does not look like a lost connection. */
  predicate LostBegin<T>(s: Scenario<T>) {
    s.begin.Fails? && s.begin.applied && !IsConnectionFailure(s.begin.code)
  }

  /** Everything the caller could see went well. */
  predicate Completes<T>(s: Scenario<T>) {
    s.begin.Succeeds? && s.setTenant.Succeeds? && s.body.Returns? && s.commit.Succeeds?
  }

  /** The code of the first failure the caller sees, in the order of the statements. */
  function FirstError<T>(s: Scenario<T>): Option<string> {
    if s.begin.Fails? then Some(s.begin.code)
    else if s.setTenant.Fails? then Some(s.setTenant.code)
    else if s.body.Throws? then Some(s.body.code)
    else if s.commit.Fails? then Some(s.commit.code)
    else None
  }

  /** Some failure looks like a lost connection, or a transaction that was begun could not be rolled back. */
  predicate Destroys<T>(s: Scenario<T>) {
    && FirstError(s).Some?
    && (IsConnectionFailure(FirstError(s).value) || (s.begin.Succeeds? && s.rollback.Fails?))
  }

  /** The use takes a connection and destroys it. */
  predicate IsBroken<T>(tenantId: string, s: Scenario<T>) {
    Normalized(tenantId).Some? && Destroys(s)
  }

  datatype Borrower<T> = Borrower(tenantId: string, scenario: Scenario<T>) {
    predicate Breaks() { IsBroken(tenantId, scenario) }
  }

  /** None of the first n uses breaks the connection. */
  predicate NoneBreaks<T>(borrowers: seq<Borrower<T>>, n: nat)
    requires n <= |borrowers|
  {
    n == 0 || (!borrowers[n - 1].Breaks() && NoneBreaks(borrowers, n - 1))
  }

  /** The transaction state of a connection that goes back to the pool. */
  function TxAfter<T>(s: Scenario<T>, before: Tx): Tx {
    if s.begin.Succeeds? then NoTx else if s.begin.applied then Open else before
  }

  predicate Clean(c: Conn) { c.tx == NoTx && c.tenant == None }

  class Client<T> {
    var conn: Conn
    var destroyed: bool
    var releases: nat

    constructor ()
      ensures conn == Conn(NoTx, None, 0) && !destroyed && releases == 0
    {
      conn, destroyed, releases := Conn(NoTx, None, 0), false, 0;
    }

    /** releaseClient: with an error, the pool destroys the connection. */
    method Release(broken: bool)
      modifies `destroyed, `releases
      ensures releases == old(releases) + 1 && (destroyed <==> old(destroyed) || broken)
    {
      releases := releases + 1;
      if broken {
        destroyed := true;
      }
    }

    /**
      * The body passed by withTenantTransaction: the tenant id, for this
      * transaction only, then the caller's function.
      */
    method TenantBody(tenant: string, s: Scenario<T>) returns (r: Result<T, string>)
      requires !conn.tx.NoTx?
      modifies `conn
      ensures r == if s.setTenant.Fails? then Err(s.setTenant.code) else if s.body.Throws? then Err(s.body.code)
        else Ok(s.body.value)
      ensures conn.tx.NoTx? <==> old(conn).tx.NoTx?
      ensures conn.commits == old(conn).commits
      ensures r.Ok? ==> conn == Conn(if s.body.aborted then Aborted else old(conn).tx, Some(tenant), old(conn).commits)
    {
      if TakesEffect(s.setTenant) {
        conn := conn.(tenant := Some(tenant));
      }
      if s.setTenant.Fails? {
        conn := conn.(tx := Aborted);
        return Err(s.setTenant.code);
      }
      match s.body
      case Throws(code) =>
        r := Err(code);
      case Returns(value, aborted) =>
        if aborted {
          conn := conn.(tx := Aborted);
        }
        r := Ok(value);
    }

    /** withDatabaseTransaction around TenantBody. */
    method WithTransaction(tenant: string, s: Scenario<T>) returns (r: Result<T, string>)
      requires !destroyed && conn.tenant == None
      modifies this
      ensures releases == old(releases) + 1
      ensures r.Ok? <==> Completes(s)
      ensures r.Ok? ==> r.value == s.body.value && !destroyed && Clean(conn)
      ensures r.Ok? ==> conn.commits == old(conn).commits + (if s.body.aborted then 0 else 1)
      ensures r.Err? ==> FirstError(s) == Some(r.error)
      ensures destroyed <==> Destroys(s)
      ensures !destroyed ==> conn.tenant == None && conn.tx == TxAfter(s, old(conn).tx)
      ensures !destroyed && old(conn).tx.NoTx? ==> (conn.tx != NoTx <==> LostBegin(s))
      ensures LostBegin(s) ==> !destroyed && conn.tx == Open
      ensures conn.commits > old(conn).commits ==> TakesEffect(s.commit)
    {
      var transactionStarted, broken := false, false;
      var error: Option<string> := None;
      r := Err("");
      // try
      conn := Began(conn, s.begin);
      if s.begin.Fails? {
        error := Some(s.begin.code);
      } else {
        transactionStarted := true;
        r := TenantBody(tenant, s);
        if r.Err? {
          error := Some(r.error);
        } else {
          conn := Ended(conn, s.commit, true);
          if s.commit.Fails? {
            error := Some(s.commit.code);
          } else {
            transactionStarted := false;
          }
        }
      }
      // catch
      if error.Some? {
        broken := IsConnectionFailure(error.value);
        if transactionStarted {
          conn := Ended(conn, s.rollback, false);
          broken := broken || s.rollback.Fails?;
        }
        r := Err(error.value);
      }
      // finally
      Release(broken);
    }

    /** withTenantTransaction: an invalid tenant id never takes a connection. */
    method WithTenantTransaction(tenantId: string, s: Scenario<T>) returns (r: Result<T, string>)
      requires !destroyed && conn.tenant == None
      modifies this
      ensures Normalized(tenantId).None? ==> r.Err? && releases == old(releases) && conn == old(conn) && !destroyed
      ensures Normalized(tenantId).Some? ==> releases == old(releases) + 1 && (r.Ok? <==> Completes(s))
      ensures r.Ok? ==>
        r.value == s.body.value && Clean(conn) && conn.commits == old(conn).commits + (if s.body.aborted then 0 else 1)
      ensures r.Err? && Normalized(tenantId).Some? ==> FirstError(s) == Some(r.error)
      ensures destroyed <==> IsBroken(tenantId, s)
      ensures !destroyed ==> conn.tenant == None
      ensures Normalized(tenantId).Some? && !destroyed ==> conn.tx == TxAfter(s, old(conn).tx)
      ensures !destroyed && old(conn).tx.NoTx? ==> (conn.tx != NoTx <==> Normalized(tenantId).Some? && LostBegin(s))
      ensures Normalized(tenantId).Some? && LostBegin(s) ==> !destroyed && conn.tx == Open
    {
      var value := Normalized(tenantId);
      if value.None? {
        return Err("Invalid tenantId for database context.");
      }
      r := WithTransaction(value.value, s);
    }

    /** One borrower of a clean connection. */
    method ServeOne(b: Borrower<T>) returns (broken: bool)
      requires !destroyed && Clean(conn) && !LostBegin(b.scenario)
      modifies this
      ensures broken == destroyed && (broken <==> b.Breaks()) && (!broken ==> Clean(conn))
    {
      var _ := WithTenantTransaction(b.tenantId, b.scenario);
      broken := destroyed;
    }

    /** One borrower after another, until the pool destroys the connection: at the first use that breaks it. */
    method Serve(borrowers: seq<Borrower<T>>) returns (served: nat)
      requires !destroyed && Clean(conn) && forall b :: b in borrowers ==> !LostBegin(b.scenario)
      modifies this
      ensures served <= |borrowers| && (served < |borrowers| ==> destroyed)
      ensures destroyed <==> served > 0 && borrowers[served - 1].Breaks()
      ensures served > 0 ==> NoneBreaks(borrowers, served - 1)
      ensures !destroyed ==> Clean(conn)
    {
      for i := 0 to |borrowers|
        invariant !destroyed && Clean(conn)
        invariant NoneBreaks(borrowers, i)
      {
        // each borrower finds neither an open transaction nor another tenant's id
        var broken := ServeOne(borrowers[i]);
        if broken {
          return i + 1;
        }
      }
      served := |borrowers|;
    }
  }
}
