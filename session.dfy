/**
 * A user transaction driven through `Classes/connection.class.php`: beginTransaction, two plain
 * `exec` calls and commitTransaction, stopping at the first call that throws, as a PHP caller's
 * exception would.
 */
module Session {
  import opened Wrappers
  import opened Pdo
  import opened Scripts
  import opened Db
  import opened DbFacts

  /**
   * The trace holds exactly one beginTransaction and never a rollBack; it commits at most once,
   * and exactly once when nothing threw, which also lowers the user flag.
   */
  method TwoStatements(c: Connection, q1: string, d1: seq<Entry>, q2: string, d2: seq<Entry>)
    returns (err: Option<Failure>, ghost trace: seq<Call>)
    requires c.open
    modifies c, c.driver
    ensures c.driver.log == old(c.driver.log) + trace
    ensures Count(trace, Begin) == 1 && Count(trace, Rollback) == 0 && Count(trace, Commit) <= 1
    ensures err.None? ==> Count(trace, Commit) == 1 && !c.userTransaction
  {
    ghost var calls;
    err, calls := c.BeginTransaction();
    if err.Some? {
      assert calls == [calls[0]] + [] + [];
      SpanCount(calls[0], [], []);
      return err, calls;
    }
    ghost var middle, rest;
    err, middle, rest := InsideTransaction(c, q1, d1, q2, d2);
    trace := calls + (middle + rest);
    assert trace == [calls[0]] + middle + rest;
    SpanCount(calls[0], middle, rest);
  }

  /** Both statements, then commitTransaction; `rest` is the commit call, if it was reached. */
  method InsideTransaction(c: Connection, q1: string, d1: seq<Entry>, q2: string, d2: seq<Entry>)
    returns (err: Option<Failure>, ghost middle: seq<Call>, ghost rest: seq<Call>)
    requires c.open && c.userTransaction
    modifies c, c.driver
    ensures c.driver.log == old(c.driver.log) + (middle + rest)
    ensures Quiet(middle) && |rest| <= 1 && (|rest| == 1 ==> rest[0].event == Commit)
    ensures err.None? ==> |rest| == 1 && !c.userTransaction
  {
    var r;
    ghost var run2;
    r, middle := QuietExec(c, q1, d1);
    if r.Err? {
      return Some(r.error), middle, [];
    }
    r, run2 := QuietExec(c, q2, d2);
    QuietAppend(middle, run2);
    middle := middle + run2;
    if r.Err? {
      return Some(r.error), middle, [];
    }
    err, rest := c.CommitTransaction();
  }

  /** One `exec` inside the user transaction: it neither begins, commits nor rolls back. */
  method QuietExec(c: Connection, query: string, data: seq<Entry>)
    returns (r: Result<Reply, Failure>, ghost run: seq<Call>)
    requires c.open && c.userTransaction
    modifies c.driver
    ensures c.driver.log == old(c.driver.log) + run
    ensures Quiet(run)
  {
    r, run := c.Exec(query, data);
    UserExecuteQuiet(query, data, run, r);
  }
}
