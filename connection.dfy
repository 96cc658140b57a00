/**
 * The `Connection` class of `Classes/connection.class.php`: dispatch of `exec` on its action code,
 * the `bind` loop over `$data`, the statement paths of fetch, fetchAll and execute, and the user
 * transaction flag. The PDO handle is a `Driver` whose ghost log records every call.
 */
module Db {
  import opened Wrappers
  import opened Pdo
  import opened Scripts

  class Connection {
    /** The PDO handle; `open` is false once `close` has set it to null. */
    const driver: Driver
    var open: bool
    var userTransaction: bool

    /** A connection over an already opened handle, outside any user transaction. */
    constructor (driver: Driver)
      ensures this.driver == driver && open && !userTransaction
    {
      this.driver := driver;
      open := true;
      userTransaction := false;
    }

    /**
     * Runs `query` with `data` bound, as a fetch of one row, of all rows, or a plain execute.
     * A closed handle or any other action code makes no driver call and returns `null`.
     */
    method Exec(query: string, data: seq<Entry> := [], action: int := EXECUTE, cls: Option<string> := None)
      returns (r: Result<Reply, Failure>, ghost calls: seq<Call>)
      modifies driver
      ensures driver.log == old(driver.log) + calls
      ensures !open || action !in {FETCH, FETCH_ALL, EXECUTE} ==> r == Ok(Nothing) && calls == []
      ensures open && action == FETCH ==> FetchOutcome(false, query, data, cls, calls, r)
      ensures open && action == FETCH_ALL ==> FetchOutcome(true, query, data, cls, calls, r)
      ensures open && action == EXECUTE ==> ExecuteOutcome(userTransaction, query, data, calls, r)
    {
      r, calls := Ok(Nothing), [];
      if open {
        if action == FETCH {
          r, calls := Fetch(query, data, cls);
        } else if action == FETCH_ALL {
          r, calls := FetchAll(query, data, cls);
        } else if action == EXECUTE {
          r, calls := Execute(query, data);
        }
      }
    }

    /** Binds every element of `data` in order, stopping at the first bindParam that throws. */
    method Bind(data: seq<Entry>) returns (err: Option<Throwable>, ghost calls: seq<Call>)
      modifies driver
      ensures driver.log == old(driver.log) + calls
      ensures Ran(calls, BindEvents(data), err)
      ensures AllChecked(calls)
    {
      err, calls := None, [];
      var i := 0;
      while i < |data|
        invariant 0 <= i <= |data|
        invariant driver.log == old(driver.log) + calls
        invariant Ran(calls, BindEvents(data[..i]), None)
        invariant AllChecked(calls)
        invariant err.None?
      {
        ghost var step;
        err, step := BindEntry(data[i]);
        BindStep(data, i, calls, step, err);
        calls := calls + step;
        if err.Some? {
          return;
        }
        i := i + 1;
      }
      assert data[..i] == data;
    }

    /** The bindParam call for one `$data` element, if it makes one. */
    method BindEntry(entry: Entry) returns (err: Option<Throwable>, ghost calls: seq<Call>)
      modifies driver
      ensures driver.log == old(driver.log) + calls
      ensures Ran(calls, EntryBinds(entry), err)
      ensures AllChecked(calls)
    {
      err, calls := None, [];
      match entry.param {
        case Tuple(items) =>
          // bindParam($row[0], ..., $row[c - 1]) for a count c of 2 to 5; other counts bind nothing
          if 2 <= |items| <= 5 {
            err := driver.BindParam(items);
            calls := [Call(Event.Bind(items), err)];
            assert calls[1..] == [];
          }
        case Scalar(v) =>
          err := driver.BindParam([entry.key, v]);
          calls := [Call(Event.Bind([entry.key, v]), err)];
          assert calls[1..] == [];
      }
    }

    /** prepare, bind and execute, stopping at the first call that throws. */
    method Statement(query: string, data: seq<Entry>) returns (err: Option<Throwable>, ghost calls: seq<Call>)
      modifies driver
      ensures driver.log == old(driver.log) + calls
      ensures Ran(calls, StatementEvents(query, data), err)
      ensures AllChecked(calls)
    {
      err := driver.Prepare(query);
      calls := [Call(Event.Prepare(query), err)];
      StatementPrepared(query, data, err);
      if err.Some? {
        return;
      }
      ghost var bound;
      err, bound := Bind(data);
      StatementBound(query, data, calls, bound, err);
      calls := calls + bound;
      if err.Some? {
        return;
      }
      err := driver.Execute();
      StatementExecuted(query, data, calls, err);
      calls := calls + [Call(Event.Execute, err)];
    }

    /**
     * `fetch`: the statement, then one row in the requested shape; whatever a call throws
     * propagates. With a class, line 111 hands the class name to `PDOStatement::fetch` as its
     * cursor orientation, so that fetch throws a TypeError (`DbFacts.FetchIntoClassFails`).
     */
    method Fetch(query: string, data: seq<Entry>, cls: Option<string>)
      returns (r: Result<Reply, Failure>, ghost calls: seq<Call>)
      modifies driver
      ensures driver.log == old(driver.log) + calls
      ensures FetchOutcome(false, query, data, cls, calls, r)
    {
      var err;
      err, calls := Statement(query, data);
      if err.Some? {
        RanStops(calls, StatementEvents(query, data), [Event.Fetch(ShapeOf(cls))], err);
        r := Raised(err, Nothing);
        return;
      }
      var rows;
      rows, err := driver.Fetch(ShapeOf(cls));
      RanThen(calls, StatementEvents(query, data), [Call(Event.Fetch(ShapeOf(cls)), err)], [Event.Fetch(ShapeOf(cls))], err);
      CheckedAppend(calls, [Call(Event.Fetch(ShapeOf(cls)), err)]);
      calls := calls + [Call(Event.Fetch(ShapeOf(cls)), err)];
      r := Raised(err, Row(rows));
    }

    /** `fetchAll`: the statement, then every row in the requested shape. */
    method FetchAll(query: string, data: seq<Entry>, cls: Option<string>)
      returns (r: Result<Reply, Failure>, ghost calls: seq<Call>)
      modifies driver
      ensures driver.log == old(driver.log) + calls
      ensures FetchOutcome(true, query, data, cls, calls, r)
    {
      var err;
      err, calls := Statement(query, data);
      if err.Some? {
        RanStops(calls, StatementEvents(query, data), [Event.FetchAll(ShapeOf(cls))], err);
        r := Raised(err, Nothing);
        return;
      }
      var rows;
      rows, err := driver.FetchAll(ShapeOf(cls));
      RanThen(calls, StatementEvents(query, data), [Call(Event.FetchAll(ShapeOf(cls)), err)], [Event.FetchAll(ShapeOf(cls))], err);
      CheckedAppend(calls, [Call(Event.FetchAll(ShapeOf(cls)), err)]);
      calls := calls + [Call(Event.FetchAll(ShapeOf(cls)), err)];
      r := Raised(err, AllRows(rows));
    }

    /**
     * `execute`: the statement, inside its own transaction unless a user transaction is open.
     * When it wraps the statement itself, a PDOException anywhere is followed by rollBack; the
     * catch takes nothing else, so a TypeError or ValueError from prepare or bindParam leaves
     * without one.
     */
    method Execute(query: string, data: seq<Entry>) returns (r: Result<Reply, Failure>, ghost calls: seq<Call>)
      modifies driver
      ensures driver.log == old(driver.log) + calls
      ensures ExecuteOutcome(userTransaction, query, data, calls, r)
    {
      if userTransaction {
        var err;
        err, calls := Statement(query, data);
        r := Raised(err, Done(true));
        return;
      }
      var err;
      ghost var main;
      err, main := Transacted(query, data);
      calls := main;
      if err.Some? && !err.value.PdoException? {
        r := Err(Threw(err.value));
        return;
      }
      if err.Some? {
        var rollbackErr := driver.RollBack();
        RolledBackStep(main, ExecuteEvents(false, query, data), err.value, rollbackErr);
        calls := main + [Call(Rollback, rollbackErr)];
        r := Err(Threw(if rollbackErr.Some? then rollbackErr.value else err.value));
        return;
      }
      r := Ok(Done(true));
    }

    /** beginTransaction, the statement and commit, stopping at the first call that throws. */
    method Transacted(query: string, data: seq<Entry>) returns (err: Option<Throwable>, ghost calls: seq<Call>)
      modifies driver
      ensures driver.log == old(driver.log) + calls
      ensures Ran(calls, ExecuteEvents(false, query, data), err)
      ensures AllChecked(calls)
    {
      ghost var statement := StatementEvents(query, data);
      err := driver.BeginTransaction();
      calls := [Call(Event.Begin, err)];
      assert Ran(calls, [Event.Begin], err) by {
        assert calls[1..] == [];
      }
      if err.Some? {
        RanStops(calls, [Event.Begin], statement + [Event.Commit], err);
        assert [Event.Begin] + (statement + [Event.Commit]) == [Event.Begin] + statement + [Event.Commit];
        return;
      }
      ghost var stmt;
      err, stmt := Statement(query, data);
      RanThen(calls, [Event.Begin], stmt, statement, err);
      CheckedAppend(calls, stmt);
      calls := calls + stmt;
      if err.Some? {
        RanStops(calls, [Event.Begin] + statement, [Event.Commit], err);
        return;
      }
      err := driver.Commit();
      RanStep(calls, [Event.Begin] + statement, Event.Commit, err);
      CheckedAppend(calls, [Call(Event.Commit, err)]);
      calls := calls + [Call(Event.Commit, err)];
    }

    /**
     * `beginTransaction`: raises the user flag first, then begins; there is no check for a
     * transaction already open. On a closed handle the call itself fails.
     */
    method BeginTransaction() returns (err: Option<Failure>, ghost calls: seq<Call>)
      modifies this, driver
      ensures userTransaction && open == old(open)
      ensures driver.log == old(driver.log) + calls
      ensures !open ==> calls == [] && err == Some(NoHandle)
      ensures open ==> |calls| == 1 && calls[0].event == Begin
                       && err == (if calls[0].error.Some? then Some(Threw(calls[0].error.value)) else None)
    {
      userTransaction := true;
      if !open {
        return Some(NoHandle), [];
      }
      var e := driver.BeginTransaction();
      calls := [Call(Begin, e)];
      err := if e.Some? then Some(Threw(e.value)) else None;
    }

    /**
     * `commitTransaction`: nothing outside a user transaction; inside one, commit and then lower
     * the flag, which a throwing commit leaves raised.
     */
    method CommitTransaction() returns (err: Option<Failure>, ghost calls: seq<Call>)
      modifies this, driver
      ensures open == old(open)
      ensures driver.log == old(driver.log) + calls
      ensures !old(userTransaction) ==> calls == [] && err.None? && !userTransaction
      ensures old(userTransaction) && !open ==> calls == [] && err == Some(NoHandle) && userTransaction
      ensures old(userTransaction) && open ==>
                |calls| == 1 && calls[0].event == Commit
                && err == (if calls[0].error.Some? then Some(Threw(calls[0].error.value)) else None)
                && userTransaction == err.Some?
    {
      err, calls := None, [];
      if userTransaction {
        if !open {
          return Some(NoHandle), [];
        }
        var e := driver.Commit();
        calls := [Call(Commit, e)];
        if e.Some? {
          return Some(Threw(e.value)), calls;
        }
        userTransaction := false;
      }
    }

    /** `rollBackTransaction`: as commitTransaction, with rollBack. */
    method RollBackTransaction() returns (err: Option<Failure>, ghost calls: seq<Call>)
      modifies this, driver
      ensures open == old(open)
      ensures driver.log == old(driver.log) + calls
      ensures !old(userTransaction) ==> calls == [] && err.None? && !userTransaction
      ensures old(userTransaction) && !open ==> calls == [] && err == Some(NoHandle) && userTransaction
      ensures old(userTransaction) && open ==>
                |calls| == 1 && calls[0].event == Rollback
                && err == (if calls[0].error.Some? then Some(Threw(calls[0].error.value)) else None)
                && userTransaction == err.Some?
    {
      err, calls := None, [];
      if userTransaction {
        if !open {
          return Some(NoHandle), [];
        }
        var e := driver.RollBack();
        calls := [Call(Rollback, e)];
        if e.Some? {
          return Some(Threw(e.value)), calls;
        }
        userTransaction := false;
      }
    }

    /** `close`: drops the handle; the user flag is left as it was. */
    method Close()
      modifies this
      ensures !open && userTransaction == old(userTransaction)
    {
      open := false;
    }
  }
}
