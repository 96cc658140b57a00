/**
 * What the scripts of `Classes/connection.class.php` guarantee about the driver trace: the shape
 * of the bindParam calls, which paths touch the transaction state, and how many transaction calls
 * a self-wrapped execute or a user transaction makes.
 */
module DbFacts {
  import opened Wrappers
  import opened Pdo
  import opened Scripts

  /** Every call `bind` makes is a bindParam with two to five arguments. */
  lemma {:induction false} BindsWellShaped(data: seq<Entry>)
    ensures forall k :: 0 <= k < |BindEvents(data)| ==>
              BindEvents(data)[k].Bind? && 2 <= |BindEvents(data)[k].args| <= 5
    decreases |data|
  {
    if data != [] {
      BindsWellShaped(data[..|data| - 1]);
    }
  }

  /** An array of bare values is bound one element per call, in order, each under its own key. */
  lemma {:induction false} ScalarBinds(data: seq<Entry>)
    requires forall k :: 0 <= k < |data| ==> data[k].param.Scalar?
    ensures |BindEvents(data)| == |data|
    ensures forall k :: 0 <= k < |data| ==> BindEvents(data)[k] == Bind([data[k].key, data[k].param.value])
    decreases |data|
  {
    if data != [] {
      var front := data[..|data| - 1];
      ScalarBinds(front);
      assert forall k :: 0 <= k < |front| ==> front[k] == data[k];
    }
  }

  /** An element that is an array of fewer than two or more than five items is skipped. */
  lemma {:induction false} OddTupleIgnored(before: seq<Entry>, e: Entry, after: seq<Entry>)
    requires e.param.Tuple? && !(2 <= |e.param.items| <= 5)
    ensures BindEvents(before + [e] + after) == BindEvents(before + after)
  {
    BindEventsAppend(before + [e], after);
    BindEventsAppend(before, [e]);
    BindEventsAppend(before, after);
    assert BindEvents([e]) == EntryBinds(e) by {
      assert [e][..0] == [];
    }
  }

  /** prepare, bind and execute never touch the transaction state. */
  lemma {:induction false} StatementQuiet(query: string, data: seq<Entry>)
    ensures QuietScript(StatementEvents(query, data))
  {
    BindsWellShaped(data);
    var s := StatementEvents(query, data);
    forall i | 0 <= i < |s|
      ensures !TransactionEvent(s[i])
    {
      if 0 < i < |s| - 1 {
        assert s[i] == BindEvents(data)[i - 1];
      }
    }
  }

  /** Inside a user transaction, execute neither begins, commits nor rolls back. */
  lemma {:induction false} UserExecuteQuiet(query: string, data: seq<Entry>, calls: seq<Call>, r: Result<Reply, Failure>)
    requires ExecuteOutcome(true, query, data, calls, r)
    ensures Quiet(calls)
  {
    StatementQuiet(query, data);
    RanCalls(calls, StatementEvents(query, data), ErrorOf(r));
  }

  /** fetch and fetchAll neither begin, commit nor roll back, whatever happens. */
  lemma {:induction false} FetchQuiet(all: bool, query: string, data: seq<Entry>, cls: Option<string>,
                   calls: seq<Call>, r: Result<Reply, Failure>)
    requires FetchOutcome(all, query, data, cls, calls, r)
    ensures Quiet(calls)
  {
    StatementQuiet(query, data);
    var script := if all then FetchAllEvents(query, data, cls) else FetchEvents(query, data, cls);
    assert QuietScript(script) by {
      assert forall i :: 0 <= i < |script| - 1 ==> script[i] == StatementEvents(query, data)[i];
    }
    RanCalls(calls, script, ErrorOf(r));
  }

  lemma {:induction false} CountAppend(a: seq<Call>, b: seq<Call>, e: Event)
    ensures Count(a + b, e) == Count(a, e) + Count(b, e)
    decreases |b|
  {
    if b == [] {
      assert a + b == a;
    } else {
      var front := b[..|b| - 1];
      assert (a + b)[..|a + b| - 1] == a + front;
      assert (a + b)[|a + b| - 1] == b[|b| - 1];
      CountAppend(a, front, e);
    }
  }

  lemma {:induction false} QuietCount(calls: seq<Call>, e: Event)
    requires Quiet(calls) && TransactionEvent(e)
    ensures Count(calls, e) == 0
    decreases |calls|
  {
    if calls != [] {
      var front := calls[..|calls| - 1];
      assert Quiet(front) by {
        assert forall i :: 0 <= i < |front| ==> front[i] == calls[i];
      }
      QuietCount(front, e);
    }
  }

  /**
   * A self-wrapped execute that returned true made exactly the calls of its script, all of them
   * successful: beginTransaction first, commit last, and nothing transactional in between.
   */
  lemma {:induction false} WrappedExecuteSucceeded(query: string, data: seq<Entry>, calls: seq<Call>, r: Result<Reply, Failure>)
    requires ExecuteOutcome(false, query, data, calls, r) && r.Ok?
    ensures |calls| == |ExecuteEvents(false, query, data)|
    ensures forall i :: 0 <= i < |calls| ==> calls[i].error.None?
    ensures calls[0].event == Begin && calls[|calls| - 1].event == Commit
    ensures Quiet(calls[1..|calls| - 1])
  {
    var statement := StatementEvents(query, data);
    var script := ExecuteEvents(false, query, data);
    RanCalls(calls, script, None);
    StatementQuiet(query, data);
    var middle := calls[1..|calls| - 1];
    assert Quiet(middle) by {
      forall i | 0 <= i < |middle|
        ensures !TransactionEvent(middle[i].event)
      {
        assert middle[i] == calls[i + 1] && script[i + 1] == statement[i];
      }
    }
  }

  /** A self-wrapped execute that returned true began once, committed once and never rolled back. */
  lemma {:induction false} WrappedExecuteCounts(query: string, data: seq<Entry>, calls: seq<Call>, r: Result<Reply, Failure>)
    requires ExecuteOutcome(false, query, data, calls, r) && r.Ok?
    ensures Count(calls, Begin) == 1 && Count(calls, Commit) == 1 && Count(calls, Rollback) == 0
  {
    WrappedExecuteSucceeded(query, data, calls, r);
    assert calls == [calls[0]] + calls[1..|calls| - 1] + [calls[|calls| - 1]];
    EnclosedCount(calls[0], calls[1..|calls| - 1], calls[|calls| - 1]);
  }

  /** Between one begin and one commit, quiet calls add no transaction call. */
  lemma {:induction false} EnclosedCount(begin: Call, middle: seq<Call>, commit: Call)
    requires begin.event == Begin && commit.event == Commit && Quiet(middle)
    ensures var t := [begin] + middle + [commit];
            Count(t, Begin) == 1 && Count(t, Commit) == 1 && Count(t, Rollback) == 0
  {
    assert [begin][..0] == [] && [commit][..0] == [];
    forall e | TransactionEvent(e)
      ensures Count([begin] + middle + [commit], e)
              == (if e == Begin then 1 else 0) + (if e == Commit then 1 else 0)
    {
      QuietCount(middle, e);
      CountAppend([begin] + middle, [commit], e);
      CountAppend([begin], middle, e);
    }
    assert TransactionEvent(Begin) && TransactionEvent(Commit) && TransactionEvent(Rollback);
  }

  /**
   * A self-wrapped execute that threw a PDOException committed nothing: any commit it reached is
   * the call that threw, and its last call is a rollBack.
   */
  lemma {:induction false} WrappedExecuteFailed(query: string, data: seq<Entry>, calls: seq<Call>, r: Result<Reply, Failure>)
    requires ExecuteOutcome(false, query, data, calls, r) && r.Err? && r.error.error.PdoException?
    ensures forall i :: 0 <= i < |calls| && calls[i].event == Commit ==> calls[i].error.Some?
    ensures calls[|calls| - 1].event == Rollback
  {
    var script := ExecuteEvents(false, query, data);
    var main := calls[..|calls| - 1];
    RanCalls(main, script, Some(Thrown(main)));
    CommitLast(query, data);
    forall i | 0 <= i < |calls| && calls[i].event == Commit
      ensures calls[i].error.Some?
    {
      assert main[i] == calls[i];
    }
  }

  /**
   * A self-wrapped execute that threw something other than a PDOException stopped at a call PHP 8
   * refused for its arguments, after a successful begin and with no transaction call since: a
   * bindParam (a text type or length for a TypeError, a bad key for a ValueError), or the prepare
   * of an empty query (a ValueError).
   */
  lemma {:induction false} WrappedExecuteArgumentError(query: string, data: seq<Entry>, calls: seq<Call>,
                                                       r: Result<Reply, Failure>)
    requires ExecuteOutcome(false, query, data, calls, r) && r.Err? && !r.error.error.PdoException?
    ensures calls[|calls| - 1].event.Bind? || calls[|calls| - 1].event == Prepare("")
    ensures r.error.error.TypeError? ==>
              calls[|calls| - 1].event.Bind? && TypeMismatch(calls[|calls| - 1].event.args)
    ensures r.error.error.ValueError? ==>
              (calls[|calls| - 1].event.Bind? && BadKey(calls[|calls| - 1].event.args))
              || (query == "" && calls[|calls| - 1].event == Prepare(""))
    ensures calls[0] == Call(Begin, None) && Quiet(calls[1..])
  {
    var script := ExecuteEvents(false, query, data);
    var statement := StatementEvents(query, data);
    RanCalls(calls, script, Some(r.error.error));
    ExecuteFetchesNothing(query, data);
    assert Checked(calls[|calls| - 1]);
    var n := |calls| - 1;
    if 1 < n < |script| - 2 {
      BindsWellShaped(data);
      assert script[n] == BindEvents(data)[n - 2];
    }
    CommitLast(query, data);
    StatementQuiet(query, data);
    var rest := calls[1..];
    forall i | 0 <= i < |rest|
      ensures !TransactionEvent(rest[i].event)
    {
      assert rest[i] == calls[i + 1] && script[i + 1] == statement[i];
    }
  }

  /** The transaction calls of a self-wrapped execute that threw anything but a PDOException. */
  lemma {:induction false} WrappedExecuteLeftOpen(query: string, data: seq<Entry>, calls: seq<Call>, r: Result<Reply, Failure>)
    requires ExecuteOutcome(false, query, data, calls, r) && r.Err? && !r.error.error.PdoException?
    ensures Count(calls, Begin) == 1 && Count(calls, Commit) == 0 && Count(calls, Rollback) == 0
  {
    WrappedExecuteArgumentError(query, data, calls, r);
    assert calls == [calls[0]] + calls[1..];
    OpenCount(calls[0], calls[1..]);
  }

  /** After one begin, quiet calls add no transaction call. */
  lemma {:induction false} OpenCount(begin: Call, middle: seq<Call>)
    requires begin.event == Begin && Quiet(middle)
    ensures var t := [begin] + middle;
            Count(t, Begin) == 1 && Count(t, Commit) == 0 && Count(t, Rollback) == 0
  {
    assert [begin][..0] == [];
    forall e | TransactionEvent(e)
      ensures Count([begin] + middle, e) == if e == Begin then 1 else 0
    {
      QuietCount(middle, e);
      CountAppend([begin], middle, e);
    }
    assert TransactionEvent(Begin) && TransactionEvent(Commit) && TransactionEvent(Rollback);
  }

  /** One begin, quiet calls and at most one commit: that commit is the only one, with no rollBack. */
  lemma {:induction false} SpanCount(begin: Call, middle: seq<Call>, rest: seq<Call>)
    requires begin.event == Begin && Quiet(middle)
    requires |rest| <= 1 && (|rest| == 1 ==> rest[0].event == Commit)
    ensures var t := [begin] + middle + rest;
            Count(t, Begin) == 1 && Count(t, Commit) == |rest| && Count(t, Rollback) == 0
  {
    if rest == [] {
      assert [begin] + middle + rest == [begin] + middle;
      OpenCount(begin, middle);
    } else {
      EnclosedCount(begin, middle, rest[0]);
    }
  }

  lemma {:induction false} QuietAppend(a: seq<Call>, b: seq<Call>)
    requires Quiet(a) && Quiet(b)
    ensures Quiet(a + b)
  {
    forall i | 0 <= i < |a + b|
      ensures !TransactionEvent((a + b)[i].event)
    {
      if i >= |a| {
        assert (a + b)[i] == b[i - |a|];
      }
    }
  }

  /** With well-formed data every bindParam call passes bindParam's argument checks. */
  lemma {:induction false} WellFormedBinds(data: seq<Entry>)
    requires forall k :: 0 <= k < |data| ==> WellFormed(data[k])
    ensures forall k :: 0 <= k < |BindEvents(data)| ==>
              && BindEvents(data)[k].Bind?
              && !TypeMismatch(BindEvents(data)[k].args)
              && !BadKey(BindEvents(data)[k].args)
    decreases |data|
  {
    if data != [] {
      var front := data[..|data| - 1];
      assert forall k :: 0 <= k < |front| ==> front[k] == data[k];
      WellFormedBinds(front);
    }
  }

  /**
   * A run of a script whose bindParam calls all pass the argument checks, which prepares no empty
   * query and fetches into no class, throws only PDOExceptions.
   */
  lemma {:induction false} RanWithoutArgumentError(calls: seq<Call>, script: seq<Event>, err: Option<Throwable>)
    requires Ran(calls, script, err) && AllChecked(calls)
    requires forall k :: 0 <= k < |script| && script[k].Bind? ==>
               !TypeMismatch(script[k].args) && !BadKey(script[k].args)
    requires forall k :: 0 <= k < |script| ==> !script[k].Fetch? && script[k] != Prepare("")
    ensures err.Some? ==> err.value.PdoException?
  {
    RanCalls(calls, script, err);
    if err.Some? {
      var last := calls[|calls| - 1];
      assert Checked(last);
      assert last.event == script[|calls| - 1];
    }
  }

  /** A self-wrapped execute's script holds no fetch: begin, prepare, binds, execute, commit. */
  lemma {:induction false} ExecuteFetchesNothing(query: string, data: seq<Entry>)
    ensures var s := ExecuteEvents(false, query, data);
            forall i :: 0 <= i < |s| ==> !s[i].Fetch? && !s[i].FetchAll?
  {
    var s := ExecuteEvents(false, query, data);
    BindsWellShaped(data);
    forall i | 0 <= i < |s|
      ensures !s[i].Fetch? && !s[i].FetchAll?
    {
      if 1 < i < |s| - 2 {
        assert s[i] == BindEvents(data)[i - 2];
      }
    }
  }

  /**
   * With a non-empty query and well-formed data every failure of a self-wrapped execute is a
   * PDOException, so it is followed by rollBack.
   */
  lemma {:induction false} WellFormedExecuteRollsBack(query: string, data: seq<Entry>, calls: seq<Call>,
                                                      r: Result<Reply, Failure>)
    requires ExecuteOutcome(false, query, data, calls, r) && r.Err?
    requires query != "" && forall k :: 0 <= k < |data| ==> WellFormed(data[k])
    ensures r.error.error.PdoException? && calls[|calls| - 1].event == Rollback
  {
    var script := ExecuteEvents(false, query, data);
    var statement := StatementEvents(query, data);
    WellFormedBinds(data);
    ExecuteFetchesNothing(query, data);
    forall k | 0 <= k < |script| && script[k].Bind?
      ensures !TypeMismatch(script[k].args) && !BadKey(script[k].args)
    {
      assert script[k] == BindEvents(data)[k - 2];
    }
    forall k | 0 <= k < |script|
      ensures script[k] != Prepare("")
    {
      if 1 < k < |script| - 2 {
        assert script[k] == BindEvents(data)[k - 2];
      }
    }
    if !r.error.error.PdoException? {
      RanWithoutArgumentError(calls, script, Some(r.error.error));
    }
  }

  /**
   * A run whose script holds, at position `k`, a call PHP 8 refuses with a ValueError always
   * throws, and never gets past that call: if it reaches it, it ends there with the ValueError.
   */
  lemma {:induction false} RefusedCallStops(calls: seq<Call>, script: seq<Event>, err: Option<Throwable>, k: nat)
    requires Ran(calls, script, err) && AllChecked(calls)
    requires k < |script| && ValueRefused(script[k])
    ensures err.Some? && |calls| <= k + 1
    ensures |calls| == k + 1 ==> err == Some(ValueError)
  {
    RanCalls(calls, script, err);
    if k < |calls| {
      assert Checked(calls[k]) && calls[k].event == script[k];
    }
  }

  /**
   * Under PHP 8 a self-wrapped execute of the empty query never succeeds: either begin threw a
   * PDOException and rollBack followed, or prepare threw a ValueError and the transaction begun
   * stays open.
   */
  lemma {:induction false} EmptyQueryLeftOpen(data: seq<Entry>, calls: seq<Call>, r: Result<Reply, Failure>)
    requires ExecuteOutcome(false, "", data, calls, r)
    ensures r.Err?
    ensures r.error.error.PdoException? ==>
              |calls| == 2 && calls[0].event == Begin && calls[1].event == Rollback
    ensures !r.error.error.PdoException? ==>
              calls == [Call(Begin, None), Call(Prepare(""), Some(ValueError))]
  {
    var script := ExecuteEvents(false, "", data);
    assert script[1] == Prepare("");
    if r.Err? && r.error.error.PdoException? {
      var main := calls[..|calls| - 1];
      assert calls == main + [calls[|calls| - 1]];
      CheckedAppend(main, [calls[|calls| - 1]]);
      RefusedCallStops(main, script, Some(Thrown(main)), 1);
      RanCalls(main, script, Some(Thrown(main)));
    } else {
      var err := if r.Ok? then None else Some(r.error.error);
      RefusedCallStops(calls, script, err, 1);
      WrappedExecuteArgumentError("", data, calls, r);
      RanCalls(calls, script, err);
    }
  }

  /**
   * A list whose first element is a bare value binds it under key 0, which bindParam rejects every
   * time with a ValueError: a self-wrapped execute of such a list never succeeds. If it reached its
   * first refused call (the bindParam, or the prepare of an empty query), it ends there with the
   * ValueError and the transaction left open; otherwise begin or prepare threw a PDOException and
   * rollBack followed.
   */
  lemma {:induction false} ListKeyZeroLeftOpen(query: string, data: seq<Entry>, v: Value, calls: seq<Call>,
                                               r: Result<Reply, Failure>)
    requires |data| > 0 && data[0] == Entry(Int(0), Scalar(v))
    requires ExecuteOutcome(false, query, data, calls, r)
    ensures r.Err?
    ensures r.error.error.PdoException? ==>
              calls[|calls| - 1].event == Rollback && forall i :: 0 <= i < |calls| ==> !calls[i].event.Bind?
    ensures !r.error.error.PdoException? ==>
              && r.error.error == ValueError
              && calls[|calls| - 1].event == (if query == "" then Prepare(query) else Bind([Int(0), v]))
              && Count(calls, Begin) == 1 && Count(calls, Commit) == 0 && Count(calls, Rollback) == 0
  {
    ListScript(query, data, v);
    if r.Err? && r.error.error.PdoException? {
      KeyZeroRolledBack(query, data, v, calls, r);
    } else {
      KeyZeroRefused(query, data, v, calls, r);
      WrappedExecuteLeftOpen(query, data, calls, r);
    }
  }

  /** The calls a self-wrapped execute of a list with a bare first element starts with. */
  lemma {:induction false} ListScript(query: string, data: seq<Entry>, v: Value)
    requires |data| > 0 && data[0] == Entry(Int(0), Scalar(v))
    ensures var s := ExecuteEvents(false, query, data);
            |s| >= 5 && s[0] == Begin && s[1] == Prepare(query) && s[2] == Bind([Int(0), v])
  {
    assert [data[0]] + data[1..] == data;
    BindEventsAppend([data[0]], data[1..]);
    assert BindEvents([data[0]]) == [Bind([Int(0), v])] by {
      assert [data[0]][..0] == [];
    }
  }

  /** `ListKeyZeroLeftOpen` without a PDOException: the first refused call threw a ValueError. */
  lemma {:induction false} KeyZeroRefused(query: string, data: seq<Entry>, v: Value, calls: seq<Call>,
                                          r: Result<Reply, Failure>)
    requires ExecuteOutcome(false, query, data, calls, r)
    requires var s := ExecuteEvents(false, query, data);
             |s| >= 5 && s[0] == Begin && s[1] == Prepare(query) && s[2] == Bind([Int(0), v])
    requires !(r.Err? && r.error.error.PdoException?)
    ensures r.Err? && r.error.error == ValueError
    ensures calls[|calls| - 1].event == (if query == "" then Prepare(query) else Bind([Int(0), v]))
  {
    var script := ExecuteEvents(false, query, data);
    var err := if r.Ok? then None else Some(r.error.error);
    RefusedCallStops(calls, script, err, if query == "" then 1 else 2);
    WrappedExecuteArgumentError(query, data, calls, r);
    RanCalls(calls, script, err);
  }

  /** `ListKeyZeroLeftOpen` with a PDOException: begin or prepare threw, before any bindParam. */
  lemma {:induction false} KeyZeroRolledBack(query: string, data: seq<Entry>, v: Value, calls: seq<Call>,
                                             r: Result<Reply, Failure>)
    requires ExecuteOutcome(false, query, data, calls, r)
    requires var s := ExecuteEvents(false, query, data);
             |s| >= 5 && s[0] == Begin && s[1] == Prepare(query) && s[2] == Bind([Int(0), v])
    requires r.Err? && r.error.error.PdoException?
    ensures calls[|calls| - 1].event == Rollback && forall i :: 0 <= i < |calls| ==> !calls[i].event.Bind?
  {
    var script := ExecuteEvents(false, query, data);
    var main := calls[..|calls| - 1];
    assert calls == main + [calls[|calls| - 1]];
    CheckedAppend(main, [calls[|calls| - 1]]);
    RefusedCallStops(main, script, Some(Thrown(main)), 2);
    RanCalls(main, script, Some(Thrown(main)));
    forall i | 0 <= i < |calls|
      ensures !calls[i].event.Bind?
    {
      if i < |main| {
        assert calls[i] == main[i];
      }
    }
  }

  /**
   * `fetch` with a class passes the class name where `PDOStatement::fetch` takes an int, so it
   * never returns a row: either the statement threw, or it ran and fetch threw a TypeError.
   */
  lemma {:induction false} FetchIntoClassFails(query: string, data: seq<Entry>, name: string, calls: seq<Call>,
                            r: Result<Reply, Failure>)
    requires FetchOutcome(false, query, data, Some(name), calls, r)
    ensures r.Err?
    ensures |calls| == |FetchEvents(query, data, Some(name))| ==> r.error == Threw(TypeError)
  {
    var script := FetchEvents(query, data, Some(name));
    RanCalls(calls, script, ErrorOf(r));
    if |calls| == |script| {
      assert Checked(calls[|calls| - 1]);
    }
  }

  /** In a self-wrapped execute's script, commit is the last call and only the last. */
  lemma {:induction false} CommitLast(query: string, data: seq<Entry>)
    ensures var s := ExecuteEvents(false, query, data);
            s[|s| - 1] == Commit && forall i :: 0 <= i < |s| - 1 ==> s[i] != Commit
  {
    var statement := StatementEvents(query, data);
    var s := ExecuteEvents(false, query, data);
    StatementQuiet(query, data);
    forall i | 0 <= i < |s| - 1
      ensures s[i] != Commit
    {
      if i > 0 {
        assert s[i] == statement[i - 1];
      }
    }
  }

  /**
   * A user transaction: beginTransaction, any number of executes or fetches (each quiet, by
   * UserExecuteQuiet and FetchQuiet), then commitTransaction makes exactly one begin and one
   * commit, and no rollBack.
   */
  lemma {:induction false} UserTransactionSpan(begin: Call, runs: seq<seq<Call>>, commit: Call)
    requires begin.event == Begin && commit.event == Commit
    requires forall k :: 0 <= k < |runs| ==> Quiet(runs[k])
    ensures var t := [begin] + Flatten(runs) + [commit];
            Count(t, Begin) == 1 && Count(t, Commit) == 1 && Count(t, Rollback) == 0
  {
    FlattenQuiet(runs);
    EnclosedCount(begin, Flatten(runs), commit);
  }

  lemma {:induction false} FlattenQuiet(runs: seq<seq<Call>>)
    requires forall k :: 0 <= k < |runs| ==> Quiet(runs[k])
    ensures Quiet(Flatten(runs))
    decreases |runs|
  {
    if runs != [] {
      var front := runs[..|runs| - 1];
      FlattenQuiet(front);
      var f: seq<Call>, last: seq<Call> := Flatten(front), runs[|runs| - 1];
      forall i | 0 <= i < |f + last|
        ensures !TransactionEvent((f + last)[i].event)
      {
        if i >= |f| {
          assert (f + last)[i] == last[i - |f|];
        }
      }
    }
  }
}
