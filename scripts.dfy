/**
 * The driver-call scripts of `Classes/connection.class.php`: which PDO calls each operation makes,
 * in which order, how a run of calls stops at the first failure, and what can be concluded about
 * the transaction events in the resulting trace.
 */
module Scripts {
  import opened Wrappers
  import opened Pdo

  // Action codes accepted by Connection::exec.
  const FETCH := 1
  const FETCH_ALL := 2
  const EXECUTE := 3

  /** One element of the `$data` array: a bare value, or an array of bindParam arguments. */
  datatype Param = Scalar(value: Value) | Tuple(items: seq<Value>)

  /** A `$data` element with its array key. `$data` itself is a seq in iteration order. */
  datatype Entry = Entry(key: Value, param: Param)

  /** What `exec` hands back: PHP `null`, a fetched row, all rows, or `true` from execute. */
  datatype Reply = Nothing | Row(rows: Rows) | AllRows(rows: Rows) | Done(ok: bool)

  /** Why a connection call threw: what a driver call threw, or a method called on the null handle. */
  datatype Failure = Threw(error: Throwable) | NoHandle

  /** The fetch style: `$class === false` fetches associative arrays, anything else a class. */
  function ShapeOf(cls: Option<string>): FetchShape
  {
    if cls.None? then Assoc else IntoClass(cls.value)
  }

  /**
   * An element whose bindParam call, if it makes one, passes bindParam's own argument checks: a
   * key of 1 or more or a non-empty name, and an int wherever a type or length goes.
   */
  predicate WellFormed(e: Entry)
  {
    match e.param
    case Tuple(items) => 2 <= |items| <= 5 ==> !TypeMismatch(items) && !BadKey(items)
    case Scalar(_) => !BadKey([e.key])
  }

  /** The bindParam calls one `$data` element gives rise to. */
  function EntryBinds(e: Entry): seq<Event>
  {
    match e.param
    case Tuple(items) => if 2 <= |items| <= 5 then [Bind(items)] else []
    case Scalar(v) => [Bind([e.key, v])]
  }

  /** The bindParam calls of `bind`, element by element in iteration order. */
  function BindEvents(data: seq<Entry>): seq<Event>
  {
    if data == [] then [] else BindEvents(data[..|data| - 1]) + EntryBinds(data[|data| - 1])
  }

  /** prepare, bind, execute: the statement part shared by fetch, fetchAll and execute. */
  function StatementEvents(query: string, data: seq<Entry>): seq<Event>
  {
    [Prepare(query)] + BindEvents(data) + [Execute]
  }

  function FetchEvents(query: string, data: seq<Entry>, cls: Option<string>): seq<Event>
  {
    StatementEvents(query, data) + [Fetch(ShapeOf(cls))]
  }

  function FetchAllEvents(query: string, data: seq<Entry>, cls: Option<string>): seq<Event>
  {
    StatementEvents(query, data) + [FetchAll(ShapeOf(cls))]
  }

  /** The calls of `execute`: wrapped in its own transaction unless a user transaction is open. */
  function ExecuteEvents(userTransaction: bool, query: string, data: seq<Entry>): seq<Event>
  {
    if userTransaction then StatementEvents(query, data)
    else [Begin] + StatementEvents(query, data) + [Commit]
  }

  predicate Failed(calls: seq<Call>)
  {
    |calls| > 0 && calls[|calls| - 1].error.Some?
  }

  /** The exception the last call threw. */
  function Thrown(calls: seq<Call>): Throwable
    requires Failed(calls)
  {
    calls[|calls| - 1].error.value
  }

  /**
   * `calls` is what running `script` produced: the script's calls in order, each succeeding
   * until one throws, after which nothing more is called; `err` is what the run threw.
   */
  predicate Ran(calls: seq<Call>, script: seq<Event>, err: Option<Throwable>)
    decreases |calls|
  {
    if calls == [] then script == [] && err.None?
    else
      && script != []
      && calls[0].event == script[0]
      && if calls[0].error.Some? then |calls| == 1 && err == calls[0].error
         else Ran(calls[1..], script[1..], err)
  }

  /**
   * The PDOException path of a self-wrapped execute: the script ran until a call threw, then
   * rollBack was called, and what propagates is rollBack's own exception if it threw one, else
   * the first.
   */
  predicate RolledBack(calls: seq<Call>, script: seq<Event>, f: Failure)
  {
    && |calls| > 1
    && var main := calls[..|calls| - 1];
    && Failed(main)
    && Thrown(main).PdoException?
    && Ran(main, script, Some(Thrown(main)))
    && calls[|calls| - 1].event == Rollback
    && f == Threw(if calls[|calls| - 1].error.Some? then calls[|calls| - 1].error.value else Thrown(main))
  }

  /** rollBack after a run that threw a PDOException: what `execute`'s catch produces. */
  lemma {:induction false} RolledBackStep(main: seq<Call>, script: seq<Event>, e: Throwable, rollbackErr: Option<Throwable>)
    requires Ran(main, script, Some(e)) && e.PdoException? && AllChecked(main)
    requires Checked(Call(Rollback, rollbackErr))
    ensures var calls := main + [Call(Rollback, rollbackErr)];
            && RolledBack(calls, script, Threw(if rollbackErr.Some? then rollbackErr.value else e))
            && AllChecked(calls)
  {
    RanCalls(main, script, Some(e));
    CheckedAppend(main, [Call(Rollback, rollbackErr)]);
    assert (main + [Call(Rollback, rollbackErr)])[..|main|] == main;
  }

  /** A failed driver call as the connection rethrows it. */
  function Raised<T>(err: Option<Throwable>, value: T): Result<T, Failure>
  {
    if err.Some? then Err(Threw(err.value)) else Ok(value)
  }

  /** The driver's throwable a connection result carries, if any. */
  function ErrorOf(r: Result<Reply, Failure>): Option<Throwable>
  {
    if r.Err? && r.error.Threw? then Some(r.error.error) else None
  }

  /** What `fetch` (`all` false) or `fetchAll` (`all` true) promises about its calls and result. */
  predicate FetchOutcome(all: bool, query: string, data: seq<Entry>, cls: Option<string>,
                         calls: seq<Call>, r: Result<Reply, Failure>)
  {
    && Ran(calls, if all then FetchAllEvents(query, data, cls) else FetchEvents(query, data, cls), ErrorOf(r))
    && AllChecked(calls)
    && (r.Err? ==> r.error.Threw?)
    && (r.Ok? ==> if all then r.value.AllRows? else r.value.Row?)
  }

  /**
   * What `execute` promises about its calls and result, for either transaction mode. Its catch
   * takes only PDOExceptions, so a TypeError or ValueError from prepare or bindParam escapes a
   * self-wrapped execute with no rollBack.
   */
  predicate ExecuteOutcome(userTransaction: bool, query: string, data: seq<Entry>,
                           calls: seq<Call>, r: Result<Reply, Failure>)
  {
    && (r.Ok? ==> r.value == Done(true))
    && (r.Err? ==> r.error.Threw?)
    && AllChecked(calls)
    && if userTransaction then
         Ran(calls, ExecuteEvents(true, query, data), ErrorOf(r))
       else
         (r.Ok? ==> Ran(calls, ExecuteEvents(false, query, data), None))
         && (r.Err? && r.error.error.PdoException? ==> RolledBack(calls, ExecuteEvents(false, query, data), r.error))
         && (r.Err? && !r.error.error.PdoException? ==> Ran(calls, ExecuteEvents(false, query, data), Some(r.error.error)))
  }

  predicate TransactionEvent(e: Event)
  {
    e.Begin? || e.Commit? || e.Rollback?
  }

  /** No call in the trace touches the transaction state. */
  predicate Quiet(calls: seq<Call>)
  {
    forall i :: 0 <= i < |calls| ==> !TransactionEvent(calls[i].event)
  }

  predicate QuietScript(script: seq<Event>)
  {
    forall i :: 0 <= i < |script| ==> !TransactionEvent(script[i])
  }

  /** The number of calls in the trace that made driver call `e`. */
  function Count(calls: seq<Call>, e: Event): nat
  {
    if calls == [] then 0
    else Count(calls[..|calls| - 1], e) + (if calls[|calls| - 1].event == e then 1 else 0)
  }

  function Flatten(runs: seq<seq<Call>>): seq<Call>
  {
    if runs == [] then [] else Flatten(runs[..|runs| - 1]) + runs[|runs| - 1]
  }

  /** A run that succeeded up to its end followed by another run is a run of the joined scripts. */
  lemma {:induction false} RanThen(c1: seq<Call>, s1: seq<Event>, c2: seq<Call>, s2: seq<Event>, err: Option<Throwable>)
    requires Ran(c1, s1, None) && Ran(c2, s2, err)
    ensures Ran(c1 + c2, s1 + s2, err)
    decreases |c1|
  {
    if c1 == [] {
      assert c1 + c2 == c2 && s1 + s2 == s2;
    } else {
      RanThen(c1[1..], s1[1..], c2, s2, err);
      assert (c1 + c2)[1..] == c1[1..] + c2;
      assert (s1 + s2)[1..] == s1[1..] + s2;
    }
  }

  /** One more call after a run that succeeded so far. */
  lemma {:induction false} RanStep(c: seq<Call>, s: seq<Event>, e: Event, err: Option<Throwable>)
    requires Ran(c, s, None)
    ensures Ran(c + [Call(e, err)], s + [e], err)
  {
    assert Ran([Call(e, err)], [e], err) by {
      assert [Call(e, err)][1..] == [];
    }
    RanThen(c, s, [Call(e, err)], [e], err);
  }

  /** A run that threw stops there, whatever the script would have called afterwards. */
  lemma {:induction false} RanStops(c: seq<Call>, s: seq<Event>, t: seq<Event>, err: Option<Throwable>)
    requires Ran(c, s, err) && err.Some?
    ensures Ran(c, s + t, err)
    decreases |c|
  {
    if c[0].error.None? {
      RanStops(c[1..], s[1..], t, err);
      assert (s + t)[1..] == s[1..] + t;
    }
  }

  /** What a run says call by call: the script's prefix in order, all but the last call succeeded,
   *  and the run throws exactly when its last call did, which a complete run's never does. */
  lemma {:induction false} RanCalls(c: seq<Call>, s: seq<Event>, err: Option<Throwable>)
    requires Ran(c, s, err)
    ensures |c| <= |s|
    ensures forall i :: 0 <= i < |c| ==> c[i].event == s[i]
    ensures forall i :: 0 <= i < |c| - 1 ==> c[i].error.None?
    ensures err.Some? <==> Failed(c)
    ensures err.Some? ==> err.value == Thrown(c)
    ensures err.None? ==> |c| == |s|
    decreases |c|
  {
    if c != [] && c[0].error.None? {
      RanCalls(c[1..], s[1..], err);
      forall i | 0 < i < |c|
        ensures c[i] == c[1..][i - 1] && s[i] == s[1..][i - 1]
      {
      }
    }
  }

  /** Binding two arrays one after the other makes the calls of each, in that order. */
  lemma {:induction false} BindEventsAppend(a: seq<Entry>, b: seq<Entry>)
    ensures BindEvents(a + b) == BindEvents(a) + BindEvents(b)
    decreases |b|
  {
    if b == [] {
      assert a + b == a;
    } else {
      var front := b[..|b| - 1];
      assert (a + b)[..|a + b| - 1] == a + front;
      assert (a + b)[|a + b| - 1] == b[|b| - 1];
      BindEventsAppend(a, front);
    }
  }

  /** After prepare: a throw ends the statement there; otherwise the binds come next. */
  lemma {:induction false} StatementPrepared(query: string, data: seq<Entry>, err: Option<Throwable>)
    requires Checked(Call(Prepare(query), err))
    ensures AllChecked([Call(Prepare(query), err)])
    ensures err.Some? ==> Ran([Call(Prepare(query), err)], StatementEvents(query, data), err)
    ensures err.None? ==> Ran([Call(Prepare(query), err)], [Prepare(query)], None)
  {
    if err.Some? {
      RanStops([Call(Prepare(query), err)], [Prepare(query)], BindEvents(data) + [Execute], err);
      assert [Prepare(query)] + (BindEvents(data) + [Execute]) == StatementEvents(query, data);
    }
  }

  /** After the binds: a throw ends the statement there; otherwise execute comes next. */
  lemma {:induction false} StatementBound(query: string, data: seq<Entry>, c: seq<Call>, bound: seq<Call>,
                                          err: Option<Throwable>)
    requires Ran(c, [Prepare(query)], None) && Ran(bound, BindEvents(data), err)
    requires AllChecked(c) && AllChecked(bound)
    ensures AllChecked(c + bound)
    ensures err.Some? ==> Ran(c + bound, StatementEvents(query, data), err)
    ensures err.None? ==> Ran(c + bound, [Prepare(query)] + BindEvents(data), None)
  {
    RanThen(c, [Prepare(query)], bound, BindEvents(data), err);
    CheckedAppend(c, bound);
    if err.Some? {
      RanStops(c + bound, [Prepare(query)] + BindEvents(data), [Execute], err);
    }
  }

  /** The execute call completes the statement. */
  lemma {:induction false} StatementExecuted(query: string, data: seq<Entry>, c: seq<Call>, err: Option<Throwable>)
    requires Ran(c, [Prepare(query)] + BindEvents(data), None) && AllChecked(c)
    requires Checked(Call(Execute, err))
    ensures Ran(c + [Call(Execute, err)], StatementEvents(query, data), err)
    ensures AllChecked(c + [Call(Execute, err)])
  {
    RanThen(c, [Prepare(query)] + BindEvents(data), [Call(Execute, err)], [Execute], err);
    CheckedAppend(c, [Call(Execute, err)]);
  }

  /** One more element bound after the first `i` were: the run goes on, or stops for good. */
  lemma {:induction false} BindStep(data: seq<Entry>, i: nat, calls: seq<Call>, step: seq<Call>, err: Option<Throwable>)
    requires i < |data| && Ran(calls, BindEvents(data[..i]), None) && Ran(step, EntryBinds(data[i]), err)
    requires AllChecked(calls) && AllChecked(step)
    ensures Ran(calls + step, BindEvents(data[..i + 1]), err) && AllChecked(calls + step)
    ensures err.Some? ==> Ran(calls + step, BindEvents(data), err)
  {
    RanThen(calls, BindEvents(data[..i]), step, EntryBinds(data[i]), err);
    CheckedAppend(calls, step);
    assert data[..i + 1][..i] == data[..i];
    if err.Some? {
      BindStops(data, i, calls + step, err);
    }
  }

  /** A bind run that threw by element `i` is a run of all the elements. */
  lemma {:induction false} BindStops(data: seq<Entry>, i: nat, calls: seq<Call>, err: Option<Throwable>)
    requires i < |data| && Ran(calls, BindEvents(data[..i + 1]), err) && err.Some?
    ensures Ran(calls, BindEvents(data), err)
  {
    BindEventsSplit(data, i + 1);
    RanStops(calls, BindEvents(data[..i + 1]), BindEvents(data[i + 1..]), err);
  }

  lemma {:induction false} BindEventsSplit(data: seq<Entry>, k: nat)
    requires k <= |data|
    ensures BindEvents(data) == BindEvents(data[..k]) + BindEvents(data[k..])
  {
    assert data == data[..k] + data[k..];
    BindEventsAppend(data[..k], data[k..]);
  }
}
