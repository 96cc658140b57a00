/**
 * The PDO handle and the statements it prepares, reduced to what `Classes/connection.class.php`
 * relies on: every call is recorded, in order, in a ghost log together with its outcome. Any call
 * may throw a PDOException for reasons the model does not see. Under PHP 8 some calls are refused
 * every time for their arguments: prepare with a ValueError for an empty query, bindParam with a
 * TypeError for text where an int belongs or a ValueError for a parameter key below 1 or an empty
 * parameter name, and fetch with a TypeError for the class name that `Connection::fetch` passes
 * where a cursor orientation (an int) belongs.
 */
module Pdo {
  import opened Wrappers

  /** A PHP scalar handed to `bindParam` (a parameter key, a value, a type or length code). */
  datatype Value = Int(i: int) | Text(s: string)

  /** How a fetch hydrates rows: `PDO::FETCH_ASSOC`, or `PDO::FETCH_CLASS` with a class name. */
  datatype FetchShape = Assoc | IntoClass(name: string)

  /** The driver calls the connection makes. */
  datatype Event =
    | Begin                     // PDO::beginTransaction
    | Commit                    // PDO::commit
    | Rollback                  // PDO::rollBack
    | Prepare(query: string)    // PDO::prepare
    | Bind(args: seq<Value>)    // PDOStatement::bindParam, with its arguments in order
    | Execute                   // PDOStatement::execute
    | Fetch(shape: FetchShape)  // PDOStatement::fetch
    | FetchAll(shape: FetchShape)

  /**
   * What a driver call can throw. With `PDO::ERRMODE_EXCEPTION` set, the handle and its statements
   * report database errors as a PDOException. Under PHP 8, `prepare` refuses an empty query with
   * a ValueError, and `bindParam` checks its arguments first: a `$type` or `$maxLength` that is a non-numeric string is a TypeError, and a parameter
   * number below 1 or an empty parameter name is a ValueError. `PDOStatement::fetch` takes an int
   * as its second argument, so a class name there is a TypeError.
   */
  datatype Throwable = PdoException(code: int) | TypeError | ValueError

  /** `bindParam(param, var, int type, int maxLength, options)`: a text third or fourth argument. */
  predicate TypeMismatch(args: seq<Value>)
  {
    (|args| > 2 && args[2].Text?) || (|args| > 3 && args[3].Text?)
  }

  /** `bindParam(param, …)`: a parameter number below 1, or an empty parameter name. */
  predicate BadKey(args: seq<Value>)
  {
    |args| > 0 && ((args[0].Int? && args[0].i < 1) || args[0] == Text(""))
  }

  /** A call PHP 8 refuses with a TypeError whatever the database would do. */
  predicate TypeRefused(e: Event)
  {
    (e.Bind? && TypeMismatch(e.args)) || (e.Fetch? && e.shape.IntoClass?)
  }

  /** A call PHP 8 refuses with a ValueError: a bad bindParam key (once the types pass), an empty query. */
  predicate ValueRefused(e: Event)
  {
    (e.Bind? && BadKey(e.args) && !TypeMismatch(e.args)) || e == Prepare("")
  }

  /**
   * The argument checks PHP 8 makes before a call reaches the database: a TypeError exactly for
   * the calls `TypeRefused` names, a ValueError exactly for those `ValueRefused` names; anything
   * else a call throws is a PDOException.
   */
  predicate Checked(c: Call)
  {
    && (c.error == Some(TypeError) <==> TypeRefused(c.event))
    && (c.error == Some(ValueError) <==> ValueRefused(c.event))
  }

  predicate AllChecked(calls: seq<Call>)
  {
    forall i :: 0 <= i < |calls| ==> Checked(calls[i])
  }

  /** The calls of `a` and then `b` are checked exactly when each part is. */
  lemma {:induction false} CheckedAppend(a: seq<Call>, b: seq<Call>)
    ensures AllChecked(a + b) <==> AllChecked(a) && AllChecked(b)
  {
    if AllChecked(a + b) {
      forall i | 0 <= i < |a|
        ensures Checked(a[i])
      {
        assert a[i] == (a + b)[i];
      }
      forall i | 0 <= i < |b|
        ensures Checked(b[i])
      {
        assert b[i] == (a + b)[|a| + i];
      }
    }
    if AllChecked(a) && AllChecked(b) {
      forall i | 0 <= i < |a + b|
        ensures Checked((a + b)[i])
      {
        if i >= |a| {
          assert (a + b)[i] == b[i - |a|];
        }
      }
    }
  }

  /** One driver call and how it ended. */
  datatype Call = Call(event: Event, error: Option<Throwable>)

  /** What a fetch returns; row hydration is not modelled. */
  datatype Rows = Rows(token: int)

  /** The PDO handle, with the statement it last prepared folded into it. */
  class Driver {
    ghost var log: seq<Call>

    constructor ()
      ensures log == []
    {
      log := [];
    }

    method BeginTransaction() returns (err: Option<Throwable>)
      modifies this
      ensures log == old(log) + [Call(Event.Begin, err)]
      ensures err.Some? ==> err.value.PdoException?
    {
      err :| err.Some? ==> err.value.PdoException?;
      log := log + [Call(Event.Begin, err)];
    }

    method Commit() returns (err: Option<Throwable>)
      modifies this
      ensures log == old(log) + [Call(Event.Commit, err)]
      ensures err.Some? ==> err.value.PdoException?
    {
      err :| err.Some? ==> err.value.PdoException?;
      log := log + [Call(Event.Commit, err)];
    }

    method RollBack() returns (err: Option<Throwable>)
      modifies this
      ensures log == old(log) + [Call(Event.Rollback, err)]
      ensures err.Some? ==> err.value.PdoException?
    {
      err :| err.Some? ==> err.value.PdoException?;
      log := log + [Call(Event.Rollback, err)];
    }

    method Prepare(query: string) returns (err: Option<Throwable>)
      modifies this
      ensures log == old(log) + [Call(Event.Prepare(query), err)]
      ensures query == "" ==> err == Some(ValueError)
      ensures query != "" && err.Some? ==> err.value.PdoException?
    {
      if query == "" {
        err := Some(ValueError);
      } else {
        err :| err.Some? ==> err.value.PdoException?;
      }
      log := log + [Call(Event.Prepare(query), err)];
    }

    method BindParam(args: seq<Value>) returns (err: Option<Throwable>)
      modifies this
      ensures log == old(log) + [Call(Event.Bind(args), err)]
      ensures TypeMismatch(args) ==> err == Some(TypeError)
      ensures !TypeMismatch(args) && BadKey(args) ==> err == Some(ValueError)
      ensures !TypeMismatch(args) && !BadKey(args) && err.Some? ==> err.value.PdoException?
    {
      if TypeMismatch(args) {
        err := Some(TypeError);
      } else if BadKey(args) {
        err := Some(ValueError);
      } else {
        err :| err.Some? ==> err.value.PdoException?;
      }
      log := log + [Call(Event.Bind(args), err)];
    }

    method Execute() returns (err: Option<Throwable>)
      modifies this
      ensures log == old(log) + [Call(Event.Execute, err)]
      ensures err.Some? ==> err.value.PdoException?
    {
      err :| err.Some? ==> err.value.PdoException?;
      log := log + [Call(Event.Execute, err)];
    }

    method Fetch(shape: FetchShape) returns (rows: Rows, err: Option<Throwable>)
      modifies this
      ensures log == old(log) + [Call(Event.Fetch(shape), err)]
      ensures shape.IntoClass? ==> err == Some(TypeError)
      ensures shape.Assoc? && err.Some? ==> err.value.PdoException?
    {
      rows :| true;
      if shape.IntoClass? {
        err := Some(TypeError);
      } else {
        err :| err.Some? ==> err.value.PdoException?;
      }
      log := log + [Call(Event.Fetch(shape), err)];
    }

    method FetchAll(shape: FetchShape) returns (rows: Rows, err: Option<Throwable>)
      modifies this
      ensures log == old(log) + [Call(Event.FetchAll(shape), err)]
      ensures err.Some? ==> err.value.PdoException?
    {
      rows :| true;
      err :| err.Some? ==> err.value.PdoException?;
      log := log + [Call(Event.FetchAll(shape), err)];
    }
  }
}
