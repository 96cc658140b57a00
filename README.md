# SQL builders and transactional connection, in Dafny

This project models the two parts of a small PHP database layer and proves properties about them.

**The query builders of `Classes/query.class.php`.**
- `Select_Query`, `Insert_Query`, `Update_Query`, `Delete_Query` and `Union_Query` each gather clause fragments in place and render them as one SQL string. Join targets are `Join_Query` values.
- Each builder is a Dafny class with the PHP fields (module `QueryBuilders`).
- `State()` snapshots a builder into a datatype (module `Query`). Each mutator's contract ties the new snapshot to a pure step function of the old one.
- Each `get()` is a function on snapshots (`RenderSelect`, `RenderInsert`, `RenderUpdate`, `RenderDelete`, `RenderUnion`, `RenderJoin`).
- `getJoins` keeps its accumulating loop (`SelectQuery.GetJoins`).
- Module `QueryFacts` proves what the renderers and mutators promise: clause order whatever the call order, where/limit accumulation, list clauses, join targets, insert modes, update pairing, terminators.
- `Strings` holds PHP `implode` and its inverse, a character split.

**The `Connection` class of `Classes/connection.class.php`** (module `Db`).
- The PDO handle and its statements are a `Pdo.Driver` object. It records every call, and its outcome, in a ghost log. Any call may throw, for reasons the model does not see.
- The driver call scripts of bind, fetch, fetchAll and execute are functions in module `Scripts`. So is the predicate `Ran`: the calls of a script, in order, until the first one that throws.
- The methods of `Connection` are proved to make exactly those calls:
  - `exec` dispatches on the action code;
  - `bind` loops over `$data`;
  - `execute` wraps the statement in its own transaction unless a user transaction is open, and rolls back after a PDOException;
  - the user transaction flag is changed by `beginTransaction`, `commitTransaction` and `rollBackTransaction`.
- Any driver call may throw a PDOException. Some calls are refused every time for their arguments, as PHP 8 does it. `prepare` throws a ValueError when the query is empty. `bindParam` throws a TypeError when its type or length is a string, and a ValueError when its parameter number is below 1 or its parameter name is empty. `fetch` throws a TypeError when it is given a class name (see "Fetch into a class" below).
- Module `DbFacts` proves what the traces imply about transaction calls.
- Module `Session` drives one user transaction through a `Connection` and proves what its trace holds.

Behaviour kept as the code has it:
- **Insert mode.** `setType` never throws. `!$this->_type` holds for null and for `VALUES_COLUMNS` (0) alike, so the mode is decided again on every call while it is unset or `VALUES_COLUMNS`; once `VALUES_ONLY` is set it stays. The mixed-mode test joins two exclusive conditions with `&&`, so it never holds.
- **Mixed inserts.** The docblock of `setType` (`Classes/query.class.php:616-618`) says one form is forced on all inserts of a query. The code does not: a column-less insert after inserts with columns is accepted, and the query renders the values only (`QueryFacts.InsertExample`).
- **`forceIndex`.** `forceIndex(array)` leaves the hint list unchanged, because the merged array is discarded.
- **HAVING.** Terms are joined by `" AND"`, which has no trailing space.
- **INSERT and UPDATE.** Both put two spaces before the table name (`"INSERT INTO "` and `"UPDATE "`, each followed by `" " . table`).
- **UPDATE and DELETE.** They ignore joins, and DELETE also ignores index hints.
- **Terminators.** Every `get($end)` ends in `" ;"` when `$end` is true. A union always ends in `";"`, with no space.
- **ORDER BY.** `ORDER_ASC` emits `" ASC"`, and only `ORDER_DESC` and `ORDER_ASC` add a suffix. So an ascending select ends `... ORDER BY name ASC LIMIT 10 ;` (`QueryFacts.SelectExample`).
- **Nested transactions.** `beginTransaction` raises the flag before calling the driver, and does not check for an open transaction.
- **Failed commit or rollback.** A `commitTransaction` or `rollBackTransaction` whose driver call throws leaves the flag raised. The flag is cleared only after a successful call.
- **Failed execute.** A PDOException propagates after `rollBack`. If `rollBack` throws too, its exception is the one that propagates.
- **Argument errors in execute.** The catch of `execute` takes only `PDOException`. Under PHP 8, `prepare` throws a `ValueError` when the query is the empty string. `bindParam` throws a `TypeError` when a bind array's third or fourth item is a non-numeric string, and a `ValueError` when the parameter is a number below 1 or an empty name. Any of these leaves a self-wrapped execute with no `rollBack`: the transaction it began stays open while the user flag stays down (`DbFacts.WrappedExecuteLeftOpen`). A self-wrapped execute of the empty query never succeeds: either `beginTransaction` threw and `rollBack` followed, or `prepare` threw the `ValueError` and the transaction stays open (`DbFacts.EmptyQueryLeftOpen`). A plain list binds a bare first element under key 0, so a self-wrapped execute of a non-empty list whose first element is a bare value never succeeds either. If that execute gets as far as its first refused call (that `bindParam`, or the `prepare` of an empty query), it ends there with the `ValueError` and the transaction left open. Otherwise `beginTransaction` or `prepare` threw a PDOException and `rollBack` followed (`DbFacts.ListKeyZeroLeftOpen`). This says nothing of an empty list, which binds nothing, or of a list whose first element is itself an array, which binds under the key that array carries. With a non-empty query and binds that all pass those checks, every failure is followed by `rollBack` (`DbFacts.WellFormedExecuteRollsBack`).
- **Fetch into a class.** `fetch` with a class (`Classes/connection.class.php:111`) calls `$result->fetch(PDO::FETCH_CLASS, $class)`. The second parameter of `PDOStatement::fetch` is the int cursor orientation, not a class, so under PHP 8 that call throws a TypeError and `fetch` never returns a row on this path (`DbFacts.FetchIntoClassFails`). `fetchAll` takes the class as its second argument and is not affected.
- **Calls after close.** `exec` tests the handle and returns null without a driver call. The transaction methods do not test it.

## Model

| member | source | states |
|---|---|---|
| Strings.SplitImplode | Classes/query.class.php:550 | splitting `implode(c, items)` at `c`, when no item contains `c`, gives back exactly the items |
| Strings.ImplodeSnoc | Classes/query.class.php:550 | imploding one more item appends the separator and that item |
| QueryFacts.CommaListRoundTrip | Classes/query.class.php:430 | a comma-joined list of comma-free names splits back into the same names |
| Query.ModeAfter | Classes/query.class.php:622-632 | after `setType` the mode is `VALUES_COLUMNS` exactly when a column is given and the mode was unset or `VALUES_COLUMNS`; `VALUES_ONLY` is never left |
| QueryFacts.CallOrderIrrelevant | Classes/query.class.php:576-591 | two call sequences with the same calls per clause give the same state, hence the same SQL, whatever the interleaving |
| QueryFacts.ClauseSeesOnlyItsCalls | Classes/query.class.php:480-525 | each clause of a select depends only on the calls made to that clause |
| QueryFacts.ReplayKeepsTable | Classes/query.class.php:248-258 | no builder call changes the table or its alias |
| QueryFacts.SelectTerminator | Classes/query.class.php:342-346 | `get(true)` is `get(false)` followed by exactly `" ;"` |
| QueryFacts.SelectExample | Classes/query.class.php:576-591 | a concrete select renders `SELECT id,name FROM users WHERE age > 18 ORDER BY name ASC LIMIT 10 ;` |
| QueryFacts.ReplayWhere | Classes/query.class.php:402-415 | the where buffer after any calls is the fold of the where calls alone, in call order |
| QueryFacts.WhereFromNothing | Classes/query.class.php:402-415 | from an empty buffer, the first fragment gets no separator and each later one gets its separator's text |
| QueryFacts.WhereJoinedBy | Classes/query.class.php:402-415 | when every later call passes `" AND "` (or every one `" OR "`), the buffer is the fragments imploded with it |
| QueryFacts.WhereWithoutSeparators | Classes/query.class.php:402-415 | when no later call passes `" AND "` or `" OR "`, the fragments are concatenated directly |
| QueryFacts.LimitSteps | Classes/query.class.php:263-275 | the three conditional appends of `limit` add `" off,"` before (MySQL) or `" OFFSET off"` after (PostgreSQL) the `" n"` |
| QueryFacts.ReplayLimit | Classes/query.class.php:263-275 | the limit buffer after any calls is the fold of the limit calls alone, in call order |
| QueryFacts.LimitAccumulates | Classes/query.class.php:263-275 | limit calls only append: the buffer is the earlier buffer (or `""`) followed by each call's piece in order |
| QueryFacts.LimitRendering | Classes/query.class.php:323 | nothing renders before the first limit call; afterwards the clause is `" LIMIT"` followed by the pieces |
| QueryFacts.ReplayOrderBy | Classes/query.class.php:516-525 | order-by terms are the earlier terms followed by one term per call, in call order |
| QueryFacts.IndexHints | Classes/query.class.php:389-396 | `forceIndex(array)` leaves the hints unchanged; `forceIndex(name)` appends exactly that name |
| QueryFacts.HavingGlue | Classes/query.class.php:560 | each later having term is appended after `" AND"` with no space, e.g. `" HAVING a > 1 ANDb < 2"` |
| QueryFacts.JoinsInOrder | Classes/query.class.php:328-340 | the joins clause is the concatenation of every join's text, in join order |
| QueryFacts.NestedSelect | Classes/query.class.php:97-132 | a select join target renders as `type (` + the subquery's `get(false)` + `)`, before any alias or condition |
| QueryFacts.JoinOperands | Classes/query.class.php:284-293 | `join` accepts exactly strings and selects, wrapping each as a raw or nested target |
| QueryFacts.UnionTerminator | Classes/query.class.php:199-207 | a union always ends in `";"`, right after `")"` when it has no order-by |
| QueryFacts.InsertModes | Classes/query.class.php:622-648 | after any inserts: values in call order; columns are those of the leading inserts that gave one; mode unset iff no insert, `VALUES_COLUMNS` iff every insert gave a column, else `VALUES_ONLY` |
| QueryFacts.AllColumnsLead | Classes/query.class.php:638-648 | when every insert gave a column there are as many columns as inserts |
| QueryFacts.InsertKeepsBase | Classes/query.class.php:638-648 | inserts never change the table, limit or joins |
| QueryFacts.InsertRenders | Classes/query.class.php:659-698 | a fresh insert renders the column list only in column mode and otherwise just the values, after `"INSERT INTO  " + table` |
| QueryFacts.InsertStepConsistent | Classes/query.class.php:638-648 | each insert keeps the column and value counts equal while in column mode |
| QueryFacts.ConsistentInsertRenders | Classes/query.class.php:659-683 | under that invariant the count-mismatch exception of `getData` is never thrown |
| QueryFacts.InsertExample | Classes/query.class.php:638-698 | two inserts with columns and one without render `INSERT INTO  users VALUES (1,Bob,2) ;` |
| QueryFacts.UpdateLists | Classes/query.class.php:718-725 | update calls keep the two lists equally long and add one `col=val` pair per call |
| QueryFacts.UpdatePairing | Classes/query.class.php:735-751 | N update calls render N comma-separated pairs paired by call order, which split back into the pairs |
| QueryFacts.NoJoinsRendered | Classes/query.class.php:762-806 | update output does not depend on joins; delete output depends on neither joins nor index hints |
| QueryBuilders.SelectQuery.constructor | Classes/query.class.php:465-475 | a new select is the empty state on the given table and alias |
| QueryBuilders.SelectQuery.Limit | Classes/query.class.php:263-275 | the state after `limit` is the limit step applied to the old state |
| QueryBuilders.SelectQuery.Join | Classes/query.class.php:284-293 | any other operand is rejected with the state unchanged; a string or select adds one join |
| QueryBuilders.SelectQuery.ForceIndex | Classes/query.class.php:389-396 | the state after `forceIndex` is the index step applied to the old state |
| QueryBuilders.SelectQuery.Where | Classes/query.class.php:402-415 | the state after `where` is the where step applied to the old state |
| QueryBuilders.SelectQuery.Select | Classes/query.class.php:480-488 | appends one select term, with its alias |
| QueryBuilders.SelectQuery.GroupBy | Classes/query.class.php:493-499 | appends one group-by column |
| QueryBuilders.SelectQuery.Having | Classes/query.class.php:504-510 | appends one having statement |
| QueryBuilders.SelectQuery.OrderBy | Classes/query.class.php:516-525 | appends one order-by term with its direction suffix |
| QueryBuilders.SelectQuery.GetJoins | Classes/query.class.php:328-340 | the accumulating loop yields the joins clause of the current joins |
| QueryBuilders.SelectQuery.Get | Classes/query.class.php:576-591 | the text is the select rendering of the current state |
| QueryBuilders.InsertQuery.constructor | Classes/query.class.php:248-258 | a new insert is on the given table and alias, with no joins, limit or mode and no columns or values, so the count invariant holds |
| QueryBuilders.InsertQuery.Limit | Classes/query.class.php:263-275 | the limit step applied to the base, nothing else changed, the invariant kept |
| QueryBuilders.InsertQuery.Join | Classes/query.class.php:284-293 | any other operand is rejected with the state unchanged; a string or select adds one join; the invariant is kept |
| QueryBuilders.InsertQuery.SetType | Classes/query.class.php:622-632 | never throws, and sets the mode as `ModeAfter` describes |
| QueryBuilders.InsertQuery.Insert | Classes/query.class.php:638-648 | applies one insert step and keeps the count invariant |
| QueryBuilders.InsertQuery.Get | Classes/query.class.php:694-698 | an error exactly on a column/value count mismatch in column mode, never under the invariant |
| QueryBuilders.UpdateQuery.constructor | Classes/query.class.php:376-384 | a new update is on the given table and alias, with no joins, limit, hints or where, and no pairs |
| QueryBuilders.UpdateQuery.Limit | Classes/query.class.php:263-275 | the limit step applied to the base, nothing else changed, the count invariant kept |
| QueryBuilders.UpdateQuery.Join | Classes/query.class.php:284-293 | any other operand is rejected with the state unchanged; a string or select adds one join |
| QueryBuilders.UpdateQuery.ForceIndex | Classes/query.class.php:389-396 | the index step applied to the hints, nothing else changed |
| QueryBuilders.UpdateQuery.Where | Classes/query.class.php:402-415 | the where step applied to the where buffer, nothing else changed |
| QueryBuilders.UpdateQuery.Update | Classes/query.class.php:718-725 | appends one column and one value, keeping their counts equal |
| QueryBuilders.UpdateQuery.Get | Classes/query.class.php:762-776 | the text is the update rendering, which fails exactly when the counts differ |
| QueryBuilders.DeleteQuery.constructor | Classes/query.class.php:376-384 | a new delete is on the given table and alias, with no joins, limit, hints or where |
| QueryBuilders.DeleteQuery.Limit | Classes/query.class.php:263-275 | the limit step applied to the base, nothing else changed |
| QueryBuilders.DeleteQuery.Join | Classes/query.class.php:284-293 | any other operand is rejected with the state unchanged; a string or select adds one join |
| QueryBuilders.DeleteQuery.ForceIndex | Classes/query.class.php:389-396 | the index step applied to the hints, nothing else changed |
| QueryBuilders.DeleteQuery.Where | Classes/query.class.php:402-415 | the where step applied to the where buffer, nothing else changed |
| QueryBuilders.DeleteQuery.Get | Classes/query.class.php:796-806 | the text is the delete rendering, starting with `"DELETE FROM " + table` |
| QueryBuilders.UnionQuery.constructor | Classes/query.class.php:159-168 | a new union refers to the two selects themselves and has no order-by terms |
| QueryBuilders.UnionQuery.OrderBy | Classes/query.class.php:174-183 | appends one order-by term |
| QueryBuilders.UnionQuery.Get | Classes/query.class.php:199-207 | renders both selects as they are now, and ends in `";"` |
| Scripts.RanThen | Classes/connection.class.php:105-117 | a run that completed, followed by another run, is a run of the joined scripts |
| Scripts.RanStops | Classes/connection.class.php:105-117 | once a call throws, nothing after it in the script is called |
| Scripts.RanCalls | Classes/connection.class.php:105-117 | a run makes a prefix of its script, all calls but the last succeed, and it throws exactly when its last call did |
| Scripts.BindEventsAppend | Classes/connection.class.php:75-92 | binding two arrays in turn makes the calls of each, in that order |
| DbFacts.BindsWellShaped | Classes/connection.class.php:73-94 | every call of `bind` is a bindParam with two to five arguments |
| DbFacts.ScalarBinds | Classes/connection.class.php:86-90 | bare values are bound one call each, in order, as `(key, value)` |
| DbFacts.OddTupleIgnored | Classes/connection.class.php:77-85 | an array element of other than two to five items makes no call |
| DbFacts.StatementQuiet | Classes/connection.class.php:107-109 | prepare, bind and execute contain no begin, commit or rollBack |
| DbFacts.UserExecuteQuiet | Classes/connection.class.php:152-172 | inside a user transaction `execute` makes no transaction call, on success or failure |
| DbFacts.FetchQuiet | Classes/connection.class.php:103-144 | `fetch` and `fetchAll` make no transaction call, on success or failure |
| DbFacts.WrappedExecuteSucceeded | Classes/connection.class.php:154-163 | a self-wrapped execute returning true made all its script's calls, all successful: begin first, commit last |
| DbFacts.WrappedExecuteCounts | Classes/connection.class.php:154-163 | it began once, committed once and never rolled back |
| DbFacts.WrappedExecuteFailed | Classes/connection.class.php:165-169 | a self-wrapped execute that threw a PDOException committed nothing successfully and ends with rollBack |
| DbFacts.WrappedExecuteArgumentError | Classes/connection.class.php:152-172 | a self-wrapped execute that threw anything but a PDOException stopped at a call refused for its arguments: a bindParam (a text type or length for a TypeError, a key below 1 or an empty name for a ValueError) or the prepare of an empty query (a ValueError); begin succeeded and there was no transaction call since |
| DbFacts.WrappedExecuteLeftOpen | Classes/connection.class.php:152-172 | such an execute began once and neither committed nor rolled back |
| DbFacts.WellFormedBinds | Classes/connection.class.php:77-90 | when every element has a key of 1 or more or a non-empty name, and every bind array also has ints for type and length, no bindParam call fails those checks |
| DbFacts.RanWithoutArgumentError | Classes/connection.class.php:105-117 | a run whose bindParam calls all pass the argument checks, which prepares no empty query and fetches into no class, can only throw a PDOException |
| DbFacts.WellFormedExecuteRollsBack | Classes/connection.class.php:152-172 | with a non-empty query and well-formed data, every failure of a self-wrapped execute is a PDOException followed by rollBack |
| DbFacts.ListKeyZeroLeftOpen | Classes/connection.class.php:86-88 | a self-wrapped execute of a non-empty list whose first element is a bare value (bound under key 0) never succeeds. Either its first refused call (that bindParam, or the prepare of an empty query) threw a ValueError and the run ends there with one begin, no commit and no rollBack. Or begin or prepare threw a PDOException before any bindParam, and rollBack followed |
| DbFacts.ExecuteFetchesNothing | Classes/connection.class.php:154-163 | a self-wrapped execute makes no fetch or fetchAll call |
| DbFacts.RefusedCallStops | Classes/connection.class.php:75-92 | a run whose script holds a call refused with a ValueError (a bindParam with a bad key, a prepare of an empty query) always throws, never gets past that call, and throws the ValueError if it reaches it |
| DbFacts.EmptyQueryLeftOpen | Classes/connection.class.php:152-169 | a self-wrapped execute of the empty query never succeeds: begin threw and was followed by rollBack, or begin succeeded and prepare threw a ValueError with nothing after it |
| DbFacts.FetchIntoClassFails | Classes/connection.class.php:103-119 | `fetch` with a class never returns a row: either the statement threw, or it ran and the fetch threw a TypeError |
| DbFacts.UserTransactionSpan | Classes/connection.class.php:174-201 | begin, any number of quiet executes or fetches, then commit: exactly one begin, one commit, no rollBack |
| Db.Connection.constructor | Classes/connection.class.php:25-38 | a new connection holds an open handle outside any user transaction |
| Db.Connection.Exec | Classes/connection.class.php:47-67 | action 1 fetches, 2 fetches all, 3 executes; a closed handle or other code calls nothing and returns null |
| Db.Connection.Bind | Classes/connection.class.php:73-94 | the loop makes the bind script of `data`, stopping at the first bindParam that throws |
| Db.Connection.BindEntry | Classes/connection.class.php:77-90 | one element binds its 2 to 5 items, its key and value, or nothing |
| Db.Connection.Statement | Classes/connection.class.php:107-109 | prepare, bind, execute in order until one throws |
| Db.Connection.Fetch | Classes/connection.class.php:103-119 | the statement, then one fetch in the requested shape, the class name passed where fetch takes its cursor orientation; a thrown error propagates |
| Db.Connection.FetchAll | Classes/connection.class.php:128-144 | the statement, then one fetchAll in the requested shape; a thrown error propagates |
| Db.Connection.Transacted | Classes/connection.class.php:154-163 | begin, the statement, commit, stopping at the first call that throws |
| Db.Connection.Execute | Classes/connection.class.php:152-172 | a user transaction runs the bare statement; otherwise the wrapped one, with rollBack after a PDOException and none after a TypeError or ValueError; true on success |
| Db.Connection.BeginTransaction | Classes/connection.class.php:174-179 | raises the flag, then makes one begin call, even if the flag was already raised |
| Db.Connection.CommitTransaction | Classes/connection.class.php:181-190 | no call when the flag is down; else one commit, clearing the flag unless the commit threw |
| Db.Connection.RollBackTransaction | Classes/connection.class.php:192-201 | no call when the flag is down; else one rollBack, clearing the flag unless it threw |
| Db.Connection.Close | Classes/connection.class.php:203-208 | drops the handle and leaves the flag as it was |
| Pdo.Driver.Prepare | Classes/connection.class.php:107 | the call is logged with its outcome; an empty query always throws a ValueError, and any other query only a PDOException |
| Pdo.Driver.BindParam | Classes/connection.class.php:81-88 | the call is logged with its outcome; a text third or fourth argument always throws a TypeError; otherwise a key below 1 or an empty name always throws a ValueError; otherwise only a PDOException can be thrown |
| Pdo.Driver.Fetch | Classes/connection.class.php:110-111 | the call is logged with its outcome; with a class it always throws a TypeError, and with `FETCH_ASSOC` only a PDOException can be thrown |
| Session.TwoStatements | Classes/connection.class.php:174-190 | beginTransaction, two plain `exec` calls and commitTransaction, stopping at the first throw: one begin, no rollBack, at most one commit, and exactly one with the flag lowered when nothing threw |

## Left out

- Opening the PDO handle from a DSN (`Classes/connection.class.php:25-38`) is connection I/O. The constructor receives an opened `Driver`.
- Row hydration (`FETCH_ASSOC`, `FETCH_CLASS`) is the database library's behaviour. A fetch returns an opaque `Rows` value, and only the requested shape is recorded.
- The catch-and-rethrow blocks of the constructor, `fetch` and `fetchAll` change nothing and are not modelled separately. A thrown error is an `Err` result.
- `__destruct` is garbage-collection plumbing. `close` is modelled as lowering `open`.
- `bindParam` binds PHP variables by reference, read when the statement executes. The model records the arguments at call time.
- `bind` reads array elements as `$row[0]` to `$row[4]`, so it assumes list-shaped arrays. The model's tuples are sequences.
- Calling `beginTransaction`, `commitTransaction` or `rollBackTransaction` after `close` makes PHP call a method on null, which raises an error. The model returns the `NoHandle` failure and keeps the PHP side effects before the call.
- `exec` compares the action code with `===`. The model takes an integer, so a string such as `"1"` cannot be expressed.
- `$class` is `false` or a class name. The model's `Option<string>` does not express other values.
- The interfaces `iQuery` and `OrderBy_Query` carry no behaviour. The builders' `Base_Query`/`Where_Query` inheritance is flattened into each class.
- The default join type `Join_Query::Join` names a constant that does not exist. The join type is an explicit argument.
- `Update_Query::hasData` reads the malformed `$this->$_values` and is never called.
- `Select_Query` leaves `groupBy` and `having` uninitialised (null), and `hasGroupBy`/`hasHaving` (`Classes/query.class.php:535`, `:540`) call `count` on them. The query builders are modelled as PHP 7 runs them, where `count(null)` is 0, and the lists start empty. Under PHP 8 that `count` throws a TypeError, so `get` fails on every select that has not called both `groupBy` and `having` (including the one in `QueryFacts.SelectExample`); this is not modelled.
- PHP coerces inserted and updated values to strings. The model takes strings.
- Builders return `$this` for chaining. Dafny methods return nothing, so chaining is modelled as successive calls.
- QueryBuilders.SelectQuery.Join: a select join target is stored as a snapshot of its state when `join` is called. PHP keeps a reference, so later changes to the subquery would show in PHP's output; this aliasing is not captured. Nor is a select joined to itself (directly or through another select), whose PHP `get()` recurses without end; a snapshot cannot contain itself. `UnionQuery` does keep references and renders both selects when `get` is called.
- Pdo.Driver.Prepare: PHP 7 makes no empty-query check, so there an empty query goes to the driver like any other and can fail only with a PDOException. The model follows PHP 8.
- Pdo.Driver.BindParam: the model's `Text` stands for a non-numeric string. PHP 8 coerces numeric strings such as `"2"` where an int is expected, and the model does not express them. Under PHP 7 neither check throws a TypeError or ValueError: a text type is a warning, and a key below 1 is reported as a PDOException. The model follows PHP 8 here. Other throwables that are not PDOExceptions, such as running out of memory, are not modelled.
- Pdo.Driver.Fetch: a class name is always taken to be non-numeric, as PHP class names are, so it always throws a TypeError. Under PHP 7 the same call emits a warning and returns false instead; the model follows PHP 8 here too.
