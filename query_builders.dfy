/**
 * The builder classes of `Classes/query.class.php` as objects whose fields their methods update
 * in place. PHP's `Base_Query` / `Where_Query` inheritance is flattened: every class carries the
 * fields of its ancestors, and `State()` gives the value (module Query) that the renderers and
 * the lemmas of module QueryFacts are about.
 *
 * Each mutator's contract ties the new `State()` to the pure step of module Query applied to the
 * old one; each `Get` builds its text step by step as the PHP `get()` does and is proved equal to
 * the renderer of module Query.
 */
module QueryBuilders {
  import opened Wrappers
  import opened Strings
  import opened Query
  import opened QueryFacts

  /** `Select_Query`. */
  class SelectQuery {
    var table: string
    var tableAs: Option<string>
    var joins: seq<Join>
    var limit: Option<string>
    var index: seq<string>
    var where: Option<string>
    var columns: seq<string>
    var groupBy: seq<string>
    var having: seq<string>
    var orderBy: seq<string>

    function State(): SelectState
      reads this
    {
      SelectState(Base(table, tableAs, joins, limit), Filter(index, where), columns, groupBy, having, orderBy)
    }

    constructor (table: string, tableAs: Option<string>)
      ensures State() == NewSelect(table, tableAs)
    {
      this.table := table;
      this.tableAs := tableAs;
      joins := [];
      limit := None;
      index := [];
      where := None;
      columns := [];
      groupBy := [];
      having := [];
      orderBy := [];
    }

    /** `limit($limit, $offset, $notation)`. */
    method Limit(count: string, offset: Option<string>, notation: int)
      modifies this
      ensures State() == Apply(old(State()), SelectCall.Limit(LimitArg(count, offset, notation)))
    {
      var start := if limit.None? then "" else limit.value;
      var buffer := start;
      if offset.Some? && notation == LimitMysql {
        buffer := buffer + " " + offset.value + ",";
      }
      buffer := buffer + " " + count;
      if offset.Some? && notation == LimitPostgresql {
        buffer := buffer + " OFFSET " + offset.value;
      }
      LimitSteps(start, LimitArg(count, offset, notation));
      limit := Some(buffer);
    }

    /**
     * `join($tojoin, $type, $condition, $as)`: a string or a select is appended as a join
     * (a select as it is now); anything else is refused with NotJoinable and changes nothing.
     */
    method Join(operand: JoinOperand, kind: string, condition: Option<string>, alias: Option<string>)
      returns (err: Option<QueryError>)
      modifies this
      ensures err.Some? <==> operand.OtherOperand?
      ensures err.Some? ==> err.value == NotJoinable && State() == old(State())
      ensures err.None? ==> State() == Apply(old(State()), AddJoin(JoinOf(operand, kind, condition, alias).value))
    {
      match operand
      case TextOperand(text) =>
        joins := joins + [Query.Join(kind, Raw(text), condition, alias)];
        err := None;
      case SelectOperand(q) =>
        joins := joins + [Query.Join(kind, Sub(q), condition, alias)];
        err := None;
      case OtherOperand =>
        err := Some(NotJoinable);
    }

    /** `forceIndex($index)`: a name is appended; an array leaves the hints as they were. */
    method ForceIndex(arg: IndexArg)
      modifies this
      ensures State() == Apply(old(State()), SelectCall.ForceIndex(arg))
    {
      if arg.OneIndex? {
        index := index + [arg.name];
      }
    }

    /** `where($where, $seperator)`. */
    method Where(fragment: string, separator: Option<string>)
      modifies this
      ensures State() == Apply(old(State()), SelectCall.Where(WhereArg(fragment, separator)))
    {
      var buffer := if where.None? then "" else where.value;
      if where.Some? && separator.Some? {
        if separator.value == WhereAnd || separator.value == WhereOr {
          buffer := buffer + separator.value;
        }
      }
      where := Some(buffer + fragment);
    }

    /** `select($select, $selectAs)`. */
    method Select(expr: string, alias: Option<string>)
      modifies this
      ensures State() == Apply(old(State()), Column(expr, alias))
    {
      var term := expr;
      if alias.Some? {
        term := term + " AS " + alias.value;
      }
      columns := columns + [term];
    }

    /** `groupBy($column)`. */
    method GroupBy(column: string)
      modifies this
      ensures State() == Apply(old(State()), SelectCall.GroupBy(column))
    {
      groupBy := groupBy + [column];
    }

    /** `having($statement)`. */
    method Having(statement: string)
      modifies this
      ensures State() == Apply(old(State()), SelectCall.Having(statement))
    {
      having := having + [statement];
    }

    /** `orderBy($column, $order)`. */
    method OrderBy(column: string, order: int)
      modifies this
      ensures State() == Apply(old(State()), SelectCall.OrderBy(column, order))
    {
      var term := column;
      if order == OrderDesc {
        term := term + " DESC";
      } else if order == OrderAsc {
        term := term + " ASC";
      }
      orderBy := orderBy + [term];
    }

    /** `getJoins()`: the joins rendered one after another, in the order they were added. */
    method GetJoins() returns (text: string)
      ensures text == JoinsText(joins)
    {
      text := "";
      var i := 0;
      while i < |joins|
        invariant 0 <= i <= |joins|
        invariant text == JoinsText(joins[..i])
      {
        assert joins[..i + 1][..i] == joins[..i];
        text := text + RenderJoin(joins[i]);
        i := i + 1;
      }
      assert joins[..|joins|] == joins;
    }

    /** `get($end)`: the clauses in their fixed order, each only when it is set. */
    method Get(end: bool) returns (text: string)
      ensures text == RenderSelect(State(), end)
    {
      var joinsPart := "";
      if |joins| > 0 {
        joinsPart := GetJoins();
      } else {
        assert joins == [];
      }
      var s := State();
      text := "SELECT " + Implode(",", s.columns) + " FROM" + " " + s.base.table + AsPart(s.base)
              + joinsPart + IndexPart(s.filter) + WherePart(s.filter) + GroupByPart(s.groupBy)
              + HavingPart(s.having) + OrderByPart(s.orderBy) + LimitPart(s.base) + Terminator(end);
    }
  }

  /** `Insert_Query`. */
  class InsertQuery {
    var table: string
    var tableAs: Option<string>
    var joins: seq<Join>
    var limit: Option<string>
    var mode: Option<int>
    var columns: seq<string>
    var values: seq<string>

    function State(): InsertState
      reads this
    {
      InsertState(Base(table, tableAs, joins, limit), mode, columns, values)
    }

    /** The invariant every `insert()` call keeps. */
    predicate Valid()
      reads this
    {
      InsertConsistent(State())
    }

    constructor (table: string, tableAs: Option<string>)
      ensures State() == InsertState(NewBase(table, tableAs), None, [], [])
      ensures Valid()
    {
      this.table := table;
      this.tableAs := tableAs;
      joins := [];
      limit := None;
      mode := None;
      columns := [];
      values := [];
    }

    /**
     * `limit()`, inherited from Base_Query; an insert never renders it. `SelectQuery.Limit`,
     * `ForceIndex` and `Where` spell out PHP's conditional steps and prove them equal to
     * `LimitAppend` (through `QueryFacts.LimitSteps`), `IndexAdd` and `WhereAppend`, so the
     * inherited copies here and in `UpdateQuery` and `DeleteQuery` apply those functions directly.
     */
    method Limit(count: string, offset: Option<string>, notation: int)
      modifies this
      ensures State() == old(State()).(base := old(State()).base.WithLimit(LimitArg(count, offset, notation)))
      ensures old(Valid()) ==> Valid()
    {
      limit := Some(LimitAppend(limit, LimitArg(count, offset, notation)));
    }

    /** `join()`, inherited from Base_Query; an insert never renders its joins. */
    method Join(operand: JoinOperand, kind: string, condition: Option<string>, alias: Option<string>)
      returns (err: Option<QueryError>)
      modifies this
      ensures err.Some? <==> operand.OtherOperand?
      ensures err.Some? ==> err.value == NotJoinable && State() == old(State())
      ensures err.None? ==> State() == old(State()).(base := old(State()).base.WithJoin(JoinOf(operand, kind, condition, alias).value))
      ensures old(Valid()) ==> Valid()
    {
      var j := JoinOf(operand, kind, condition, alias);
      if j.Some? {
        joins := joins + [j.value];
        err := None;
      } else {
        err := Some(NotJoinable);
      }
    }

    /**
     * `setType($useColumn)`. The mode is decided again whenever it is unset or VALUES_COLUMNS
     * (PHP's `!$this->_type` holds for both); the mixed-mode exception needs the mode to be
     * both VALUES_COLUMNS and VALUES_ONLY at once, so it is never thrown.
     */
    method SetType(useColumn: Option<string>) returns (err: Option<QueryError>)
      modifies this`mode
      ensures err.None?
      ensures mode == ModeAfter(old(mode), useColumn)
    {
      err := None;
      if mode.None? || mode == Some(ValuesColumns) {
        mode := Some(if useColumn.None? then ValuesOnly else ValuesColumns);
      } else if (mode == Some(ValuesColumns) && useColumn.None?) && (mode == Some(ValuesOnly) && useColumn.Some?) {
        assert false;
      }
    }

    /** `insert($value, $column)`: the column is kept only in column mode, the value always. */
    method Insert(value: string, column: Option<string>)
      modifies this
      ensures State() == InsertStep(old(State()), value, column)
      ensures old(Valid()) ==> Valid()
    {
      ghost var before := State();
      var _ := SetType(column);
      if mode == Some(ValuesColumns) {
        columns := columns + [column.value];
      }
      values := values + [value];
      if InsertConsistent(before) {
        InsertStepConsistent(before, value, column);
      }
    }

    /** `get($end)`: "INSERT INTO " + `getTable()` + `getData()` + terminator. */
    method Get(end: bool) returns (r: Result<string, QueryError>)
      ensures r == RenderInsert(State(), end)
      ensures Valid() ==> r.Ok?
      ensures r.Err? <==> (mode == Some(ValuesColumns) && |columns| != |values|)
    {
      var data := InsertData(State());
      if data.Err? {
        return Err(data.error);
      }
      r := Ok("INSERT INTO " + " " + table + data.value + Terminator(end));
    }
  }

  /** `Update_Query`. */
  class UpdateQuery {
    var table: string
    var tableAs: Option<string>
    var joins: seq<Join>
    var limit: Option<string>
    var index: seq<string>
    var where: Option<string>
    var columns: seq<string>
    var values: seq<string>

    function State(): UpdateState
      reads this
    {
      UpdateState(Base(table, tableAs, joins, limit), Filter(index, where), columns, values)
    }

    /** `update()` always appends a column and a value together. */
    predicate Valid()
      reads this
    {
      |columns| == |values|
    }

    constructor (table: string, tableAs: Option<string>)
      ensures State() == UpdateState(NewBase(table, tableAs), Filter([], None), [], [])
      ensures Valid()
    {
      this.table := table;
      this.tableAs := tableAs;
      joins := [];
      limit := None;
      index := [];
      where := None;
      columns := [];
      values := [];
    }

    method Limit(count: string, offset: Option<string>, notation: int)
      modifies this
      ensures State() == old(State()).(base := old(State()).base.WithLimit(LimitArg(count, offset, notation)))
      ensures old(Valid()) ==> Valid()
    {
      limit := Some(LimitAppend(limit, LimitArg(count, offset, notation)));
    }

    /** `join()`, inherited from Base_Query; an update never renders its joins. */
    method Join(operand: JoinOperand, kind: string, condition: Option<string>, alias: Option<string>)
      returns (err: Option<QueryError>)
      modifies this
      ensures err.Some? <==> operand.OtherOperand?
      ensures err.Some? ==> err.value == NotJoinable && State() == old(State())
      ensures err.None? ==> State() == old(State()).(base := old(State()).base.WithJoin(JoinOf(operand, kind, condition, alias).value))
      ensures old(Valid()) ==> Valid()
    {
      var j := JoinOf(operand, kind, condition, alias);
      if j.Some? {
        joins := joins + [j.value];
        err := None;
      } else {
        err := Some(NotJoinable);
      }
    }

    method ForceIndex(arg: IndexArg)
      modifies this
      ensures State() == old(State()).(filter := old(State()).filter.WithIndex(arg))
      ensures old(Valid()) ==> Valid()
    {
      index := IndexAdd(index, arg);
    }

    method Where(fragment: string, separator: Option<string>)
      modifies this
      ensures State() == old(State()).(filter := old(State()).filter.WithWhere(WhereArg(fragment, separator)))
      ensures old(Valid()) ==> Valid()
    {
      where := Some(WhereAppend(where, WhereArg(fragment, separator)));
    }

    /** `update($value, $column)`. */
    method Update(value: string, column: string)
      modifies this
      ensures State() == old(State()).WithAssignment(value, column)
      ensures old(Valid()) ==> Valid()
    {
      columns := columns + [column];
      values := values + [value];
    }

    /** `get($end)`: table, alias, SET and the pairs, then index hints, where and limit. */
    method Get(end: bool) returns (r: Result<string, QueryError>)
      ensures r == RenderUpdate(State(), end)
      ensures Valid() <==> r.Ok?
    {
      var s := State();
      if |s.columns| != |s.values| {
        return Err(UpdateColumnsMismatch);
      }
      var text := "UPDATE " + " " + s.base.table + AsPart(s.base)
                  + " SET " + Implode(",", Assignments(s.columns, s.values))
                  + IndexPart(s.filter) + WherePart(s.filter) + LimitPart(s.base);
      r := Ok(text + Terminator(end));
    }
  }

  /** `Delete_Query`. */
  class DeleteQuery {
    var table: string
    var tableAs: Option<string>
    var joins: seq<Join>
    var limit: Option<string>
    var index: seq<string>
    var where: Option<string>

    function State(): DeleteState
      reads this
    {
      DeleteState(Base(table, tableAs, joins, limit), Filter(index, where))
    }

    constructor (table: string, tableAs: Option<string>)
      ensures State() == DeleteState(NewBase(table, tableAs), Filter([], None))
    {
      this.table := table;
      this.tableAs := tableAs;
      joins := [];
      limit := None;
      index := [];
      where := None;
    }

    method Limit(count: string, offset: Option<string>, notation: int)
      modifies this
      ensures State() == old(State()).(base := old(State()).base.WithLimit(LimitArg(count, offset, notation)))
    {
      limit := Some(LimitAppend(limit, LimitArg(count, offset, notation)));
    }

    /** `join()`, inherited from Base_Query; a delete never renders its joins. */
    method Join(operand: JoinOperand, kind: string, condition: Option<string>, alias: Option<string>)
      returns (err: Option<QueryError>)
      modifies this
      ensures err.Some? <==> operand.OtherOperand?
      ensures err.Some? ==> err.value == NotJoinable && State() == old(State())
      ensures err.None? ==> State() == old(State()).(base := old(State()).base.WithJoin(JoinOf(operand, kind, condition, alias).value))
    {
      var j := JoinOf(operand, kind, condition, alias);
      if j.Some? {
        joins := joins + [j.value];
        err := None;
      } else {
        err := Some(NotJoinable);
      }
    }

    /** `forceIndex()`, inherited from Where_Query; a delete never renders the hints. */
    method ForceIndex(arg: IndexArg)
      modifies this
      ensures State() == old(State()).(filter := old(State()).filter.WithIndex(arg))
    {
      index := IndexAdd(index, arg);
    }

    method Where(fragment: string, separator: Option<string>)
      modifies this
      ensures State() == old(State()).(filter := old(State()).filter.WithWhere(WhereArg(fragment, separator)))
    {
      where := Some(WhereAppend(where, WhereArg(fragment, separator)));
    }

    /** `get($end)`: DELETE FROM, alias, where, limit, terminator. */
    method Get(end: bool) returns (text: string)
      ensures text == RenderDelete(State(), end)
      ensures IsPrefix("DELETE FROM " + table, text)
    {
      var s := State();
      var head := "DELETE" + " FROM" + " " + s.base.table;
      text := head + AsPart(s.base) + WherePart(s.filter) + LimitPart(s.base) + Terminator(end);
      assert head == "DELETE FROM " + table;
      assert text[..|head|] == head;
    }
  }

  /**
   * `Union_Query`: it keeps the two selects themselves, so what it renders is what they
   * hold when `get()` is called.
   */
  class UnionQuery {
    const first: SelectQuery
    const second: SelectQuery
    var orderBy: seq<string>

    constructor (first: SelectQuery, second: SelectQuery)
      ensures this.first == first && this.second == second && orderBy == []
    {
      this.first := first;
      this.second := second;
      orderBy := [];
    }

    /** `orderBy($column, $order)`, with the same direction codes as Select_Query. */
    method OrderBy(column: string, order: int)
      modifies this
      ensures orderBy == old(orderBy) + [OrderTerm(column, order)]
    {
      var term := column;
      if order == OrderDesc {
        term := term + " DESC";
      } else if order == OrderAsc {
        term := term + " ASC";
      }
      orderBy := orderBy + [term];
    }

    /** `get()`: both selects in parentheses, unterminated, then ORDER BY, then ";". */
    method Get() returns (text: string)
      ensures text == RenderUnion(first.State(), second.State(), orderBy)
      ensures |text| > 0 && text[|text| - 1] == ';'
    {
      var a := first.Get(false);
      var b := second.Get(false);
      text := "(" + a + ")" + UnionKeyword + "(" + b + ")";
      text := text + OrderByPart(orderBy) + ";";
      UnionTerminator(first.State(), second.State(), orderBy);
    }
  }
}
