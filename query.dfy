/**
 * The statement builders of `Classes/query.class.php` as values: the state each builder holds,
 * the fragment each mutator appends, and the text each `get()` renders.
 *
 * The builder classes (module QueryBuilders) keep these fields and update them in place; their
 * `State()` is the value of one of the datatypes below, and every renderer here is a function of it.
 */
module Query {
  import opened Wrappers
  import opened Strings

  // Join kinds (the `Join_Query` constants); any other string is accepted as a kind too.
  const PlainJoin: string := " JOIN"
  const InnerJoin: string := " INNER JOIN"
  const CrossJoin: string := " CROSS JOIN"
  const LeftJoin: string := " LEFT JOIN"
  const LeftOuterJoin: string := " LEFT OUTER JOIN"
  const RightJoin: string := " RIGHT JOIN"
  const RightOuterJoin: string := " RIGHT OUTER JOIN"

  const UnionKeyword: string := " UNION "

  // Offset notations of `limit()`.
  const LimitMysql: int := 0
  const LimitPostgresql: int := 1

  // The only two separators `where()` honours.
  const WhereAnd: string := " AND "
  const WhereOr: string := " OR "

  // Terminators chosen by `get($end)`.
  const End: string := " ;"
  const NoEnd: string := ""

  // Direction codes of `orderBy()`.
  const OrderDefault: int := 0
  const OrderDesc: int := 1
  const OrderAsc: int := 2

  // Insert modes; note that VALUES_COLUMNS is 0, which PHP treats as false.
  const ValuesColumns: int := 0
  const ValuesOnly: int := 1

  /** The exceptions the builders can throw. */
  datatype QueryError =
    | NotJoinable            // join() of something that is neither a string nor a Select_Query
    | InsertModeMixed        // setType(): values-only and value-column inserts mixed
    | InsertColumnsMismatch  // Insert_Query::getData(): column and value counts differ
    | UpdateColumnsMismatch  // Update_Query::getData(): column and value counts differ

  /** What a join refers to: a table name (or any raw text) or a nested select. */
  datatype JoinTarget = Raw(name: string) | Sub(query: SelectState)

  /** A `Join_Query`: kind, target, optional ON condition, optional alias. */
  datatype Join = Join(kind: string, target: JoinTarget, condition: Option<string>, alias: Option<string>)

  /** The argument of `join()`: a string, a Select_Query, or any other PHP value. */
  datatype JoinOperand = TextOperand(text: string) | SelectOperand(query: SelectState) | OtherOperand

  /** The argument of `forceIndex()`: one index name, or a PHP array of names. */
  datatype IndexArg = OneIndex(name: string) | IndexList(names: seq<string>)

  /** The arguments of one `where($where, $seperator)` call; `None` is the default `false`. */
  datatype WhereArg = WhereArg(fragment: string, separator: Option<string>)

  /** The arguments of one `limit($limit, $offset, $notation)` call; `None` is the default `false`. */
  datatype LimitArg = LimitArg(count: string, offset: Option<string>, notation: int)

  /** The fields of `Base_Query`: table, alias, joins, and the limit buffer (`None` = PHP null). */
  datatype Base = Base(table: string, tableAs: Option<string>, joins: seq<Join>, limit: Option<string>)
  {
    function WithLimit(arg: LimitArg): Base { this.(limit := Some(LimitAppend(limit, arg))) }
    function WithJoin(j: Join): Base { this.(joins := joins + [j]) }
  }

  /** The fields `Where_Query` adds: index hints and the where buffer (`None` = PHP null). */
  datatype Filter = Filter(index: seq<string>, where: Option<string>)
  {
    function WithIndex(arg: IndexArg): Filter { this.(index := IndexAdd(index, arg)) }
    function WithWhere(arg: WhereArg): Filter { this.(where := Some(WhereAppend(where, arg))) }
  }

  /** A `Select_Query`; `columns` is the PHP `$select` list. */
  datatype SelectState = SelectState(
    base: Base, filter: Filter,
    columns: seq<string>, groupBy: seq<string>, having: seq<string>, orderBy: seq<string>)

  /** An `Insert_Query`; `mode` is `$_type` (`None` = PHP null). */
  datatype InsertState = InsertState(base: Base, mode: Option<int>, columns: seq<string>, values: seq<string>)

  /** An `Update_Query`. */
  datatype UpdateState = UpdateState(base: Base, filter: Filter, columns: seq<string>, values: seq<string>)
  {
    /** `update($value, $column)`: one column and one value appended. */
    function WithAssignment(value: string, column: string): UpdateState
    {
      this.(columns := columns + [column], values := values + [value])
    }
  }

  /** A `Delete_Query`. */
  datatype DeleteState = DeleteState(base: Base, filter: Filter)

  function NewBase(table: string, tableAs: Option<string>): Base { Base(table, tableAs, [], None) }

  function NewSelect(table: string, tableAs: Option<string>): SelectState
  {
    SelectState(NewBase(table, tableAs), Filter([], None), [], [], [], [])
  }

  // ---------------------------------------------------------------- fragments the mutators append

  /** The piece one `limit()` call contributes, stated per notation. */
  function LimitPiece(arg: LimitArg): string
  {
    if arg.offset.Some? && arg.notation == LimitMysql then " " + arg.offset.value + ", " + arg.count
    else if arg.offset.Some? && arg.notation == LimitPostgresql then " " + arg.count + " OFFSET " + arg.offset.value
    else " " + arg.count
  }

  /**
   * `limit()`: the buffer, started at "" when it is null, followed by the call's piece. The
   * PHP steps (" off," for MySQL, then " n", then " OFFSET off" for PostgreSQL) are those of
   * `QueryBuilders.SelectQuery.Limit`, which is proved to compute this.
   */
  function LimitAppend(buffer: Option<string>, arg: LimitArg): string
  {
    (if buffer.Some? then buffer.value else "") + LimitPiece(arg)
  }

  /** The separator actually written before a later where fragment: only " AND " and " OR " survive. */
  function SeparatorText(separator: Option<string>): string
  {
    if separator == Some(WhereAnd) || separator == Some(WhereOr) then separator.value else ""
  }

  /** `where()`: an existing buffer gets the honoured separator, then the fragment is appended. */
  function WhereAppend(buffer: Option<string>, arg: WhereArg): (r: string)
    ensures buffer.None? ==> r == arg.fragment
    ensures buffer.Some? ==> r == buffer.value + SeparatorText(arg.separator) + arg.fragment
  {
    var separated := if buffer.Some? && arg.separator.Some? && (arg.separator.value == WhereAnd || arg.separator.value == WhereOr)
                     then buffer.value + arg.separator.value
                     else if buffer.Some? then buffer.value else "";
    separated + arg.fragment
  }

  /** `forceIndex()`: a single name is appended; for an array the `array_merge` result is discarded. */
  function IndexAdd(index: seq<string>, arg: IndexArg): seq<string>
  {
    match arg
    case OneIndex(name) => index + [name]
    case IndexList(_) => index
  }

  /** `select($select, $selectAs)`: the expression, with " AS alias" when an alias is given. */
  function SelectTerm(expr: string, alias: Option<string>): string
  {
    if alias.Some? then expr + " AS " + alias.value else expr
  }

  /** `orderBy($column, $order)`: " DESC" or " ASC" for those two codes, nothing for any other. */
  function OrderTerm(column: string, order: int): string
  {
    if order == OrderDesc then column + " DESC" else if order == OrderAsc then column + " ASC" else column
  }

  /**
   * The insert mode after `setType()`. PHP's `!$this->_type` holds both for null and for
   * VALUES_COLUMNS (0), so column mode is re-decided on every call, and only VALUES_ONLY sticks.
   */
  function ModeAfter(mode: Option<int>, useColumn: Option<string>): (r: Option<int>)
    ensures r == Some(ValuesColumns) <==> useColumn.Some? && (mode.None? || mode == Some(ValuesColumns))
    ensures mode == Some(ValuesOnly) ==> r == mode
    ensures useColumn.None? && (mode.None? || mode == Some(ValuesColumns)) ==> r == Some(ValuesOnly)
  {
    if mode.None? || mode == Some(ValuesColumns) then Some(if useColumn.None? then ValuesOnly else ValuesColumns)
    else mode
  }

  /** `insert($value, $column)`: set the mode, append the column in column mode, always append the value. */
  function InsertStep(st: InsertState, value: string, column: Option<string>): InsertState
  {
    var mode := ModeAfter(st.mode, column);
    st.(mode := mode,
        columns := if mode == Some(ValuesColumns) then st.columns + [column.value] else st.columns,
        values := st.values + [value])
  }

  /** `Join_Query` for an accepted operand of `join()`; `None` when `join()` throws. */
  function JoinOf(operand: JoinOperand, kind: string, condition: Option<string>, alias: Option<string>): Option<Join>
  {
    match operand
    case TextOperand(text) => Some(Join(kind, Raw(text), condition, alias))
    case SelectOperand(q) => Some(Join(kind, Sub(q), condition, alias))
    case OtherOperand => None
  }

  // ---------------------------------------------------------------- rendering

  /** `getEnd($end)`. */
  function Terminator(end: bool): string { if end then End else NoEnd }

  function AsPart(b: Base): string { if b.tableAs.Some? then " AS " + b.tableAs.value else "" }

  function LimitPart(b: Base): string { if b.limit.Some? then " LIMIT" + b.limit.value else "" }

  function IndexPart(f: Filter): string
  {
    if |f.index| > 0 then " FORCE INDEX(" + Implode(",", f.index) + ")" else ""
  }

  function WherePart(f: Filter): string { if f.where.Some? then " WHERE " + f.where.value else "" }

  function GroupByPart(items: seq<string>): string
  {
    if |items| > 0 then " GROUP BY " + Implode(",", items) else ""
  }

  /** HAVING terms are glued with " AND" (no trailing space), as the source writes it. */
  function HavingPart(items: seq<string>): string
  {
    if |items| > 0 then " HAVING " + Implode(" AND", items) else ""
  }

  function OrderByPart(items: seq<string>): string
  {
    if |items| > 0 then " ORDER BY " + Implode(",", items) else ""
  }

  /** `Join_Query::getToJoin()`: a nested select in parentheses and without terminator, or " " + text. */
  function TargetText(t: JoinTarget): string
    decreases t, 0
  {
    match t
    case Sub(q) => " (" + RenderSelect(q, false) + ")"
    case Raw(name) => " " + name
  }

  /** `Join_Query::get()`. */
  function RenderJoin(j: Join): string
    decreases j, 1
  {
    WithAliasAndCondition(j.kind + TargetText(j.target), j.alias, j.condition)
  }

  /** The optional " AS alias" and " ON (condition)" a join fragment ends with. */
  function WithAliasAndCondition(head: string, alias: Option<string>, condition: Option<string>): string
  {
    var withAlias := if alias.Some? then head + " AS " + alias.value else head;
    if condition.Some? then withAlias + " ON (" + condition.value + ")" else withAlias
  }

  /** `Base_Query::getJoins()`: the joins rendered one after another, in the order they were added. */
  function JoinsText(joins: seq<Join>): string
    decreases joins, 0
  {
    if joins == [] then "" else JoinsText(joins[..|joins| - 1]) + RenderJoin(joins[|joins| - 1])
  }

  /** `Select_Query::get($end)`. */
  function RenderSelect(s: SelectState, end: bool): string
    decreases s, 2
  {
    "SELECT " + Implode(",", s.columns) + " FROM" + " " + s.base.table
    + AsPart(s.base)
    + JoinsText(s.base.joins)
    + IndexPart(s.filter)
    + WherePart(s.filter)
    + GroupByPart(s.groupBy)
    + HavingPart(s.having)
    + OrderByPart(s.orderBy)
    + LimitPart(s.base)
    + Terminator(end)
  }

  /** `Union_Query::get()`: both selects without terminator, optional ORDER BY, always ";". */
  function RenderUnion(first: SelectState, second: SelectState, orderBy: seq<string>): string
  {
    "(" + RenderSelect(first, false) + ")" + UnionKeyword + "(" + RenderSelect(second, false) + ")"
    + OrderByPart(orderBy) + ";"
  }

  /** `Insert_Query::getData()`: throws when in column mode with mismatched counts. */
  function InsertData(st: InsertState): Result<string, QueryError>
  {
    if st.mode == Some(ValuesColumns) then
      if |st.columns| == |st.values| then
        Ok(" (" + Implode(",", st.columns) + ") VALUES (" + Implode(",", st.values) + ")")
      else Err(InsertColumnsMismatch)
    else Ok(" VALUES (" + Implode(",", st.values) + ")")
  }

  /** `Insert_Query::get($end)`: "INSERT INTO " then `getTable()` (" " + table), so two spaces. */
  function RenderInsert(st: InsertState, end: bool): Result<string, QueryError>
  {
    match InsertData(st)
    case Ok(data) => Ok("INSERT INTO " + " " + st.base.table + data + Terminator(end))
    case Err(e) => Err(e)
  }

  /** The `"$c=$v"` pairs of an update, by position. */
  function Assignments(columns: seq<string>, values: seq<string>): seq<string>
    requires |columns| == |values|
  {
    seq(|columns|, i requires 0 <= i < |columns| => columns[i] + "=" + values[i])
  }

  /** `Update_Query::getData()`. */
  function UpdateData(st: UpdateState): Result<string, QueryError>
  {
    if |st.columns| == |st.values| then Ok(Implode(",", Assignments(st.columns, st.values)))
    else Err(UpdateColumnsMismatch)
  }

  /** `Update_Query::get($end)`: no joins are rendered. */
  function RenderUpdate(st: UpdateState, end: bool): Result<string, QueryError>
  {
    match UpdateData(st)
    case Ok(data) =>
      Ok("UPDATE " + " " + st.base.table + AsPart(st.base) + " SET " + data
         + IndexPart(st.filter) + WherePart(st.filter) + LimitPart(st.base) + Terminator(end))
    case Err(e) => Err(e)
  }

  /** `Delete_Query::get($end)`: neither joins nor index hints are rendered. */
  function RenderDelete(st: DeleteState, end: bool): string
  {
    "DELETE" + " FROM" + " " + st.base.table + AsPart(st.base)
    + WherePart(st.filter) + LimitPart(st.base) + Terminator(end)
  }

  // ---------------------------------------------------------------- the select mutators as calls

  /** One mutator call on a Select_Query. */
  datatype SelectCall =
    | Column(expr: string, alias: Option<string>)
    | GroupBy(column: string)
    | Having(statement: string)
    | OrderBy(column: string, order: int)
    | Where(where: WhereArg)
    | ForceIndex(index: IndexArg)
    | Limit(limit: LimitArg)
    | AddJoin(join: Join)

  /** The state after one mutator call. */
  function Apply(s: SelectState, call: SelectCall): SelectState
  {
    match call
    case Column(expr, alias) => s.(columns := s.columns + [SelectTerm(expr, alias)])
    case GroupBy(column) => s.(groupBy := s.groupBy + [column])
    case Having(statement) => s.(having := s.having + [statement])
    case OrderBy(column, order) => s.(orderBy := s.orderBy + [OrderTerm(column, order)])
    case Where(arg) => s.(filter := s.filter.WithWhere(arg))
    case ForceIndex(arg) => s.(filter := s.filter.WithIndex(arg))
    case Limit(arg) => s.(base := s.base.WithLimit(arg))
    case AddJoin(j) => s.(base := s.base.WithJoin(j))
  }

  /** The state after a chain of mutator calls, in call order. */
  function Replay(s: SelectState, calls: seq<SelectCall>): SelectState
  {
    if calls == [] then s else Apply(Replay(s, calls[..|calls| - 1]), calls[|calls| - 1])
  }
}
