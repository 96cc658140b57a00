/**
 * Properties of the statement builders: a select's clauses do not depend on the order in which
 * the mutators are called, how `where()` and `limit()` accumulate, how insert modes evolve, and
 * how update assignments pair up.
 */
module QueryFacts {
  import opened Wrappers
  import opened Strings
  import opened Query

  // ---------------------------------------------------------------- call order does not matter

  /** The clause slots of a select, one per kind of mutator. */
  datatype Clause = ColumnsClause | GroupByClause | HavingClause | OrderByClause
                  | WhereClause | IndexClause | LimitClause | JoinsClause

  /** What a clause slot holds. */
  datatype Part = Items(items: seq<string>) | Buffer(text: Option<string>) | Joins(joins: seq<Join>)

  function ClauseOf(call: SelectCall): Clause
  {
    match call
    case Column(_, _) => ColumnsClause
    case GroupBy(_) => GroupByClause
    case Having(_) => HavingClause
    case OrderBy(_, _) => OrderByClause
    case Where(_) => WhereClause
    case ForceIndex(_) => IndexClause
    case Limit(_) => LimitClause
    case AddJoin(_) => JoinsClause
  }

  function PartOf(s: SelectState, c: Clause): Part
  {
    match c
    case ColumnsClause => Items(s.columns)
    case GroupByClause => Items(s.groupBy)
    case HavingClause => Items(s.having)
    case OrderByClause => Items(s.orderBy)
    case WhereClause => Buffer(s.filter.where)
    case IndexClause => Items(s.filter.index)
    case LimitClause => Buffer(s.base.limit)
    case JoinsClause => Joins(s.base.joins)
  }

  /** The calls of one clause, in their relative order. */
  function OfClause(calls: seq<SelectCall>, c: Clause): seq<SelectCall>
  {
    if calls == [] then []
    else OfClause(calls[..|calls| - 1], c) + (if ClauseOf(calls[|calls| - 1]) == c then [calls[|calls| - 1]] else [])
  }

  /** A call leaves every other clause slot as it was. */
  lemma {:induction false} ApplyElsewhere(s: SelectState, call: SelectCall, c: Clause)
    requires ClauseOf(call) != c
    ensures PartOf(Apply(s, call), c) == PartOf(s, c)
  {
  }

  /** What a call does to its own slot depends on nothing but that slot. */
  lemma {:induction false} ApplyLocally(s1: SelectState, s2: SelectState, call: SelectCall)
    requires PartOf(s1, ClauseOf(call)) == PartOf(s2, ClauseOf(call))
    ensures PartOf(Apply(s1, call), ClauseOf(call)) == PartOf(Apply(s2, call), ClauseOf(call))
  {
  }

  lemma {:induction false} ReplaySnoc(s: SelectState, calls: seq<SelectCall>, call: SelectCall)
    ensures Replay(s, calls + [call]) == Apply(Replay(s, calls), call)
  {
    assert (calls + [call])[..|calls|] == calls;
  }

  /** No mutator touches the table or its alias. */
  lemma {:induction false} ReplayKeepsTable(s: SelectState, calls: seq<SelectCall>)
    ensures Replay(s, calls).base.table == s.base.table
    ensures Replay(s, calls).base.tableAs == s.base.tableAs
  {
    if calls != [] {
      ReplayKeepsTable(s, calls[..|calls| - 1]);
    }
  }

  /** Each clause slot, after any chain of calls, is what that clause's own calls alone make it. */
  lemma {:induction false} ClauseSeesOnlyItsCalls(s: SelectState, calls: seq<SelectCall>, c: Clause)
    ensures PartOf(Replay(s, calls), c) == PartOf(Replay(s, OfClause(calls, c)), c)
  {
    if calls != [] {
      var init, last := calls[..|calls| - 1], calls[|calls| - 1];
      ClauseSeesOnlyItsCalls(s, init, c);
      if ClauseOf(last) == c {
        ReplaySnoc(s, OfClause(init, c), last);
        ApplyLocally(Replay(s, init), Replay(s, OfClause(init, c)), last);
      } else {
        assert OfClause(calls, c) == OfClause(init, c) + [];
        assert OfClause(init, c) + [] == OfClause(init, c);
        ApplyElsewhere(Replay(s, init), last, c);
      }
    }
  }

  /**
   * Two chains of mutator calls that agree clause by clause (same calls per clause, in the same
   * relative order) build the same select and render the same text, however they interleave.
   */
  lemma {:induction false} CallOrderIrrelevant(s: SelectState, calls1: seq<SelectCall>, calls2: seq<SelectCall>, end: bool)
    requires forall c :: OfClause(calls1, c) == OfClause(calls2, c)
    ensures Replay(s, calls1) == Replay(s, calls2)
    ensures RenderSelect(Replay(s, calls1), end) == RenderSelect(Replay(s, calls2), end)
  {
    var r1, r2 := Replay(s, calls1), Replay(s, calls2);
    forall c ensures PartOf(r1, c) == PartOf(r2, c) {
      ClauseSeesOnlyItsCalls(s, calls1, c);
      ClauseSeesOnlyItsCalls(s, calls2, c);
    }
    assert PartOf(r1, ColumnsClause) == PartOf(r2, ColumnsClause);
    assert PartOf(r1, GroupByClause) == PartOf(r2, GroupByClause);
    assert PartOf(r1, HavingClause) == PartOf(r2, HavingClause);
    assert PartOf(r1, OrderByClause) == PartOf(r2, OrderByClause);
    assert PartOf(r1, WhereClause) == PartOf(r2, WhereClause);
    assert PartOf(r1, IndexClause) == PartOf(r2, IndexClause);
    assert PartOf(r1, LimitClause) == PartOf(r2, LimitClause);
    assert PartOf(r1, JoinsClause) == PartOf(r2, JoinsClause);
    ReplayKeepsTable(s, calls1);
    ReplayKeepsTable(s, calls2);
  }

  /** `get(true)` is `get(false)` followed by exactly " ;". */
  lemma {:induction false} SelectTerminator(s: SelectState)
    ensures RenderSelect(s, true) == RenderSelect(s, false) + " ;"
  {
  }

  // ---------------------------------------------------------------- where accumulation

  /** The where buffer after a chain of `where()` calls. */
  function WhereFold(buffer: Option<string>, args: seq<WhereArg>): Option<string>
  {
    if args == [] then buffer else Some(WhereAppend(WhereFold(buffer, args[..|args| - 1]), args[|args| - 1]))
  }

  /** The `where()` calls of a chain of select calls. */
  function WhereArgs(calls: seq<SelectCall>): seq<WhereArg>
  {
    if calls == [] then []
    else WhereArgs(calls[..|calls| - 1]) + (if calls[|calls| - 1].Where? then [calls[|calls| - 1].where] else [])
  }

  function Fragments(args: seq<WhereArg>): seq<string>
  {
    seq(|args|, i requires 0 <= i < |args| => args[i].fragment)
  }

  /** Each fragment with what precedes it: nothing for the first, the honoured separator for the rest. */
  function Glued(args: seq<WhereArg>): seq<string>
  {
    seq(|args|, i requires 0 <= i < |args| => (if i == 0 then "" else SeparatorText(args[i].separator)) + args[i].fragment)
  }

  /** Whatever else is called in between, a select's where buffer is the fold of its `where()` calls. */
  lemma {:induction false} ReplayWhere(s: SelectState, calls: seq<SelectCall>)
    ensures Replay(s, calls).filter.where == WhereFold(s.filter.where, WhereArgs(calls))
  {
    if calls != [] {
      var init, last := calls[..|calls| - 1], calls[|calls| - 1];
      ReplayWhere(s, init);
      if last.Where? {
        assert (WhereArgs(init) + [last.where])[..|WhereArgs(init)|] == WhereArgs(init);
      } else {
        assert WhereArgs(calls) == WhereArgs(init) + [];
        assert WhereArgs(init) + [] == WhereArgs(init);
        ApplyElsewhere(Replay(s, init), last, WhereClause);
      }
    }
  }

  /**
   * From no where clause, the buffer is the first fragment as given, and every later fragment
   * preceded by its separator when that is " AND " or " OR ", and by nothing otherwise.
   */
  lemma {:induction false} WhereFromNothing(args: seq<WhereArg>)
    requires |args| > 0
    ensures WhereFold(None, args) == Some(Concat(Glued(args)))
  {
    var n := |args|;
    if n == 1 {
      assert args[..0] == [];
      assert Glued(args)[0] == "" + args[0].fragment == args[0].fragment;
      assert Glued(args) == [args[0].fragment];
      assert Concat(Glued(args)) == Concat([]) + args[0].fragment;
    } else {
      var init, last := args[..n - 1], args[n - 1];
      WhereFromNothing(init);
      var glue := SeparatorText(last.separator) + last.fragment;
      assert WhereFold(None, args) == Some(WhereAppend(WhereFold(None, init), last));
      assert WhereAppend(Some(Concat(Glued(init))), last) == Concat(Glued(init)) + glue;
      GluedSnoc(args);
      ConcatSnoc(Glued(init), glue);
    }
  }

  lemma {:induction false} GluedSnoc(args: seq<WhereArg>)
    requires |args| > 1
    ensures Glued(args) == Glued(args[..|args| - 1])
                           + [SeparatorText(args[|args| - 1].separator) + args[|args| - 1].fragment]
  {
    var init := args[..|args| - 1];
    forall i | 0 <= i < |init|
      ensures Glued(args)[i] == Glued(init)[i]
    {
      assert args[i] == init[i];
    }
  }

  /** Later fragments all given the same " AND " (or " OR ") separator: the fragments imploded by it. */
  lemma {:induction false} WhereJoinedBy(args: seq<WhereArg>, sep: string)
    requires |args| > 0
    requires sep == WhereAnd || sep == WhereOr
    requires forall i :: 1 <= i < |args| ==> args[i].separator == Some(sep)
    ensures WhereFold(None, args) == Some(Implode(sep, Fragments(args)))
  {
    var n := |args|;
    if n > 1 {
      var init := args[..n - 1];
      WhereJoinedBy(init, sep);
      assert Fragments(args) == Fragments(init) + [args[n - 1].fragment];
      ImplodeSnoc(sep, Fragments(init), args[n - 1].fragment);
    }
  }

  /** Separators other than " AND " and " OR " (including the default `false`) glue fragments directly. */
  lemma {:induction false} WhereWithoutSeparators(args: seq<WhereArg>)
    requires |args| > 0
    requires forall i :: 1 <= i < |args| ==> args[i].separator != Some(WhereAnd) && args[i].separator != Some(WhereOr)
    ensures WhereFold(None, args) == Some(Concat(Fragments(args)))
  {
    WhereFromNothing(args);
    forall i | 0 <= i < |args| ensures Glued(args)[i] == Fragments(args)[i] {
      assert i > 0 ==> SeparatorText(args[i].separator) == "";
      assert "" + args[i].fragment == args[i].fragment;
    }
    assert Glued(args) == Fragments(args);
  }

  // ---------------------------------------------------------------- limit accumulation

  /** The limit buffer after a chain of `limit()` calls. */
  function LimitFold(buffer: Option<string>, args: seq<LimitArg>): Option<string>
  {
    if args == [] then buffer else Some(LimitAppend(LimitFold(buffer, args[..|args| - 1]), args[|args| - 1]))
  }

  function LimitArgs(calls: seq<SelectCall>): seq<LimitArg>
  {
    if calls == [] then []
    else LimitArgs(calls[..|calls| - 1]) + (if calls[|calls| - 1].Limit? then [calls[|calls| - 1].limit] else [])
  }

  function Pieces(args: seq<LimitArg>): seq<string>
  {
    if args == [] then [] else Pieces(args[..|args| - 1]) + [LimitPiece(args[|args| - 1])]
  }

  /**
   * The three steps `limit()` takes on its buffer (" off," for MySQL with an offset, then " n",
   * then " OFFSET off" for PostgreSQL with an offset) append exactly the call's piece.
   */
  lemma {:induction false} LimitSteps(start: string, arg: LimitArg)
    ensures var withOffset := if arg.offset.Some? && arg.notation == LimitMysql then start + " " + arg.offset.value + "," else start;
            var withCount := withOffset + " " + arg.count;
            (if arg.offset.Some? && arg.notation == LimitPostgresql then withCount + " OFFSET " + arg.offset.value else withCount)
            == start + LimitPiece(arg)
  {
    if arg.offset.Some? && arg.notation == LimitMysql {
      assert "," + " " == ", ";
      assert start + " " + arg.offset.value + "," + " " + arg.count == start + (" " + arg.offset.value + ", " + arg.count);
    }
  }

  /** Whatever else is called in between, a select's limit buffer is the fold of its `limit()` calls. */
  lemma {:induction false} ReplayLimit(s: SelectState, calls: seq<SelectCall>)
    ensures Replay(s, calls).base.limit == LimitFold(s.base.limit, LimitArgs(calls))
  {
    if calls != [] {
      var init, last := calls[..|calls| - 1], calls[|calls| - 1];
      ReplayLimit(s, init);
      if last.Limit? {
        LimitCallStep(s, calls);
      } else {
        assert LimitArgs(calls) == LimitArgs(init) + [];
        assert LimitArgs(init) + [] == LimitArgs(init);
        ApplyElsewhere(Replay(s, init), last, LimitClause);
      }
    }
  }

  lemma {:induction false} LimitCallStep(s: SelectState, calls: seq<SelectCall>)
    requires calls != [] && calls[|calls| - 1].Limit?
    requires Replay(s, calls[..|calls| - 1]).base.limit == LimitFold(s.base.limit, LimitArgs(calls[..|calls| - 1]))
    ensures Replay(s, calls).base.limit == LimitFold(s.base.limit, LimitArgs(calls))
  {
    var init, arg := calls[..|calls| - 1], calls[|calls| - 1].limit;
    var before := Replay(s, init);
    assert Replay(s, calls) == Apply(before, calls[|calls| - 1]);
    assert Replay(s, calls).base.limit == Some(LimitAppend(before.base.limit, arg));
    var args := LimitArgs(init) + [arg];
    assert LimitArgs(calls) == args;
    assert LimitFold(s.base.limit, args) == Some(LimitAppend(LimitFold(s.base.limit, LimitArgs(init)), arg)) by {
      assert args[..|args| - 1] == LimitArgs(init);
    }
  }

  /**
   * Later `limit()` calls append and never replace: the buffer is what it was ("" when unset)
   * followed by every call's piece, in call order.
   */
  lemma {:induction false} LimitAccumulates(buffer: Option<string>, args: seq<LimitArg>)
    requires |args| > 0
    ensures LimitFold(buffer, args) == Some((if buffer.Some? then buffer.value else "") + Concat(Pieces(args)))
  {
    var n := |args|;
    var start := if buffer.Some? then buffer.value else "";
    if n == 1 {
      LimitFirst(buffer, args);
    } else {
      var init := args[..n - 1];
      var last := LimitPiece(args[n - 1]);
      var before := Concat(Pieces(init));
      var after := Concat(Pieces(args));
      LimitAccumulates(buffer, init);
      LimitStep(buffer, args);
      assert LimitFold(buffer, args) == Some(start + before + last);
      assert Pieces(args) == Pieces(init) + [last];
      ConcatSnoc(Pieces(init), last);
      assert start + after == start + (before + last) == start + before + last;
    }
  }

  lemma {:induction false} LimitStep(buffer: Option<string>, args: seq<LimitArg>)
    requires |args| > 1
    requires LimitFold(buffer, args[..|args| - 1]).Some?
    ensures LimitFold(buffer, args) == Some(LimitFold(buffer, args[..|args| - 1]).value + LimitPiece(args[|args| - 1]))
  {
  }

  lemma {:induction false} LimitFirst(buffer: Option<string>, args: seq<LimitArg>)
    requires |args| == 1
    ensures LimitFold(buffer, args) == Some((if buffer.Some? then buffer.value else "") + Concat(Pieces(args)))
  {
    var piece := LimitPiece(args[0]);
    assert args[..0] == [];
    assert LimitFold(buffer, args) == Some(LimitAppend(buffer, args[0]));
    assert Pieces(args) == [] + [piece] == [piece];
    assert [piece][..0] == [];
    assert Concat([piece]) == Concat([]) + piece == piece;
    var start := if buffer.Some? then buffer.value else "";
    assert LimitAppend(buffer, args[0]) == start + piece;
  }

  /** Nothing is rendered for LIMIT before the first call; afterwards " LIMIT" and the pieces. */
  lemma {:induction false} LimitRendering(b: Base, args: seq<LimitArg>)
    requires b.limit.None?
    ensures LimitPart(b) == ""
    ensures |args| > 0 ==> LimitPart(b.(limit := LimitFold(None, args))) == " LIMIT" + Concat(Pieces(args))
  {
    if |args| > 0 {
      LimitAccumulates(None, args);
      assert "" + Concat(Pieces(args)) == Concat(Pieces(args));
    }
  }

  // ---------------------------------------------------------------- list clauses

  /**
   * A comma-joined list clause (select expressions, GROUP BY, ORDER BY, FORCE INDEX) lists its
   * entries in call order: splitting the joined text at ',' gives back the entries, when none of
   * them contains a comma.
   */
  lemma {:induction false} CommaListRoundTrip(items: seq<string>)
    requires |items| > 0
    requires forall i :: 0 <= i < |items| ==> ',' !in items[i]
    ensures Split(',', Implode(",", items)) == items
  {
    SplitImplode(',', items);
  }

  /** The ORDER BY terms of a chain of select calls, in call order. */
  function OrderTerms(calls: seq<SelectCall>): seq<string>
  {
    if calls == [] then []
    else OrderTerms(calls[..|calls| - 1])
         + (match calls[|calls| - 1] case OrderBy(c, o) => [OrderTerm(c, o)] case _ => [])
  }

  /** Whatever else is called in between, ORDER BY holds one term per `orderBy()` call, in call order. */
  lemma {:induction false} ReplayOrderBy(s: SelectState, calls: seq<SelectCall>)
    ensures Replay(s, calls).orderBy == s.orderBy + OrderTerms(calls)
  {
    if calls != [] {
      ReplayOrderBy(s, calls[..|calls| - 1]);
    }
  }

  /**
   * `forceIndex()` with an array never changes the hint list; with a string it appends it. The
   * statement repeats the arms of `IndexAdd` on purpose: the discarded merge is the quirk.
   */
  lemma {:induction false} IndexHints(f: Filter, names: seq<string>, name: string)
    ensures f.WithIndex(IndexList(names)) == f
    ensures f.WithIndex(OneIndex(name)).index == f.index + [name]
  {
  }

  /** HAVING terms are glued by " AND" without a trailing space. */
  lemma {:induction false} HavingGlue(items: seq<string>)
    requires |items| > 1
    ensures HavingPart(items) == HavingPart(items[..|items| - 1]) + " AND" + items[|items| - 1]
    ensures HavingPart(["a > 1", "b < 2"]) == " HAVING a > 1 ANDb < 2"
  {
    var front := items[..|items| - 1];
    assert items == front + [items[|items| - 1]];
    ImplodeSnoc(" AND", front, items[|items| - 1]);
  }

  // ---------------------------------------------------------------- joins

  /** getJoins() renders one fragment per join, in the order the joins were added. */
  lemma {:induction false} JoinsInOrder(joins: seq<Join>)
    ensures JoinsText(joins) == Concat(seq(|joins|, i requires 0 <= i < |joins| => RenderJoin(joins[i])))
  {
    var frags := seq(|joins|, i requires 0 <= i < |joins| => RenderJoin(joins[i]));
    if joins != [] {
      var init := joins[..|joins| - 1];
      JoinsInOrder(init);
      assert frags == seq(|init|, i requires 0 <= i < |init| => RenderJoin(init[i])) + [RenderJoin(joins[|joins| - 1])];
      ConcatSnoc(seq(|init|, i requires 0 <= i < |init| => RenderJoin(init[i])), RenderJoin(joins[|joins| - 1]));
    }
  }

  /** A nested select is rendered in parentheses by its own `get(false)`: it never carries " ;". */
  lemma {:induction false} NestedSelect(kind: string, q: SelectState, condition: Option<string>, alias: Option<string>)
    ensures IsPrefix(kind + " (" + RenderSelect(q, false) + ")", RenderJoin(Join(kind, Sub(q), condition, alias)))
  {
    DecorationKeepsHead(kind + TargetText(Sub(q)), alias, condition);
  }

  lemma {:induction false} DecorationKeepsHead(head: string, alias: Option<string>, condition: Option<string>)
    ensures IsPrefix(head, WithAliasAndCondition(head, alias, condition))
  {
    var withAlias := if alias.Some? then head + " AS " + alias.value else head;
    assert withAlias[..|head|] == head;
    var r := WithAliasAndCondition(head, alias, condition);
    assert r == if condition.Some? then withAlias + " ON (" + condition.value + ")" else withAlias;
    assert r[..|withAlias|] == withAlias;
    assert r[..|head|] == withAlias[..|head|];
  }

  /**
   * `join()` accepts exactly strings and selects. The statement repeats the arms of `JoinOf` on
   * purpose: which operands are refused is the point.
   */
  lemma {:induction false} JoinOperands(operand: JoinOperand, kind: string, condition: Option<string>, alias: Option<string>)
    ensures JoinOf(operand, kind, condition, alias).None? <==> operand.OtherOperand?
    ensures operand.TextOperand? ==> JoinOf(operand, kind, condition, alias) == Some(Join(kind, Raw(operand.text), condition, alias))
    ensures operand.SelectOperand? ==> JoinOf(operand, kind, condition, alias) == Some(Join(kind, Sub(operand.query), condition, alias))
  {
  }

  // ---------------------------------------------------------------- union

  /** A union ends with ";" whatever it holds, with no space before it when there is no ORDER BY. */
  lemma {:induction false} UnionTerminator(first: SelectState, second: SelectState, orderBy: seq<string>)
    ensures var r := RenderUnion(first, second, orderBy);
            r[|r| - 1] == ';' && (orderBy == [] ==> r[|r| - 2] == ')')
  {
  }

  // ---------------------------------------------------------------- insert modes

  /** The arguments of one `insert($value, $column)` call; `None` is the default `false`. */
  datatype InsertArg = InsertArg(value: string, column: Option<string>)

  /** The insert state after a chain of `insert()` calls. */
  function InsertFold(st: InsertState, args: seq<InsertArg>): InsertState
  {
    if args == [] then st
    else InsertStep(InsertFold(st, args[..|args| - 1]), args[|args| - 1].value, args[|args| - 1].column)
  }

  function Values(args: seq<InsertArg>): seq<string>
  {
    seq(|args|, i requires 0 <= i < |args| => args[i].value)
  }

  ghost predicate AllWithColumn(args: seq<InsertArg>)
  {
    forall i :: 0 <= i < |args| ==> args[i].column.Some?
  }

  /** The columns of the longest run of leading calls that all name a column. */
  function LeadingColumns(args: seq<InsertArg>): seq<string>
  {
    if args == [] || args[0].column.None? then [] else [args[0].column.value] + LeadingColumns(args[1..])
  }

  lemma {:induction false} LeadingSnoc(args: seq<InsertArg>, a: InsertArg)
    ensures LeadingColumns(args + [a])
            == if AllWithColumn(args) && a.column.Some? then LeadingColumns(args) + [a.column.value] else LeadingColumns(args)
  {
    if args != [] {
      assert (args + [a])[1..] == args[1..] + [a];
      if args[0].column.Some? {
        LeadingSnoc(args[1..], a);
        assert AllWithColumn(args) <==> AllWithColumn(args[1..]) by {
          if AllWithColumn(args[1..]) {
            forall i | 0 <= i < |args| ensures args[i].column.Some? {
              if i > 0 { assert args[i] == args[1..][i - 1]; }
            }
          }
        }
      }
    }
  }

  /**
   * From a fresh insert: every value is kept in call order; the columns are those of the leading
   * calls that named one; the mode is VALUES_COLUMNS exactly when every call so far named a column,
   * and VALUES_ONLY (for good) as soon as one call did not.
   */
  lemma {:induction false} InsertModes(st: InsertState, args: seq<InsertArg>)
    requires st.mode.None? && st.columns == [] && st.values == []
    ensures var after := InsertFold(st, args);
            && after.values == Values(args)
            && after.columns == LeadingColumns(args)
            && (after.mode.None? <==> args == [])
            && (after.mode == Some(ValuesColumns) <==> args != [] && AllWithColumn(args))
            && (after.mode == Some(ValuesOnly) <==> !AllWithColumn(args))
  {
    if args != [] {
      var init, last := args[..|args| - 1], args[|args| - 1];
      InsertModes(st, init);
      LeadingSnoc(init, last);
      assert init + [last] == args;
      assert Values(args) == Values(init) + [last.value];
      assert AllWithColumn(args) <==> AllWithColumn(init) && last.column.Some? by {
        if AllWithColumn(init) && last.column.Some? {
          forall i | 0 <= i < |args| ensures args[i].column.Some? {
            if i < |init| { assert args[i] == init[i]; }
          }
        }
        if AllWithColumn(args) {
          forall i | 0 <= i < |init| ensures init[i].column.Some? { assert init[i] == args[i]; }
          assert args[|args| - 1] == last;
        }
      }
    }
  }

  lemma {:induction false} AllColumnsLead(args: seq<InsertArg>)
    requires AllWithColumn(args)
    ensures |LeadingColumns(args)| == |args|
  {
    if args != [] {
      assert AllWithColumn(args[1..]) by {
        forall i | 0 <= i < |args[1..]| ensures args[1..][i].column.Some? { assert args[1..][i] == args[i + 1]; }
      }
      AllColumnsLead(args[1..]);
    }
  }

  /**
   * However `insert()` is called, `get()` never throws: the column/value mismatch of getData is
   * unreachable. All calls with a column render "(columns) VALUES (values)"; otherwise only the
   * values are rendered and earlier columns are dropped.
   */
  lemma {:induction false} InsertRenders(st: InsertState, args: seq<InsertArg>, end: bool)
    requires st.mode.None? && st.columns == [] && st.values == []
    ensures var after := InsertFold(st, args);
            && (args != [] && AllWithColumn(args) ==>
                  InsertData(after) == Ok(" (" + Implode(",", LeadingColumns(args)) + ") VALUES (" + Implode(",", Values(args)) + ")"))
            && (!(args != [] && AllWithColumn(args)) ==>
                  InsertData(after) == Ok(" VALUES (" + Implode(",", Values(args)) + ")"))
            && RenderInsert(after, end) == Ok("INSERT INTO  " + st.base.table + InsertData(after).value + Terminator(end))
  {
    var after := InsertFold(st, args);
    InsertModes(st, args);
    InsertKeepsBase(st, args);
    if args != [] && AllWithColumn(args) {
      AllColumnsLead(args);
      assert after.mode == Some(ValuesColumns);
      assert |after.columns| == |after.values|;
    } else {
      assert after.mode != Some(ValuesColumns);
    }
    assert InsertData(after).Ok?;
    assert "INSERT INTO " + " " + st.base.table == "INSERT INTO  " + st.base.table;
  }

  lemma {:induction false} InsertKeepsBase(st: InsertState, args: seq<InsertArg>)
    ensures InsertFold(st, args).base == st.base
  {
    if args != [] { InsertKeepsBase(st, args[..|args| - 1]); }
  }

  /**
   * What `insert()` keeps true of an Insert_Query: before the first call there is no data, and
   * in column mode there is one column per value.
   */
  predicate InsertConsistent(st: InsertState)
  {
    && (st.mode.None? ==> st.columns == [] && st.values == [])
    && (st.mode == Some(ValuesColumns) ==> |st.columns| == |st.values|)
  }

  /** Every `insert()` call keeps the insert consistent. */
  lemma {:induction false} InsertStepConsistent(st: InsertState, value: string, column: Option<string>)
    requires InsertConsistent(st)
    ensures InsertConsistent(InsertStep(st, value, column))
  {
    var after := InsertStep(st, value, column);
    if after.mode == Some(ValuesColumns) {
      assert st.mode.None? || st.mode == Some(ValuesColumns);
      assert |after.columns| == |st.columns| + 1 && |after.values| == |st.values| + 1;
    }
  }

  /**
   * So the "columns and values must match" exception of `getData()` is never thrown for an
   * insert built by `insert()` calls: a consistent insert always renders.
   */
  lemma {:induction false} ConsistentInsertRenders(st: InsertState, end: bool)
    requires InsertConsistent(st)
    ensures InsertData(st).Ok? && RenderInsert(st, end).Ok?
  {
  }

  /** The insert example: a column-less call after two column calls switches to values only. */
  lemma {:induction false} InsertExample()
    ensures var st := InsertFold(InsertState(NewBase("users", None), None, [], []),
                                 [InsertArg("1", Some("id")), InsertArg("Bob", Some("name")), InsertArg("2", None)]);
            RenderInsert(st, true) == Ok("INSERT INTO  users VALUES (1,Bob,2) ;")
  {
    var st3 := InsertExampleState();
    InsertExampleRender(st3);
  }

  /** The example's final state renders the values only. */
  lemma {:induction false} InsertExampleRender(st3: InsertState)
    requires st3 == InsertState(NewBase("users", None), Some(ValuesOnly), ["id", "name"], ["1", "Bob", "2"])
    ensures RenderInsert(st3, true) == Ok("INSERT INTO  users VALUES (1,Bob,2) ;")
  {
    assert ["1", "Bob", "2"][..2] == ["1", "Bob"] && ["1", "Bob"][..1] == ["1"];
    assert Implode(",", ["1", "Bob", "2"]) == "1,Bob,2";
    assert InsertData(st3) == Ok(" VALUES (" + "1,Bob,2" + ")");
    assert " VALUES (" + "1,Bob,2" + ")" == " VALUES (1,Bob,2)";
    assert "INSERT INTO " + " " + "users" + " VALUES (1,Bob,2)" + " ;" == "INSERT INTO  users VALUES (1,Bob,2) ;";
  }

  /** The insert state the example's three calls leave. */
  lemma {:induction false} InsertExampleState() returns (st3: InsertState)
    ensures st3 == InsertFold(InsertState(NewBase("users", None), None, [], []),
                              [InsertArg("1", Some("id")), InsertArg("Bob", Some("name")), InsertArg("2", None)])
    ensures st3 == InsertState(NewBase("users", None), Some(ValuesOnly), ["id", "name"], ["1", "Bob", "2"])
  {
    var args := [InsertArg("1", Some("id")), InsertArg("Bob", Some("name")), InsertArg("2", None)];
    var st0 := InsertState(NewBase("users", None), None, [], []);
    assert args[..2][..1] == args[..1] && args[..1][..0] == [];
    assert InsertFold(st0, args[..1][..0]) == st0;
    var st1 := InsertFold(st0, args[..1]);
    assert st1 == InsertStep(st0, "1", Some("id"));
    assert st1 == InsertState(st0.base, Some(ValuesColumns), ["id"], ["1"]);
    var st2 := InsertFold(st0, args[..2]);
    assert st2 == InsertStep(st1, "Bob", Some("name"));
    assert st2 == InsertState(st0.base, Some(ValuesColumns), ["id", "name"], ["1", "Bob"]);
    assert args[..3] == args;
    st3 := InsertFold(st0, args);
    assert st3 == InsertStep(st2, "2", None);
  }

  // ---------------------------------------------------------------- update pairing

  /** The arguments of one `update($value, $column)` call. */
  datatype UpdateArg = UpdateArg(value: string, column: string)

  function UpdateFold(st: UpdateState, args: seq<UpdateArg>): UpdateState
  {
    if args == [] then st else UpdateFold(st, args[..|args| - 1]).WithAssignment(args[|args| - 1].value, args[|args| - 1].column)
  }

  function Pairs(args: seq<UpdateArg>): seq<string>
  {
    seq(|args|, i requires 0 <= i < |args| => args[i].column + "=" + args[i].value)
  }

  lemma {:induction false} UpdateLists(st: UpdateState, args: seq<UpdateArg>)
    requires |st.columns| == |st.values|
    ensures var after := UpdateFold(st, args);
            |after.columns| == |after.values| && Assignments(after.columns, after.values) == Assignments(st.columns, st.values) + Pairs(args)
  {
    if args != [] {
      var init := args[..|args| - 1];
      UpdateLists(st, init);
      var mid := UpdateFold(st, init);
      var after := UpdateFold(st, args);
      assert Assignments(after.columns, after.values) == Assignments(mid.columns, mid.values) + [args[|args| - 1].column + "=" + args[|args| - 1].value];
      assert Pairs(args) == Pairs(init) + [args[|args| - 1].column + "=" + args[|args| - 1].value];
    }
  }

  /**
   * N `update()` calls on a fresh update render exactly N comma-separated `col=val` assignments,
   * paired by call order; getData never throws.
   */
  lemma {:induction false} UpdatePairing(st: UpdateState, args: seq<UpdateArg>)
    requires st.columns == [] && st.values == []
    ensures UpdateData(UpdateFold(st, args)) == Ok(Implode(",", Pairs(args)))
    ensures |args| > 0 && (forall i :: 0 <= i < |args| ==> ',' !in args[i].column && ',' !in args[i].value) ==>
              Split(',', Implode(",", Pairs(args))) == Pairs(args) && |Pairs(args)| == |args|
  {
    UpdateLists(st, args);
    var after := UpdateFold(st, args);
    assert Assignments(st.columns, st.values) == [];
    assert Assignments(after.columns, after.values) == Pairs(args);
    assert UpdateData(after) == Ok(Implode(",", Assignments(after.columns, after.values)));
    if |args| > 0 && (forall i :: 0 <= i < |args| ==> ',' !in args[i].column && ',' !in args[i].value) {
      forall i | 0 <= i < |args| ensures ',' !in Pairs(args)[i] {
        assert Pairs(args)[i] == args[i].column + "=" + args[i].value;
      }
      SplitImplode(',', Pairs(args));
    }
  }

  /** Update and delete never render joins, and delete never renders index hints. */
  lemma {:induction false} NoJoinsRendered(u: UpdateState, d: DeleteState, joins: seq<Join>, index: seq<string>, end: bool)
    ensures RenderUpdate(u.(base := u.base.(joins := joins)), end) == RenderUpdate(u, end)
    ensures RenderDelete(d.(base := d.base.(joins := joins), filter := d.filter.(index := index)), end) == RenderDelete(d, end)
  {
  }

  // ---------------------------------------------------------------- a select, end to end

  /** A select built by chained calls renders its clauses in the fixed order, with " ;". */
  lemma {:induction false} SelectExample()
    ensures var s := Replay(NewSelect("users", None),
                            [Column("id", None), Column("name", None), Where(WhereArg("age > 18", None)),
                             OrderBy("name", OrderAsc), Limit(LimitArg("10", None, LimitMysql))]);
            RenderSelect(s, true) == "SELECT id,name FROM users WHERE age > 18 ORDER BY name ASC LIMIT 10 ;"
  {
    ExampleCalls();
    ExampleText();
  }

  function ExampleState(): SelectState
  {
    SelectState(Base("users", None, [], Some(" 10")), Filter([], Some("age > 18")), ["id", "name"], [], [], ["name ASC"])
  }

  lemma {:induction false} ExampleCalls()
    ensures Replay(NewSelect("users", None),
                   [Column("id", None), Column("name", None), Where(WhereArg("age > 18", None)),
                    OrderBy("name", OrderAsc), Limit(LimitArg("10", None, LimitMysql))]) == ExampleState()
  {
    var calls := [Column("id", None), Column("name", None), Where(WhereArg("age > 18", None)),
                  OrderBy("name", OrderAsc), Limit(LimitArg("10", None, LimitMysql))];
    var s0 := NewSelect("users", None);
    assert calls[..1][..0] == [] && calls[..2][..1] == calls[..1] && calls[..3][..2] == calls[..2]
        && calls[..4][..3] == calls[..3] && calls[..5][..4] == calls[..4] && calls[..5] == calls;
    var s1 := s0.(columns := ["id"]);
    assert Replay(s0, calls[..1]) == s1;
    var s2 := s1.(columns := ["id", "name"]);
    assert Replay(s0, calls[..2]) == Apply(s1, Column("name", None)) == s2;
    var s3 := s2.(filter := Filter([], Some("age > 18")));
    assert Replay(s0, calls[..3]) == Apply(s2, Where(WhereArg("age > 18", None))) == s3;
    assert OrderTerm("name", OrderAsc) == "name" + " ASC" == "name ASC";
    var s4 := s3.(orderBy := ["name ASC"]);
    assert Replay(s0, calls[..4]) == Apply(s3, OrderBy("name", OrderAsc)) == s4;
    assert LimitAppend(None, LimitArg("10", None, LimitMysql)) == "" + " " + "10" == " 10";
    assert Replay(s0, calls) == Apply(s4, Limit(LimitArg("10", None, LimitMysql))) == ExampleState();
  }

  lemma {:induction false} ExampleText()
    ensures RenderSelect(ExampleState(), true) == "SELECT id,name FROM users WHERE age > 18 ORDER BY name ASC LIMIT 10 ;"
  {
    var st := ExampleState();
    var head := "SELECT " + Implode(",", st.columns) + " FROM" + " " + st.base.table;
    assert head == "SELECT id,name FROM users" by {
      assert ["id", "name"][..1] == ["id"];
      assert Implode(",", ["id", "name"]) == "id,name";
    }
    assert JoinsText([]) == "";
    assert OrderByPart(st.orderBy) == " ORDER BY name ASC" by {
      assert Implode(",", ["name ASC"]) == "name ASC";
    }
    assert RenderSelect(st, true) == head + WherePart(st.filter) + OrderByPart(st.orderBy) + LimitPart(st.base) + End;
    ExampleLiteral(head, WherePart(st.filter), OrderByPart(st.orderBy), LimitPart(st.base));
  }

  lemma {:induction false} ExampleLiteral(head: string, where: string, orderBy: string, limit: string)
    requires head == "SELECT id,name FROM users" && where == " WHERE age > 18"
    requires orderBy == " ORDER BY name ASC" && limit == " LIMIT 10"
    ensures head + where + orderBy + limit + End == "SELECT id,name FROM users WHERE age > 18 ORDER BY name ASC LIMIT 10 ;"
  {
    assert head + where == "SELECT id,name FROM users WHERE age > 18";
    assert orderBy + limit + End == " ORDER BY name ASC LIMIT 10 ;";
    assert head + where + orderBy + limit + End == (head + where) + (orderBy + limit + End);
  }
}
