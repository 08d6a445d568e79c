/** A structured view of the SQL text the client assembles: a SELECT is a
    projection, tables, filter conditions, grouping columns, an ordering and a
    limit, always written out in that canonical order, each optional clause
    left out entirely when absent; an UPDATE is a table, an assignment list
    and filter conditions.  Conditions and assignments are kept as the text
    the client writes for them (`storeID = 5`).  The assemblers build plain
    strings; their contracts equate those strings with the text of one of these values. */
module Sql {
  import opened Common

  /** The elements of `xs`, separated by `sep`. */
  function Join(xs: seq<string>, sep: string): string
  {
    if |xs| == 0 then "" else if |xs| == 1 then xs[0] else xs[0] + sep + Join(xs[1..], sep)
  }

  lemma JoinTwo(a: string, b: string, sep: string)
    ensures Join([a, b], sep) == a + sep + b
  {
    assert [a, b][1..] == [b];
  }

  lemma JoinThree(a: string, b: string, c: string, sep: string)
    ensures Join([a, b, c], sep) == a + sep + b + sep + c
  {
    assert [a, b, c][1..] == [b, c];
    JoinTwo(b, c, sep);
  }

  lemma JoinFour(a: string, b: string, c: string, d: string, sep: string)
    ensures Join([a, b, c, d], sep) == a + sep + b + sep + c + sep + d
  {
    assert [a, b, c, d][1..] == [b, c, d];
    JoinThree(b, c, d, sep);
  }

  lemma JoinFive(a: string, b: string, c: string, d: string, e: string, sep: string)
    ensures Join([a, b, c, d, e], sep) == a + sep + b + sep + c + sep + d + sep + e
  {
    assert [a, b, c, d, e][1..] == [b, c, d, e];
    JoinFour(b, c, d, e, sep);
  }

  /** Appending one more element extends the joined text by a separator and
      that element: the comma-accumulator idiom. */
  lemma {:induction false} JoinAppend(xs: seq<string>, x: string, sep: string)
    requires xs != []
    ensures Join(xs + [x], sep) == Join(xs, sep) + sep + x
    decreases |xs|
  {
    if |xs| == 1 {
      assert xs + [x] == [xs[0], x];
      JoinTwo(xs[0], x, sep);
    } else {
      assert (xs + [x])[1..] == xs[1..] + [x];
      JoinAppend(xs[1..], x, sep);
    }
  }

  /** The WHERE clause over condition texts such as `storeID = 5`:
      nothing at all when there is no condition. */
  function WhereText(conditions: seq<string>): string
  {
    if conditions == [] then "" else " WHERE " + Join(conditions, " AND ")
  }

  /** A projected column: a plain column (or `*`), or an aggregate such as
      `COUNT(*) as number_of_orders`. */
  datatype Column = Plain(name: string) | Aggregate(expression: string)

  function ColumnTexts(columns: seq<Column>): (ts: seq<string>)
    ensures |ts| == |columns|
  {
    if columns == [] then []
    else [if columns[0].Plain? then columns[0].name else columns[0].expression] + ColumnTexts(columns[1..])
  }

  datatype Select = Select(
    columns: seq<Column>,
    tables: seq<string>,
    where: seq<string>,
    groupBy: seq<string>,
    orderBy: Option<string>,
    limit: Option<string>)

  /** SELECT text with its clauses in the order the query language demands:
      filters, then grouping, then ordering, then the limit. */
  function SelectText(q: Select): string
  {
    "SELECT " + Join(ColumnTexts(q.columns), ", ") + " FROM " + Join(q.tables, ", ") + WhereText(q.where)
    + (if q.groupBy == [] then "" else " GROUP BY " + Join(q.groupBy, ", "))
    + (if q.orderBy.Some? then " ORDER BY " + q.orderBy.value else "")
    + (if q.limit.Some? then " LIMIT " + q.limit.value else "")
  }

  /** A limit is written after everything else. */
  lemma LimitComesLast(q: Select)
    requires q.limit.Some?
    ensures SelectText(q) == SelectText(q.(limit := None)) + " LIMIT " + q.limit.value
  {
  }

  /** An ordering is written after the filters and the grouping, and only a
      limit may follow it. */
  lemma OrderingComesAfterGrouping(q: Select)
    requires q.orderBy.Some? && q.limit.None?
    ensures SelectText(q) == SelectText(q.(orderBy := None)) + " ORDER BY " + q.orderBy.value
  {
  }

  /** The projection's plain columns, in order. */
  function PlainColumns(columns: seq<Column>): seq<string>
  {
    if columns == [] then []
    else (if columns[0].Plain? then [columns[0].name] else []) + PlainColumns(columns[1..])
  }

  /** When a query groups, it groups by exactly the plain columns of its
      projection, in projection order. */
  predicate GroupingMatchesProjection(q: Select)
  {
    q.groupBy != [] ==> q.groupBy == PlainColumns(q.columns)
  }

  /** An UPDATE statement: the table, its `column = value` assignments and
      the filter conditions. */
  datatype Change = Change(table: string, assignments: seq<string>, where: seq<string>)

  function ChangeText(u: Change): string
  {
    "UPDATE " + u.table + " SET " + Join(u.assignments, ", ") + WhereText(u.where)
  }
}
