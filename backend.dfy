/** The collaborators the client calls into: the database connection behind
    `executeQueryAndReturnResult` / `executeQuery` /
    `executeQueryAndPrintResult` / `executeUpdate`, and the console reader
    `in.readLine()`.  Both are abstracted: the database answers each query
    text with rows of nullable column values or an exception, and the console
    is a fixed sequence of input lines. */
module Backend {
  import opened Common

  /** One result row: the column values as JDBC `getString` gives them. */
  type Row = seq<Cell>

  /** What a query returns: the materialised rows, or an `SQLException`. */
  datatype Answer = Rows(rows: seq<Row>) | Raised

  /** One call made on the connection, in the order made. */
  datatype Call = Query(text: string) | Update(text: string)

  /** `result.get(0).get(0)`: the first column of the first row, or `None`
      when that access throws (no rows, an empty row, or the query failed). */
  function FirstCell(a: Answer): Option<Cell>
  {
    if a.Rows? && |a.rows| > 0 && |a.rows[0]| > 0 then Some(a.rows[0][0]) else None
  }

  /** The physical database connection.  `answer` says what each query text
      returns and `succeeds` whether each statement executes; the model keeps
      the backing store's contents fixed, so these do not change.  `log`
      records every query and statement sent, in order. */
  class Database {
    const answer: string -> Answer
    const succeeds: string -> bool
    var log: seq<Call>

    constructor (answer: string -> Answer, succeeds: string -> bool)
      ensures this.answer == answer && this.succeeds == succeeds
      ensures log == []
    {
      this.answer := answer;
      this.succeeds := succeeds;
      log := [];
    }

    /** Sends a SELECT; a result of `Raised` is a thrown `SQLException`. */
    method RunQuery(q: string) returns (a: Answer)
      modifies this
      ensures log == old(log) + [Query(q)]
      ensures a == answer(q)
    {
      log := log + [Query(q)];
      a := answer(q);
    }

    /** Sends an INSERT, UPDATE or DELETE; `false` is a thrown `SQLException`. */
    method RunUpdate(q: string) returns (ok: bool)
      modifies this
      ensures log == old(log) + [Update(q)]
      ensures ok == succeeds(q)
    {
      log := log + [Update(q)];
      ok := succeeds(q);
    }
  }

  /** Calls made one after another, regrouped: the solver does not find this
      on its own inside a large proof. */
  lemma Regroup(a: seq<Call>, b: seq<Call>, c: seq<Call>)
    ensures a + b + c == a + (b + c)
  {
  }

  lemma RegroupPair(a: seq<Call>, b: seq<Call>, x: Call, y: Call)
    ensures a + b + [x] + [y] == a + (b + [x, y])
  {
  }

  /** The operator's keyboard: the lines typed, and how many are consumed. */
  class Console {
    const lines: seq<string>
    var pos: nat

    ghost predicate Valid()
      reads this
    {
      pos <= |lines|
    }

    constructor (lines: seq<string>)
      ensures Valid() && this.lines == lines && pos == 0
    {
      this.lines := lines;
      pos := 0;
    }

    /** `in.readLine()`: the next line, or `None` at the end of input. */
    method ReadLine() returns (line: Option<string>)
      requires Valid()
      modifies this
      ensures Valid()
      ensures old(pos) < |lines| ==> line == Some(lines[old(pos)]) && pos == old(pos) + 1
      ensures old(pos) == |lines| ==> line == None && pos == old(pos)
    {
      if pos < |lines| {
        line := Some(lines[pos]);
        pos := pos + 1;
      } else {
        line := None;
      }
    }
  }

  /** The floating-point tests of the source, left abstract because
      `Float.parseFloat` / `Double.parseDouble` and `Math.sqrt` round:
      - `inCoordinateRange(s)`: `0 <= Float.parseFloat(s) <= 100` for a string
        the decimal validator accepted;
      - `withinReach(storeLat, storeLong, userLat, userLong)`: the Euclidean
        distance is not above 30, or `None` when a value does not parse;
      - `enoughUnits(requested, available)`: `Float.parseFloat(available) >=
        Float.parseFloat(requested)`, `false` when `available` does not parse. */
  datatype Numerics = Numerics(
    inCoordinateRange: string -> bool,
    withinReach: (string, string, string, string) -> Option<bool>,
    enoughUnits: (string, string) -> bool)
}
