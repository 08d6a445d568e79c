/** The existence checkers `valid_storeID`, `valid_warehouseID`,
    `valid_product`, `valid_username` and `valid_password`.  Each sends one
    lookup scoped to the candidate and then scans the returned rows for one
    whose trimmed first column equals the candidate; every exception makes the
    answer `false`. */
module Existence {
  import opened Common
  import opened Validator
  import opened Backend

  /** Reading this row's first column throws: `get(0)` on an empty row, or
      `trim()` on a SQL NULL. */
  predicate RowThrows(row: Row)
  {
    |row| == 0 || row[0].Null?
  }

  /** This row's first column, trimmed, is the candidate. */
  predicate RowHolds(row: Row, candidate: string)
  {
    |row| > 0 && row[0].Text? && Trim(row[0].s) == candidate
  }

  /** The scan's verdict on an answer: some row holds the candidate and no
      row before it throws. */
  predicate Found(a: Answer, candidate: string)
  {
    a.Rows? &&
    exists i :: 0 <= i < |a.rows| && RowHolds(a.rows[i], candidate) &&
      forall k :: 0 <= k < i ==> !RowThrows(a.rows[k])
  }

  /** The row loop shared by the checkers, returning early on the first
      match; a row whose first column cannot be read ends the scan with
      `false`, as the exception it raises is caught. */
  method ScanFirstColumn(rows: seq<Row>, candidate: string) returns (found: bool)
    ensures found == Found(Rows(rows), candidate)
  {
    var i := 0;
    while i < |rows|
      invariant 0 <= i <= |rows|
      invariant forall k :: 0 <= k < i ==> !RowThrows(rows[k]) && !RowHolds(rows[k], candidate)
    {
      if |rows[i]| == 0 || rows[i][0].Null? {
        return false;
      }
      if candidate == Trim(rows[i][0].s) {
        return true;
      }
      i := i + 1;
    }
    return false;
  }

  /** When every row can be read, the scan is plain membership of the
      candidate among the trimmed first columns. */
  lemma FoundInReadableRows(rows: seq<Row>, candidate: string)
    requires forall k :: 0 <= k < |rows| ==> !RowThrows(rows[k])
    ensures Found(Rows(rows), candidate) <==> exists i :: 0 <= i < |rows| && RowHolds(rows[i], candidate)
  {
  }

  /** A value stored with blank padding around it is still found. */
  lemma PaddedValueFound(lead: string, candidate: string, trail: string)
    requires AllBlank(lead) && AllBlank(trail) && IsTrimmed(candidate)
    ensures Found(Rows([[Text(lead + candidate + trail)]]), candidate)
  {
    TrimRemovesPadding(lead, candidate, trail);
    var a := Rows([[Text(lead + candidate + trail)]]);
    assert RowHolds(a.rows[0], candidate);
  }

  /** Fail closed: a failed lookup never confirms existence, and neither does
      an empty result. */
  lemma FailsClosed(candidate: string)
    ensures !Found(Raised, candidate)
    ensures !Found(Rows([]), candidate)
  {
  }

  // The lookups, each scoped to the candidate key.

  function StoreLookup(store: string): string
  {
    "SELECT storeID FROM Store WHERE storeID = " + store
  }

  function WarehouseLookup(warehouse: string): string
  {
    "SELECT WarehouseID FROM Warehouse WHERE WarehouseID = " + warehouse
  }

  function ProductLookup(store: string, productName: string): string
  {
    "SELECT Product.productName FROM Product WHERE Product.storeID = " + store +
    " AND Product.productName = '" + productName + "'"
  }

  function UsernameLookup(username: string): string
  {
    "SELECT Users.name FROM Users WHERE Users.name = '" + username + "'"
  }

  function PasswordLookup(username: string, password: string): string
  {
    "SELECT Users.password FROM Users WHERE Users.name = '" + username +
    "' AND Users.password = '" + password + "'"
  }

  // What each checker decides, given the database's answers.

  predicate StoreExists(answer: string -> Answer, store: string)
  {
    IsNumeral(store, true) && Found(answer(StoreLookup(store)), store)
  }

  predicate WarehouseExists(answer: string -> Answer, warehouse: string)
  {
    IsNumeral(warehouse, true) && Found(answer(WarehouseLookup(warehouse)), warehouse)
  }

  predicate ProductExists(answer: string -> Answer, store: string, productName: string)
  {
    Found(answer(ProductLookup(store, productName)), productName)
  }

  predicate UsernameExists(answer: string -> Answer, username: string)
  {
    Found(answer(UsernameLookup(username)), username)
  }

  predicate PasswordMatches(answer: string -> Answer, username: string, password: string)
  {
    Found(answer(PasswordLookup(username, password)), password)
  }

  /** The sentinel "-" is never an existing store or warehouse, whatever the
      database holds. */
  lemma DashNeverExists(answer: string -> Answer)
    ensures !StoreExists(answer, Dash) && !WarehouseExists(answer, Dash)
  {
    DashIsNotNumeral();
  }

  method ValidStoreID(db: Database, store: string) returns (ok: bool)
    modifies db
    ensures ok == StoreExists(db.answer, store)
    ensures db.log == old(db.log) + (if IsNumeral(store, true) then [Query(StoreLookup(store))] else [])
  {
    var numeric := ValidNumber(store, true);
    if !numeric {
      return false;
    }
    var a := db.RunQuery(StoreLookup(store));
    if a.Raised? {
      return false;
    }
    ok := ScanFirstColumn(a.rows, store);
  }

  method ValidWarehouseID(db: Database, warehouse: string) returns (ok: bool)
    modifies db
    ensures ok == WarehouseExists(db.answer, warehouse)
    ensures db.log == old(db.log) + (if IsNumeral(warehouse, true) then [Query(WarehouseLookup(warehouse))] else [])
  {
    var numeric := ValidNumber(warehouse, true);
    if !numeric {
      return false;
    }
    var a := db.RunQuery(WarehouseLookup(warehouse));
    if a.Raised? {
      return false;
    }
    ok := ScanFirstColumn(a.rows, warehouse);
  }

  method ValidProduct(db: Database, store: string, productName: string) returns (ok: bool)
    modifies db
    ensures ok == ProductExists(db.answer, store, productName)
    ensures db.log == old(db.log) + [Query(ProductLookup(store, productName))]
  {
    var a := db.RunQuery(ProductLookup(store, productName));
    if a.Raised? {
      return false;
    }
    ok := ScanFirstColumn(a.rows, productName);
  }

  method ValidUsername(db: Database, username: string) returns (ok: bool)
    modifies db
    ensures ok == UsernameExists(db.answer, username)
    ensures db.log == old(db.log) + [Query(UsernameLookup(username))]
  {
    var a := db.RunQuery(UsernameLookup(username));
    if a.Raised? {
      return false;
    }
    ok := ScanFirstColumn(a.rows, username);
  }

  method ValidPassword(db: Database, username: string, password: string) returns (ok: bool)
    modifies db
    ensures ok == PasswordMatches(db.answer, username, password)
    ensures db.log == old(db.log) + [Query(PasswordLookup(username, password))]
  {
    var a := db.RunQuery(PasswordLookup(username, password));
    if a.Raised? {
      return false;
    }
    ok := ScanFirstColumn(a.rows, password);
  }
}
