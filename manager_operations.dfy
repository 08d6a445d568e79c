/** The manager operations whose queries and statements depend on the
    operator's answers: `managerViewStores`, `updateProduct`,
    `viewSupplyRequests`, `viewStoreCustomers` and `viewTopSpenders`.  Each
    first asks that the session's type be "manager"; the per-store ones then
    ask that the store's manager be the session's user. */
module ManagerOperations {
  import opened Common
  import opened Validator
  import opened Backend
  import opened Existence
  import opened Sql
  import opened Assembler
  import opened Authorization
  import opened Accounts
  import opened Outcomes

  // ---------------------------------------------------------------------------
  // managerViewStores

  /** Every store the manager runs, with product and order counts and the
      income of its stock. */
  function ManagedStoresSelect(userID: string): Select
  {
    Select(
      [Plain("Store.storeID"), Plain("Store.dateEstablished"),
       Aggregate("COUNT(DISTINCT Product.productName) as number_of_products"),
       Aggregate("COUNT(DISTINCT Orders.orderNumber) as number_of_orders"),
       Aggregate("SUM(Product.numberOfUnits * Product.pricePerUnit) as total_order_income")],
      ["Product", "Orders", "Store"],
      ["Store.managerID = " + userID, "Product.storeID = Store.storeID", "Orders.storeID = Store.storeID"],
      ["Store.storeID", "Store.dateEstablished"],
      Some("number_of_orders"),
      None)
  }

  /** The overview lists only the manager's own stores and groups by its
      plain columns. */
  lemma ManagedStoresScoped(userID: string)
    ensures ManagedStoresSelect(userID).where[0] == "Store.managerID = " + userID
    ensures GroupingMatchesProjection(ManagedStoresSelect(userID))
  {
    var q := ManagedStoresSelect(userID);
    TwoPlainThenAggregates("Store.storeID", "Store.dateEstablished", q.columns[2].expression,
      q.columns[3].expression, q.columns[4].expression);
  }

  lemma TwoPlainThenAggregates(a: string, b: string, x: string, y: string, z: string)
    ensures PlainColumns([Plain(a), Plain(b), Aggregate(x), Aggregate(y), Aggregate(z)]) == [a, b]
  {
    var cs := [Plain(a), Plain(b), Aggregate(x), Aggregate(y), Aggregate(z)];
    assert cs[1..] == [Plain(b), Aggregate(x), Aggregate(y), Aggregate(z)];
    assert cs[1..][1..] == [Aggregate(x), Aggregate(y), Aggregate(z)];
    assert cs[1..][1..][1..] == [Aggregate(y), Aggregate(z)];
    assert cs[1..][1..][1..][1..] == [Aggregate(z)];
    assert PlainColumns([Aggregate(z)]) == [];
    assert PlainColumns([Aggregate(y), Aggregate(z)]) == [];
    assert PlainColumns([Aggregate(x), Aggregate(y), Aggregate(z)]) == [];
    assert PlainColumns([Plain(b), Aggregate(x), Aggregate(y), Aggregate(z)]) == [b];
  }

  /** `managerViewStores` reads no input: a manager gets the overview of
      their own stores, anyone else is turned away. */
  function ManagedStoresRun(f: Fields): Run
  {
    if HasRole(f.userType, Manager) then Run(Done, [Query(SelectText(ManagedStoresSelect(Show(f.userID))))], 0)
    else Run(Refused, [], 0)
  }

  /** The role gate stands before the `try`: the session's type is never
      null once the user menu is open. */
  method ManagerViewStores(db: Database, session: Session) returns (outcome: Outcome)
    requires session.userType.Text?
    modifies db
    ensures var r := ManagedStoresRun(session.Current()); outcome == r.outcome && db.log == old(db.log) + r.calls
  {
    if session.userType != Text(Manager) {
      return Refused;
    }
    var _ := db.RunQuery(SelectText(ManagedStoresSelect(Show(session.userID))));
    outcome := Done;
  }

  // ---------------------------------------------------------------------------
  // The head of the per-store operations

  /** The head of every per-store manager operation: the gate, a store (or
      "-" for all the manager's stores where `all` admits it), and for a
      concrete store the ownership check.  `None` lets the operation go on,
      after the calls `ScopeCalls` and one line read.  At the end of input
      the screens that admit "-" fail, as `storeID.equals("-")` throws on
      `null`; `updateProduct` reports an invalid store instead, because
      `valid_storeID` catches the exception `valid_number` raises on `null`
      and answers false. */
  function StoreScope(answer: string -> Answer, session: Fields, input: seq<string>, all: bool): Option<Run>
  {
    if !HasRole(session.userType, Manager) then Some(Run(Refused, [], 0))
    else if |input| == 0 then Some(Run(if all then Failed else Invalid, [], 0))
    else
      var store := input[0];
      var checked := StoreCheckCalls(store);
      if !(StoreExists(answer, store) || (all && store == Dash)) then Some(Run(Invalid, checked, 1))
      else if store == Dash then None
      else
        var owned := checked + [Query(ManagerLookup(store))];
        var ownership := OwnershipOf(answer, session.userID, store);
        if ownership == Unreadable then Some(Run(Failed, owned, 1))
        else if ownership == OtherManager then Some(Run(NotOwner, owned, 1))
        else None
  }

  function ScopeCalls(store: string): seq<Call>
  {
    if store == Dash then [] else StoreCheckCalls(store) + [Query(ManagerLookup(store))]
  }

  /** Past the head, the session is a manager, and a concrete store exists
      and is theirs; the head itself only reads. */
  lemma StoreScopePasses(answer: string -> Answer, session: Fields, input: seq<string>, all: bool)
    ensures var scope := StoreScope(answer, session, input, all);
      (scope.Some? ==> Updates(scope.value.calls) == [] && scope.value.outcome != Done) &&
      (scope.None? ==>
        HasRole(session.userType, Manager) && |input| > 0 && (all || input[0] != Dash) &&
        (input[0] != Dash ==> StoreExists(answer, input[0]) && OwnershipOf(answer, session.userID, input[0]) == Owner) &&
        Updates(ScopeCalls(input[0])) == [])
  {
    if |input| > 0 {
      var store := input[0];
      DashNeverExists(answer);
      StoreCheckWritesNothing(store);
      UpdatesAppend(StoreCheckCalls(store), [Query(ManagerLookup(store))]);
      QueriesWriteNothing([Query(ManagerLookup(store))]);
    }
  }

  method CheckStoreScope(db: Database, console: Console, session: Session, all: bool)
    returns (scope: Option<Run>, store: string)
    requires console.Valid()
    modifies db, console
    ensures console.Valid()
    ensures var input := old(console.lines[console.pos..]);
      scope == StoreScope(db.answer, session.Current(), input, all) &&
      (scope.Some? ==> db.log == old(db.log) + scope.value.calls && console.pos == old(console.pos) + scope.value.consumed) &&
      (scope.None? ==>
        |input| > 0 && store == input[0] && db.log == old(db.log) + ScopeCalls(store) && console.pos == old(console.pos) + 1)
  {
    store := "";
    if session.userType != Text(Manager) {
      return Some(Run(Refused, [], 0)), store;
    }
    var line := console.ReadLine();
    if line.None? {
      return Some(Run(if all then Failed else Invalid, [], 0)), store;
    }
    store := line.value;
    var known := ValidStoreID(db, store);
    if !known && !(all && store == Dash) {
      return Some(Run(Invalid, StoreCheckCalls(store), 1)), store;
    }
    if store == Dash {
      DashIsNotNumeral();
      return None, store;
    }
    var ownership := CheckOwnership(db, session.userID, store);
    if ownership == Unreadable {
      scope := Some(Run(Failed, StoreCheckCalls(store) + [Query(ManagerLookup(store))], 1));
    } else if ownership == OtherManager {
      scope := Some(Run(NotOwner, StoreCheckCalls(store) + [Query(ManagerLookup(store))], 1));
    } else {
      scope := None;
    }
  }

  // ---------------------------------------------------------------------------
  // updateProduct

  /** The product named, in the store given, gets the values supplied. */
  function ProductChange(store: string, productName: string, units: string, price: string): Change
  {
    Change("Product", ProductAssignments(units, price), ProductKey(store, productName))
  }

  const RecordPrefix: string := "INSERT INTO ProductUpdates (managerID, storeID, productName, updatedOn) VALUES ("

  /** The audit record written after a product update: who changed which
      product of which store, stamped by the database clock. */
  function ProductUpdateRecord(userID: string, store: string, productName: string): string
  {
    RecordPrefix + userID + ", " + store + ", '" + productName + "', " + "CURRENT_TIMESTAMP" + ")"
  }

  /** The rest of `updateProduct` once the store is known to be the
      manager's: product name, new number of units, new price.  A missing
      product name is looked up as the text "null" and never found, so the
      product is reported invalid; a missing value line throws in its
      comparison with "-". */
  function ProductValuesRun(answer: string -> Answer, succeeds: string -> bool, userID: string, store: string, rest: seq<string>): Run
  {
    if |rest| == 0 then Run(Invalid, [Query(ProductLookup(store, NullText))], 0)
    else
      var name := rest[0];
      var found := [Query(ProductLookup(store, name))];
      if !ProductExists(answer, store, name) then Run(Invalid, found, 1)
      else if |rest| == 1 then Run(Failed, found, 1)
      else if rest[1] != Dash && !IsNumeral(rest[1], true) then Run(Invalid, found, 2)
      else if |rest| == 2 then Run(Failed, found, 2)
      else if rest[2] != Dash && !IsNumeral(rest[2], false) then Run(Invalid, found, 3)
      else if rest[1] == Dash && rest[2] == Dash then Run(NoChange, found, 3)
      else
        var statement := ChangeText(ProductChange(store, name, rest[1], rest[2]));
        var record := ProductUpdateRecord(userID, store, name);
        if !succeeds(statement) then Run(Failed, found + [Update(statement)], 3)
        else Run(if succeeds(record) then Done else Failed, found + [Update(statement), Update(record)], 3)
  }

  /** `updateProduct` on the remaining input lines: store, product name, new
      number of units, new price. */
  function UpdateProductRun(answer: string -> Answer, succeeds: string -> bool, session: Fields, input: seq<string>): Run
  {
    var scope := StoreScope(answer, session, input, false);
    if scope.Some? then scope.value
    else After(ScopeCalls(input[0]), 1, ProductValuesRun(answer, succeeds, Show(session.userID), input[0], input[1..]))
  }

  /** The checks on the product and the new values. */
  predicate ValuesAccepted(answer: string -> Answer, store: string, rest: seq<string>)
  {
    |rest| >= 3 && ProductExists(answer, store, rest[0]) &&
    (rest[1] == Dash || IsNumeral(rest[1], true)) && (rest[2] == Dash || IsNumeral(rest[2], false)) &&
    !(rest[1] == Dash && rest[2] == Dash)
  }

  /** Once the store is settled, a statement is written exactly when the
      product exists and a well-formed new value is given; it is the product
      update, followed by the audit record only when the update went through. */
  lemma ProductValuesWrites(answer: string -> Answer, succeeds: string -> bool, userID: string, store: string, rest: seq<string>)
    ensures var r := ProductValuesRun(answer, succeeds, userID, store, rest);
      (Updates(r.calls) != [] <==> ValuesAccepted(answer, store, rest)) &&
      (ValuesAccepted(answer, store, rest) ==>
        var statement := ChangeText(ProductChange(store, rest[0], rest[1], rest[2]));
        Updates(r.calls)[0] == statement &&
        (|Updates(r.calls)| > 1 <==> succeeds(statement)) &&
        (r.outcome == Done <==> succeeds(statement) && succeeds(ProductUpdateRecord(userID, store, rest[0]))))
  {
    if |rest| == 0 {
      QueriesWriteNothing([Query(ProductLookup(store, NullText))]);
    } else {
      var found := [Query(ProductLookup(store, rest[0]))];
      QueriesWriteNothing(found);
      if ValuesAccepted(answer, store, rest) {
        var statement := ChangeText(ProductChange(store, rest[0], rest[1], rest[2]));
        var record := ProductUpdateRecord(userID, store, rest[0]);
        UpdatesAppend(found, [Update(statement)]);
        UpdatesAppend(found, [Update(statement), Update(record)]);
        assert [Update(statement)][1..] == [];
        assert [Update(statement), Update(record)][1..] == [Update(record)];
        assert [Update(record)][1..] == [];
      }
    }
  }

  /** Only the store's own manager changes a product, and only an existing
      product with well-formed new values; every other session is turned
      away before any input is read. */
  lemma UpdateProductWritesOnlyAsOwner(answer: string -> Answer, succeeds: string -> bool, session: Fields, input: seq<string>)
    ensures var r := UpdateProductRun(answer, succeeds, session, input);
      (!HasRole(session.userType, Manager) ==> r == Run(Refused, [], 0)) &&
      (Updates(r.calls) != [] <==>
        HasRole(session.userType, Manager) && |input| > 0 &&
        StoreExists(answer, input[0]) && OwnershipOf(answer, session.userID, input[0]) == Owner &&
        ValuesAccepted(answer, input[0], input[1..])) &&
      (Updates(r.calls) != [] ==>
        Updates(r.calls)[0] == ChangeText(ProductChange(input[0], input[1], input[2], input[3])))
  {
    StoreScopePasses(answer, session, input, false);
    if StoreScope(answer, session, input, false).None? {
      var r := ProductValuesRun(answer, succeeds, Show(session.userID), input[0], input[1..]);
      ProductValuesWrites(answer, succeeds, Show(session.userID), input[0], input[1..]);
      UpdatesAppend(ScopeCalls(input[0]), r.calls);
    }
  }

  /** Running out of input on the store or the product line is reported as
      an invalid answer, not as a failure: a missing store is refused
      before any lookup, and a missing product name is looked up as the
      text "null" and refused. */
  lemma UpdateProductEndOfInput(answer: string -> Answer, succeeds: string -> bool, session: Fields, store: string)
    requires HasRole(session.userType, Manager)
    ensures UpdateProductRun(answer, succeeds, session, []) == Run(Invalid, [], 0)
    ensures StoreExists(answer, store) && OwnershipOf(answer, session.userID, store) == Owner ==>
      UpdateProductRun(answer, succeeds, session, [store]) ==
        Run(Invalid, StoreCheckCalls(store) + [Query(ManagerLookup(store)), Query(ProductLookup(store, "null"))], 1)
  {
    if StoreExists(answer, store) && OwnershipOf(answer, session.userID, store) == Owner {
      DashNeverExists(answer);
      assert [store][1..] == [];
      assert StoreCheckCalls(store) + [Query(ManagerLookup(store))] + [Query(ProductLookup(store, NullText))] ==
        StoreCheckCalls(store) + [Query(ManagerLookup(store)), Query(ProductLookup(store, "null"))];
    }
  }

  /** Reads the product and the new values and sends the update and its
      record. */
  method UpdateProductValues(db: Database, console: Console, userID: Cell, store: string) returns (outcome: Outcome)
    requires console.Valid()
    modifies db, console
    ensures console.Valid()
    ensures var r := ProductValuesRun(db.answer, db.succeeds, Show(userID), store, old(console.lines[console.pos..]));
      outcome == r.outcome && db.log == old(db.log) + r.calls && console.pos == old(console.pos) + r.consumed
  {
    ghost var rest := console.lines[console.pos..];
    var line := console.ReadLine();
    if line.None? {
      var _ := db.RunQuery(ProductLookup(store, NullText));
      return Invalid;
    }
    var productName := line.value;
    assert productName == rest[0];
    var known := ValidProduct(db, store, productName);
    if !known {
      return Invalid;
    }
    line := console.ReadLine();
    if line.None? {
      return Failed;
    }
    var units := line.value;
    assert units == rest[1];
    var numeric := ValidNumber(units, true);
    if units != Dash && !numeric {
      return Invalid;
    }
    line := console.ReadLine();
    if line.None? {
      return Failed;
    }
    var price := line.value;
    assert price == rest[2];
    numeric := ValidNumber(price, false);
    if price != Dash && !numeric {
      return Invalid;
    }
    var statement := UpdateProductStatement(store, productName, units, price);
    if statement.None? {
      return NoChange;
    }
    ghost var found := [Query(ProductLookup(store, productName))];
    var ok := db.RunUpdate(statement.value);
    Regroup(old(db.log), found, [Update(statement.value)]);
    if !ok {
      return Failed;
    }
    ok := db.RunUpdate(ProductUpdateRecord(Show(userID), store, productName));
    RegroupPair(old(db.log), found, Update(statement.value), Update(ProductUpdateRecord(Show(userID), store, productName)));
    outcome := if ok then Done else Failed;
  }

  /** The role gate stands before the `try`: the session's type is never
      null once the user menu is open. */
  method UpdateProduct(db: Database, console: Console, session: Session) returns (outcome: Outcome)
    requires console.Valid() && session.userType.Text?
    modifies db, console
    ensures console.Valid()
    ensures var r := UpdateProductRun(db.answer, db.succeeds, session.Current(), old(console.lines[console.pos..]));
      outcome == r.outcome && db.log == old(db.log) + r.calls && console.pos == old(console.pos) + r.consumed
  {
    ghost var input := console.lines[console.pos..];
    var scope, store := CheckStoreScope(db, console, session, false);
    if scope.Some? {
      return scope.value.outcome;
    }
    assert console.lines[console.pos..] == input[1..];
    outcome := UpdateProductValues(db, console, session.userID, store);
    ghost var r := ProductValuesRun(db.answer, db.succeeds, Show(session.userID), store, input[1..]);
    assert UpdateProductRun(db.answer, db.succeeds, session.Current(), input) == After(ScopeCalls(store), 1, r);
    Regroup(old(db.log), ScopeCalls(store), r.calls);
  }

  // ---------------------------------------------------------------------------
  // viewSupplyRequests

  /** `viewSupplyRequests`: a store or "-", then a count that is checked
      but never applied. */
  function SupplyRequestsRun(answer: string -> Answer, session: Fields, input: seq<string>): Run
  {
    if !HasRole(session.userType, Manager) then Run(Refused, [], 0)
    else if |input| == 0 then Run(Failed, [], 0)
    else
      var store := input[0];
      var checked := StoreCheckCalls(store);
      if !StoreOrAll(answer, store) then Run(Invalid, checked, 1)
      else if |input| == 1 then Run(Failed, checked, 1)
      else if input[1] != Dash && !IsNumeral(input[1], true) then Run(Invalid, checked, 2)
      // `Float.parseFloat("")` throws on the one integer numeral that is empty.
      else if input[1] == "" then Run(Failed, checked, 2)
      else Run(Done, checked + [Query(SelectText(SupplyRequestsSelect(Show(session.userID), input[0])))], 2)
  }

  /** The count the operator gives never changes the query: any two
      accepted counts send the same calls. */
  lemma SupplyCountIgnored(answer: string -> Answer, session: Fields, store: string, count1: string, count2: string)
    requires SupplyRequestsRun(answer, session, [store, count1]).outcome == Done
    requires SupplyRequestsRun(answer, session, [store, count2]).outcome == Done
    ensures SupplyRequestsRun(answer, session, [store, count1]) == SupplyRequestsRun(answer, session, [store, count2])
    ensures SupplyRequestsSelect(Show(session.userID), store).limit.None?
  {
  }

  method ViewSupplyRequests(db: Database, console: Console, session: Session) returns (outcome: Outcome)
    requires console.Valid()
    modifies db, console
    ensures console.Valid()
    ensures var r := SupplyRequestsRun(db.answer, session.Current(), old(console.lines[console.pos..]));
      outcome == r.outcome && db.log == old(db.log) + r.calls && console.pos == old(console.pos) + r.consumed
  {
    if session.userType != Text(Manager) {
      return Refused;
    }
    var line := console.ReadLine();
    if line.None? {
      return Failed;
    }
    var store := line.value;
    var known := ValidStoreID(db, store);
    if !known && store != Dash {
      return Invalid;
    }
    line := console.ReadLine();
    if line.None? {
      return Failed;
    }
    var count := line.value;
    if count != Dash {
      var numeric := ValidNumber(count, true);
      if !numeric {
        return Invalid;
      }
      if count == "" {
        return Failed;
      }
    }
    var q := SupplyRequestsQuery(Show(session.userID), store);
    var _ := db.RunQuery(SelectText(q));
    Regroup(old(db.log), StoreCheckCalls(store), [Query(SelectText(q))]);
    outcome := Done;
  }

  // ---------------------------------------------------------------------------
  // viewStoreCustomers and viewTopSpenders

  /** The rest of `viewStoreCustomers` once the store is settled: a limit,
      taken as typed. */
  function CustomersTail(userID: string, store: string, rest: seq<string>): Run
  {
    if |rest| == 0 then Run(Failed, [], 0)
    else Run(Done, [Query(SelectText(StoreCustomersSelect(userID, store, rest[0])))], 1)
  }

  function StoreCustomersRun(answer: string -> Answer, session: Fields, input: seq<string>): Run
  {
    var scope := StoreScope(answer, session, input, true);
    if scope.Some? then scope.value
    else After(ScopeCalls(input[0]), 1, CustomersTail(Show(session.userID), input[0], input[1..]))
  }

  /** The rest of `viewTopSpenders` once the store is settled: a limit,
      which must be "-" or an integer. */
  function SpendersTail(userID: string, store: string, rest: seq<string>): Run
  {
    if |rest| == 0 then Run(Failed, [], 0)
    else if rest[0] != Dash && !IsNumeral(rest[0], true) then Run(Invalid, [], 1)
    else Run(Done, [Query(SelectText(TopSpendersSelect(userID, store, rest[0])))], 1)
  }

  function TopSpendersRun(answer: string -> Answer, session: Fields, input: seq<string>): Run
  {
    var scope := StoreScope(answer, session, input, true);
    if scope.Some? then scope.value
    else After(ScopeCalls(input[0]), 1, SpendersTail(Show(session.userID), input[0], input[1..]))
  }

  /** A customer listing reaches the database only for a manager who owns
      the chosen store (or who chose "-", which `CustomerReportsScoped`
      confines to the manager's own stores), and its one report query comes
      last. */
  lemma StoreCustomersNeedOwnership(answer: string -> Answer, session: Fields, input: seq<string>)
    ensures var r := StoreCustomersRun(answer, session, input);
      Updates(r.calls) == [] &&
      (r.outcome == Done ==>
        HasRole(session.userType, Manager) && |input| >= 2 &&
        (input[0] != Dash ==> StoreExists(answer, input[0]) && OwnershipOf(answer, session.userID, input[0]) == Owner) &&
        r.calls[|r.calls| - 1] == Query(SelectText(StoreCustomersSelect(Show(session.userID), input[0], input[1]))))
  {
    StoreScopePasses(answer, session, input, true);
    if StoreScope(answer, session, input, true).None? {
      var r := CustomersTail(Show(session.userID), input[0], input[1..]);
      QueriesWriteNothing(r.calls);
      UpdatesAppend(ScopeCalls(input[0]), r.calls);
    }
  }

  /** The same for the top-spender report, whose limit must also be "-" or
      an integer. */
  lemma TopSpendersNeedOwnership(answer: string -> Answer, session: Fields, input: seq<string>)
    ensures var r := TopSpendersRun(answer, session, input);
      Updates(r.calls) == [] &&
      (r.outcome == Done ==>
        HasRole(session.userType, Manager) && |input| >= 2 &&
        (input[0] != Dash ==> StoreExists(answer, input[0]) && OwnershipOf(answer, session.userID, input[0]) == Owner) &&
        (input[1] == Dash || IsNumeral(input[1], true)) &&
        r.calls[|r.calls| - 1] == Query(SelectText(TopSpendersSelect(Show(session.userID), input[0], input[1]))))
  {
    StoreScopePasses(answer, session, input, true);
    if StoreScope(answer, session, input, true).None? {
      var r := SpendersTail(Show(session.userID), input[0], input[1..]);
      QueriesWriteNothing(r.calls);
      UpdatesAppend(ScopeCalls(input[0]), r.calls);
    }
  }

  method ListStoreCustomers(db: Database, console: Console, userID: string, store: string) returns (outcome: Outcome)
    requires console.Valid()
    modifies db, console
    ensures console.Valid()
    ensures var r := CustomersTail(userID, store, old(console.lines[console.pos..]));
      outcome == r.outcome && db.log == old(db.log) + r.calls && console.pos == old(console.pos) + r.consumed
  {
    var line := console.ReadLine();
    if line.None? {
      return Failed;
    }
    var q := StoreCustomersQuery(userID, store, line.value);
    var _ := db.RunQuery(SelectText(q));
    outcome := Done;
  }

  method ViewStoreCustomers(db: Database, console: Console, session: Session) returns (outcome: Outcome)
    requires console.Valid()
    modifies db, console
    ensures console.Valid()
    ensures var r := StoreCustomersRun(db.answer, session.Current(), old(console.lines[console.pos..]));
      outcome == r.outcome && db.log == old(db.log) + r.calls && console.pos == old(console.pos) + r.consumed
  {
    ghost var input := console.lines[console.pos..];
    var scope, store := CheckStoreScope(db, console, session, true);
    if scope.Some? {
      return scope.value.outcome;
    }
    assert console.lines[console.pos..] == input[1..];
    outcome := ListStoreCustomers(db, console, Show(session.userID), store);
    ghost var r := CustomersTail(Show(session.userID), store, input[1..]);
    Regroup(old(db.log), ScopeCalls(store), r.calls);
  }

  method ListTopSpenders(db: Database, console: Console, userID: string, store: string) returns (outcome: Outcome)
    requires console.Valid()
    modifies db, console
    ensures console.Valid()
    ensures var r := SpendersTail(userID, store, old(console.lines[console.pos..]));
      outcome == r.outcome && db.log == old(db.log) + r.calls && console.pos == old(console.pos) + r.consumed
  {
    var line := console.ReadLine();
    if line.None? {
      return Failed;
    }
    var limit := line.value;
    if limit != Dash {
      var numeric := ValidNumber(limit, true);
      if !numeric {
        return Invalid;
      }
    }
    var q := TopSpendersQuery(userID, store, limit);
    var _ := db.RunQuery(SelectText(q));
    outcome := Done;
  }

  method ViewTopSpenders(db: Database, console: Console, session: Session) returns (outcome: Outcome)
    requires console.Valid()
    modifies db, console
    ensures console.Valid()
    ensures var r := TopSpendersRun(db.answer, session.Current(), old(console.lines[console.pos..]));
      outcome == r.outcome && db.log == old(db.log) + r.calls && console.pos == old(console.pos) + r.consumed
  {
    ghost var input := console.lines[console.pos..];
    var scope, store := CheckStoreScope(db, console, session, true);
    if scope.Some? {
      return scope.value.outcome;
    }
    assert console.lines[console.pos..] == input[1..];
    outcome := ListTopSpenders(db, console, Show(session.userID), store);
    ghost var r := SpendersTail(Show(session.userID), store, input[1..]);
    Regroup(old(db.log), ScopeCalls(store), r.calls);
  }
}
