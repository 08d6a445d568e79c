/** The query assemblers: the pieces of the client that grow a SQL string with
    `+=` depending on which optional answers the operator supplied.  The range
    filter, the product statements and the user-edit accumulator follow the
    source's concatenations (its literals split where one clause ends and the
    next begins, which leaves the text unchanged), and their contracts equate
    the string built with the rendering of a structured `Select` or `Change`.
    The report queries further down are built as structured `Select` values
    under the source's tests; the text sent is their `SelectText`. */
module Assembler {
  import opened Common
  import opened Sql

  // ---------------------------------------------------------------------------
  // Range filters (inputRangeQueryOnAttribute, and the same code in adminViewUsers)

  /** The bounds of a range filter on `attribute`: a lower bound unless the
      first answer is "-", then an upper bound unless the last answer is "-". */
  function RangeConditions(attribute: string, first: string, last: string): seq<string>
  {
    (if first == Dash then [] else [attribute + " >= " + first]) +
    (if last == Dash then [] else [attribute + " <= " + last])
  }

  /** Appends the range filter to `query`, branch by branch as the client does. */
  method AppendRange(query: string, attribute: string, first: string, last: string) returns (result: string)
    ensures result == query + WhereText(RangeConditions(attribute, first, last))
  {
    result := query;
    if !(first == Dash && last == Dash) {
      if !(first == Dash || last == Dash) {
        result := result + " WHERE " + attribute + " >= " + first;
        result := result + " AND " + attribute + " <= " + last;
      } else if first != Dash {
        result := result + " WHERE " + attribute + " >= " + first;
      } else {
        result := result + " WHERE " + attribute + " <= " + last;
      }
    }
    RangeShapes(query, attribute, first, last);
  }

  lemma LowerBoundText(query: string, attribute: string, first: string, last: string)
    requires first != Dash && last == Dash
    ensures query + WhereText(RangeConditions(attribute, first, last)) == query + " WHERE " + attribute + " >= " + first
  {
    assert RangeConditions(attribute, first, last) == [attribute + " >= " + first];
  }

  lemma UpperBoundText(query: string, attribute: string, first: string, last: string)
    requires first == Dash && last != Dash
    ensures query + WhereText(RangeConditions(attribute, first, last)) == query + " WHERE " + attribute + " <= " + last
  {
    assert RangeConditions(attribute, first, last) == [attribute + " <= " + last];
  }

  lemma BothBoundsText(query: string, attribute: string, first: string, last: string)
    requires first != Dash && last != Dash
    ensures query + WhereText(RangeConditions(attribute, first, last)) ==
      query + " WHERE " + attribute + " >= " + first + " AND " + attribute + " <= " + last
  {
    var lower, upper := attribute + " >= " + first, attribute + " <= " + last;
    assert RangeConditions(attribute, first, last) == [lower, upper];
    JoinTwo(lower, upper, " AND ");
    var head := query + " WHERE ";
    calc {
      query + WhereText([lower, upper]);
      query + (" WHERE " + (lower + " AND " + upper));
      { Concat3(query, " WHERE ", lower + " AND " + upper); }
      head + (lower + " AND " + upper);
      { Concat3(head, lower + " AND ", upper); Concat3(head, lower, " AND "); }
      head + lower + " AND " + upper;
      { Concat3(head, attribute + " >= ", first); Concat3(head, attribute, " >= "); }
      head + attribute + " >= " + first + " AND " + upper;
      { Concat3(head + attribute + " >= " + first + " AND ", attribute + " <= ", last);
        Concat3(head + attribute + " >= " + first + " AND ", attribute, " <= "); }
      head + attribute + " >= " + first + " AND " + attribute + " <= " + last;
    }
  }

  /** Concatenation regrouped, for the long chains below. */
  lemma Concat3(a: string, b: string, c: string)
    ensures a + (b + c) == a + b + c
  {
  }

  /** The four results of a range filter: the query unchanged, a lower bound
      only, an upper bound only, or both with the lower bound first. */
  lemma RangeShapes(query: string, attribute: string, first: string, last: string)
    ensures first == Dash && last == Dash ==>
      query + WhereText(RangeConditions(attribute, first, last)) == query
    ensures first != Dash && last == Dash ==>
      query + WhereText(RangeConditions(attribute, first, last)) == query + " WHERE " + attribute + " >= " + first
    ensures first == Dash && last != Dash ==>
      query + WhereText(RangeConditions(attribute, first, last)) == query + " WHERE " + attribute + " <= " + last
    ensures first != Dash && last != Dash ==>
      query + WhereText(RangeConditions(attribute, first, last)) ==
        query + " WHERE " + attribute + " >= " + first + " AND " + attribute + " <= " + last
  {
    if first != Dash && last != Dash {
      BothBoundsText(query, attribute, first, last);
    } else if first != Dash {
      LowerBoundText(query, attribute, first, last);
    } else if last != Dash {
      UpperBoundText(query, attribute, first, last);
    } else {
      assert query + "" == query;
    }
  }

  /** A filter bounds `attribute` from below exactly when a first value was
      given and from above exactly when a last value was given, lower bound
      first. */
  lemma RangeBoundsSupplied(attribute: string, first: string, last: string)
    ensures (attribute + " >= " + first in RangeConditions(attribute, first, last)) <==> first != Dash
    ensures (attribute + " <= " + last in RangeConditions(attribute, first, last)) <==> last != Dash
    ensures |RangeConditions(attribute, first, last)| <= 2
    ensures first != Dash ==> RangeConditions(attribute, first, last)[0] == attribute + " >= " + first
  {
    BoundsDiffer(attribute, first, last);
  }

  /** A lower bound is never the same text as an upper bound. */
  lemma BoundsDiffer(attribute: string, first: string, last: string)
    ensures attribute + " >= " + first != attribute + " <= " + last
  {
    assert (attribute + " >= " + first)[|attribute| + 1] == '>';
    assert (attribute + " <= " + last)[|attribute| + 1] == '<';
  }

  // ---------------------------------------------------------------------------
  // Product updates (updateProduct and adminEditProducts)

  /** The SET list of a product update: the unit count, then the price, each
      only when it is not "-". */
  function ProductAssignments(units: string, price: string): seq<string>
  {
    (if units == Dash then [] else ["numberOfUnits = " + units]) +
    (if price == Dash then [] else ["pricePerUnit = " + price])
  }

  /** A manager's update names one product of one store. */
  function ProductKey(store: string, productName: string): seq<string>
  {
    ["storeID = " + store, "productName = '" + productName + "'"]
  }

  /** The texts of `updateProduct` with a single assignment, `column`
      followed by `value`: `pricePerUnit = ` or `numberOfUnits = `. */
  lemma OneUpdateText(store: string, productName: string, column: string, value: string)
    ensures "UPDATE Product SET " + column + value +
      " WHERE " + "storeID = " + store + " AND " + "productName = '" + productName + "'"
      == ChangeText(Change("Product", [column + value], ProductKey(store, productName)))
  {
    JoinTwo("storeID = " + store, "productName = '" + productName + "'", " AND ");
  }

  /** The text of `updateProduct` with both assignments. */
  lemma BothUpdateText(store: string, productName: string, units: string, price: string)
    ensures "UPDATE Product SET " + "numberOfUnits = " + units + ", " + "pricePerUnit = " + price +
      " WHERE " + "storeID = " + store + " AND " + "productName = '" + productName + "'"
      == ChangeText(Change("Product", ["numberOfUnits = " + units, "pricePerUnit = " + price], ProductKey(store, productName)))
  {
    TwoByTwoUpdate("UPDATE Product SET ", "Product", "numberOfUnits = ", units, "pricePerUnit = ", price,
      "storeID = ", store, "productName = '", productName, "'");
  }

  /** The text of an UPDATE with two assignments and two conditions, over
      arbitrary pieces. */
  lemma TwoByTwoUpdate(head: string, table: string, a1: string, a2: string, b1: string, b2: string,
                       c1: string, c2: string, d1: string, d2: string, d3: string)
    requires head == "UPDATE " + table + " SET "
    ensures head + a1 + a2 + ", " + b1 + b2 + " WHERE " + c1 + c2 + " AND " + d1 + d2 + d3
      == ChangeText(Change(table, [a1 + a2, b1 + b2], [c1 + c2, d1 + d2 + d3]))
  {
    JoinTwo(a1 + a2, b1 + b2, ", ");
    JoinTwo(c1 + c2, d1 + d2 + d3, " AND ");
  }

  /** The UPDATE of `updateProduct`; `None` is its "No changes." exit. */
  method UpdateProductStatement(store: string, productName: string, units: string, price: string)
    returns (statement: Option<string>)
    ensures statement.None? <==> units == Dash && price == Dash
    ensures statement.Some? ==>
      statement.value == ChangeText(Change("Product", ProductAssignments(units, price), ProductKey(store, productName)))
  {
    if units == Dash && price == Dash {
      return None;
    } else if units == Dash {
      statement := Some("UPDATE Product SET " + "pricePerUnit = " + price +
        " WHERE " + "storeID = " + store + " AND " + "productName = '" + productName + "'");
      OneUpdateText(store, productName, "pricePerUnit = ", price);
      assert ProductAssignments(units, price) == ["pricePerUnit = " + price];
    } else if price == Dash {
      statement := Some("UPDATE Product SET " + "numberOfUnits = " + units +
        " WHERE " + "storeID = " + store + " AND " + "productName = '" + productName + "'");
      OneUpdateText(store, productName, "numberOfUnits = ", units);
      assert ProductAssignments(units, price) == ["numberOfUnits = " + units];
    } else {
      statement := Some("UPDATE Product SET " + "numberOfUnits = " + units + ", " + "pricePerUnit = " + price +
        " WHERE " + "storeID = " + store + " AND " + "productName = '" + productName + "'");
      BothUpdateText(store, productName, units, price);
      assert ProductAssignments(units, price) == ["numberOfUnits = " + units, "pricePerUnit = " + price];
    }
  }

  /** The filter of an administrator's product update: the product name, then
      the store, each only when it is not "-". */
  function ProductFilter(store: string, productName: string): seq<string>
  {
    (if productName == Dash then [] else ["productName = '" + productName + "'"]) +
    (if store == Dash then [] else ["storeID = " + store])
  }

  /** The SET list `adminEditProducts` appends after `query`, for each pair
      of answers. */
  lemma ProductSetListText(query: string, units: string, price: string)
    ensures units == Dash && price != Dash ==>
      query + Join(ProductAssignments(units, price), ", ") == query + "pricePerUnit = " + price
    ensures units != Dash && price == Dash ==>
      query + Join(ProductAssignments(units, price), ", ") == query + "numberOfUnits = " + units
    ensures units != Dash && price != Dash ==>
      query + Join(ProductAssignments(units, price), ", ") == query + "numberOfUnits = " + units + ", " + "pricePerUnit = " + price
  {
    if units != Dash && price != Dash {
      UnitsAndPriceText(query, units, price);
    } else if units != Dash {
      assert ProductAssignments(units, price) == ["numberOfUnits = " + units];
    } else if price != Dash {
      assert ProductAssignments(units, price) == ["pricePerUnit = " + price];
    }
  }

  lemma UnitsAndPriceText(query: string, units: string, price: string)
    requires units != Dash && price != Dash
    ensures query + Join(ProductAssignments(units, price), ", ") == query + "numberOfUnits = " + units + ", " + "pricePerUnit = " + price
  {
    assert ProductAssignments(units, price) == ["numberOfUnits = " + units, "pricePerUnit = " + price];
    JoinTwo("numberOfUnits = " + units, "pricePerUnit = " + price, ", ");
  }

  /** A single condition is written after WHERE on its own. */
  lemma OneConditionText(query: string, condition: string)
    ensures query + WhereText([condition]) == query + " WHERE " + condition
  {
    assert Join([condition], " AND ") == condition;
  }

  /** The WHERE clause `adminEditProducts` appends after `query`, for each
      pair of keys. */
  lemma ProductFilterText(query: string, store: string, productName: string)
    ensures store == Dash && productName == Dash ==> query + WhereText(ProductFilter(store, productName)) == query
    ensures store != Dash && productName != Dash ==>
      query + WhereText(ProductFilter(store, productName)) ==
        query + " WHERE " + "productName = '" + productName + "'" + " AND " + "storeID = " + store
    ensures store == Dash && productName != Dash ==>
      query + WhereText(ProductFilter(store, productName)) ==
        query + " WHERE " + "productName = '" + productName + "'"
    ensures store != Dash && productName == Dash ==>
      query + WhereText(ProductFilter(store, productName)) ==
        query + " WHERE " + "storeID = " + store
  {
    if store != Dash && productName != Dash {
      NameAndStoreFilterText(query, store, productName);
    } else if productName != Dash {
      assert ProductFilter(store, productName) == ["productName = '" + productName + "'"];
      OneConditionText(query, "productName = '" + productName + "'");
    } else if store != Dash {
      assert ProductFilter(store, productName) == ["storeID = " + store];
      OneConditionText(query, "storeID = " + store);
    } else {
      assert query + "" == query;
    }
  }

  lemma NameAndStoreFilterText(query: string, store: string, productName: string)
    requires store != Dash && productName != Dash
    ensures query + WhereText(ProductFilter(store, productName)) ==
      query + " WHERE " + "productName = '" + productName + "'" + " AND " + "storeID = " + store
  {
    var name, key := "productName = '" + productName + "'", "storeID = " + store;
    assert ProductFilter(store, productName) == [name, key];
    JoinTwo(name, key, " AND ");
  }

  /** The UPDATE of `adminEditProducts`; `None` is its "No change." exit. */
  method EditProductsStatement(store: string, productName: string, units: string, price: string)
    returns (statement: Option<string>)
    ensures statement.None? <==> units == Dash && price == Dash
    ensures statement.Some? ==>
      statement.value == ChangeText(Change("Product", ProductAssignments(units, price), ProductFilter(store, productName)))
  {
    if units == Dash && price == Dash {
      return None;
    }
    var query := "UPDATE Product SET ";
    ProductSetListText(query, units, price);
    if units == Dash {
      query := query + "pricePerUnit = " + price;
    } else if price == Dash {
      query := query + "numberOfUnits = " + units;
    } else {
      query := query + "numberOfUnits = " + units + ", " + "pricePerUnit = " + price;
    }
    ProductFilterText(query, store, productName);
    if !(store == Dash && productName == Dash) {
      query := query + " WHERE ";
      if !(store == Dash || productName == Dash) {
        query := query + "productName = '" + productName + "'" + " AND " + "storeID = " + store;
      } else if store == Dash {
        query := query + "productName = '" + productName + "'";
      } else {
        query := query + "storeID = " + store;
      }
    }
    statement := Some(query);
    assert "UPDATE Product SET " == "UPDATE " + "Product" + " SET ";
  }

  /** A product update changes exactly the attributes supplied, the unit
      count before the price. */
  lemma ProductAssignmentsSupplied(units: string, price: string)
    ensures ("numberOfUnits = " + units in ProductAssignments(units, price)) <==> units != Dash
    ensures ("pricePerUnit = " + price in ProductAssignments(units, price)) <==> price != Dash
    ensures ProductAssignments(units, price) == [] <==> units == Dash && price == Dash
    ensures units != Dash ==> ProductAssignments(units, price)[0] == "numberOfUnits = " + units
  {
    assert ("numberOfUnits = " + units)[0] == 'n';
    assert ("pricePerUnit = " + price)[0] == 'p';
  }

  /** The administrator's filter narrows by exactly the keys supplied, and is
      absent only when neither is; with both, it names the same product as a
      manager's update, keys swapped. */
  lemma ProductFilterSupplied(store: string, productName: string)
    ensures ProductFilter(store, productName) == [] <==> store == Dash && productName == Dash
    ensures ("storeID = " + store in ProductFilter(store, productName)) <==> store != Dash
    ensures ("productName = '" + productName + "'" in ProductFilter(store, productName)) <==> productName != Dash
    ensures store != Dash && productName != Dash ==>
      ProductFilter(store, productName) == [ProductKey(store, productName)[1], ProductKey(store, productName)[0]]
  {
    assert ("productName = '" + productName + "'")[0] == 'p';
    assert ("storeID = " + store)[0] == 's';
  }

  // ---------------------------------------------------------------------------
  // The edit-users accumulator (adminEditUsers, option 5)

  /** The accumulator's "nothing added yet" marker. */
  const Placeholder: string := "_$_&_@#"

  /** One optional assignment: absent when the operator answered "-". */
  function Optional(input: string, assignment: string): seq<string>
  {
    if input == Dash then [] else [assignment]
  }

  /** The assignments option 5 collects: name, password, type, latitude,
      longitude, each only when not answered "-", the first three quoted. */
  function UserAssignments(name: string, password: string, userType: string, latitude: string, longitude: string)
    : seq<string>
  {
    Optional(name, "name = '" + name + "'") + Optional(password, "password = '" + password + "'") +
    Optional(userType, "type = '" + userType + "'") + Optional(latitude, "latitude = " + latitude) +
    Optional(longitude, "longitude = " + longitude)
  }

  /** What the accumulator holds after the assignments `added`: the marker
      while none, their SET list after. */
  predicate Accumulated(addQuery: string, added: seq<string>)
  {
    addQuery == if added == [] then Placeholder else Join(added, ", ")
  }

  /** The first assignment does not begin like the marker. */
  predicate LeadsPlainly(added: seq<string>)
  {
    added == [] || (added[0] != [] && added[0][0] != '_')
  }

  /** The joined text begins with the first element. */
  lemma JoinStartsWithFirst(xs: seq<string>, sep: string)
    requires xs != []
    ensures xs[0] <= Join(xs, sep)
  {
  }

  /** A non-empty SET list is never mistaken for the marker. */
  lemma SetListIsNotPlaceholder(added: seq<string>)
    requires added != [] && LeadsPlainly(added)
    ensures Join(added, ", ") != Placeholder
  {
    JoinStartsWithFirst(added, ", ");
    assert Join(added, ", ")[0] == added[0][0];
    assert Placeholder[0] == '_';
  }

  /** One step of the accumulator: the first assignment replaces the marker,
      each later one is appended after a comma. */
  method Accumulate(addQuery: string, ghost added: seq<string>, assignment: string) returns (next: string)
    requires Accumulated(addQuery, added) && LeadsPlainly(added)
    requires assignment != [] && assignment[0] != '_'
    ensures Accumulated(next, added + [assignment]) && LeadsPlainly(added + [assignment])
  {
    if added != [] {
      SetListIsNotPlaceholder(added);
    }
    if addQuery == Placeholder {
      next := assignment;
      assert added + [assignment] == [assignment];
    } else {
      next := addQuery + ", " + assignment;
      JoinAppend(added, assignment, ", ");
    }
  }

  /** Adds `assignment` unless the operator answered "-". */
  method AccumulateUnlessDash(addQuery: string, ghost added: seq<string>, input: string, assignment: string)
    returns (next: string)
    requires Accumulated(addQuery, added) && LeadsPlainly(added)
    requires assignment != [] && assignment[0] != '_'
    ensures Accumulated(next, added + Optional(input, assignment))
    ensures LeadsPlainly(added + Optional(input, assignment))
  {
    if input != Dash {
      next := Accumulate(addQuery, added, assignment);
    } else {
      next := addQuery;
      assert added + [] == added;
    }
  }

  /** The accumulated SET list of option 5 for the five answers. */
  method AccumulateUserAssignments(name: string, password: string, userType: string, latitude: string, longitude: string)
    returns (addQuery: string)
    ensures Accumulated(addQuery, UserAssignments(name, password, userType, latitude, longitude))
  {
    addQuery := Placeholder;
    ghost var added: seq<string> := [];
    addQuery := AccumulateUnlessDash(addQuery, added, name, "name = '" + name + "'");
    added := added + Optional(name, "name = '" + name + "'");
    addQuery := AccumulateUnlessDash(addQuery, added, password, "password = '" + password + "'");
    added := added + Optional(password, "password = '" + password + "'");
    addQuery := AccumulateUnlessDash(addQuery, added, userType, "type = '" + userType + "'");
    added := added + Optional(userType, "type = '" + userType + "'");
    addQuery := AccumulateUnlessDash(addQuery, added, latitude, "latitude = " + latitude);
    added := added + Optional(latitude, "latitude = " + latitude);
    addQuery := AccumulateUnlessDash(addQuery, added, longitude, "longitude = " + longitude);
    added := added + Optional(longitude, "longitude = " + longitude);
    assert [] + Optional(name, "name = '" + name + "'") == Optional(name, "name = '" + name + "'");
  }

  /** The statement for one user's new attributes. */
  function UserChange(userID: string, assignments: seq<string>): Change
  {
    Change("Users", assignments, ["userID = " + userID])
  }

  /** The statement the edit-users screen sends, written out: the SET list and
      the user's key. */
  lemma UserChangeText(userID: string, assignments: seq<string>)
    ensures ChangeText(UserChange(userID, assignments)) ==
      "UPDATE Users SET " + Join(assignments, ", ") + " WHERE " + "userID = " + userID
  {
  }

  /** Option 5 sets exactly the attributes answered, in the order asked; with
      every answer "-" it still sends an UPDATE, whose SET list is empty. */
  lemma UserAssignmentsSupplied(name: string, password: string, userType: string, latitude: string, longitude: string)
    ensures UserAssignments(name, password, userType, latitude, longitude) == [] <==>
      name == Dash && password == Dash && userType == Dash && latitude == Dash && longitude == Dash
    ensures |UserAssignments(name, password, userType, latitude, longitude)| <= 5
    ensures name != Dash ==> UserAssignments(name, password, userType, latitude, longitude)[0] == "name = '" + name + "'"
  {
  }

  lemma NoAnswerEmptySet(userID: string)
    ensures UserAssignments(Dash, Dash, Dash, Dash, Dash) == []
    ensures ChangeText(UserChange(userID, [])) == "UPDATE Users SET " + " WHERE " + "userID = " + userID
  {
    UserChangeText(userID, []);
  }

  // ---------------------------------------------------------------------------
  // Reports with an optional store filter.  These builders assemble the
  // clauses of the SELECT under the same tests the client applies while it
  // grows its string; the text sent is `SelectText` of the result.

  /** `viewFavoriteProducts`: the customer's ten most ordered products,
      optionally per store. */
  function FavoritesSelect(userID: string, store: string): Select
  {
    var perStore := store != Dash;
    Select(
      [Plain("productName"), Aggregate("SUM(Orders.unitsOrdered) as Total_Units_Ordered")] +
        (if perStore then [Plain("storeID")] else []),
      ["Orders"],
      ["customerID = " + userID] + (if perStore then ["storeID = " + store] else []),
      ["productName"] + (if perStore then ["storeID"] else []),
      Some("Total_Units_Ordered DESC"),
      Some("10"))
  }

  method FavoriteProductsQuery(userID: string, store: string) returns (q: Select)
    ensures q == FavoritesSelect(userID, store)
  {
    q := Select([Plain("productName"), Aggregate("SUM(Orders.unitsOrdered) as Total_Units_Ordered")], [], [], [], None, None);
    if store != Dash {
      q := q.(columns := q.columns + [Plain("storeID")]);
    }
    q := q.(tables := ["Orders"], where := ["customerID = " + userID]);
    if store != Dash {
      q := q.(where := q.where + ["storeID = " + store]);
    }
    q := q.(groupBy := ["productName"]);
    if store != Dash {
      q := q.(groupBy := q.groupBy + ["storeID"]);
    }
    q := q.(orderBy := Some("Total_Units_Ordered DESC"), limit := Some("10"));
  }

  /** The store column, the store filter and the store grouping come together
      or not at all; the query is always the customer's own, groups by its
      plain columns, and keeps the ten largest totals. */
  lemma FavoritesConsistent(userID: string, store: string)
    ensures var q := FavoritesSelect(userID, store);
      (Plain("storeID") in q.columns <==> store != Dash) &&
      ("storeID" in q.groupBy <==> store != Dash) &&
      ("storeID = " + store in q.where <==> store != Dash) &&
      q.where[0] == "customerID = " + userID &&
      GroupingMatchesProjection(q) &&
      q.orderBy == Some("Total_Units_Ordered DESC") && q.limit == Some("10")
  {
    var q := FavoritesSelect(userID, store);
    assert ("storeID = " + store)[0] == 's' && ("customerID = " + userID)[0] == 'c';
    if store != Dash {
      var total := Aggregate("SUM(Orders.unitsOrdered) as Total_Units_Ordered");
      assert q.columns[1..] == [total, Plain("storeID")];
      assert q.columns[1..][1..] == [Plain("storeID")];
      assert PlainColumns([Plain("storeID")]) == ["storeID"];
      assert PlainColumns(q.columns[1..]) == ["storeID"];
    }
  }

  /** An optional LIMIT: none when the operator answered "-". */
  function LimitOf(input: string): Option<string>
  {
    if input == Dash then None else Some(input)
  }

  /** Three plain columns and then an aggregate group by those three. */
  lemma ThreePlainThenAggregate(a: string, b: string, c: string, e: string)
    ensures PlainColumns([Plain(a), Plain(b), Plain(c), Aggregate(e)]) == [a, b, c]
  {
    var cs := [Plain(a), Plain(b), Plain(c), Aggregate(e)];
    assert cs[1..] == [Plain(b), Plain(c), Aggregate(e)];
    assert cs[1..][1..] == [Plain(c), Aggregate(e)];
    assert cs[1..][1..][1..] == [Aggregate(e)];
    assert PlainColumns([Aggregate(e)]) == [];
    assert PlainColumns([Plain(c), Aggregate(e)]) == [c];
    assert PlainColumns([Plain(b), Plain(c), Aggregate(e)]) == [b, c];
  }

  /** `viewStoreCustomers`: the customers of the manager's stores (or of one
      store), most frequent first. */
  function StoreCustomersSelect(userID: string, store: string, limit: string): Select
  {
    Select(
      [Plain("Users.userID"), Plain("Users.name"), Plain("Users.type"), Aggregate("COUNT(*) as number_of_orders")],
      if store == Dash then ["Store", "Users", "Orders"] else ["Users", "Orders"],
      if store == Dash then
        ["Users.userID = Orders.customerID", "Orders.storeID = Store.storeID", "Store.managerID = " + userID]
      else
        ["Users.userID = Orders.customerID", "Orders.storeID = " + store],
      ["Users.userID", "Users.name", "Users.type"],
      Some("number_of_orders DESC"),
      LimitOf(limit))
  }

  method StoreCustomersQuery(userID: string, store: string, limit: string) returns (q: Select)
    ensures q == StoreCustomersSelect(userID, store, limit)
  {
    var columns := [Plain("Users.userID"), Plain("Users.name"), Plain("Users.type"), Aggregate("COUNT(*) as number_of_orders")];
    var grouping := ["Users.userID", "Users.name", "Users.type"];
    if store == Dash {
      q := Select(columns, ["Store", "Users", "Orders"],
        ["Users.userID = Orders.customerID", "Orders.storeID = Store.storeID", "Store.managerID = " + userID],
        grouping, None, None);
    } else {
      q := Select(columns, ["Users", "Orders"], ["Users.userID = Orders.customerID", "Orders.storeID = " + store],
        grouping, None, None);
    }
    q := q.(orderBy := Some("number_of_orders DESC"));
    if limit != Dash {
      q := q.(limit := Some(limit));
    }
  }

  /** `viewTopSpenders`: the customers of the manager's stores (or of one
      store) by money spent. */
  function TopSpendersSelect(userID: string, store: string, limit: string): Select
  {
    Select(
      [Plain("Users.userID"), Plain("Users.name"), Plain("Users.type"),
       Aggregate("SUM(Orders.unitsOrdered * Product.pricePerUnit) as total_spending")],
      if store == Dash then ["Store", "Users", "Orders", "Product"] else ["Users", "Orders", "Product"],
      if store == Dash then
        ["Users.userID = Orders.customerID", "Orders.storeID = Store.storeID", "Orders.storeID = Product.storeID",
         "Orders.productName = Product.productName", "Store.managerID = " + userID]
      else
        ["Users.userID = Orders.customerID", "Orders.storeID = Product.storeID",
         "Orders.productName = Product.productName", "Orders.storeID = " + store],
      ["Users.userID", "Users.name", "Users.type"],
      Some("total_spending DESC"),
      LimitOf(limit))
  }

  method TopSpendersQuery(userID: string, store: string, limit: string) returns (q: Select)
    ensures q == TopSpendersSelect(userID, store, limit)
  {
    var columns := [Plain("Users.userID"), Plain("Users.name"), Plain("Users.type"),
      Aggregate("SUM(Orders.unitsOrdered * Product.pricePerUnit) as total_spending")];
    var grouping := ["Users.userID", "Users.name", "Users.type"];
    if store == Dash {
      q := Select(columns, ["Store", "Users", "Orders", "Product"],
        ["Users.userID = Orders.customerID", "Orders.storeID = Store.storeID", "Orders.storeID = Product.storeID",
         "Orders.productName = Product.productName", "Store.managerID = " + userID],
        grouping, None, None);
    } else {
      q := Select(columns, ["Users", "Orders", "Product"],
        ["Users.userID = Orders.customerID", "Orders.storeID = Product.storeID",
         "Orders.productName = Product.productName", "Orders.storeID = " + store],
        grouping, None, None);
    }
    q := q.(orderBy := Some("total_spending DESC"));
    if limit != Dash {
      q := q.(limit := Some(limit));
    }
  }

  /** The manager's customer reports read only the manager's stores: across
      all of them through `Store.managerID`, or the one store asked for, whose
      ownership the caller has checked; they group by exactly their plain
      columns, and limit only when asked. */
  lemma CustomerReportsScoped(userID: string, store: string, limit: string)
    ensures var q := StoreCustomersSelect(userID, store, limit);
      (store == Dash ==> "Store.managerID = " + userID in q.where) &&
      (store != Dash ==> "Orders.storeID = " + store in q.where && "Store" !in q.tables) &&
      GroupingMatchesProjection(q) && (q.limit.Some? <==> limit != Dash) &&
      (q.limit.Some? ==> q.limit.value == limit)
    ensures var q := TopSpendersSelect(userID, store, limit);
      (store == Dash ==> "Store.managerID = " + userID in q.where) &&
      (store != Dash ==> "Orders.storeID = " + store in q.where && "Store" !in q.tables) &&
      GroupingMatchesProjection(q) && (q.limit.Some? <==> limit != Dash) &&
      (q.limit.Some? ==> q.limit.value == limit)
  {
    ThreePlainThenAggregate("Users.userID", "Users.name", "Users.type", "COUNT(*) as number_of_orders");
    ThreePlainThenAggregate("Users.userID", "Users.name", "Users.type",
      "SUM(Orders.unitsOrdered * Product.pricePerUnit) as total_spending");
  }

  /** The ordering answers of `adminViewProducts`; any other answer orders
      nothing. */
  function ProductOrdering(choice: string): Option<string>
  {
    if choice == "1" then Some("Product.numberOfUnits")
    else if choice == "2" then Some("Product.numberOfUnits DESC")
    else if choice == "3" then Some("Product.pricePerUnit")
    else if choice == "4" then Some("Product.pricePerUnit DESC")
    else None
  }

  /** `adminViewProducts`: every product, or one store's. */
  function AdminProductsSelect(store: string, choice: string, limit: string): Select
  {
    Select([Plain("*")], ["Product"],
      if store == Dash then [] else ["Product.storeID = " + store],
      [], ProductOrdering(choice), LimitOf(limit))
  }

  method AdminProductsQuery(store: string, choice: string, limit: string) returns (q: Select)
    ensures q == AdminProductsSelect(store, choice, limit)
  {
    q := Select([Plain("*")], ["Product"], [], [], None, None);
    if store != Dash {
      q := q.(where := ["Product.storeID = " + store]);
    }
    if choice == "1" {
      q := q.(orderBy := Some("Product.numberOfUnits"));
    } else if choice == "2" {
      q := q.(orderBy := Some("Product.numberOfUnits DESC"));
    } else if choice == "3" {
      q := q.(orderBy := Some("Product.pricePerUnit"));
    } else if choice == "4" {
      q := q.(orderBy := Some("Product.pricePerUnit DESC"));
    }
    if limit != Dash {
      q := q.(limit := Some(limit));
    }
  }

  /** The orderings offered sort by units or by price, ascending or
      descending, and only the answers 1 to 4 select one; the product listing
      filters by store only when one is given and limits only when asked. */
  lemma AdminProductsShape(store: string, choice: string, limit: string)
    ensures ProductOrdering(choice).Some? <==> choice in {"1", "2", "3", "4"}
    ensures ProductOrdering(choice).Some? ==>
      ProductOrdering(choice).value in
        {"Product.numberOfUnits", "Product.numberOfUnits DESC", "Product.pricePerUnit", "Product.pricePerUnit DESC"}
    ensures var q := AdminProductsSelect(store, choice, limit);
      (q.where == [] <==> store == Dash) && (q.limit.Some? <==> limit != Dash) && q.groupBy == []
  {
  }

  /** `viewSupplyRequests`: the manager's own requests, newest first. */
  function SupplyRequestsSelect(userID: string, store: string): Select
  {
    Select([Plain("*")], ["ProductSupplyRequests"],
      ["managerID = " + userID] + (if store == Dash then [] else ["storeID = " + store]),
      [], Some("requestNumber DESC"), None)
  }

  method SupplyRequestsQuery(userID: string, store: string) returns (q: Select)
    ensures q == SupplyRequestsSelect(userID, store)
  {
    q := Select([Plain("*")], ["ProductSupplyRequests"], ["managerID = " + userID], [], None, None);
    if store != Dash {
      q := q.(where := q.where + ["storeID = " + store]);
    }
    q := q.(orderBy := Some("requestNumber DESC"));
  }

  /** Supply requests are always filtered by the manager first and never
      limited: the count the operator is asked for is not applied. */
  lemma SupplyRequestsScoped(userID: string, store: string)
    ensures SupplyRequestsSelect(userID, store).where[0] == "managerID = " + userID
    ensures ("storeID = " + store in SupplyRequestsSelect(userID, store).where) <==> store != Dash
    ensures SupplyRequestsSelect(userID, store).limit.None?
  {
    assert ("managerID = " + userID)[0] == 'm' && ("storeID = " + store)[0] == 's';
  }
}
