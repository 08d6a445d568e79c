# Amazon store console client — a Dafny model of its decision logic

The system is a console client for a small store database. Customers,
store managers and administrators log in and pick operations from a
numbered menu. Each operation reads a few input lines, checks them, builds
SQL text by string concatenation, and sends it over JDBC. `"-"` is the
"skip this field" answer throughout.

This project models the client's own logic. Two external pieces are
abstracted:

- **The database** becomes a `Backend.Database`:
  - `answer` maps each query text to rows of nullable cells, or to a raised
    exception;
  - `succeeds` says whether each statement executes;
  - `log` records every call sent, in order.
- **The keyboard** becomes a `Backend.Console`: a fixed sequence of lines
  and a cursor.

Each operation that changes state is an imperative method over these two
objects. It is specified by a "run" function of the session fields and the
remaining input lines. The run gives:

- the outcome (`Done` when the final query or statement was sent, and for
  a statement executed; `Refused` by a role gate; `Invalid` input; `Failed`
  on an exception the model sees, or a missing line the source cannot go on
  without; `Cancelled`). A listing screen's final query is not checked, so
  it ends `Done` even when the database raises on it;
- the calls it sends;
- the lines it consumes.

Lemmas about the run functions state what the source promises:

- who may write;
- which statement is written;
- which checks must have passed;
- that read-only screens send no update.

The modules follow the source:

- `Validator` is `valid_number`.
- `Existence` holds the `valid_*` lookups.
- `Sql` and `Assembler` hold the query and statement builders.
- `Authorization` holds the role gates and store ownership.
- `Accounts` holds the session fields, `LogIn` and `deleteAccount`.
- `CustomerOperations`, `ManagerOperations` and `AdminOperations` hold the menu operations.
- `Menu` holds the two nested menu loops, as a `Client` class.

SQL text is produced from a structured `Sql.Select` / `Sql.Change` value, so
clause inclusion and order are explicit.

At the end of input `readLine()` gives `null`. Where the source goes on
with it, the model does too:

- options 1 and 2 of the user editor write the text `null`;
- `valid_username`, `valid_password` and `valid_product` send their lookup
  with the text `null` and answer false (in `LogIn`, `deleteAccount` and
  `updateProduct`);
- `valid_storeID` answers false without a lookup (in `updateProduct`);
- `inputRangeQueryOnAttribute` catches the error and returns the query
  unchanged.

Where the exception reaches the operation's own `catch`, the run fails.

## Model

| member | source | states |
|---|---|---|
| Common.Trim | final_project/java/src/Amazon.java:273 | `trim()` leaves no leading or trailing blank and never lengthens the text |
| Common.TrimSkipsLeading | final_project/java/src/Amazon.java:273 | leading blanks do not change what `trim()` returns |
| Common.TrimSkipsTrailing | final_project/java/src/Amazon.java:273 | trailing blanks after a non-blank start do not change what `trim()` returns |
| Common.TrimRemovesPadding | final_project/java/src/Amazon.java:666 | a value padded with blanks on either side trims back to exactly itself |
| Validator.ValidNumber | final_project/java/src/Amazon.java:249-263 | the character loop returns true exactly when the text is a numeral: in integer mode every character is a digit; in decimal mode every character is a digit or a dot, there is at most one dot, and it is not made only of dots |
| Validator.DotCount | final_project/java/src/Amazon.java:257 | the dot counter never exceeds the length of the text |
| Validator.InNumbers | final_project/java/src/Amazon.java:251-255 | a character is in `"0123456789."` exactly when it is a digit or a dot |
| Validator.DotCountZero | final_project/java/src/Amazon.java:260 | a dot count of 0 means the text has no dot, and conversely |
| Validator.DotCountAtMostOne | final_project/java/src/Amazon.java:262 | `dot_count <= 1` means at most one dot, and conversely |
| Validator.DotCountAll | final_project/java/src/Amazon.java:262 | `dot_count == length` means the text is only dots, and conversely |
| Validator.NumeralEdgeCases | final_project/java/src/Amazon.java:249-263 | `""` is an integer but not a decimal; `"."` and `"1.2.3"` are rejected; `".5"` and `"5."` are decimals and `"5."` is not an integer; `"-1"` is rejected in both modes |
| Validator.SignRejected | final_project/java/src/Amazon.java:254-255 | any text containing a `-` or `+` sign is rejected in both modes |
| Validator.DashIsNotNumeral | final_project/java/src/Amazon.java:249-263 | the skip answer `"-"` is never a numeral, so it never passes a numeric check |
| Validator.IntegerIsDecimal | final_project/java/src/Amazon.java:260-262 | a non-empty integer numeral is also a decimal numeral |
| Existence.ScanFirstColumn | final_project/java/src/Amazon.java:272-275 | the row loop returns true exactly when the row list holds the candidate, as the lookup predicate defines it (early return on the first match; an unreadable first cell is an exception, so false) |
| Existence.FoundInReadableRows | final_project/java/src/Amazon.java:272-275 | when no row throws, found means some row's trimmed first column equals the candidate, and conversely |
| Existence.PaddedValueFound | final_project/java/src/Amazon.java:273 | a stored value with blank padding still matches the candidate, because the cell is trimmed |
| Existence.FailsClosed | final_project/java/src/Amazon.java:277-280 | a raised query or an empty result gives false |
| Existence.DashNeverExists | final_project/java/src/Amazon.java:268 | `"-"` never passes the store or warehouse check |
| Existence.ValidStoreID | final_project/java/src/Amazon.java:265-281 | returns the store-exists predicate; a non-integer id sends no query, and an integer id sends exactly the store lookup |
| Existence.ValidWarehouseID | final_project/java/src/Amazon.java:283-299 | the same for warehouses, with the warehouse lookup |
| Existence.ValidProduct | final_project/java/src/Amazon.java:301-315 | returns the product-exists predicate after sending exactly the product lookup |
| Existence.ValidUsername | final_project/java/src/Amazon.java:317-329 | returns the name-exists predicate after sending exactly the name lookup |
| Existence.ValidPassword | final_project/java/src/Amazon.java:331-344 | returns the password-matches predicate after sending exactly the name-and-password lookup |
| Backend.Database.RunQuery | final_project/java/src/Amazon.java:160 | a query appends itself to the call log and returns what the database answers for its text |
| Backend.Database.RunUpdate | final_project/java/src/Amazon.java:88 | a statement appends itself to the call log and reports whether it executed |
| Backend.Console.ReadLine | final_project/java/src/Amazon.java:848 | `in.readLine()` gives the next line and advances by one; at the end of input it gives none and stays put |
| Sql.JoinAppend | final_project/java/src/Amazon.java:1551-1626 | joining one more item with the separator appends the separator and that item |
| Sql.ColumnTexts | final_project/java/src/Amazon.java:850 | every projected column is rendered, one text per column |
| Sql.LimitComesLast | final_project/java/src/Amazon.java:1331 | a LIMIT is the last clause: the query text with a limit is the text without it followed by `" LIMIT "` and the count |
| Sql.OrderingComesAfterGrouping | final_project/java/src/Amazon.java:1326 | ORDER BY follows WHERE and GROUP BY: the text is the unordered text followed by the ordering |
| Assembler.AppendRange | final_project/java/src/Amazon.java:1786-1793 | the concatenation in the range reader gives the query followed by the WHERE list of the supplied bounds |
| Assembler.RangeShapes | final_project/java/src/Amazon.java:1786-1793 | the four shapes: query unchanged; `WHERE a >= f`; `WHERE a <= l`; `WHERE a >= f AND a <= l` |
| Assembler.LowerBoundText | final_project/java/src/Amazon.java:1791 | only a first bound gives `query WHERE a >= f` |
| Assembler.UpperBoundText | final_project/java/src/Amazon.java:1792 | only a last bound gives `query WHERE a <= l` |
| Assembler.BothBoundsText | final_project/java/src/Amazon.java:1787-1790 | both bounds give `query WHERE a >= f AND a <= l` |
| Assembler.RangeBoundsSupplied | final_project/java/src/Amazon.java:1786-1793 | each bound's condition is present exactly when that bound is not `"-"`, the lower one first, and there are at most two |
| Assembler.BoundsDiffer | final_project/java/src/Amazon.java:1788-1789 | the lower and upper conditions are never the same text |
| Assembler.UpdateProductStatement | final_project/java/src/Amazon.java:986-1001 | no statement exactly when both new values are `"-"`; otherwise the UPDATE of the supplied columns keyed by store and product name |
| Assembler.OneUpdateText | final_project/java/src/Amazon.java:990-997 | a single new value gives `UPDATE Product SET <column> = <value> WHERE storeID = s AND productName = 'n'`, for the price and for the units alike |
| Assembler.BothUpdateText | final_project/java/src/Amazon.java:998-1000 | both give `numberOfUnits = u, pricePerUnit = p`, in that order |
| Assembler.TwoByTwoUpdate | final_project/java/src/Amazon.java:998-1000 | a two-assignment, two-key UPDATE concatenated piecewise is the structured statement's text |
| Assembler.EditProductsStatement | final_project/java/src/Amazon.java:1745-1760 | no statement exactly when both new values are `"-"`; otherwise the UPDATE of the supplied columns, filtered by the supplied keys |
| Assembler.ProductSetListText | final_project/java/src/Amazon.java:1749-1751 | the SET list has exactly the supplied values, units before price |
| Assembler.UnitsAndPriceText | final_project/java/src/Amazon.java:1751 | with both values, the SET list is `numberOfUnits = u, pricePerUnit = p` |
| Assembler.OneConditionText | final_project/java/src/Amazon.java:1757-1758 | a single condition gives `query WHERE condition` |
| Assembler.ProductFilterText | final_project/java/src/Amazon.java:1753-1760 | WHERE is omitted exactly when store and name are both `"-"`; otherwise it constrains exactly the supplied ones, name before store |
| Assembler.NameAndStoreFilterText | final_project/java/src/Amazon.java:1756 | with both keys, the filter is `productName = 'n' AND storeID = s` |
| Assembler.ProductAssignmentsSupplied | final_project/java/src/Amazon.java:1749-1751 | each assignment is present exactly when its value is not `"-"`; the list is empty exactly when both are `"-"`; units come first |
| Assembler.ProductFilterSupplied | final_project/java/src/Amazon.java:1753-1760 | each key condition is present exactly when supplied; the filter is empty exactly when neither is |
| Assembler.JoinStartsWithFirst | final_project/java/src/Amazon.java:1551-1626 | a joined list starts with its first item |
| Assembler.SetListIsNotPlaceholder | final_project/java/src/Amazon.java:1551-1626 | a non-empty list of assignments never joins to the placeholder `"_$_&_@#"`, so the placeholder test is exact |
| Assembler.Accumulate | final_project/java/src/Amazon.java:1563-1564 | one accumulator step keeps the invariant: the text is the placeholder when nothing was added, otherwise the comma-joined assignments |
| Assembler.AccumulateUnlessDash | final_project/java/src/Amazon.java:1568-1573 | a step guarded by `"-"` adds the assignment exactly when the answer is not `"-"` and keeps the invariant |
| Assembler.AccumulateUserAssignments | final_project/java/src/Amazon.java:1551-1626 | the five guarded steps leave the accumulator holding the supplied assignments, in field order |
| Assembler.UserChangeText | final_project/java/src/Amazon.java:1631 | the user statement is `UPDATE Users SET <list> WHERE userID = <id>` |
| Assembler.UserAssignmentsSupplied | final_project/java/src/Amazon.java:1551-1626 | no assignment exactly when all five answers are `"-"`; at most five; the name comes first when given |
| Assembler.NoAnswerEmptySet | final_project/java/src/Amazon.java:1626-1631 | five `"-"` answers emit an UPDATE with an empty SET list |
| Assembler.FavoriteProductsQuery | final_project/java/src/Amazon.java:850-872 | builds the structured favourites query (projection, WHERE, GROUP BY, ORDER BY, LIMIT) under the source's store test; the text sent is `SelectText` of it, and the string `+=` steps themselves are not modelled |
| Assembler.FavoritesConsistent | final_project/java/src/Amazon.java:850-872 | `storeID` is in the projection, the WHERE filter and the GROUP BY all together or not at all; the customer filter comes first; the clauses end ORDER BY `Total_Units_Ordered DESC` LIMIT 10 |
| Assembler.ThreePlainThenAggregate | final_project/java/src/Amazon.java:1303 | the grouping columns of the customer report are its three plain columns |
| Assembler.StoreCustomersQuery | final_project/java/src/Amazon.java:1302-1331 | builds the structured store-customers query under the source's store and limit tests; the text sent is `SelectText` of it |
| Assembler.TopSpendersQuery | final_project/java/src/Amazon.java:1360-1396 | builds the structured top-spenders query under the source's store and limit tests; the text sent is `SelectText` of it |
| Assembler.CustomerReportsScoped | final_project/java/src/Amazon.java:1302-1396 | all stores are scoped to the manager's own; a single store is filtered by id without joining Store; grouping matches the projection; LIMIT is present exactly when not `"-"` and carries the typed count |
| Assembler.AdminProductsQuery | final_project/java/src/Amazon.java:1657-1674 | builds the structured product listing under the source's store, ordering and limit tests; the text sent is `SelectText` of it |
| Assembler.AdminProductsShape | final_project/java/src/Amazon.java:1657-1674 | only choices 1 to 4 order the listing, by units or price, ascending or descending; the store filter and the LIMIT appear exactly when not `"-"`, and there is no grouping |
| Assembler.SupplyRequestsQuery | final_project/java/src/Amazon.java:1226-1230 | builds the structured supply-request query under the source's store test; the text sent is `SelectText` of it |
| Assembler.SupplyRequestsScoped | final_project/java/src/Amazon.java:1226-1230 | the query is scoped to the manager first; it has a store filter exactly when not `"-"`, and never a LIMIT |
| Authorization.RequiredRole | final_project/java/src/Amazon.java:912-915 | every gated operation requires the manager or the admin role, never customer |
| Authorization.GatesExclusive | final_project/java/src/Amazon.java:1414-1417 | no user type passes both a manager gate and an admin gate |
| Authorization.OwnerIffManagerIsUser | final_project/java/src/Amazon.java:954-961 | the ownership check passes exactly when the fetched `managerID` equals the session's user id; a null `managerID` never passes |
| Authorization.OwnerIsUnique | final_project/java/src/Amazon.java:954-961 | at most one user id owns a store |
| Authorization.CheckOwnership | final_project/java/src/Amazon.java:954-961 | sends the manager lookup once and returns the ownership the fetched `managerID` decides |
| Accounts.Session.constructor | final_project/java/src/Amazon.java:34-38 | the five session fields start null |
| Accounts.LoadColumns | final_project/java/src/Amazon.java:651-666 | the session fields are assigned column by column, as far as the lookups succeed, with the matching calls sent |
| Accounts.LoadSession | final_project/java/src/Amazon.java:648-670 | the count query and the field loads give the session and the returned name as the login result defines them |
| Accounts.CheckCredentials | final_project/java/src/Amazon.java:630-646 | the name and the password are read and checked in order, with exactly the lookups and lines the definition gives; a missing line is looked up as the text `null` and gives no credentials |
| Accounts.LogIn | final_project/java/src/Amazon.java:628-676 | the returned name, the new session fields, the calls and the lines read are those of the login result |
| Accounts.LoginNeedsCredentials | final_project/java/src/Amazon.java:628-676 | a successful login had an existing name, a matching password and a non-empty count; it returns the typed name and sets the name, id, coordinates and a trimmed non-null type from the account row |
| Accounts.LoginNotAtomic | final_project/java/src/Amazon.java:651-670 | when the id lookup throws after the name was set, LogIn returns null but the session keeps the new name |
| Accounts.FailedLoginKeepsType | final_project/java/src/Amazon.java:648-670 | a failed login can change the user type only when the count query returned no row, and it then set the name |
| Accounts.LoginEndOfInput | final_project/java/src/Amazon.java:630-646 | with no name, or no password after an existing name, LogIn returns null and leaves the session alone, after looking up the name or the password `null` |
| Accounts.DeleteAccount | final_project/java/src/Amazon.java:679-705 | refuses a manager or a null type before reading; at the end of input looks up the password `null` and deletes nothing; otherwise reads the password and sends the DELETE only when it matches; returns true exactly when that DELETE executed |
| Outcomes.StoreCheckWritesNothing | final_project/java/src/Amazon.java:265-281 | the store check sends no update |
| CustomerOperations.ViewFavoriteProducts | final_project/java/src/Amazon.java:844-880 | the outcome, calls and lines consumed are those of the favourites run |
| CustomerOperations.FavoritesAreOwn | final_project/java/src/Amazon.java:844-880 | the favourites screen sends no update; it succeeds exactly when the store answer is `"-"` or an existing store; its query is filtered by the session's own user id, and projects `storeID` exactly when a store was given |
| ManagerOperations.ManagedStoresScoped | final_project/java/src/Amazon.java:918-925 | the store summary is scoped to the session's manager id and grouped by its plain columns |
| ManagerOperations.TwoPlainThenAggregates | final_project/java/src/Amazon.java:918-920 | the plain columns of the summary are the store id and the date |
| ManagerOperations.ManagerViewStores | final_project/java/src/Amazon.java:910-934 | a non-manager is refused with no call; a manager's query is the scoped summary |
| ManagerOperations.StoreScopePasses | final_project/java/src/Amazon.java:939-961 | the store scope is passed only by a manager who typed `"-"` (where allowed) or an existing store they own, and the check writes nothing |
| ManagerOperations.CheckStoreScope | final_project/java/src/Amazon.java:939-961 | the gate, store check and ownership check read one line and send the calls the scope definition gives; at the end of input `updateProduct` reports an invalid store, while the screens admitting `-` fail |
| ManagerOperations.UpdateProductValues | final_project/java/src/Amazon.java:964-1011 | the outcome, calls and lines of the product, units and price steps are those of the values run; a missing product name is looked up as `null` and reported invalid, a missing value line fails |
| ManagerOperations.UpdateProduct | final_project/java/src/Amazon.java:936-1016 | the outcome, calls and lines are those of the update-product run, whose end-of-input outcomes on the store and product lines are `Invalid` |
| ManagerOperations.ProductValuesWrites | final_project/java/src/Amazon.java:964-1011 | an update is sent exactly when the product exists and the values pass; the first is the product UPDATE; the update record follows exactly when that UPDATE executed; Done needs both |
| ManagerOperations.UpdateProductWritesOnlyAsOwner | final_project/java/src/Amazon.java:936-1016 | a non-manager is refused before any read; an update is sent exactly when a manager owns the existing store and the values pass; the first update is the product UPDATE |
| ManagerOperations.UpdateProductEndOfInput | final_project/java/src/Amazon.java:947-969 | for a manager, a missing store is `Invalid` with no call and no line; a missing product name after an owned store is `Invalid` after the lookup of the product `null` |
| ManagerOperations.ViewSupplyRequests | final_project/java/src/Amazon.java:1192-1237 | the outcome, calls and lines are those of the supply-request run |
| ManagerOperations.SupplyCountIgnored | final_project/java/src/Amazon.java:1209-1230 | the validated count does not change the query: two accepted counts give the same run, and the query has no LIMIT |
| ManagerOperations.ListStoreCustomers | final_project/java/src/Amazon.java:1321-1333 | reads the limit line and sends the report query with LIMIT when not `"-"` |
| ManagerOperations.ViewStoreCustomers | final_project/java/src/Amazon.java:1283-1339 | the outcome, calls and lines are those of the store-customers run |
| ManagerOperations.StoreCustomersNeedOwnership | final_project/java/src/Amazon.java:1283-1339 | the report writes nothing; it is sent only for a manager, for `"-"` or an existing store they own, and its last call is the report query |
| ManagerOperations.ListTopSpenders | final_project/java/src/Amazon.java:1385-1398 | reads the limit line, rejects a non-integer, and sends the report query |
| ManagerOperations.ViewTopSpenders | final_project/java/src/Amazon.java:1341-1404 | the outcome, calls and lines are those of the top-spenders run |
| ManagerOperations.TopSpendersNeedOwnership | final_project/java/src/Amazon.java:1341-1404 | as for the customer report, and the limit is `"-"` or an integer |
| AdminOperations.InputRangeQuery | final_project/java/src/Amazon.java:1769-1799 | the returned text and the lines read are those of the range-reader definition |
| AdminOperations.RangeInputChecks | final_project/java/src/Amazon.java:1773-1793 | null exactly when the first bound fails integer validation, or the first passes and the last fails; a failing first bound stops after one line; an accepted pair gives the query with the range conditions |
| AdminOperations.ChooseListing | final_project/java/src/Amazon.java:1814-1838 | the table and attribute chosen, and the lines read, are those the listing choice defines |
| AdminOperations.ViewEverything | final_project/java/src/Amazon.java:1801-1852 | the outcome, calls and lines are those of the view-everything run |
| AdminOperations.ViewEverythingReadsOnly | final_project/java/src/Amazon.java:1801-1852 | at most one query and no update; a query is sent exactly when the run succeeds, only for an admin, and it starts `SELECT * FROM ` |
| AdminOperations.AdminViewUsers | final_project/java/src/Amazon.java:1410-1454 | as written: the outcome, calls and lines are those of the user listing with the inverted bound check |
| AdminOperations.AdminViewUsersCorrected | final_project/java/src/Amazon.java:1410-1454 | the same listing with the bound check the range reader uses |
| AdminOperations.ViewUsersAsWritten | final_project/java/src/Amazon.java:1425-1437 | as written, bound `5` is rejected while `abc` is sent into the query; every accepted bound is `"-"` or not an integer |
| AdminOperations.ViewUsersCorrected | final_project/java/src/Amazon.java:1439-1446 | corrected, the listing succeeds exactly when the range reader accepts the bounds, and it sends that query |
| AdminOperations.AllAnswersChecked | final_project/java/src/Amazon.java:1549-1626 | option 5 proceeds only after five answers in which a new name is unused, a type is a role and each coordinate passes, and its assignments are the supplied ones |
| AdminOperations.AllDashesSendEmptySet | final_project/java/src/Amazon.java:1549-1626 | five `"-"` answers proceed with an empty assignment list |
| AdminOperations.SingleAnswersChecked | final_project/java/src/Amazon.java:1484-1548 | options 1 to 4 proceed only with an unused name, any password, two accepted coordinates, or a role, and read no line exactly when input has ended; each gives its own assignment |
| AdminOperations.ReadLaterAnswers | final_project/java/src/Amazon.java:1575-1624 | the type, latitude and longitude answers are read and checked in that order; the plan, the lines read and the three answers kept are those the definition gives |
| AdminOperations.ReadUserAnswers | final_project/java/src/Amazon.java:1549-1626 | the five option-5 answers are read, checked and accumulated as the definition gives |
| AdminOperations.UserSetList | final_project/java/src/Amazon.java:1551-1626 | the accumulator yields the comma-joined supplied assignments, empty when all are `"-"` |
| AdminOperations.ReadOneAnswer | final_project/java/src/Amazon.java:1484-1548 | options 1, 2 and 4 read one answer, check it and give its SET list; at the end of input option 4 fails, while options 1 and 2 go on with the text `null` (option 1 after a name lookup for it) |
| AdminOperations.MissingAnswerWritesNull | final_project/java/src/Amazon.java:1484-1502 | at the end of input options 1 and 2 still give a plan: `name = 'null'` after a lookup of the name `null`, or `password = 'null'` with no call, reading no line |
| AdminOperations.ReadLocation | final_project/java/src/Amazon.java:1504-1537 | option 3 reads two coordinates, checks them in order and gives `latitude = a, longitude = b` |
| AdminOperations.ReadCoordinate | final_project/java/src/Amazon.java:1508-1521 | reads one coordinate line and reports whether its check accepts it |
| AdminOperations.ReadEdit | final_project/java/src/Amazon.java:1479-1629 | the chosen option's answers, calls and SET list are those of the edit plan; an unknown option is invalid |
| AdminOperations.UserStatement | final_project/java/src/Amazon.java:1631 | the concatenated statement is the structured user UPDATE |
| AdminOperations.EditUserAttributes | final_project/java/src/Amazon.java:1472-1637 | the outcome, calls and lines after the user id are those of the attributes run |
| AdminOperations.AdminEditUsers | final_project/java/src/Amazon.java:1456-1638 | the outcome, calls and lines are those of the edit-users run |
| AdminOperations.EditPlanReadsOnly | final_project/java/src/Amazon.java:1479-1629 | reading and checking the answers sends no update |
| AdminOperations.AttributesWrites | final_project/java/src/Amazon.java:1472-1637 | at most one update; Done needs it; it is sent only for an accepted plan and is that plan's user UPDATE |
| AdminOperations.EditUsersWritesOnlyAsAdmin | final_project/java/src/Amazon.java:1456-1638 | at most one update, only for an admin with an integer user id and an accepted plan, and it is that plan's UPDATE for that id |
| AdminOperations.AdminViewProducts | final_project/java/src/Amazon.java:1640-1682 | the outcome, calls and lines are those of the product-listing run |
| AdminOperations.AdminProductsReadsOnly | final_project/java/src/Amazon.java:1640-1682 | the listing writes nothing; it is sent only for an admin after three answers with `"-"` or an existing store, and its last call is the listing |
| AdminOperations.EditProductValues | final_project/java/src/Amazon.java:1712-1762 | the units and price answers are checked and the UPDATE sent as the new-values run gives |
| AdminOperations.EditProductTarget | final_project/java/src/Amazon.java:1702-1762 | the product-name answer is checked and the rest follows the target run |
| AdminOperations.AdminEditProducts | final_project/java/src/Amazon.java:1684-1767 | the outcome, calls and lines are those of the edit-products run |
| AdminOperations.NewValuesWrites | final_project/java/src/Amazon.java:1712-1762 | at most one update, sent only when each supplied value is a non-empty integer or a decimal and not both are `"-"`; it is the UPDATE of exactly those columns |
| AdminOperations.ProductTargetWrites | final_project/java/src/Amazon.java:1702-1762 | as above, and a named product exists in the store |
| AdminOperations.EditProductsWritesOnlyAsAdmin | final_project/java/src/Amazon.java:1684-1767 | at most one update, only for an admin, with the store `"-"` or existing, a named product existing and the values valid; it is the UPDATE filtered by the supplied keys |
| Menu.GatesComeFirst | final_project/java/src/Amazon.java:1414-1417 | an operation whose role gate fails is refused with no call and no line read |
| Menu.RunOverview | final_project/java/src/Amazon.java:495-497 | choices 5 and 7 run the favourites and store-summary operations exactly as their runs give |
| Menu.RunStockOperation | final_project/java/src/Amazon.java:498-503 | choices 8 and 13 run the product update and the supply requests |
| Menu.RunCustomerReport | final_project/java/src/Amazon.java:505-506 | choices 15 and 16 run the two customer reports |
| Menu.RunAdminOperation | final_project/java/src/Amazon.java:507-511 | choices 17 to 21 run the administrator screens; 17 runs the user listing as written, with its inverted bound check |
| Menu.Client.constructor | final_project/java/src/Amazon.java:395-398 | the client starts in the main menu with an empty session |
| Menu.Client.MainChoice | final_project/java/src/Amazon.java:407-414 | choice 2 logs in and enters the user menu exactly when LogIn returns a name; 9 closes; other choices stay and leave the session as it was |
| Menu.Client.UserChoice | final_project/java/src/Amazon.java:489-517 | a covered choice runs its operation as specified; 0 returns to the main menu without a call; 99 returns there exactly when the account was deleted; every other choice stays in the user menu; choice 17 is the user listing as written |
| Menu.Client.Operate | final_project/java/src/Amazon.java:398-517 | the loop handles the choices in order and stops early only when the client is closed, which happens only right after a choice of 9 |

## Left out

- The JDBC connection, `executeQuery*`, `getCurrSeqVal` and `cleanup`. The database is the abstract `answer`/`succeeds` pair, and its contents never change. What the SQL text would return is not modelled.
- Printing, `clearScreen`, `spaces`, `dashes`, `Thread.sleep` and argument parsing. They have no effect on the decisions.
- `readChoice`'s retry loop. Menu choices are given as integers.
- Floating-point checks. `Float.parseFloat` and `Math.sqrt` round, so these are the abstract `Backend.Numerics` predicates:
  - the latitude/longitude range [0, 100];
  - `calculateDistance` and the 30-mile test;
  - the stock comparison in `valid_num_units`.
- Non-negativity tests (`parseFloat(x) < 0`) are not a separate check. On text that passed `valid_number` they never reject. The exception is `""`, which `parseFloat` refuses; it is modelled as a failure.
- Menu operations outside the modelled core are not modelled and give no run:
  - `viewStores`, `viewProducts`, `placeOrder`, `viewRecentOrders`, `viewStoreInformation`;
  - `viewRecentUpdates`, `viewPopularProducts`, `viewPopularCustomers`, `placeProductSupplyRequests`, `viewOrderInformation`;
  - `deleteStore`, `deleteWarehouse`;
  - `CreateUser`.
- The same ownership comparison recurs in `viewPopularProducts` and `viewOrderInformation` (1058-1065, 1265-1272). It is modelled once, as `Authorization.CheckOwnership`.
- The commented-out stock updates. They are never executed.
- Option 5 of the user editor. The model checks all five answers, then builds the SET list with the placeholder accumulator. The source accumulates as it reads. The order of the calls and the resulting text are the same.
- Menu.Client.MainChoice: choice 1 (`CreateUser`) only keeps the main menu; its reads and inserts are not modelled.
- Menu.Client.UserChoice: for choice 99, the contract gives only the next screen. The calls and lines of `deleteAccount` are stated by `Accounts.DeleteAccount`.
- Operate (`Menu.Client.Operate`): the loop's contract states only how it ends, not the calls, lines or sessions of the steps in between; each step is stated by `Menu.Client.MainChoice` and `Menu.Client.UserChoice`, because the screens a sequence of choices visits depend on the database's answers to each login and deletion.
- A role gate reached inside the source's `try` with a null user type would throw. It is modelled as a refusal, which has the same effect: no call and no line read.

## Findings

| source | as written | input that shows it | evidently intended | confidence | as-written member | corrected member |
|---|---|---|---|---|---|---|
| final_project/java/src/Amazon.java:1425-1437 | `adminViewUsers` rejects a bound when `valid_number(bound, true)` holds, the inverse of `inputRangeQueryOnAttribute` | admin enters `5` then `-`: the listing is refused; admin enters `abc` then `-`: it sends `... WHERE Users.userID >= abc` | reject bounds that are not integers, as the range reader does | not executed | AdminOperations.ViewUsersAsWritten | AdminOperations.ViewUsersCorrected |
