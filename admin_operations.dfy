/** The administrator's screens: the range-filtered listings
    (`inputRangeQueryOnAttribute`, `viewEverything`, `adminViewUsers`), the
    user editor `adminEditUsers`, and the product screens `adminViewProducts`
    and `adminEditProducts`.  Each is gated on the session's type being
    "admin". */
module AdminOperations {
  import opened Common
  import opened Validator
  import opened Backend
  import opened Existence
  import opened Sql
  import opened Assembler
  import opened Authorization
  import opened Accounts
  import opened Outcomes

  // ---------------------------------------------------------------------------
  // Range-filtered listings

  /** What `inputRangeQueryOnAttribute` returns on the remaining input, and
      how many lines it reads: `None` (the source's `null`) when a bound that
      is not "-" is not an integer, the last bound being read only after the
      first passed; the query as it stood when the input runs out, since that
      exception is caught and the query returned unchanged. */
  function RangeInput(query: string, attribute: string, input: seq<string>): (Option<string>, nat)
  {
    if |input| == 0 then (Some(query), 0)
    else if input[0] != Dash && !IsNumeral(input[0], true) then (None, 1)
    else if |input| == 1 then (Some(query), 1)
    else if input[1] != Dash && !IsNumeral(input[1], true) then (None, 2)
    else (Some(query + WhereText(RangeConditions(attribute, input[0], input[1]))), 2)
  }

  /** `inputRangeQueryOnAttribute`. */
  method InputRangeQuery(console: Console, query: string, attribute: string) returns (result: Option<string>)
    requires console.Valid()
    modifies console
    ensures console.Valid()
    ensures var r := RangeInput(query, attribute, old(console.lines[console.pos..]));
      result == r.0 && console.pos == old(console.pos) + r.1
  {
    var line := console.ReadLine();
    if line.None? {
      return Some(query);
    }
    var first := line.value;
    if first != Dash {
      var numeric := ValidNumber(first, true);
      if !numeric {
        return None;
      }
    }
    line := console.ReadLine();
    if line.None? {
      return Some(query);
    }
    var last := line.value;
    if last != Dash {
      var numeric := ValidNumber(last, true);
      if !numeric {
        return None;
      }
    }
    var filtered := AppendRange(query, attribute, first, last);
    result := Some(filtered);
  }

  /** The range reader rejects exactly a bound that is neither "-" nor an
      integer, never reads the last bound once the first is rejected, and
      otherwise bounds the query by exactly the values supplied. */
  lemma RangeInputChecks(query: string, attribute: string, input: seq<string>)
    ensures var r := RangeInput(query, attribute, input);
      r.0.None? <==>
        (|input| >= 1 && input[0] != Dash && !IsNumeral(input[0], true)) ||
        (|input| >= 2 && (input[0] == Dash || IsNumeral(input[0], true)) && input[1] != Dash && !IsNumeral(input[1], true))
    ensures var r := RangeInput(query, attribute, input);
      |input| >= 1 && input[0] != Dash && !IsNumeral(input[0], true) ==> r.1 == 1
    ensures var r := RangeInput(query, attribute, input);
      |input| >= 2 && r.0.Some? ==>
        (input[0] == Dash || IsNumeral(input[0], true)) && (input[1] == Dash || IsNumeral(input[1], true)) &&
        r.0.value == query + WhereText(RangeConditions(attribute, input[0], input[1]))
    ensures var r := RangeInput(query, attribute, input);
      |input| < 2 && r.0.Some? ==> r.0.value == query
  {
  }

  /** The relations `viewEverything` lists directly, with the attribute its
      range filter bounds. */
  function Relation(choice: string): Option<(string, string)>
  {
    if choice == "1" then Some(("Users", "userID"))
    else if choice == "2" then Some(("Store", "storeID"))
    else if choice == "4" then Some(("Orders", "orderNumber"))
    else if choice == "5" then Some(("Warehouse", "WarehouseID"))
    else if choice == "6" then Some(("ProductSupplyRequests", "requestNumber"))
    else if choice == "7" then Some(("ProductUpdates", "updateNumber"))
    else None
  }

  /** The attributes the product listing of `viewEverything` can bound. */
  function ProductAttribute(choice: string): Option<string>
  {
    if choice == "1" then Some("storeID")
    else if choice == "2" then Some("pricePerUnit")
    else if choice == "3" then Some("numberOfUnits")
    else None
  }

  /** What the operator picked on the `viewEverything` screen: a relation
      and the attribute to bound, after `consumed` lines, or the way the
      screen ended instead. */
  datatype Choice = Listing(table: string, attribute: string, consumed: nat) | Halt(outcome: Outcome, consumed: nat)

  function ListingChoice(input: seq<string>): Choice
  {
    if |input| == 0 then Halt(Failed, 0)
    else if input[0] == "0" then Halt(Cancelled, 1)
    else if Relation(input[0]).Some? then Listing(Relation(input[0]).value.0, Relation(input[0]).value.1, 1)
    else if input[0] != "3" then Halt(Invalid, 1)
    else if |input| == 1 then Halt(Failed, 1)
    else if ProductAttribute(input[1]).None? then Halt(Invalid, 2)
    else Listing("Product", ProductAttribute(input[1]).value, 2)
  }

  /** The menu of `viewEverything`, and for products the attribute menu. */
  method ChooseListing(console: Console) returns (choice: Choice)
    requires console.Valid()
    modifies console
    ensures console.Valid()
    ensures choice == ListingChoice(old(console.lines[console.pos..])) && console.pos == old(console.pos) + choice.consumed
  {
    var line := console.ReadLine();
    if line.None? {
      return Halt(Failed, 0);
    }
    var response := line.value;
    if response == "0" {
      return Halt(Cancelled, 1);
    } else if response == "1" {
      return Listing("Users", "userID", 1);
    } else if response == "2" {
      return Listing("Store", "storeID", 1);
    } else if response == "3" {
      line := console.ReadLine();
      if line.None? {
        return Halt(Failed, 1);
      }
      var num := line.value;
      if num == "1" {
        return Listing("Product", "storeID", 2);
      } else if num == "2" {
        return Listing("Product", "pricePerUnit", 2);
      } else if num == "3" {
        return Listing("Product", "numberOfUnits", 2);
      }
      return Halt(Invalid, 2);
    } else if response == "4" {
      return Listing("Orders", "orderNumber", 1);
    } else if response == "5" {
      return Listing("Warehouse", "WarehouseID", 1);
    } else if response == "6" {
      return Listing("ProductSupplyRequests", "requestNumber", 1);
    } else if response == "7" {
      return Listing("ProductUpdates", "updateNumber", 1);
    }
    return Halt(Invalid, 1);
  }

  /** `viewEverything`: the gate, the choice, the range, then the listing. */
  function ViewEverythingRun(session: Fields, input: seq<string>): Run
  {
    if !HasRole(session.userType, Admin) then Run(Refused, [], 0)
    else
      var choice := ListingChoice(input);
      if choice.Halt? then Run(choice.outcome, [], choice.consumed)
      else
        var range := RangeInput("SELECT * FROM " + choice.table, choice.attribute, input[choice.consumed..]);
        if range.0.None? then Run(Invalid, [], choice.consumed + range.1)
        else Run(Done, [Query(range.0.value)], choice.consumed + range.1)
  }

  /** `viewEverything`.  Its gate sits before the `try`, so a session
      without a type never reaches it from the user menu. */
  method ViewEverything(db: Database, console: Console, session: Session) returns (outcome: Outcome)
    requires console.Valid() && session.userType.Text?
    modifies db, console
    ensures console.Valid()
    ensures var r := ViewEverythingRun(session.Current(), old(console.lines[console.pos..]));
      outcome == r.outcome && db.log == old(db.log) + r.calls && console.pos == old(console.pos) + r.consumed
  {
    if session.userType != Text(Admin) {
      return Refused;
    }
    ghost var input := console.lines[console.pos..];
    var choice := ChooseListing(console);
    if choice.Halt? {
      return choice.outcome;
    }
    assert console.lines[console.pos..] == input[choice.consumed..];
    var filtered := InputRangeQuery(console, "SELECT * FROM " + choice.table, choice.attribute);
    if filtered.None? {
      return Invalid;
    }
    var _ := db.RunQuery(filtered.value);
    outcome := Done;
  }

  /** `viewEverything` only reads, only for an administrator, and sends one
      listing of a whole relation, filtered only by integer bounds. */
  lemma ViewEverythingReadsOnly(session: Fields, input: seq<string>)
    ensures var r := ViewEverythingRun(session, input);
      Updates(r.calls) == [] && |r.calls| <= 1 &&
      (r.calls != [] <==> r.outcome == Done) &&
      (r.outcome == Done ==>
        HasRole(session.userType, Admin) && r.calls[0].Query? && "SELECT * FROM " <= r.calls[0].text)
  {
    var r := ViewEverythingRun(session, input);
    if r.outcome == Done {
      var choice := ListingChoice(input);
      var rest := input[choice.consumed..];
      RangeInputChecks("SELECT * FROM " + choice.table, choice.attribute, rest);
      var tail := if |rest| < 2 then [] else WhereText(RangeConditions(choice.attribute, rest[0], rest[1]));
      assert r.calls[0].text == "SELECT * FROM " + (choice.table + tail);
    }
    QueriesWriteNothing(r.calls);
  }

  // ---------------------------------------------------------------------------
  // The user listing, whose bound check is inverted

  const UsersListing: string :=
    "SELECT Users.name, Users.password, Users.userID, Users.type, Users.latitude, Users.longitude FROM Users"

  /** The bound check of the user listing.  As written it turns away a bound
      that IS an integer; corrected, one that is not. */
  predicate BoundRefused(bound: string, asWritten: bool)
  {
    bound != Dash && (if asWritten then IsNumeral(bound, true) else !IsNumeral(bound, true))
  }

  /** `adminViewUsers`, as written (`asWritten`) or with its check corrected:
      the gate, the first bound, the last bound, then the listing with the
      range filter on the user id. */
  function UsersRun(session: Fields, input: seq<string>, asWritten: bool): Run
  {
    if !HasRole(session.userType, Admin) then Run(Refused, [], 0)
    else if |input| == 0 then Run(Failed, [], 0)
    else if BoundRefused(input[0], asWritten) then Run(Invalid, [], 1)
    else if |input| == 1 then Run(Failed, [], 1)
    else if BoundRefused(input[1], asWritten) then Run(Invalid, [], 2)
    else Run(Done, [Query(UsersListing + WhereText(RangeConditions("Users.userID", input[0], input[1])))], 2)
  }

  /** `adminViewUsers` as the source has it. */
  method AdminViewUsers(db: Database, console: Console, session: Session) returns (outcome: Outcome)
    requires console.Valid()
    modifies db, console
    ensures console.Valid()
    ensures var r := UsersRun(session.Current(), old(console.lines[console.pos..]), true);
      outcome == r.outcome && db.log == old(db.log) + r.calls && console.pos == old(console.pos) + r.consumed
  {
    if session.userType != Text(Admin) {
      return Refused;
    }
    var line := console.ReadLine();
    if line.None? {
      return Failed;
    }
    var first := line.value;
    if first != Dash {
      var numeric := ValidNumber(first, true);
      if numeric {
        return Invalid;
      }
    }
    line := console.ReadLine();
    if line.None? {
      return Failed;
    }
    var last := line.value;
    if last != Dash {
      var numeric := ValidNumber(last, true);
      if numeric {
        return Invalid;
      }
    }
    var query := AppendRange(UsersListing, "Users.userID", first, last);
    var _ := db.RunQuery(query);
    outcome := Done;
  }

  /** `adminViewUsers` with the bound check the screen's message intends. */
  method AdminViewUsersCorrected(db: Database, console: Console, session: Session) returns (outcome: Outcome)
    requires console.Valid()
    modifies db, console
    ensures console.Valid()
    ensures var r := UsersRun(session.Current(), old(console.lines[console.pos..]), false);
      outcome == r.outcome && db.log == old(db.log) + r.calls && console.pos == old(console.pos) + r.consumed
  {
    if session.userType != Text(Admin) {
      return Refused;
    }
    var line := console.ReadLine();
    if line.None? {
      return Failed;
    }
    var first := line.value;
    if first != Dash {
      var numeric := ValidNumber(first, true);
      if !numeric {
        return Invalid;
      }
    }
    line := console.ReadLine();
    if line.None? {
      return Failed;
    }
    var last := line.value;
    if last != Dash {
      var numeric := ValidNumber(last, true);
      if !numeric {
        return Invalid;
      }
    }
    var query := AppendRange(UsersListing, "Users.userID", first, last);
    var _ := db.RunQuery(query);
    outcome := Done;
  }

  /** As written, the listing turns away the user id 5 and sends a filter
      on the id "abc" instead: it lists users only for bounds that are not
      integers. */
  lemma ViewUsersAsWritten(session: Fields, input: seq<string>)
    requires HasRole(session.userType, Admin)
    ensures UsersRun(session, ["5", Dash], true).outcome == Invalid
    ensures UsersRun(session, ["abc", Dash], true) == Run(Done, [Query(UsersListing + " WHERE Users.userID >= abc")], 2)
    ensures UsersRun(session, input, true).outcome == Done ==>
      (input[0] == Dash || !IsNumeral(input[0], true)) && (input[1] == Dash || !IsNumeral(input[1], true))
  {
    assert IsDigit("5"[0]);
    assert !IsDigit("abc"[0]);
    assert |"abc"| != |Dash|;
    assert RangeConditions("Users.userID", "abc", Dash) == ["Users.userID" + " >= " + "abc"];
    assert "Users.userID" + " >= " + "abc" == "Users.userID >= abc";
    assert WhereText(["Users.userID >= abc"]) == " WHERE " + "Users.userID >= abc";
    assert " WHERE " + "Users.userID >= abc" == " WHERE Users.userID >= abc";
  }

  /** Corrected, the listing takes exactly the bounds the range reader of
      `viewEverything` takes and sends the same filter, differing only in
      giving up when the input runs out. */
  lemma ViewUsersCorrected(session: Fields, input: seq<string>)
    requires HasRole(session.userType, Admin) && |input| >= 2
    ensures var r := UsersRun(session, input, false);
      var range := RangeInput(UsersListing, "Users.userID", input);
      (r.outcome == Done <==> range.0.Some?) && r.consumed == range.1 &&
      (r.outcome == Done ==> r.calls == [Query(range.0.value)])
    ensures UsersRun(session, input, false).outcome == Done ==>
      (input[0] == Dash || IsNumeral(input[0], true)) && (input[1] == Dash || IsNumeral(input[1], true))
  {
  }

  // ---------------------------------------------------------------------------
  // The user editor

  /** The record shown before editing. */
  function UserPreview(userID: string): string
  {
    "SELECT * FROM Users WHERE Users.userID = " + userID
  }

  /** A latitude or longitude the editor turns away: not a decimal, or
      outside [0, 100]. */
  predicate CoordinateRefused(numerics: Numerics, s: string)
  {
    !IsNumeral(s, false) || !numerics.inCoordinateRange(s)
  }

  /** The answers to one of the editor's options: the assignments to send,
      or how the screen ended instead, with the lookups made and the lines
      read either way. */
  datatype Plan =
    | Send(assignments: seq<string>, calls: seq<Call>, consumed: nat)
    | Stop(outcome: Outcome, calls: seq<Call>, consumed: nat)

  /** Option 1: a new name, which must not be taken.  At the end of input the
      lookup is sent for the text "null" and can only fail (`null.equals`
      throws inside `valid_username`, which returns false), so the name
      "null" is written. */
  function NameAnswer(answer: string -> Answer, lines: seq<string>): Plan
  {
    if |lines| == 0 then Send(["name = '" + NullText + "'"], [Query(UsernameLookup(NullText))], 0)
    else if UsernameExists(answer, lines[0]) then Stop(Invalid, [Query(UsernameLookup(lines[0]))], 1)
    else Send(["name = '" + lines[0] + "'"], [Query(UsernameLookup(lines[0]))], 1)
  }

  /** Option 2: a new password, unchecked; "null" at the end of input. */
  function PasswordAnswer(lines: seq<string>): Plan
  {
    if |lines| == 0 then Send(["password = '" + NullText + "'"], [], 0)
    else Send(["password = '" + lines[0] + "'"], [], 1)
  }

  /** Option 3: a latitude, then a longitude. */
  function LocationAnswer(numerics: Numerics, lines: seq<string>): Plan
  {
    if |lines| == 0 then Stop(Failed, [], 0)
    else if CoordinateRefused(numerics, lines[0]) then Stop(Invalid, [], 1)
    else if |lines| == 1 then Stop(Failed, [], 1)
    else if CoordinateRefused(numerics, lines[1]) then Stop(Invalid, [], 2)
    else Send(["latitude = " + lines[0], "longitude = " + lines[1]], [], 2)
  }

  /** Option 4: one of the three user types. */
  function TypeAnswer(lines: seq<string>): Plan
  {
    if |lines| == 0 then Stop(Failed, [], 0)
    else if !IsRole(lines[0]) then Stop(Invalid, [], 1)
    else Send(["type = '" + lines[0] + "'"], [], 1)
  }

  /** The lookup option 5 makes for a new name: none for "-". */
  function NameCalls(name: string): seq<Call>
  {
    if name == Dash then [] else [Query(UsernameLookup(name))]
  }

  /** Option 5 after the name and password: the type, the latitude and the
      longitude, each checked unless "-". */
  function LaterAnswers(numerics: Numerics, lines: seq<string>): Plan
  {
    if |lines| == 0 then Stop(Failed, [], 0)
    else if lines[0] != Dash && !IsRole(lines[0]) then Stop(Invalid, [], 1)
    else if |lines| == 1 then Stop(Failed, [], 1)
    else if lines[1] != Dash && CoordinateRefused(numerics, lines[1]) then Stop(Invalid, [], 2)
    else if |lines| == 2 then Stop(Failed, [], 2)
    else if lines[2] != Dash && CoordinateRefused(numerics, lines[2]) then Stop(Invalid, [], 3)
    else
      Send(Optional(lines[0], "type = '" + lines[0] + "'") + Optional(lines[1], "latitude = " + lines[1]) +
        Optional(lines[2], "longitude = " + lines[2]), [], 3)
  }

  /** Option 5: the name (checked unless "-"), the password, then the rest. */
  function AllAnswers(answer: string -> Answer, numerics: Numerics, lines: seq<string>): Plan
  {
    if |lines| == 0 then Stop(Failed, [], 0)
    else if lines[0] != Dash && UsernameExists(answer, lines[0]) then Stop(Invalid, NameCalls(lines[0]), 1)
    else if |lines| == 1 then Stop(Failed, NameCalls(lines[0]), 1)
    else
      var later := LaterAnswers(numerics, lines[2..]);
      if later.Stop? then Stop(later.outcome, NameCalls(lines[0]), 2 + later.consumed)
      else
        Send(Optional(lines[0], "name = '" + lines[0] + "'") + Optional(lines[1], "password = '" + lines[1] + "'") +
          later.assignments, NameCalls(lines[0]), 2 + later.consumed)
  }

  /** The answers to the option chosen; any other option is unknown. */
  function EditPlan(answer: string -> Answer, numerics: Numerics, option: string, lines: seq<string>): Plan
  {
    if option == "1" then NameAnswer(answer, lines)
    else if option == "2" then PasswordAnswer(lines)
    else if option == "3" then LocationAnswer(numerics, lines)
    else if option == "4" then TypeAnswer(lines)
    else if option == "5" then AllAnswers(answer, numerics, lines)
    else Stop(Invalid, [], 0)
  }

  /** Option 5 sends exactly the answers that are not "-", each having
      passed its check, in the order asked. */
  lemma {:induction false} AllAnswersChecked(answer: string -> Answer, numerics: Numerics, lines: seq<string>)
    ensures var p := AllAnswers(answer, numerics, lines);
      p.Send? ==>
        |lines| >= 5 && p.consumed == 5 && p.calls == NameCalls(lines[0]) &&
        p.assignments == UserAssignments(lines[0], lines[1], lines[2], lines[3], lines[4]) &&
        (lines[0] != Dash ==> !UsernameExists(answer, lines[0])) &&
        (lines[2] != Dash ==> IsRole(lines[2])) &&
        (lines[3] != Dash ==> !CoordinateRefused(numerics, lines[3])) &&
        (lines[4] != Dash ==> !CoordinateRefused(numerics, lines[4]))
  {
    var p := AllAnswers(answer, numerics, lines);
    if p.Send? {
      var later := LaterAnswers(numerics, lines[2..]);
      assert lines[2..][0] == lines[2] && lines[2..][1] == lines[3] && lines[2..][2] == lines[4];
      var a, b := Optional(lines[0], "name = '" + lines[0] + "'"), Optional(lines[1], "password = '" + lines[1] + "'");
      var c, d, e := Optional(lines[2], "type = '" + lines[2] + "'"), Optional(lines[3], "latitude = " + lines[3]),
        Optional(lines[4], "longitude = " + lines[4]);
      assert later.assignments == c + d + e;
      assert a + b + (c + d + e) == a + b + c + d + e;
    }
  }

  /** With every answer "-", option 5 still sends its UPDATE, with an empty
      SET list. */
  lemma AllDashesSendEmptySet(answer: string -> Answer, numerics: Numerics)
    ensures AllAnswers(answer, numerics, [Dash, Dash, Dash, Dash, Dash]) == Send([], [], 5)
  {
    var lines := [Dash, Dash, Dash, Dash, Dash];
    assert lines[2..] == [Dash, Dash, Dash];
  }

  /** The other options send their one attribute (two for the location),
      and only after its check passed. */
  lemma SingleAnswersChecked(answer: string -> Answer, numerics: Numerics, option: string, lines: seq<string>)
    requires option in {"1", "2", "3", "4"}
    ensures var p := EditPlan(answer, numerics, option, lines);
      p.Send? ==>
        |lines| >= p.consumed && (p.consumed == 0 <==> lines == []) &&
        (option == "1" && lines != [] ==>
          !UsernameExists(answer, lines[0]) && p.assignments == ["name = '" + lines[0] + "'"]) &&
        (option == "2" && lines != [] ==> p.assignments == ["password = '" + lines[0] + "'"]) &&
        (option == "3" ==>
          |lines| >= 2 && !CoordinateRefused(numerics, lines[0]) && !CoordinateRefused(numerics, lines[1]) &&
          p.assignments == ["latitude = " + lines[0], "longitude = " + lines[1]]) &&
        (option == "4" ==> lines != [] && IsRole(lines[0]) && p.assignments == ["type = '" + lines[0] + "'"])
  {
  }

  /** At the end of input options 1 and 2 do not stop: the missing answer is
      written as the text "null", after a name lookup for option 1. */
  lemma MissingAnswerWritesNull(answer: string -> Answer, numerics: Numerics, option: string)
    requires option in {"1", "2"}
    ensures var p := EditPlan(answer, numerics, option, []);
      p.Send? && p.consumed == 0 &&
      (option == "1" ==> p.assignments == ["name = 'null'"] && p.calls == [Query(UsernameLookup("null"))]) &&
      (option == "2" ==> p.assignments == ["password = 'null'"] && p.calls == [])
  {
    assert "name = '" + NullText + "'" == "name = 'null'";
    assert "password = '" + NullText + "'" == "password = 'null'";
  }

  /** The edit after the record was shown: the option, its answers, then the
      UPDATE keyed by the user id. */
  function AttributesRun(answer: string -> Answer, succeeds: string -> bool, numerics: Numerics, userID: string,
    rest: seq<string>): Run
  {
    if |rest| == 0 then Run(Failed, [], 0)
    else if rest[0] == "0" then Run(Cancelled, [], 1)
    else
      var p := EditPlan(answer, numerics, rest[0], rest[1..]);
      if p.Stop? then Run(p.outcome, p.calls, 1 + p.consumed)
      else
        var statement := ChangeText(UserChange(userID, p.assignments));
        Run(if succeeds(statement) then Done else Failed, p.calls + [Update(statement)], 1 + p.consumed)
  }

  /** `adminEditUsers`: the gate, the user id (an integer), the record shown,
      then the edit. */
  function EditUsersRun(answer: string -> Answer, succeeds: string -> bool, numerics: Numerics, session: Fields,
    input: seq<string>): Run
  {
    if !HasRole(session.userType, Admin) then Run(Refused, [], 0)
    else if |input| == 0 then Run(Failed, [], 0)
    else if !IsNumeral(input[0], true) then Run(Invalid, [], 1)
    else if answer(UserPreview(input[0])).Raised? then Run(Failed, [Query(UserPreview(input[0]))], 1)
    else After([Query(UserPreview(input[0]))], 1, AttributesRun(answer, succeeds, numerics, input[0], input[1..]))
  }

  /** Option 5 after the name and password: each answer is checked as it is
      read; the answers are handed back for the accumulator. */
  method ReadLaterAnswers(console: Console, numerics: Numerics) returns (plan: Plan, answers: seq<string>)
    requires console.Valid()
    modifies console
    ensures console.Valid()
    ensures plan == LaterAnswers(numerics, old(console.lines[console.pos..]))
    ensures console.pos == old(console.pos) + plan.consumed
    ensures plan.Send? ==> answers == old(console.lines[console.pos..])[..3]
  {
    ghost var input := console.lines[console.pos..];
    var line := console.ReadLine();
    if line.None? {
      return Stop(Failed, [], 0), [];
    }
    var userType := line.value;
    if userType != Dash && !(userType == Customer || userType == Manager || userType == Admin) {
      return Stop(Invalid, [], 1), [];
    }
    line := console.ReadLine();
    if line.None? {
      return Stop(Failed, [], 1), [];
    }
    var latitude := line.value;
    if latitude != Dash {
      var numeric := ValidNumber(latitude, false);
      if !numeric || !numerics.inCoordinateRange(latitude) {
        return Stop(Invalid, [], 2), [];
      }
    }
    line := console.ReadLine();
    if line.None? {
      return Stop(Failed, [], 2), [];
    }
    var longitude := line.value;
    if longitude != Dash {
      var numeric := ValidNumber(longitude, false);
      if !numeric || !numerics.inCoordinateRange(longitude) {
        return Stop(Invalid, [], 3), [];
      }
    }
    assert input[0] == userType && input[1] == latitude && input[2] == longitude;
    answers := [userType, latitude, longitude];
    plan := Send(Optional(userType, "type = '" + userType + "'") + Optional(latitude, "latitude = " + latitude) +
      Optional(longitude, "longitude = " + longitude), [], 3);
  }

  /** Option 5: the name (looked up unless "-"), the password, then the
      rest; the five answers are handed back for the accumulator. */
  method ReadUserAnswers(db: Database, console: Console, numerics: Numerics) returns (plan: Plan, answers: seq<string>)
    requires console.Valid()
    modifies db, console
    ensures console.Valid()
    ensures plan == AllAnswers(db.answer, numerics, old(console.lines[console.pos..]))
    ensures db.log == old(db.log) + plan.calls && console.pos == old(console.pos) + plan.consumed
    ensures plan.Send? ==> answers == old(console.lines[console.pos..])[..5]
  {
    ghost var input := console.lines[console.pos..];
    var line := console.ReadLine();
    if line.None? {
      return Stop(Failed, [], 0), [];
    }
    var name := line.value;
    if name != Dash {
      var taken := ValidUsername(db, name);
      if taken {
        return Stop(Invalid, NameCalls(name), 1), [];
      }
    }
    line := console.ReadLine();
    if line.None? {
      return Stop(Failed, NameCalls(name), 1), [];
    }
    var password := line.value;
    assert input[0] == name && input[1] == password;
    assert console.lines[console.pos..] == input[2..];
    var later, rest := ReadLaterAnswers(console, numerics);
    if later.Stop? {
      return Stop(later.outcome, NameCalls(name), 2 + later.consumed), [];
    }
    answers := [name, password] + rest;
    plan := Send(Optional(name, "name = '" + name + "'") + Optional(password, "password = '" + password + "'") +
      later.assignments, NameCalls(name), 2 + later.consumed);
  }

  /** Option 5's accumulator over the five answers, and what it adds to the
      statement: nothing while it still holds the marker. */
  method UserSetList(answers: seq<string>) returns (setList: string)
    requires |answers| == 5
    ensures setList == Join(UserAssignments(answers[0], answers[1], answers[2], answers[3], answers[4]), ", ")
  {
    var assignments := UserAssignments(answers[0], answers[1], answers[2], answers[3], answers[4]);
    var addQuery := AccumulateUserAssignments(answers[0], answers[1], answers[2], answers[3], answers[4]);
    if assignments != [] {
      SetListIsNotPlaceholder(assignments);
    }
    setList := "";
    if addQuery != Placeholder {
      setList := setList + addQuery;
    }
  }

  /** Options 1, 2 and 4: one answer, checked, and the SET text built
      from it. */
  method ReadOneAnswer(db: Database, console: Console, option: string) returns (plan: Plan, setList: string)
    requires console.Valid() && option in {"1", "2", "4"}
    modifies db, console
    ensures console.Valid()
    ensures plan == if option == "1" then NameAnswer(db.answer, old(console.lines[console.pos..]))
      else if option == "2" then PasswordAnswer(old(console.lines[console.pos..]))
      else TypeAnswer(old(console.lines[console.pos..]))
    ensures db.log == old(db.log) + plan.calls && console.pos == old(console.pos) + plan.consumed
    ensures plan.Send? ==> setList == Join(plan.assignments, ", ")
  {
    var line := console.ReadLine();
    if line.None? && option == "4" {
      return Stop(Failed, [], 0), "";
    }
    var response2 := if line.Some? then line.value else NullText;
    var consumed := if line.Some? then 1 else 0;
    if option == "1" {
      var taken := false;
      if line.Some? {
        taken := ValidUsername(db, response2);
      } else {
        var ignored := db.RunQuery(UsernameLookup(NullText));
      }
      if taken {
        return Stop(Invalid, [Query(UsernameLookup(response2))], 1), "";
      }
      setList := "name = '" + response2 + "'";
      plan := Send([setList], [Query(UsernameLookup(response2))], consumed);
    } else if option == "2" {
      setList := "password = '" + response2 + "'";
      plan := Send([setList], [], consumed);
    } else {
      if !(response2 == Customer || response2 == Manager || response2 == Admin) {
        return Stop(Invalid, [], 1), "";
      }
      setList := "type = '" + response2 + "'";
      plan := Send([setList], [], 1);
    }
  }

  /** Option 3: a latitude, then a longitude, each checked as read. */
  method ReadLocation(console: Console, numerics: Numerics) returns (plan: Plan, setList: string)
    requires console.Valid()
    modifies console
    ensures console.Valid()
    ensures plan == LocationAnswer(numerics, old(console.lines[console.pos..]))
    ensures console.pos == old(console.pos) + plan.consumed
    ensures plan.Send? ==> setList == Join(plan.assignments, ", ")
  {
    ghost var input := console.lines[console.pos..];
    var latitude, accepted := ReadCoordinate(console, numerics);
    if latitude.None? {
      return Stop(Failed, [], 0), "";
    } else if !accepted {
      return Stop(Invalid, [], 1), "";
    }
    var longitude;
    longitude, accepted := ReadCoordinate(console, numerics);
    if longitude.None? {
      return Stop(Failed, [], 1), "";
    } else if !accepted {
      return Stop(Invalid, [], 2), "";
    }
    assert input[1] == longitude.value;
    plan := Send(["latitude = " + latitude.value, "longitude = " + longitude.value], [], 2);
    JoinTwo(plan.assignments[0], plan.assignments[1], ", ");
    setList := plan.assignments[0] + ", " + plan.assignments[1];
  }

  /** One coordinate line, and whether it is a decimal numeral inside the
      coordinate range. */
  method ReadCoordinate(console: Console, numerics: Numerics) returns (line: Option<string>, accepted: bool)
    requires console.Valid()
    modifies console
    ensures console.Valid()
    ensures old(console.pos) < |console.lines| ==>
      line == Some(console.lines[old(console.pos)]) && console.pos == old(console.pos) + 1 &&
      accepted == !CoordinateRefused(numerics, line.value)
    ensures old(console.pos) == |console.lines| ==> line.None? && console.pos == old(console.pos)
  {
    line := console.ReadLine();
    if line.None? {
      return None, false;
    }
    var numeric := ValidNumber(line.value, false);
    accepted := numeric && numerics.inCoordinateRange(line.value);
  }

  /** The option's answers and the SET text they give. */
  method ReadEdit(db: Database, console: Console, numerics: Numerics, option: string) returns (plan: Plan, setList: string)
    requires console.Valid()
    modifies db, console
    ensures console.Valid()
    ensures plan == EditPlan(db.answer, numerics, option, old(console.lines[console.pos..]))
    ensures db.log == old(db.log) + plan.calls && console.pos == old(console.pos) + plan.consumed
    ensures plan.Send? ==> setList == Join(plan.assignments, ", ")
  {
    ghost var input := console.lines[console.pos..];
    if option == "5" {
      var answers;
      plan, answers := ReadUserAnswers(db, console, numerics);
      if plan.Stop? {
        return plan, "";
      }
      AllAnswersChecked(db.answer, numerics, input);
      setList := UserSetList(answers);
    } else if option == "3" {
      plan, setList := ReadLocation(console, numerics);
    } else if option == "1" || option == "2" || option == "4" {
      plan, setList := ReadOneAnswer(db, console, option);
    } else {
      plan, setList := Stop(Invalid, [], 0), "";
    }
  }

  /** The statement around a SET text: the user's key follows it. */
  method UserStatement(userID: string, setList: string, ghost assignments: seq<string>) returns (query: string)
    requires setList == Join(assignments, ", ")
    ensures query == ChangeText(UserChange(userID, assignments))
  {
    query := "UPDATE Users SET ";
    query := query + setList;
    query := query + " WHERE userID = " + userID;
    UserChangeText(userID, assignments);
    assert " WHERE userID = " == " WHERE " + "userID = ";
  }

  /** The edit after the record was shown. */
  method EditUserAttributes(db: Database, console: Console, numerics: Numerics, userID: string)
    returns (outcome: Outcome)
    requires console.Valid()
    modifies db, console
    ensures console.Valid()
    ensures var r := AttributesRun(db.answer, db.succeeds, numerics, userID, old(console.lines[console.pos..]));
      outcome == r.outcome && db.log == old(db.log) + r.calls && console.pos == old(console.pos) + r.consumed
  {
    ghost var input := console.lines[console.pos..];
    var line := console.ReadLine();
    if line.None? {
      return Failed;
    }
    var response := line.value;
    if response == "0" {
      return Cancelled;
    }
    assert console.lines[console.pos..] == input[1..];
    var plan, setList := ReadEdit(db, console, numerics, response);
    if plan.Stop? {
      return plan.outcome;
    }
    var query := UserStatement(userID, setList, plan.assignments);
    var ok := db.RunUpdate(query);
    outcome := if ok then Done else Failed;
  }

  /** `adminEditUsers`.  `numerics` supplies the coordinate range test. */
  method AdminEditUsers(db: Database, console: Console, session: Session, numerics: Numerics)
    returns (outcome: Outcome)
    requires console.Valid()
    modifies db, console
    ensures console.Valid()
    ensures var r := EditUsersRun(db.answer, db.succeeds, numerics, session.Current(), old(console.lines[console.pos..]));
      outcome == r.outcome && db.log == old(db.log) + r.calls && console.pos == old(console.pos) + r.consumed
  {
    if session.userType != Text(Admin) {
      return Refused;
    }
    ghost var input := console.lines[console.pos..];
    var line := console.ReadLine();
    if line.None? {
      return Failed;
    }
    var userID := line.value;
    var numeric := ValidNumber(userID, true);
    if !numeric {
      return Invalid;
    }
    var shown := db.RunQuery(UserPreview(userID));
    if shown.Raised? {
      return Failed;
    }
    assert console.lines[console.pos..] == input[1..];
    outcome := EditUserAttributes(db, console, numerics, userID);
    ghost var r := AttributesRun(db.answer, db.succeeds, numerics, userID, input[1..]);
    Regroup(old(db.log), [Query(UserPreview(userID))], r.calls);
  }

  /** Every lookup the editor's options make is a query. */
  lemma EditPlanReadsOnly(answer: string -> Answer, numerics: Numerics, option: string, lines: seq<string>)
    ensures Updates(EditPlan(answer, numerics, option, lines).calls) == []
  {
    var p := EditPlan(answer, numerics, option, lines);
    QueriesWriteNothing(p.calls);
  }

  /** After the record was shown, the edit writes at most one statement:
      the option's assignments keyed by the user id, once every answer
      passed.  A completed edit always wrote it. */
  lemma AttributesWrites(answer: string -> Answer, succeeds: string -> bool, numerics: Numerics, userID: string,
    rest: seq<string>)
    ensures var r := AttributesRun(answer, succeeds, numerics, userID, rest);
      |Updates(r.calls)| <= 1 &&
      (r.outcome == Done ==> Updates(r.calls) != []) &&
      (Updates(r.calls) != [] ==>
        |rest| >= 1 && EditPlan(answer, numerics, rest[0], rest[1..]).Send? &&
        Updates(r.calls) == [ChangeText(UserChange(userID, EditPlan(answer, numerics, rest[0], rest[1..]).assignments))])
  {
    if |rest| > 0 && rest[0] != "0" {
      var p := EditPlan(answer, numerics, rest[0], rest[1..]);
      EditPlanReadsOnly(answer, numerics, rest[0], rest[1..]);
      if p.Send? {
        var statement := ChangeText(UserChange(userID, p.assignments));
        UpdatesAppend(p.calls, [Update(statement)]);
        assert Updates([Update(statement)]) == [statement];
      }
    }
  }

  /** The user editor writes at most one statement, and only for an
      administrator who named an integer user id and whose answers all
      passed; that statement is keyed by the id and sets exactly the
      option's assignments.  A completed edit always wrote it. */
  lemma EditUsersWritesOnlyAsAdmin(answer: string -> Answer, succeeds: string -> bool, numerics: Numerics,
    session: Fields, input: seq<string>)
    ensures var r := EditUsersRun(answer, succeeds, numerics, session, input);
      |Updates(r.calls)| <= 1 &&
      (r.outcome == Done ==> Updates(r.calls) != []) &&
      (Updates(r.calls) != [] ==>
        HasRole(session.userType, Admin) && |input| >= 2 && IsNumeral(input[0], true) &&
        EditPlan(answer, numerics, input[1], input[2..]).Send? &&
        Updates(r.calls) == [ChangeText(UserChange(input[0], EditPlan(answer, numerics, input[1], input[2..]).assignments))])
  {
    if HasRole(session.userType, Admin) && |input| > 0 && IsNumeral(input[0], true) {
      var shown := [Query(UserPreview(input[0]))];
      QueriesWriteNothing(shown);
      if !answer(UserPreview(input[0])).Raised? {
        var rest := input[1..];
        AttributesWrites(answer, succeeds, numerics, input[0], rest);
        var tail := AttributesRun(answer, succeeds, numerics, input[0], rest);
        UpdatesAppend(shown, tail.calls);
        if |rest| > 0 {
          assert rest[1..] == input[2..];
        }
      }
    }
  }

  // ---------------------------------------------------------------------------
  // The product screens

  /** `adminViewProducts`: the gate, a store (or "-"), an ordering and a
      limit, then the listing. */
  function AdminProductsRun(answer: string -> Answer, session: Fields, input: seq<string>): Run
  {
    if !HasRole(session.userType, Admin) then Run(Refused, [], 0)
    else if |input| == 0 then Run(Failed, [], 0)
    else if !StoreOrAll(answer, input[0]) then Run(Invalid, StoreCheckCalls(input[0]), 1)
    else if |input| < 3 then Run(Failed, StoreCheckCalls(input[0]), |input|)
    else Run(Done, StoreCheckCalls(input[0]) + [Query(SelectText(AdminProductsSelect(input[0], input[1], input[2])))], 3)
  }

  method AdminViewProducts(db: Database, console: Console, session: Session) returns (outcome: Outcome)
    requires console.Valid()
    modifies db, console
    ensures console.Valid()
    ensures var r := AdminProductsRun(db.answer, session.Current(), old(console.lines[console.pos..]));
      outcome == r.outcome && db.log == old(db.log) + r.calls && console.pos == old(console.pos) + r.consumed
  {
    if session.userType != Text(Admin) {
      return Refused;
    }
    ghost var input := console.lines[console.pos..];
    var line := console.ReadLine();
    if line.None? {
      return Failed;
    }
    var store := line.value;
    var known := ValidStoreID(db, store);
    if !known && store != Dash {
      return Invalid;
    }
    line := console.ReadLine();
    if line.None? {
      return Failed;
    }
    var orderBy := line.value;
    line := console.ReadLine();
    if line.None? {
      return Failed;
    }
    var limit := line.value;
    assert input[..3] == [store, orderBy, limit];
    var q := AdminProductsQuery(store, orderBy, limit);
    var _ := db.RunQuery(SelectText(q));
    outcome := Done;
  }

  /** The product listing only reads, only for an administrator, and only
      for an existing store or "-". */
  lemma AdminProductsReadsOnly(answer: string -> Answer, session: Fields, input: seq<string>)
    ensures var r := AdminProductsRun(answer, session, input);
      Updates(r.calls) == [] &&
      (r.outcome == Done ==>
        HasRole(session.userType, Admin) && |input| >= 3 && StoreOrAll(answer, input[0]) &&
        r.calls[|r.calls| - 1] == Query(SelectText(AdminProductsSelect(input[0], input[1], input[2]))))
  {
    var r := AdminProductsRun(answer, session, input);
    QueriesWriteNothing(r.calls);
  }

  /** `adminEditProducts` after the store and product: the new unit count
      and price.  An empty unit count passes the integer check but does not
      parse, which ends the screen. */
  function NewValuesRun(succeeds: string -> bool, store: string, productName: string, rest: seq<string>): Run
  {
    if |rest| == 0 then Run(Failed, [], 0)
    else if rest[0] != Dash && !IsNumeral(rest[0], true) then Run(Invalid, [], 1)
    else if rest[0] == "" then Run(Failed, [], 1)
    else if |rest| == 1 then Run(Failed, [], 1)
    else if rest[1] != Dash && !IsNumeral(rest[1], false) then Run(Invalid, [], 2)
    else if rest[0] == Dash && rest[1] == Dash then Run(NoChange, [], 2)
    else
      var statement := ChangeText(Change("Product", ProductAssignments(rest[0], rest[1]), ProductFilter(store, productName)));
      Run(if succeeds(statement) then Done else Failed, [Update(statement)], 2)
  }

  /** The lookup for a product name: none for "-". */
  function ProductCalls(store: string, productName: string): seq<Call>
  {
    if productName == Dash then [] else [Query(ProductLookup(store, productName))]
  }

  /** `adminEditProducts` after the store: a product name (or "-"), checked
      against the store given, then the new values. */
  function ProductTargetRun(answer: string -> Answer, succeeds: string -> bool, store: string, rest: seq<string>): Run
  {
    if |rest| == 0 then Run(Failed, [], 0)
    else if rest[0] != Dash && !ProductExists(answer, store, rest[0]) then Run(Invalid, ProductCalls(store, rest[0]), 1)
    else After(ProductCalls(store, rest[0]), 1, NewValuesRun(succeeds, store, rest[0], rest[1..]))
  }

  /** `adminEditProducts`: the gate, a store (or "-"), then the rest. */
  function EditProductsRun(answer: string -> Answer, succeeds: string -> bool, session: Fields, input: seq<string>): Run
  {
    if !HasRole(session.userType, Admin) then Run(Refused, [], 0)
    else if |input| == 0 then Run(Failed, [], 0)
    else if !StoreOrAll(answer, input[0]) then Run(Invalid, StoreCheckCalls(input[0]), 1)
    else After(StoreCheckCalls(input[0]), 1, ProductTargetRun(answer, succeeds, input[0], input[1..]))
  }

  method EditProductValues(db: Database, console: Console, store: string, productName: string) returns (outcome: Outcome)
    requires console.Valid()
    modifies db, console
    ensures console.Valid()
    ensures var r := NewValuesRun(db.succeeds, store, productName, old(console.lines[console.pos..]));
      outcome == r.outcome && db.log == old(db.log) + r.calls && console.pos == old(console.pos) + r.consumed
  {
    ghost var input := console.lines[console.pos..];
    var line := console.ReadLine();
    if line.None? {
      return Failed;
    }
    var units := line.value;
    if units != Dash {
      var numeric := ValidNumber(units, true);
      if !numeric {
        return Invalid;
      }
      if units == "" {
        return Failed;
      }
    }
    line := console.ReadLine();
    if line.None? {
      return Failed;
    }
    var price := line.value;
    if price != Dash {
      var numeric := ValidNumber(price, false);
      if !numeric {
        return Invalid;
      }
    }
    assert input[0] == units && input[1] == price;
    var statement := EditProductsStatement(store, productName, units, price);
    if statement.None? {
      return NoChange;
    }
    var ok := db.RunUpdate(statement.value);
    outcome := if ok then Done else Failed;
  }

  method EditProductTarget(db: Database, console: Console, store: string) returns (outcome: Outcome)
    requires console.Valid()
    modifies db, console
    ensures console.Valid()
    ensures var r := ProductTargetRun(db.answer, db.succeeds, store, old(console.lines[console.pos..]));
      outcome == r.outcome && db.log == old(db.log) + r.calls && console.pos == old(console.pos) + r.consumed
  {
    ghost var input := console.lines[console.pos..];
    var line := console.ReadLine();
    if line.None? {
      return Failed;
    }
    var productName := line.value;
    if productName != Dash {
      var known := ValidProduct(db, store, productName);
      if !known {
        return Invalid;
      }
    }
    assert console.lines[console.pos..] == input[1..];
    outcome := EditProductValues(db, console, store, productName);
    ghost var r := NewValuesRun(db.succeeds, store, productName, input[1..]);
    Regroup(old(db.log), ProductCalls(store, productName), r.calls);
  }

  method AdminEditProducts(db: Database, console: Console, session: Session) returns (outcome: Outcome)
    requires console.Valid()
    modifies db, console
    ensures console.Valid()
    ensures var r := EditProductsRun(db.answer, db.succeeds, session.Current(), old(console.lines[console.pos..]));
      outcome == r.outcome && db.log == old(db.log) + r.calls && console.pos == old(console.pos) + r.consumed
  {
    if session.userType != Text(Admin) {
      return Refused;
    }
    ghost var input := console.lines[console.pos..];
    var line := console.ReadLine();
    if line.None? {
      return Failed;
    }
    var store := line.value;
    var known := ValidStoreID(db, store);
    if !known && store != Dash {
      return Invalid;
    }
    assert console.lines[console.pos..] == input[1..];
    outcome := EditProductTarget(db, console, store);
    ghost var r := ProductTargetRun(db.answer, db.succeeds, store, input[1..]);
    Regroup(old(db.log), StoreCheckCalls(store), r.calls);
  }

  /** The new values write at most one statement, only when both values
      passed and one of them is not "-". */
  lemma NewValuesWrites(succeeds: string -> bool, store: string, productName: string, rest: seq<string>)
    ensures var r := NewValuesRun(succeeds, store, productName, rest);
      |Updates(r.calls)| <= 1 &&
      (r.outcome == Done ==> Updates(r.calls) != []) &&
      (Updates(r.calls) != [] ==>
        |rest| >= 2 &&
        (rest[0] != Dash ==> IsNumeral(rest[0], true) && rest[0] != "") &&
        (rest[1] != Dash ==> IsNumeral(rest[1], false)) &&
        !(rest[0] == Dash && rest[1] == Dash) &&
        Updates(r.calls) == [ChangeText(Change("Product", ProductAssignments(rest[0], rest[1]), ProductFilter(store, productName)))])
  {
    var r := NewValuesRun(succeeds, store, productName, rest);
    if r.calls != [] {
      assert Updates(r.calls) == [r.calls[0].text];
    }
  }

  /** After the store, the editor writes at most one statement, and only
      for a product that exists in that store (or "-") and values that
      passed. */
  lemma ProductTargetWrites(answer: string -> Answer, succeeds: string -> bool, store: string, rest: seq<string>)
    ensures var r := ProductTargetRun(answer, succeeds, store, rest);
      |Updates(r.calls)| <= 1 &&
      (r.outcome == Done ==> Updates(r.calls) != []) &&
      (Updates(r.calls) != [] ==>
        |rest| >= 3 && (rest[0] != Dash ==> ProductExists(answer, store, rest[0])) &&
        (rest[1] != Dash ==> IsNumeral(rest[1], true) && rest[1] != "") &&
        (rest[2] != Dash ==> IsNumeral(rest[2], false)) &&
        !(rest[1] == Dash && rest[2] == Dash) &&
        Updates(r.calls) == [ChangeText(Change("Product", ProductAssignments(rest[1], rest[2]), ProductFilter(store, rest[0])))])
  {
    if |rest| > 0 {
      var lookups := ProductCalls(store, rest[0]);
      QueriesWriteNothing(lookups);
      NewValuesWrites(succeeds, store, rest[0], rest[1..]);
      UpdatesAppend(lookups, NewValuesRun(succeeds, store, rest[0], rest[1..]).calls);
    }
  }

  /** The product editor writes at most one statement, and only for an
      administrator whose store, product and values all passed and who
      changed something; it sets exactly the values given, on exactly the
      keys given. */
  lemma EditProductsWritesOnlyAsAdmin(answer: string -> Answer, succeeds: string -> bool, session: Fields,
    input: seq<string>)
    ensures var r := EditProductsRun(answer, succeeds, session, input);
      |Updates(r.calls)| <= 1 &&
      (r.outcome == Done ==> Updates(r.calls) != []) &&
      (Updates(r.calls) != [] ==>
        HasRole(session.userType, Admin) && |input| >= 4 && StoreOrAll(answer, input[0]) &&
        (input[1] != Dash ==> ProductExists(answer, input[0], input[1])) &&
        (input[2] != Dash ==> IsNumeral(input[2], true) && input[2] != "") &&
        (input[3] != Dash ==> IsNumeral(input[3], false)) &&
        !(input[2] == Dash && input[3] == Dash) &&
        Updates(r.calls) ==
          [ChangeText(Change("Product", ProductAssignments(input[2], input[3]), ProductFilter(input[0], input[1])))])
  {
    if HasRole(session.userType, Admin) && |input| > 0 && StoreOrAll(answer, input[0]) {
      StoreCheckWritesNothing(input[0]);
      var rest := input[1..];
      ProductTargetWrites(answer, succeeds, input[0], rest);
      if |rest| >= 3 {
        assert rest[0] == input[1] && rest[1] == input[2] && rest[2] == input[3];
      }
      UpdatesAppend(StoreCheckCalls(input[0]), ProductTargetRun(answer, succeeds, input[0], rest).calls);
    }
  }
}
