/** The logged-in session and the two operations that touch accounts:
    `LogIn`, which loads the five session fields one lookup at a time, and
    `deleteAccount`, which removes the session's own user record. */
module Accounts {
  import opened Common
  import opened Backend
  import opened Existence
  import opened Authorization

  /** The values of the five session fields. */
  datatype Fields = Fields(userID: Cell, username: Cell, latitude: Cell, longitude: Cell, userType: Cell)

  const NoSession: Fields := Fields(Null, Null, Null, Null, Null)

  /** The static fields `current_userID`, `current_username`,
      `current_userLat`, `current_userLong` and `current_userType`. */
  class Session {
    var userID: Cell
    var username: Cell
    var latitude: Cell
    var longitude: Cell
    var userType: Cell

    function Current(): Fields
      reads this
    {
      Fields(userID, username, latitude, longitude, userType)
    }

    /** Before anyone logs in every field is `null`. */
    constructor ()
      ensures Current() == NoSession
    {
      userID, username, latitude, longitude, userType := Null, Null, Null, Null, Null;
    }
  }

  /** The lookups LogIn sends once the credentials check out, one column at
      a time, each scoped to the name and the password. */
  function AccountQuery(column: string, name: string, password: string): string
  {
    "SELECT " + column + " FROM USERS WHERE name = '" + name + "' AND password = '" + password + "'"
  }

  /** The first cell of an account lookup, `None` when `get(0).get(0)` throws. */
  function AccountCell(answer: string -> Answer, column: string, name: string, password: string): Option<Cell>
  {
    FirstCell(answer(AccountQuery(column, name, password)))
  }

  /** The four column lookups after the count, starting from `before`: the
      id, the latitude, the longitude and the trimmed type, each assigned only
      if every lookup before it went through; `true` when all did. */
  function ColumnsLoaded(answer: string -> Answer, name: string, password: string, before: Fields): (bool, Fields)
  {
    var id := AccountCell(answer, "userID", name, password);
    if id.None? then (false, before)
    else
      var f2 := before.(userID := id.value);
      var lat := AccountCell(answer, "latitude", name, password);
      if lat.None? then (false, f2)
      else
        var f3 := f2.(latitude := lat.value);
        var long := AccountCell(answer, "longitude", name, password);
        if long.None? then (false, f3)
        else
          var f4 := f3.(longitude := long.value);
          var kind := AccountCell(answer, "type", name, password);
          if kind.None? || kind.value.Null? then (false, f4)
          else (true, f4.(userType := Text(Trim(kind.value.s))))
  }

  /** The column lookups sent: the next one only when the previous one did
      not throw. */
  function ColumnCalls(answer: string -> Answer, name: string, password: string): seq<Call>
  {
    var all := [Query(AccountQuery("userID", name, password)), Query(AccountQuery("latitude", name, password)),
                Query(AccountQuery("longitude", name, password)), Query(AccountQuery("type", name, password))];
    if AccountCell(answer, "userID", name, password).None? then all[..1]
    else if AccountCell(answer, "latitude", name, password).None? then all[..2]
    else if AccountCell(answer, "longitude", name, password).None? then all[..3]
    else all
  }

  /** What loading the session leaves behind, starting from `before`: the
      counted lookup, then the name and the four columns; the login succeeds
      when every lookup went through and the count is not zero. */
  function LoadAccount(answer: string -> Answer, name: string, password: string, before: Fields): (Option<string>, Fields)
  {
    var count := answer(AccountQuery("*", name, password));
    if count.Raised? then (None, before)
    else
      var loaded := ColumnsLoaded(answer, name, password, before.(username := Text(name)));
      (if loaded.0 && |count.rows| > 0 then Some(name) else None, loaded.1)
  }

  /** The lookups loading the session sends. */
  function LoadCalls(answer: string -> Answer, name: string, password: string): seq<Call>
  {
    [Query(AccountQuery("*", name, password))] +
    (if answer(AccountQuery("*", name, password)).Raised? then [] else ColumnCalls(answer, name, password))
  }

  /** The name and password typed, when the name is a user and the
      password is that user's. */
  function Credentials(answer: string -> Answer, input: seq<string>): Option<(string, string)>
  {
    if |input| < 2 || !UsernameExists(answer, input[0]) || !PasswordMatches(answer, input[0], input[1]) then None
    else Some((input[0], input[1]))
  }

  /** The two checks' lookups: the password is looked up only for a name
      that exists.  A missing line is looked up as the text "null"; the
      check then answers false, from no row or from the exception its
      comparison raises, which it catches. */
  function CredentialCalls(answer: string -> Answer, input: seq<string>): seq<Call>
  {
    if |input| == 0 then [Query(UsernameLookup(NullText))]
    else if !UsernameExists(answer, input[0]) then [Query(UsernameLookup(input[0]))]
    else if |input| == 1 then [Query(UsernameLookup(input[0])), Query(PasswordLookup(input[0], NullText))]
    else [Query(UsernameLookup(input[0])), Query(PasswordLookup(input[0], input[1]))]
  }

  /** The outcome of LogIn on the remaining input lines: a name that is not
      a user, or a wrong password, ends it before the session is touched. */
  function LoginResult(answer: string -> Answer, input: seq<string>, before: Fields): (Option<string>, Fields)
  {
    var creds := Credentials(answer, input);
    if creds.None? then (None, before) else LoadAccount(answer, creds.value.0, creds.value.1, before)
  }

  function LoginCalls(answer: string -> Answer, input: seq<string>): seq<Call>
  {
    var creds := Credentials(answer, input);
    CredentialCalls(answer, input) + (if creds.None? then [] else LoadCalls(answer, creds.value.0, creds.value.1))
  }

  /** How many input lines LogIn consumes. */
  function LoginReads(answer: string -> Answer, input: seq<string>): nat
  {
    if |input| == 0 then 0 else if !UsernameExists(answer, input[0]) || |input| == 1 then 1 else 2
  }

  /** A login succeeds only for an existing name with its password and a
      non-empty account count, and then the session holds that name, the
      looked-up id, coordinates and trimmed type. */
  lemma LoginNeedsCredentials(answer: string -> Answer, input: seq<string>, before: Fields)
    requires LoginResult(answer, input, before).0.Some?
    ensures |input| >= 2 && UsernameExists(answer, input[0]) && PasswordMatches(answer, input[0], input[1])
    ensures LoginResult(answer, input, before).0 == Some(input[0])
    ensures var count := answer(AccountQuery("*", input[0], input[1])); count.Rows? && |count.rows| > 0
    ensures var f := LoginResult(answer, input, before).1;
      f.username == Text(input[0]) && Some(f.userID) == AccountCell(answer, "userID", input[0], input[1]) &&
      Some(f.latitude) == AccountCell(answer, "latitude", input[0], input[1]) &&
      Some(f.longitude) == AccountCell(answer, "longitude", input[0], input[1]) &&
      f.userType.Text? && IsTrimmed(f.userType.s)
  {
  }

  /** LogIn is not atomic: when the id lookup throws after the name was
      stored, LogIn reports failure yet the session keeps the new name
      beside whatever the previous session held. */
  lemma LoginNotAtomic(answer: string -> Answer, name: string, password: string, before: Fields)
    requires UsernameExists(answer, name) && PasswordMatches(answer, name, password)
    requires answer(AccountQuery("*", name, password)).Rows?
    requires AccountCell(answer, "userID", name, password).None?
    ensures LoginResult(answer, [name, password], before) == (None, before.(username := Text(name)))
  {
  }

  /** A failed login touches the user type only when the count found no
      account, so a session whose type changed belongs to the user named. */
  lemma FailedLoginKeepsType(answer: string -> Answer, input: seq<string>, before: Fields)
    requires LoginResult(answer, input, before).0.None?
    requires LoginResult(answer, input, before).1.userType != before.userType
    ensures |input| >= 2
    ensures var count := answer(AccountQuery("*", input[0], input[1])); count.Rows? && |count.rows| == 0
    ensures LoginResult(answer, input, before).1.username == Text(input[0])
  {
  }

  /** Running out of input leaves the session as it was and returns no
      user; the missing line is still looked up, as the name "null" or as
      the password "null" of the name typed. */
  lemma LoginEndOfInput(answer: string -> Answer, name: string, before: Fields)
    ensures LoginResult(answer, [], before) == (None, before)
    ensures LoginCalls(answer, []) == [Query(UsernameLookup("null"))] && LoginReads(answer, []) == 0
    ensures LoginResult(answer, [name], before) == (None, before)
    ensures UsernameExists(answer, name) ==>
      LoginCalls(answer, [name]) == [Query(UsernameLookup(name)), Query(PasswordLookup(name, "null"))] &&
      LoginReads(answer, [name]) == 1
  {
    assert [Query(UsernameLookup(NullText))] + [] == [Query(UsernameLookup("null"))];
    assert [Query(UsernameLookup(name)), Query(PasswordLookup(name, NullText))] + [] ==
      [Query(UsernameLookup(name)), Query(PasswordLookup(name, "null"))];
  }

  /** The four column assignments of `LogIn`, stopping at the first lookup
      that throws. */
  method LoadColumns(db: Database, session: Session, name: string, password: string) returns (ok: bool)
    modifies db, session
    ensures (ok, session.Current()) == ColumnsLoaded(db.answer, name, password, old(session.Current()))
    ensures db.log == old(db.log) + ColumnCalls(db.answer, name, password)
  {
    var a := db.RunQuery(AccountQuery("userID", name, password));
    if FirstCell(a).None? {
      return false;
    }
    session.userID := FirstCell(a).value;
    a := db.RunQuery(AccountQuery("latitude", name, password));
    if FirstCell(a).None? {
      return false;
    }
    session.latitude := FirstCell(a).value;
    a := db.RunQuery(AccountQuery("longitude", name, password));
    if FirstCell(a).None? {
      return false;
    }
    session.longitude := FirstCell(a).value;
    a := db.RunQuery(AccountQuery("type", name, password));
    if FirstCell(a).None? || FirstCell(a).value.Null? {
      return false;
    }
    session.userType := Text(Trim(FirstCell(a).value.s));
    ok := true;
  }

  /** The second half of `LogIn`: the counted lookup, the name, then the
      columns. */
  method LoadSession(db: Database, session: Session, name: string, password: string) returns (user: Option<string>)
    modifies db, session
    ensures (user, session.Current()) == LoadAccount(db.answer, name, password, old(session.Current()))
    ensures db.log == old(db.log) + LoadCalls(db.answer, name, password)
  {
    var count := db.RunQuery(AccountQuery("*", name, password));
    if count.Raised? {
      return None;
    }
    var userNum := |count.rows|;
    session.username := Text(name);
    var ok := LoadColumns(db, session, name, password);
    assert db.log == old(db.log) + [Query(AccountQuery("*", name, password))] + ColumnCalls(db.answer, name, password);
    user := if ok && userNum > 0 then Some(name) else None;
  }

  /** The first half of `LogIn`: reads a name and checks it, then reads a
      password and checks it.  Running out of input ends it with no result,
      after the lookup of the text "null". */
  method CheckCredentials(db: Database, console: Console) returns (creds: Option<(string, string)>)
    requires console.Valid()
    modifies db, console
    ensures console.Valid()
    ensures var input := console.lines[old(console.pos)..];
      creds == Credentials(db.answer, input) &&
      db.log == old(db.log) + CredentialCalls(db.answer, input) &&
      console.pos == old(console.pos) + LoginReads(db.answer, input)
  {
    ghost var input := console.lines[console.pos..];
    var line := console.ReadLine();
    if line.None? {
      var _ := db.RunQuery(UsernameLookup(NullText));
      return None;
    }
    var name := line.value;
    var known := ValidUsername(db, name);
    if !known {
      return None;
    }
    line := console.ReadLine();
    if line.None? {
      var _ := db.RunQuery(PasswordLookup(name, NullText));
      return None;
    }
    var password := line.value;
    var matches := ValidPassword(db, name, password);
    if !matches {
      return None;
    }
    assert input[0] == name && input[1] == password;
    creds := Some((name, password));
  }

  /** `LogIn`: checks the credentials, then assigns the session fields one
      lookup at a time. */
  method LogIn(db: Database, console: Console, session: Session) returns (user: Option<string>)
    requires console.Valid()
    modifies db, console, session
    ensures console.Valid()
    ensures var input := console.lines[old(console.pos)..];
      (user, session.Current()) == LoginResult(db.answer, input, old(session.Current())) &&
      db.log == old(db.log) + LoginCalls(db.answer, input) &&
      console.pos == old(console.pos) + LoginReads(db.answer, input)
  {
    ghost var input := console.lines[console.pos..];
    var creds := CheckCredentials(db, console);
    if creds.None? {
      return None;
    }
    user := LoadSession(db, session, creds.value.0, creds.value.1);
    Regroup(old(db.log), CredentialCalls(db.answer, input), LoadCalls(db.answer, creds.value.0, creds.value.1));
  }

  /** The statement removing the session's own user record. */
  function DeleteStatement(userID: Cell): string
  {
    "DELETE FROM Users WHERE Users.userID = " + Show(userID)
  }

  /** Whether `deleteAccount` removes the account of the session `f` on the
      remaining input lines: never for a manager or a session without a
      type, and otherwise when the password typed is the user's and the
      deletion executes. */
  predicate AccountDeleted(answer: string -> Answer, succeeds: string -> bool, f: Fields, input: seq<string>)
  {
    f.userType.Text? && f.userType != Text(Manager) && |input| > 0 &&
    PasswordMatches(answer, Show(f.username), input[0]) && succeeds(DeleteStatement(f.userID))
  }

  /** `deleteAccount`: a manager, or a session without a type, is refused
      before any input is read; otherwise the password is asked again and
      the session's record deleted when it matches.  With no line left the
      password "null" is looked up and the check answers false.  The result
      is true exactly when the deletion went through. */
  method DeleteAccount(db: Database, console: Console, session: Session) returns (deleted: bool)
    requires console.Valid()
    modifies db, console
    ensures console.Valid()
    ensures deleted == AccountDeleted(db.answer, db.succeeds, session.Current(), old(console.lines[console.pos..]))
    ensures var k := old(console.pos);
      if session.userType.Null? || HasRole(session.userType, Manager) then
        !deleted && db.log == old(db.log) && console.pos == k
      else if k == |console.lines| then
        !deleted && db.log == old(db.log) + [Query(PasswordLookup(Show(session.username), NullText))] && console.pos == k
      else
        var password := console.lines[k];
        console.pos == k + 1 &&
        if PasswordMatches(db.answer, Show(session.username), password) then
          deleted == db.succeeds(DeleteStatement(session.userID)) &&
          db.log == old(db.log) + [Query(PasswordLookup(Show(session.username), password)), Update(DeleteStatement(session.userID))]
        else
          !deleted && db.log == old(db.log) + [Query(PasswordLookup(Show(session.username), password))]
  {
    if session.userType.Null? || session.userType == Text(Manager) {
      return false;
    }
    var line := console.ReadLine();
    if line.None? {
      var _ := db.RunQuery(PasswordLookup(Show(session.username), NullText));
      return false;
    }
    var matches := ValidPassword(db, Show(session.username), line.value);
    if !matches {
      return false;
    }
    deleted := db.RunUpdate(DeleteStatement(session.userID));
  }
}
