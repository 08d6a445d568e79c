/** The console client's two nested menus: the main menu, which logs a user
    in or closes the client, and the user menu, which runs one operation per
    choice until the user logs out or deletes their own account. */
module Menu {
  import opened Common
  import opened Backend
  import opened Sql
  import opened Authorization
  import opened Accounts
  import opened Outcomes
  import opened CustomerOperations
  import opened ManagerOperations
  import opened AdminOperations

  /** Which loop the client is in: the main menu, the user menu of the name
      `LogIn` returned, or neither, once the client has been closed. */
  datatype Screen = MainMenu | UserMenu(user: string) | Closed

  const LoginChoice: int := 2
  const ExitChoice: int := 9
  const LogoutChoice: int := 0
  const DeleteChoice: int := 99

  /** Where a main-menu choice leads: 9 closes the client, and the user menu
      is entered exactly when the choice was 2 and `LogIn` returned a name. */
  function AfterMainChoice(choice: int, login: Option<string>): Screen
  {
    if choice == ExitChoice then Closed
    else if choice == LoginChoice && login.Some? then UserMenu(login.value)
    else MainMenu
  }

  /** Where a user-menu choice leads: 0 logs out, 99 logs out exactly when
      the account was deleted, and every other choice stays. */
  function AfterUserChoice(user: string, choice: int, deleted: bool): Screen
  {
    if choice == LogoutChoice || (choice == DeleteChoice && deleted) then MainMenu
    else UserMenu(user)
  }

  /** The run of the user-menu operation a choice selects, for the
      operations this model covers; `None` for the others. */
  function OperationRun(answer: string -> Answer, succeeds: string -> bool, numerics: Numerics, f: Fields,
    choice: int, input: seq<string>): Option<Run>
  {
    if choice < 8 then OverviewRun(answer, f, choice, input)
    else if choice < 15 then StockRun(answer, succeeds, f, choice, input)
    else if choice < 17 then CustomerReportRun(answer, f, choice, input)
    else AdminRun(answer, succeeds, numerics, f, choice, input)
  }

  function OverviewRun(answer: string -> Answer, f: Fields, choice: int, input: seq<string>): Option<Run>
  {
    if choice == 5 then Some(FavoriteProductsRun(answer, f, input))
    else if choice == 7 then Some(ManagedStoresRun(f))
    else None
  }

  function StockRun(answer: string -> Answer, succeeds: string -> bool, f: Fields, choice: int, input: seq<string>): Option<Run>
  {
    if choice == 8 then Some(UpdateProductRun(answer, succeeds, f, input))
    else if choice == 13 then Some(SupplyRequestsRun(answer, f, input))
    else None
  }

  function CustomerReportRun(answer: string -> Answer, f: Fields, choice: int, input: seq<string>): Option<Run>
  {
    if choice == 15 then Some(StoreCustomersRun(answer, f, input))
    else if choice == 16 then Some(TopSpendersRun(answer, f, input))
    else None
  }

  /** The administrator screens.  Choice 17 runs the user listing as the
      client has it, bound check inverted; the corrected listing is
      `AdminOperations.AdminViewUsersCorrected`. */
  function AdminRun(answer: string -> Answer, succeeds: string -> bool, numerics: Numerics, f: Fields,
    choice: int, input: seq<string>): Option<Run>
  {
    if choice == 17 then Some(UsersRun(f, input, true))
    else if choice == 18 then Some(EditUsersRun(answer, succeeds, numerics, f, input))
    else if choice == 19 then Some(AdminProductsRun(answer, f, input))
    else if choice == 20 then Some(EditProductsRun(answer, succeeds, f, input))
    else if choice == 21 then Some(ViewEverythingRun(f, input))
    else None
  }

  /** Every gated operation turns a session without its role away before
      it reads a line or sends a query. */
  lemma GatesComeFirst(answer: string -> Answer, succeeds: string -> bool, numerics: Numerics, f: Fields,
    choice: int, input: seq<string>)
    requires OperationRun(answer, succeeds, numerics, f, choice, input).Some?
    requires RequiredRole(choice).Some? && !HasRole(f.userType, RequiredRole(choice).value)
    ensures OperationRun(answer, succeeds, numerics, f, choice, input) == Some(Run(Refused, [], 0))
  {
  }

  /** Dispatches a choice up to 7: the favourite products and the managed stores. */
  method RunOverview(db: Database, console: Console, session: Session, choice: int)
    returns (outcome: Option<Outcome>)
    requires console.Valid() && session.userType.Text? && choice < 8
    modifies db, console
    ensures console.Valid()
    ensures var input := console.lines[old(console.pos)..];
      var run := OverviewRun(db.answer, session.Current(), choice, input);
      (outcome.Some? <==> run.Some?) &&
      (run.Some? ==>
        outcome.value == run.value.outcome && db.log == old(db.log) + run.value.calls &&
        console.pos == old(console.pos) + run.value.consumed)
  {
    var o: Outcome;
    if choice == 5 {
      o := ViewFavoriteProducts(db, console, session);
    } else if choice == 7 {
      // The console is left alone: it is not the connection.
      assert console as object != db as object;
      o := ManagerViewStores(db, session);
    } else {
      return None;
    }
    outcome := Some(o);
  }

  /** Dispatches a choice from 8 to 14: the product update and the supply requests. */
  method RunStockOperation(db: Database, console: Console, session: Session, choice: int)
    returns (outcome: Option<Outcome>)
    requires console.Valid() && session.userType.Text? && 8 <= choice < 15
    modifies db, console
    ensures console.Valid()
    ensures var input := console.lines[old(console.pos)..];
      var run := StockRun(db.answer, db.succeeds, session.Current(), choice, input);
      (outcome.Some? <==> run.Some?) &&
      (run.Some? ==>
        outcome.value == run.value.outcome && db.log == old(db.log) + run.value.calls &&
        console.pos == old(console.pos) + run.value.consumed)
  {
    var o: Outcome;
    if choice == 8 {
      o := UpdateProduct(db, console, session);
    } else if choice == 13 {
      o := ViewSupplyRequests(db, console, session);
    } else {
      return None;
    }
    outcome := Some(o);
  }

  /** Dispatches a choice 15 or 16: the store customers and the top spenders. */
  method RunCustomerReport(db: Database, console: Console, session: Session, choice: int)
    returns (outcome: Option<Outcome>)
    requires console.Valid() && session.userType.Text? && 15 <= choice < 17
    modifies db, console
    ensures console.Valid()
    ensures var input := console.lines[old(console.pos)..];
      var run := CustomerReportRun(db.answer, session.Current(), choice, input);
      (outcome.Some? <==> run.Some?) &&
      (run.Some? ==>
        outcome.value == run.value.outcome && db.log == old(db.log) + run.value.calls &&
        console.pos == old(console.pos) + run.value.consumed)
  {
    var o: Outcome;
    if choice == 15 {
      o := ViewStoreCustomers(db, console, session);
    } else {
      o := ViewTopSpenders(db, console, session);
    }
    outcome := Some(o);
  }

  /** Dispatches a choice of the administrator column (17 and above). */
  method RunAdminOperation(db: Database, console: Console, session: Session, numerics: Numerics, choice: int)
    returns (outcome: Option<Outcome>)
    requires console.Valid() && session.userType.Text? && choice >= 17
    modifies db, console
    ensures console.Valid()
    ensures var input := console.lines[old(console.pos)..];
      var run := AdminRun(db.answer, db.succeeds, numerics, session.Current(), choice, input);
      (outcome.Some? <==> run.Some?) &&
      (run.Some? ==>
        outcome.value == run.value.outcome && db.log == old(db.log) + run.value.calls &&
        console.pos == old(console.pos) + run.value.consumed)
  {
    var o: Outcome;
    if choice == 17 {
      o := AdminViewUsers(db, console, session);
    } else if choice == 18 {
      o := AdminEditUsers(db, console, session, numerics);
    } else if choice == 19 {
      o := AdminViewProducts(db, console, session);
    } else if choice == 20 {
      o := AdminEditProducts(db, console, session);
    } else if choice == 21 {
      o := ViewEverything(db, console, session);
    } else {
      return None;
    }
    outcome := Some(o);
  }

  /** The one-line console client.  `screen` is the loop it is in; while it
      is in a user menu the session holds that user's name and a type. */
  class Client {
    const db: Database
    const console: Console
    const session: Session
    const numerics: Numerics
    var screen: Screen

    ghost predicate Valid()
      reads this, console, session
    {
      console.Valid() &&
      (screen.UserMenu? ==> session.username == Text(screen.user) && session.userType.Text?)
    }

    /** The client starts at the main menu with an empty session. */
    constructor (db: Database, console: Console, numerics: Numerics)
      requires console.Valid()
      ensures Valid()
      ensures this.db == db && this.console == console && this.numerics == numerics
      ensures screen == MainMenu && session.Current() == NoSession
    {
      this.db := db;
      this.console := console;
      this.numerics := numerics;
      session := new Session();
      screen := MainMenu;
    }

    /** One main-menu choice.  Choice 2 runs `LogIn` and enters the user
        menu of the name it returns; 9 closes the client; any other choice
        leaves the session and the screen as they were. */
    method MainChoice(choice: int)
      requires Valid() && screen == MainMenu
      modifies this, db, console, session
      ensures Valid()
      ensures choice == LoginChoice ==>
        var input := console.lines[old(console.pos)..];
        var login := LoginResult(db.answer, input, old(session.Current()));
        screen == AfterMainChoice(choice, login.0) && session.Current() == login.1 &&
        db.log == old(db.log) + LoginCalls(db.answer, input) &&
        console.pos == old(console.pos) + LoginReads(db.answer, input)
      ensures choice != LoginChoice ==>
        screen == AfterMainChoice(choice, None) && session.Current() == old(session.Current())
      ensures choice != LoginChoice && choice != 1 ==> db.log == old(db.log) && console.pos == old(console.pos)
    {
      if choice == LoginChoice {
        ghost var input := console.lines[console.pos..];
        ghost var before := session.Current();
        var user := LogIn(db, console, session);
        if user.Some? {
          LoginNeedsCredentials(db.answer, input, before);
          screen := UserMenu(user.value);
        }
      } else if choice == ExitChoice {
        screen := Closed;
      }
    }

    /** One user-menu choice: the operation it selects runs on the session
        as it stands, 0 logs out and 99 logs out when `deleteAccount`
        removed the account.  The session is never changed here. */
    method UserChoice(choice: int) returns (outcome: Option<Outcome>)
      requires Valid() && screen.UserMenu?
      modifies this, db, console
      ensures Valid()
      ensures var input := console.lines[old(console.pos)..];
        var run := OperationRun(db.answer, db.succeeds, numerics, session.Current(), choice, input);
        (outcome.Some? <==> run.Some?) &&
        (run.Some? ==>
          outcome.value == run.value.outcome && db.log == old(db.log) + run.value.calls &&
          console.pos == old(console.pos) + run.value.consumed)
      ensures choice == DeleteChoice ==>
        var deleted := AccountDeleted(db.answer, db.succeeds, session.Current(), console.lines[old(console.pos)..]);
        screen == AfterUserChoice(old(screen).user, choice, deleted)
      ensures choice != DeleteChoice ==> screen == AfterUserChoice(old(screen).user, choice, false)
      ensures choice == LogoutChoice ==> db.log == old(db.log) && console.pos == old(console.pos)
    {
      if choice == LogoutChoice {
        screen := MainMenu;
        outcome := None;
      } else if choice == DeleteChoice {
        var deleted := DeleteAccount(db, console, session);
        if deleted {
          screen := MainMenu;
        }
        outcome := None;
      } else if choice < 8 {
        outcome := RunOverview(db, console, session, choice);
      } else if choice < 15 {
        outcome := RunStockOperation(db, console, session, choice);
      } else if choice < 17 {
        outcome := RunCustomerReport(db, console, session, choice);
      } else {
        outcome := RunAdminOperation(db, console, session, numerics, choice);
      }
    }

    /** The two nested loops over a sequence of menu choices, each choice
        going to the menu the client is in; it stops once the client is
        closed, which only the main menu's 9 does. */
    method Operate(choices: seq<int>) returns (handled: nat)
      requires Valid() && screen != Closed
      modifies this, db, console, session
      ensures Valid()
      ensures handled <= |choices|
      ensures handled < |choices| ==> screen == Closed
      ensures screen == Closed ==> handled > 0 && choices[handled - 1] == ExitChoice
    {
      handled := 0;
      while handled < |choices| && screen != Closed
        invariant Valid()
        invariant handled <= |choices|
        invariant screen == Closed ==> handled > 0 && choices[handled - 1] == ExitChoice
        decreases |choices| - handled
      {
        if screen == MainMenu {
          MainChoice(choices[handled]);
        } else {
          var _ := UserChoice(choices[handled]);
        }
        handled := handled + 1;
      }
    }
  }
}
