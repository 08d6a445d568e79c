/** Who may run what: the role gates on `current_userType` and the
    ownership check that ties a manager to the stores they manage. */
module Authorization {
  import opened Common
  import opened Backend

  const Customer: string := "customer"
  const Manager: string := "manager"
  const Admin: string := "admin"

  /** The roles a user record may carry. */
  predicate IsRole(s: string)
  {
    s == Customer || s == Manager || s == Admin
  }

  /** The gate `current_userType.equals(role)`: the session holds exactly
      that role; a session without a type holds none. */
  predicate HasRole(userType: Cell, role: string)
  {
    userType == Text(role)
  }

  /** The role a user-menu choice demands before it reads any input:
      choices 7 to 16 are for managers, 17 to 23 for administrators, the
      others for every user. */
  function RequiredRole(choice: int): (r: Option<string>)
    ensures r.Some? ==> IsRole(r.value) && r.value != Customer
  {
    if 7 <= choice <= 16 then Some(Manager)
    else if 17 <= choice <= 23 then Some(Admin)
    else None
  }

  /** No session passes two different gates, so manager and administrator
      operations are disjoint. */
  lemma GatesExclusive(userType: Cell, c1: int, c2: int)
    requires RequiredRole(c1).Some? && RequiredRole(c2).Some?
    requires RequiredRole(c1) != RequiredRole(c2)
    ensures !(HasRole(userType, RequiredRole(c1).value) && HasRole(userType, RequiredRole(c2).value))
  {
  }

  /** The manager of a store, as `SELECT Store.managerID ...` reads it. */
  function ManagerLookup(store: string): string
  {
    ManagerLookupPrefix + store
  }

  const ManagerLookupPrefix: string := "SELECT Store.managerID FROM Store WHERE Store.storeID = "

  /** The ownership verdict: the store's manager is the session's user, it
      is someone else, or the check threw (no such row, a failed lookup, or
      no user id in the session). */
  datatype Ownership = Owner | OtherManager | Unreadable

  /** `current_userID.equals(managerID)` after `get(0).get(0)` of the
      lookup: a missing row throws, a SQL NULL manager equals nobody. */
  function OwnershipOf(answer: string -> Answer, userID: Cell, store: string): Ownership
  {
    match FirstCell(answer(ManagerLookup(store)))
    case None => Unreadable
    case Some(manager) => if userID.Null? then Unreadable else if manager == userID then Owner else OtherManager
  }

  /** A user owns a store exactly when the store's first manager cell is
      that user's id; a store whose manager is NULL has no owner. */
  lemma OwnerIffManagerIsUser(answer: string -> Answer, userID: Cell, store: string)
    ensures OwnershipOf(answer, userID, store) == Owner <==>
      userID.Text? && FirstCell(answer(ManagerLookup(store))) == Some(userID)
    ensures FirstCell(answer(ManagerLookup(store))) == Some(Null) ==> OwnershipOf(answer, userID, store) != Owner
  {
  }

  /** Two different users never both own the same store. */
  lemma OwnerIsUnique(answer: string -> Answer, u1: Cell, u2: Cell, store: string)
    requires OwnershipOf(answer, u1, store) == Owner && OwnershipOf(answer, u2, store) == Owner
    ensures u1 == u2
  {
  }

  /** The lookup and comparison at the head of every per-store manager
      operation. */
  method CheckOwnership(db: Database, userID: Cell, store: string) returns (o: Ownership)
    modifies db
    ensures o == OwnershipOf(db.answer, userID, store)
    ensures db.log == old(db.log) + [Query(ManagerLookup(store))]
  {
    var a := db.RunQuery(ManagerLookup(store));
    if !(a.Rows? && |a.rows| > 0 && |a.rows[0]| > 0) {
      return Unreadable;
    }
    var manager := a.rows[0][0];
    if userID.Null? {
      return Unreadable;
    }
    o := if userID == manager then Owner else OtherManager;
  }
}
