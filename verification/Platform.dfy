/** What the services share: users and roles, conversations, HTTP outcomes, row lookup. */
module Platform {

  datatype Option<+T> = None | Some(value: T)

  type UserId = nat

  /** An order id handed out by the payment provider. */
  type OrderId = nat

  /** Milliseconds. */
  type Time = int

  const DAY: Time := 24 * 60 * 60 * 1000

  datatype Role =
    | ProspectiveTenant | CurrentTenant | Landlord | PropertyManager | Lender | Employer
    | StaffModerator | Administrator | SuperAdministrator

  datatype Actor = Actor(id: UserId, role: Role)

  predicate IsTenant(r: Role) { r.ProspectiveTenant? || r.CurrentTenant? }

  predicate OwnTenantScoped(r: Role) { r.Landlord? || r.PropertyManager? }

  predicate PlatformWide(r: Role) { r.Administrator? || r.SuperAdministrator? }

  predicate IsStaff(r: Role) { r.StaffModerator? || PlatformWide(r) }

  /** A property: who owns it, and who is assigned to manage it, in order of assignment. */
  datatype Site = Site(owner: UserId, managers: seq<UserId>, active: bool)

  predicate Manages(s: Site, user: UserId) { s.owner == user || user in s.managers }

  /** Staff, the owner and the assigned managers. */
  predicate MayManage(s: Site, actor: Actor) { IsStaff(actor.role) || Manages(s, actor.id) }

  /** The two parties of a conversation never change; rows are only added. */
  datatype Conversation = Conversation(tenant: UserId, landlord: UserId)

  datatype Status = Okay | NotFound | Forbidden | BadRequest

  /** A handler either reaches a new database state or refuses and changes nothing. */
  datatype Outcome<+D> = Done(db: D) | Refused(status: Status)

  function After<D>(o: Outcome<D>, before: D): D {
    match o
    case Done(db) => db
    case Refused(_) => before
  }

  function Reply<D>(o: Outcome<D>): Status {
    match o
    case Done(_) => Okay
    case Refused(s) => s
  }

  /** One row of a table became `r`, and no other changed. */
  predicate OnlyRow<R(==)>(before: seq<R>, after: seq<R>, id: nat, r: R) {
    id < |before| && |after| == |before| && forall k :: 0 <= k < |before| ==> after[k] == if k == id then r else before[k]
  }

  /** The first row a query selects. */
  function FindFirst<R>(rows: seq<R>, selects: R -> bool): (k: Option<nat>)
    ensures k.Some? ==> k.value < |rows| && selects(rows[k.value]) && forall j :: 0 <= j < k.value ==> !selects(rows[j])
    ensures k.None? ==> forall j :: 0 <= j < |rows| ==> !selects(rows[j])
  {
    if rows == [] then None
    else if selects(rows[0]) then Some(0)
    else
      var k := FindFirst(rows[1..], selects);
      assert forall j :: 0 < j < |rows| ==> rows[j] == rows[1..][j - 1];
      if k.None? then None else Some(k.value + 1)
  }

  /** The newest row a query selects: rows are kept in order of creation. */
  function FindLast<R>(rows: seq<R>, selects: R -> bool): (k: Option<nat>)
    ensures k.Some? ==> k.value < |rows| && selects(rows[k.value]) && forall j :: k.value < j < |rows| ==> !selects(rows[j])
    ensures k.None? ==> forall j :: 0 <= j < |rows| ==> !selects(rows[j])
  {
    if rows == [] then None
    else if selects(rows[|rows| - 1]) then Some(|rows| - 1)
    else FindLast(rows[..|rows| - 1], selects)
  }
}
