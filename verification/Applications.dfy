/** Rental applications: started, paid when there is a fee, submitted, decided, reopened. */
module Applications {
  import opened Platform

  datatype AppStatus = Started | Submitted | UnderReview | Approved | Denied | Withdrawn

  datatype Application = Application(
    conversation: nat, tenant: UserId, fee: Option<nat>, status: AppStatus, order: Option<OrderId>, paidAt: Option<Time>)

  /** Rows are unique on their conversation. */
  datatype AppRequest =
    | CreateOrGet(actor: Actor, conversation: nat, fee: Option<nat>)
    | Update(actor: Actor, conversation: nat)
    | Pay(actor: Actor, conversation: nat, order: OrderId)
    | Submit(actor: Actor, conversation: nat)
    | Withdraw(actor: Actor, conversation: nat)
    | MarkUnderReview(actor: Actor, id: nat)
    | Decide(actor: Actor, id: nat, approve: bool)

  type Table = seq<Application>

  function Of(conversation: nat): Application -> bool { (a: Application) => a.conversation == conversation }

  /** getOwnedByTenant */
  function TenantRefusal(convs: seq<Conversation>, actor: Actor, c: nat): Option<Status> {
    if c >= |convs| then Some(NotFound)
    else if convs[c].tenant != actor.id then Some(Forbidden)
    else None
  }

  predicate HasFee(a: Application) { a.fee.Some? && a.fee.value > 0 }

  predicate Reopenable(s: AppStatus) { s == Started || s == Withdrawn || s == Denied }

  predicate AwaitsDecision(s: AppStatus) { s == Submitted || s == UnderReview }

  /** assertCanDecide */
  predicate CanDecide(convs: seq<Conversation>, actor: Actor, a: Application) {
    IsStaff(actor.role) || (a.conversation < |convs| && convs[a.conversation].landlord == actor.id)
  }

  function SetRow(t: Table, k: nat, a: Application): Outcome<Table>
    requires k < |t|
  {
    Done(t[k := a])
  }

  /** A request of the tenant on the application of a conversation. */
  function TenantStep(t: Table, k: nat, r: AppRequest): Outcome<Table>
    requires k < |t|
  {
    var a := t[k];
    match r
    case CreateOrGet(_, _, _) => Done(t)
    case Update(_, _) => if Reopenable(a.status) then SetRow(t, k, a.(status := Started)) else Refused(BadRequest)
    case Pay(_, _, order) =>
      if a.status != Started || !HasFee(a) then Refused(BadRequest)
      else if a.paidAt.Some? || a.order.Some? then Done(t)
      else SetRow(t, k, a.(order := Some(order)))
    case Submit(_, _) =>
      if a.status != Started || (HasFee(a) && a.paidAt.None?) then Refused(BadRequest)
      else SetRow(t, k, a.(status := Submitted))
    case Withdraw(_, _) => if AwaitsDecision(a.status) then SetRow(t, k, a.(status := Withdrawn)) else Refused(BadRequest)
    case _ => Done(t)
  }

  function Step(t: Table, convs: seq<Conversation>, r: AppRequest): Outcome<Table> {
    if r.MarkUnderReview? || r.Decide? then
      if r.id >= |t| then Refused(NotFound)
      else if !CanDecide(convs, r.actor, t[r.id]) then Refused(Forbidden)
      else if r.MarkUnderReview? then
        if t[r.id].status == Submitted then SetRow(t, r.id, t[r.id].(status := UnderReview)) else Refused(BadRequest)
      else if AwaitsDecision(t[r.id].status) then
        SetRow(t, r.id, t[r.id].(status := if r.approve then Approved else Denied))
      else Refused(BadRequest)
    else
      var no, k := TenantRefusal(convs, r.actor, r.conversation), FindFirst(t, Of(r.conversation));
      if no.Some? then Refused(no.value)
      else if k.Some? then TenantStep(t, k.value, r)
      else if r.CreateOrGet? then Done(t + [Application(r.conversation, r.actor.id, r.fee, Started, None, None)])
      else Refused(NotFound)
  }

  function UnpaidWith(order: OrderId): Application -> bool {
    (a: Application) => a.order == Some(order) && a.paidAt.None?
  }

  function Settled(a: Application, now: Time): Application { a.(paidAt := Some(now)) }

  function Webhook(t: Table, order: OrderId, paid: bool, now: Time): Table {
    if !paid then t
    else
      var k := FindFirst(t, UnpaidWith(order));
      if k.None? then t else t[k.value := Settled(t[k.value], now)]
  }

  /** The application of a conversation: its first row. */
  predicate IsFirst(t: Table, c: nat, k: int) {
    0 <= k < |t| && t[k].conversation == c && forall j :: 0 <= j < k ==> t[j].conversation != c
  }

  lemma FirstIsFound(t: Table, c: nat)
    ensures forall k :: IsFirst(t, c, k) <==> FindFirst(t, Of(c)) == Some(k)
  {
  }

  class ApplicationsService {
    var rows: seq<Application>

    constructor ()
      ensures rows == []
    {
      rows := [];
    }

    method CreateOrGet(actor: Actor, convs: seq<Conversation>, c: nat, fee: Option<nat>) returns (status: Status)
      modifies this
      ensures var o := Step(old(rows), convs, AppRequest.CreateOrGet(actor, c, fee));
              status == Reply(o) && rows == After(o, old(rows))
      ensures status.Okay? <==> c < |convs| && convs[c].tenant == actor.id
      ensures status.Okay? ==> exists k :: 0 <= k < |rows| && rows[k].conversation == c
      ensures rows == old(rows) || rows == old(rows) + [Application(c, actor.id, fee, Started, None, None)]
    {
      var refusal := TenantRefusal(convs, actor, c);
      if refusal.Some? {
        return refusal.value;
      }
      var existing := FindFirst(rows, Of(c));
      if existing.None? {
        rows := rows + [Application(c, actor.id, fee, Started, None, None)];
        assert rows[|rows| - 1].conversation == c;
      }
      return Okay;
    }

    method Update(actor: Actor, convs: seq<Conversation>, c: nat) returns (status: Status)
      modifies this
      ensures var o := Step(old(rows), convs, AppRequest.Update(actor, c));
              status == Reply(o) && rows == After(o, old(rows))
      ensures status.Okay? <==>
        c < |convs| && convs[c].tenant == actor.id && exists k :: IsFirst(old(rows), c, k) && old(rows)[k].status in {Started, Withdrawn, Denied}
      ensures !status.Okay? ==> rows == old(rows)
      ensures forall k :: status.Okay? && IsFirst(old(rows), c, k) ==> OnlyRow(old(rows), rows, k, old(rows)[k].(status := Started))
    {
      FirstIsFound(rows, c);
      var refusal := TenantRefusal(convs, actor, c);
      if refusal.Some? {
        return refusal.value;
      }
      var k := FindFirst(rows, Of(c));
      if k.None? {
        return NotFound;
      }
      if !Reopenable(rows[k.value].status) {
        return BadRequest;
      }
      rows := rows[k.value := rows[k.value].(status := Started)];
      return Okay;
    }

    method Pay(actor: Actor, convs: seq<Conversation>, c: nat, order: OrderId) returns (status: Status)
      modifies this
      ensures var o := Step(old(rows), convs, AppRequest.Pay(actor, c, order));
              status == Reply(o) && rows == After(o, old(rows))
      ensures status.Okay? <==>
        c < |convs| && convs[c].tenant == actor.id && exists k :: IsFirst(old(rows), c, k) && old(rows)[k].status == Started && old(rows)[k].fee.Some? && old(rows)[k].fee.value > 0
      ensures !status.Okay? ==> rows == old(rows)
      ensures forall k :: status.Okay? && IsFirst(old(rows), c, k) ==> OnlyRow(old(rows), rows, k, 
        if old(rows)[k].paidAt.Some? || old(rows)[k].order.Some? then old(rows)[k] else old(rows)[k].(order := Some(order)))
    {
      FirstIsFound(rows, c);
      var refusal := TenantRefusal(convs, actor, c);
      if refusal.Some? {
        return refusal.value;
      }
      var k := FindFirst(rows, Of(c));
      if k.None? {
        return NotFound;
      }
      var application := rows[k.value];
      if application.status != Started {
        return BadRequest;
      }
      if !HasFee(application) {
        return BadRequest;
      }
      if application.paidAt.None? && application.order.None? {
        rows := rows[k.value := application.(order := Some(order))];
      }
      return Okay;
    }

    method Submit(actor: Actor, convs: seq<Conversation>, c: nat) returns (status: Status)
      modifies this
      ensures var o := Step(old(rows), convs, AppRequest.Submit(actor, c));
              status == Reply(o) && rows == After(o, old(rows))
      ensures status.Okay? <==>
        c < |convs| && convs[c].tenant == actor.id && exists k :: (
          && IsFirst(old(rows), c, k) && old(rows)[k].status == Started
          && (old(rows)[k].fee.Some? && old(rows)[k].fee.value > 0 ==> old(rows)[k].paidAt.Some?))
      ensures !status.Okay? ==> rows == old(rows)
      ensures forall k :: status.Okay? && IsFirst(old(rows), c, k) ==> OnlyRow(old(rows), rows, k, old(rows)[k].(status := Submitted))
    {
      FirstIsFound(rows, c);
      var refusal := TenantRefusal(convs, actor, c);
      if refusal.Some? {
        return refusal.value;
      }
      var k := FindFirst(rows, Of(c));
      if k.None? {
        return NotFound;
      }
      if rows[k.value].status != Started {
        return BadRequest;
      }
      if HasFee(rows[k.value]) && rows[k.value].paidAt.None? {
        return BadRequest;
      }
      rows := rows[k.value := rows[k.value].(status := Submitted)];
      return Okay;
    }

    method Withdraw(actor: Actor, convs: seq<Conversation>, c: nat) returns (status: Status)
      modifies this
      ensures var o := Step(old(rows), convs, AppRequest.Withdraw(actor, c));
              status == Reply(o) && rows == After(o, old(rows))
      ensures status.Okay? <==>
        c < |convs| && convs[c].tenant == actor.id && exists k :: IsFirst(old(rows), c, k) && old(rows)[k].status in {Submitted, UnderReview}
      ensures !status.Okay? ==> rows == old(rows)
      ensures forall k :: status.Okay? && IsFirst(old(rows), c, k) ==> OnlyRow(old(rows), rows, k, old(rows)[k].(status := Withdrawn))
    {
      FirstIsFound(rows, c);
      var refusal := TenantRefusal(convs, actor, c);
      if refusal.Some? {
        return refusal.value;
      }
      var k := FindFirst(rows, Of(c));
      if k.None? {
        return NotFound;
      }
      if !AwaitsDecision(rows[k.value].status) {
        return BadRequest;
      }
      rows := rows[k.value := rows[k.value].(status := Withdrawn)];
      return Okay;
    }

    method MarkUnderReview(actor: Actor, convs: seq<Conversation>, id: nat) returns (status: Status)
      modifies this
      ensures var o := Step(old(rows), convs, AppRequest.MarkUnderReview(actor, id));
              status == Reply(o) && rows == After(o, old(rows))
      ensures status.Okay? <==>
        && id < |old(rows)| && old(rows)[id].status == Submitted
        && (|| actor.role in {StaffModerator, Administrator, SuperAdministrator}
            || (old(rows)[id].conversation < |convs| && convs[old(rows)[id].conversation].landlord == actor.id))
      ensures if status.Okay? then OnlyRow(old(rows), rows, id, old(rows)[id].(status := UnderReview)) else rows == old(rows)
    {
      if id >= |rows| {
        return NotFound;
      }
      if !CanDecide(convs, actor, rows[id]) {
        return Forbidden;
      }
      if rows[id].status != Submitted {
        return BadRequest;
      }
      rows := rows[id := rows[id].(status := UnderReview)];
      return Okay;
    }

    method Decide(actor: Actor, convs: seq<Conversation>, id: nat, approve: bool) returns (status: Status)
      modifies this
      ensures var o := Step(old(rows), convs, AppRequest.Decide(actor, id, approve));
              status == Reply(o) && rows == After(o, old(rows))
      ensures status.Okay? <==>
        && id < |old(rows)| && old(rows)[id].status in {Submitted, UnderReview}
        && (|| actor.role in {StaffModerator, Administrator, SuperAdministrator}
            || (old(rows)[id].conversation < |convs| && convs[old(rows)[id].conversation].landlord == actor.id))
      ensures if !status.Okay? then rows == old(rows)
              else OnlyRow(old(rows), rows, id, old(rows)[id].(status := if approve then Approved else Denied))
    {
      if id >= |rows| {
        return NotFound;
      }
      if !CanDecide(convs, actor, rows[id]) {
        return Forbidden;
      }
      if !AwaitsDecision(rows[id].status) {
        return BadRequest;
      }
      rows := rows[id := rows[id].(status := if approve then Approved else Denied)];
      return Okay;
    }

    method HandlePaymentWebhook(order: OrderId, paid: bool, now: Time)
      modifies this
      ensures rows == Webhook(old(rows), order, paid, now)
      ensures !paid ==> rows == old(rows)
      ensures |rows| == |old(rows)|
      ensures forall k :: 0 <= k < |rows| && paid && UnpaidWith(order)(old(rows)[k]) && (forall j :: 0 <= j < k ==> !UnpaidWith(order)(old(rows)[j])) ==>
        rows[k] == old(rows)[k].(paidAt := Some(now))
      ensures forall k :: 0 <= k < |rows| && (old(rows)[k].order != Some(order) || old(rows)[k].paidAt.Some?) ==> rows[k] == old(rows)[k]
    {
      if !paid {
        return;
      }
      var k := FindFirst(rows, UnpaidWith(order));
      if k.None? {
        return;
      }
      rows := rows[k.value := rows[k.value].(paidAt := Some(now))];
    }
  }

  // --- what every run keeps ---

  /** One application per conversation, and none leaves the tenant's hands with its fee unpaid. */
  ghost predicate Inv(t: Table) {
    && (forall i, k :: 0 <= i < k < |t| ==> t[i].conversation != t[k].conversation)
    && (forall i :: 0 <= i < |t| && HasFee(t[i]) && t[i].status != Started ==> t[i].paidAt.Some?)
  }

  lemma StepKeepsInv(t: Table, convs: seq<Conversation>, r: AppRequest)
    requires Inv(t)
    ensures Inv(After(Step(t, convs, r), t))
  {
  }

  lemma WebhookKeepsInv(t: Table, order: OrderId, paid: bool, now: Time)
    requires Inv(t)
    ensures Inv(Webhook(t, order, paid, now))
  {
  }

  // --- orders ---

  function Awaits(a: Application): Option<OrderId> { if a.paidAt.None? then a.order else None }

  function NewOrder(r: AppRequest): Option<OrderId> {
    if r.Pay? then Some(r.order) else None
  }

  function Target(t: Table, r: AppRequest): nat {
    if r.Pay? && FindFirst(t, Of(r.conversation)).Some? then FindFirst(t, Of(r.conversation)).value else |t|
  }

  ghost predicate Distinct(t: Table) {
    forall i, k :: 0 <= i < |t| && 0 <= k < |t| && t[i].order.Some? && t[i].order == t[k].order ==> i == k
  }

  lemma StepOrders(t: Table, convs: seq<Conversation>, r: AppRequest, i: nat)
    ensures var u := After(Step(t, convs, r), t);
            i < |u| && u[i].order.Some? ==>
              || (i < |t| && u[i].order == t[i].order && (Awaits(u[i]).Some? ==> Awaits(t[i]).Some?))
              || (i == Target(t, r) && u[i].order == NewOrder(r))
  {
  }

  lemma WebhookSettles(t: Table, order: OrderId, now: Time, i: nat)
    requires Distinct(t) && i < |t|
    ensures var u := Webhook(t, order, true, now);
            |u| == |t| && u[i] == (if Awaits(t[i]) == Some(order) then Settled(t[i], now) else t[i])
  {
  }
}
