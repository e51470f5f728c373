/** Paid pre-inspection requests: at most one open per property, no walkthrough before payment. */
module HqsInspections {
  import opened Platform

  datatype InspectionStatus = AwaitingPayment | Paid | Requested | Canceled

  datatype Inspection = Inspection(property: nat, status: InspectionStatus, order: Option<OrderId>, paidAt: Option<Time>)

  datatype InspectionRequest =
    | Create(actor: Actor, property: nat, order: OrderId)
    | Cancel(actor: Actor, id: nat)
    | RequestWalkthrough(actor: Actor, id: nat)

  type Table = seq<Inspection>

  predicate IsOpen(s: InspectionStatus) { s == AwaitingPayment || s == Paid }

  function OpenOn(property: nat): Inspection -> bool { (x: Inspection) => x.property == property && IsOpen(x.status) }

  /** assertCanManageProperty */
  function ManagerRefusal(sites: seq<Site>, actor: Actor, property: nat): Option<Status> {
    if property >= |sites| then Some(NotFound)
    else if !MayManage(sites[property], actor) then Some(Forbidden)
    else None
  }

  function Step(t: Table, sites: seq<Site>, r: InspectionRequest): Outcome<Table> {
    match r
    case Create(actor, property, order) =>
      var no := ManagerRefusal(sites, actor, property);
      if no.Some? then Refused(no.value)
      else if FindLast(t, OpenOn(property)).Some? then Done(t)
      else Done(t + [Inspection(property, AwaitingPayment, Some(order), None)])
    case Cancel(actor, id) =>
      if id >= |t| then Refused(NotFound)
      else
        var no := ManagerRefusal(sites, actor, t[id].property);
        if no.Some? then Refused(no.value)
        else if !IsOpen(t[id].status) then Refused(BadRequest)
        else Done(t[id := t[id].(status := Canceled)])
    case RequestWalkthrough(actor, id) =>
      if id >= |t| then Refused(NotFound)
      else
        var no := ManagerRefusal(sites, actor, t[id].property);
        if no.Some? then Refused(no.value)
        else if t[id].status != Paid then Refused(BadRequest)
        else Done(t[id := t[id].(status := Requested)])
  }

  function AwaitingWith(order: OrderId): Inspection -> bool {
    (x: Inspection) => x.order == Some(order) && x.status == AwaitingPayment
  }

  function Settled(x: Inspection, now: Time): Inspection { x.(status := Paid, paidAt := Some(now)) }

  function Webhook(t: Table, order: OrderId, paid: bool, now: Time): Table {
    if !paid then t
    else
      var k := FindFirst(t, AwaitingWith(order));
      if k.None? then t else t[k.value := Settled(t[k.value], now)]
  }

  class HqsInspectionsService {
    var rows: seq<Inspection>

    constructor ()
      ensures rows == []
    {
      rows := [];
    }

    method AssertCanManageProperty(actor: Actor, sites: seq<Site>, property: nat) returns (refusal: Option<Status>)
      ensures refusal == ManagerRefusal(sites, actor, property)
      ensures refusal == Some(NotFound) <==> property >= |sites|
      ensures refusal == Some(Forbidden) <==>
        && property < |sites| && actor.role !in {StaffModerator, Administrator, SuperAdministrator}
        && sites[property].owner != actor.id && actor.id !in sites[property].managers
    {
      if property >= |sites| {
        return Some(NotFound);
      }
      if IsStaff(actor.role) || sites[property].owner == actor.id {
        return None;
      }
      if actor.id !in sites[property].managers {
        return Some(Forbidden);
      }
      return None;
    }

    method Create(actor: Actor, sites: seq<Site>, property: nat, order: OrderId) returns (status: Status)
      modifies this
      ensures var o := Step(old(rows), sites, InspectionRequest.Create(actor, property, order));
              status == Reply(o) && rows == After(o, old(rows))
      ensures status.Okay? <==>
        && property < |sites|
        && (|| actor.role in {StaffModerator, Administrator, SuperAdministrator} || sites[property].owner == actor.id
            || actor.id in sites[property].managers)
      ensures status.Okay? ==> exists k :: 0 <= k < |rows| && rows[k].property == property && rows[k].status in {AwaitingPayment, Paid}
      ensures rows == old(rows) || rows == old(rows) + [Inspection(property, AwaitingPayment, Some(order), None)]
    {
      var refusal := AssertCanManageProperty(actor, sites, property);
      if refusal.Some? {
        return refusal.value;
      }
      var existing := FindLast(rows, OpenOn(property));
      if existing.Some? {
        return Okay;
      }
      var id := |rows|;
      rows := rows + [Inspection(property, AwaitingPayment, None, None)];
      rows := rows[id := rows[id].(order := Some(order))];
      assert rows[id].property == property && rows[id].status == AwaitingPayment;
      return Okay;
    }

    method Cancel(actor: Actor, sites: seq<Site>, id: nat) returns (status: Status)
      modifies this
      ensures var o := Step(old(rows), sites, InspectionRequest.Cancel(actor, id));
              status == Reply(o) && rows == After(o, old(rows))
      ensures status.Okay? <==>
        id < |old(rows)| && old(rows)[id].status in {AwaitingPayment, Paid} && ManagerRefusal(sites, actor, old(rows)[id].property).None?
      ensures if status.Okay? then OnlyRow(old(rows), rows, id, old(rows)[id].(status := Canceled)) else rows == old(rows)
    {
      if id >= |rows| {
        return NotFound;
      }
      var refusal := AssertCanManageProperty(actor, sites, rows[id].property);
      if refusal.Some? {
        return refusal.value;
      }
      if !IsOpen(rows[id].status) {
        return BadRequest;
      }
      rows := rows[id := rows[id].(status := Canceled)];
      return Okay;
    }

    method Request(actor: Actor, sites: seq<Site>, id: nat) returns (status: Status)
      modifies this
      ensures var o := Step(old(rows), sites, RequestWalkthrough(actor, id));
              status == Reply(o) && rows == After(o, old(rows))
      ensures status.Okay? <==>
        id < |old(rows)| && old(rows)[id].status == Paid && ManagerRefusal(sites, actor, old(rows)[id].property).None?
      ensures if status.Okay? then OnlyRow(old(rows), rows, id, old(rows)[id].(status := Requested)) else rows == old(rows)
    {
      if id >= |rows| {
        return NotFound;
      }
      var refusal := AssertCanManageProperty(actor, sites, rows[id].property);
      if refusal.Some? {
        return refusal.value;
      }
      if rows[id].status != Paid {
        return BadRequest;
      }
      rows := rows[id := rows[id].(status := Requested)];
      return Okay;
    }

    method HandlePaymentWebhook(order: OrderId, paid: bool, now: Time)
      modifies this
      ensures rows == Webhook(old(rows), order, paid, now)
      ensures !paid ==> rows == old(rows)
      ensures |rows| == |old(rows)|
      ensures forall k :: 0 <= k < |rows| && paid && AwaitingWith(order)(old(rows)[k]) && (forall j :: 0 <= j < k ==> !AwaitingWith(order)(old(rows)[j])) ==>
        rows[k] == Inspection(old(rows)[k].property, Paid, Some(order), Some(now))
      ensures forall k :: 0 <= k < |rows| && (old(rows)[k].order != Some(order) || old(rows)[k].status != AwaitingPayment) ==> rows[k] == old(rows)[k]
    {
      if !paid {
        return;
      }
      var k := FindFirst(rows, AwaitingWith(order));
      if k.None? {
        return;
      }
      rows := rows[k.value := rows[k.value].(status := Paid, paidAt := Some(now))];
    }
  }

  // --- what every run keeps ---

  /** One open request per property; whatever is paid or requested has a payment time. */
  ghost predicate Inv(t: Table) {
    && (forall i, k :: 0 <= i < k < |t| && t[i].property == t[k].property ==> !IsOpen(t[i].status) || !IsOpen(t[k].status))
    && (forall i :: 0 <= i < |t| && (t[i].status == Paid || t[i].status == Requested) ==> t[i].paidAt.Some?)
  }

  lemma StepKeepsInv(t: Table, sites: seq<Site>, r: InspectionRequest)
    requires Inv(t)
    ensures Inv(After(Step(t, sites, r), t))
  {
  }

  lemma WebhookKeepsInv(t: Table, order: OrderId, paid: bool, now: Time)
    requires Inv(t)
    ensures Inv(Webhook(t, order, paid, now))
  {
  }

  // --- orders ---

  function Awaits(x: Inspection): Option<OrderId> { if x.status == AwaitingPayment then x.order else None }

  function NewOrder(r: InspectionRequest): Option<OrderId> {
    if r.Create? then Some(r.order) else None
  }

  ghost predicate Distinct(t: Table) {
    forall i, k :: 0 <= i < |t| && 0 <= k < |t| && t[i].order.Some? && t[i].order == t[k].order ==> i == k
  }

  lemma StepOrders(t: Table, sites: seq<Site>, r: InspectionRequest, i: nat)
    ensures var u := After(Step(t, sites, r), t);
            i < |u| && u[i].order.Some? ==>
              || (i < |t| && u[i].order == t[i].order && (Awaits(u[i]).Some? ==> Awaits(t[i]).Some?))
              || (i == |t| && u[i].order == NewOrder(r))
  {
  }

  lemma WebhookSettles(t: Table, order: OrderId, now: Time, i: nat)
    requires Distinct(t) && i < |t|
    ensures var u := Webhook(t, order, true, now);
            |u| == |t| && u[i] == (if Awaits(t[i]) == Some(order) then Settled(t[i], now) else t[i])
  {
  }
}
