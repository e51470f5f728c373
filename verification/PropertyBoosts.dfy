/** The featured-listing boost of a property: paid once per order. */
module PropertyBoosts {
  import opened Platform

  datatype Property = Property(site: Site, boostedUntil: Option<Time>, order: Option<OrderId>)

  /** Properties appear and change hands, managers and visibility by themselves here. */
  datatype BoostRequest =
    | AddProperty(site: Site)
    | ChangeProperty(property: nat, site: Site)
    | PurchaseBoost(property: nat, actor: Actor, order: OrderId)

  type Table = seq<Property>

  function Step(t: Table, r: BoostRequest): Outcome<Table> {
    match r
    case AddProperty(site) => Done(t + [Property(site, None, None)])
    case ChangeProperty(id, site) => if id >= |t| then Refused(NotFound) else Done(t[id := t[id].(site := site)])
    case PurchaseBoost(id, actor, order) =>
      if id >= |t| then Refused(NotFound)
      else if !MayManage(t[id].site, actor) then Refused(Forbidden)
      else Done(t[id := t[id].(order := Some(order))])
  }

  function BoostWith(order: OrderId): Property -> bool { (p: Property) => p.order == Some(order) }

  function Settled(p: Property, now: Time, periodDays: nat): Property {
    p.(boostedUntil := Some(now + periodDays * DAY), order := None)
  }

  function Webhook(t: Table, order: OrderId, paid: bool, now: Time, periodDays: nat): Table {
    if !paid then t
    else
      var k := FindFirst(t, BoostWith(order));
      if k.None? then t else t[k.value := Settled(t[k.value], now, periodDays)]
  }

  class PropertiesService {
    var rows: seq<Property>

    constructor ()
      ensures rows == []
    {
      rows := [];
    }

    method PurchaseBoost(actor: Actor, id: nat, order: OrderId) returns (status: Status)
      modifies this
      ensures var o := Step(old(rows), BoostRequest.PurchaseBoost(id, actor, order));
              status == Reply(o) && rows == After(o, old(rows))
      ensures status.Okay? <==>
        && id < |old(rows)|
        && (|| actor.role in {StaffModerator, Administrator, SuperAdministrator} || old(rows)[id].site.owner == actor.id
            || actor.id in old(rows)[id].site.managers)
      ensures if status.Okay? then OnlyRow(old(rows), rows, id, old(rows)[id].(order := Some(order))) else rows == old(rows)
    {
      if id >= |rows| {
        return NotFound;
      }
      var allowed := CanManage(actor, rows[id].site);
      if !allowed {
        return Forbidden;
      }
      rows := rows[id := rows[id].(order := Some(order))];
      return Okay;
    }

    method CanManage(actor: Actor, site: Site) returns (allowed: bool)
      ensures allowed <==> MayManage(site, actor)
    {
      if IsStaff(actor.role) {
        return true;
      }
      if site.owner == actor.id {
        return true;
      }
      return exists k :: 0 <= k < |site.managers| && site.managers[k] == actor.id;
    }

    method HandlePaymentWebhook(order: OrderId, paid: bool, now: Time, periodDays: nat)
      modifies this
      ensures rows == Webhook(old(rows), order, paid, now, periodDays)
      ensures !paid ==> rows == old(rows)
      ensures |rows| == |old(rows)|
      ensures forall k :: 0 <= k < |rows| && paid && old(rows)[k].order == Some(order) && (forall j :: 0 <= j < k ==> old(rows)[j].order != Some(order)) ==>
        rows[k] == old(rows)[k].(boostedUntil := Some(now + periodDays * 24 * 60 * 60 * 1000), order := None)
      ensures forall k :: 0 <= k < |rows| && old(rows)[k].order != Some(order) ==> rows[k] == old(rows)[k]
    {
      if !paid {
        return;
      }
      var k := FindFirst(rows, BoostWith(order));
      if k.None? {
        return;
      }
      rows := rows[k.value := rows[k.value].(boostedUntil := Some(now + periodDays * DAY), order := None)];
    }
  }

  /** The properties as the other services see them. */
  function Sites(t: Table): (r: seq<Site>)
    ensures |r| == |t|
  {
    seq(|t|, i requires 0 <= i < |t| => t[i].site)
  }

  // --- orders ---

  function Awaits(p: Property): Option<OrderId> { p.order }

  function NewOrder(r: BoostRequest): Option<OrderId> {
    if r.PurchaseBoost? then Some(r.order) else None
  }

  function Target(t: Table, r: BoostRequest): nat { if r.PurchaseBoost? then r.property else |t| }

  ghost predicate Distinct(t: Table) {
    forall i, k :: 0 <= i < |t| && 0 <= k < |t| && t[i].order.Some? && t[i].order == t[k].order ==> i == k
  }

  lemma StepOrders(t: Table, r: BoostRequest, i: nat)
    ensures var u := After(Step(t, r), t);
            i < |u| && u[i].order.Some? ==>
              || (i < |t| && u[i].order == t[i].order)
              || (i == Target(t, r) && u[i].order == NewOrder(r))
  {
  }

  lemma WebhookSettles(t: Table, order: OrderId, now: Time, periodDays: nat, i: nat)
    requires Distinct(t) && i < |t|
    ensures var u := Webhook(t, order, true, now, periodDays);
            |u| == |t| && u[i] == (if Awaits(t[i]) == Some(order) then Settled(t[i], now, periodDays) else t[i])
  {
  }
}
