/** Landlord subscriptions: a checkout sets a pending tier, the paid webhook applies it. */
module Subscriptions {
  import opened Platform

  datatype Tier = Free | Pro | Unlimited

  datatype Subscription = Subscription(
    user: UserId, tier: Tier, expiresAt: Option<Time>, pending: Option<Tier>, order: Option<OrderId>)

  datatype SubscriptionRequest =
    | GetOrCreateMine(actor: Actor)
    | CreateCheckout(actor: Actor, tier: Tier, order: OrderId)

  type Table = seq<Subscription>

  predicate MaySubscribe(r: Role) { r.Landlord? || IsStaff(r) }

  function Of(user: UserId): Subscription -> bool { (s: Subscription) => s.user == user }

  /** upsert: the user's row, created when missing. */
  function Upserted(t: Table, user: UserId): Table {
    if FindFirst(t, Of(user)).Some? then t else t + [Subscription(user, Free, None, None, None)]
  }

  function RowOf(t: Table, user: UserId): nat {
    var k := FindFirst(t, Of(user));
    if k.Some? then k.value else |t|
  }

  function Step(t: Table, r: SubscriptionRequest): Outcome<Table> {
    if !MaySubscribe(r.actor.role) then Refused(Forbidden)
    else
      var u, k := Upserted(t, r.actor.id), RowOf(t, r.actor.id);
      match r
      case GetOrCreateMine(_) => Done(u)
      case CreateCheckout(_, tier, order) => Done(u[k := u[k].(pending := Some(tier), order := Some(order))])
  }

  function PendingWith(order: OrderId): Subscription -> bool {
    (s: Subscription) => s.order == Some(order) && s.pending.Some?
  }

  function Settled(s: Subscription, now: Time, periodDays: nat): Subscription
    requires s.pending.Some?
  {
    s.(tier := s.pending.value, expiresAt := Some(now + periodDays * DAY), pending := None)
  }

  function Webhook(t: Table, order: OrderId, paid: bool, now: Time, periodDays: nat): Table {
    if !paid then t
    else
      var k := FindFirst(t, PendingWith(order));
      if k.None? then t else t[k.value := Settled(t[k.value], now, periodDays)]
  }

  class SubscriptionsService {
    var rows: seq<Subscription>

    constructor ()
      ensures rows == []
    {
      rows := [];
    }

    method Upsert(user: UserId) returns (id: nat)
      modifies this
      ensures rows == Upserted(old(rows), user) && id == RowOf(old(rows), user) && id < |rows|
      ensures rows[id].user == user && old(rows) <= rows
    {
      var k := FindFirst(rows, Of(user));
      if k.Some? {
        return k.value;
      }
      id := |rows|;
      rows := rows + [Subscription(user, Free, None, None, None)];
    }

    method GetOrCreateMine(actor: Actor) returns (status: Status)
      modifies this
      ensures var o := Step(old(rows), SubscriptionRequest.GetOrCreateMine(actor));
              status == Reply(o) && rows == After(o, old(rows))
      ensures status.Okay? <==> actor.role in {Landlord, StaffModerator, Administrator, SuperAdministrator}
      ensures status.Okay? ==> old(rows) <= rows && exists k :: 0 <= k < |rows| && rows[k].user == actor.id
      ensures !status.Okay? ==> rows == old(rows)
    {
      if !MaySubscribe(actor.role) {
        return Forbidden;
      }
      var id := Upsert(actor.id);
      assert rows[id].user == actor.id;
      return Okay;
    }

    method CreateCheckout(actor: Actor, tier: Tier, order: OrderId) returns (status: Status)
      modifies this
      ensures var o := Step(old(rows), SubscriptionRequest.CreateCheckout(actor, tier, order));
              status == Reply(o) && rows == After(o, old(rows))
      ensures status.Okay? <==> actor.role in {Landlord, StaffModerator, Administrator, SuperAdministrator}
      ensures status.Okay? ==> exists k :: 0 <= k < |rows| && rows[k].user == actor.id && rows[k].pending == Some(tier) && rows[k].order == Some(order)
      ensures forall k :: 0 <= k < |old(rows)| && old(rows)[k].user != actor.id ==> k < |rows| && rows[k] == old(rows)[k]
    {
      if !MaySubscribe(actor.role) {
        return Forbidden;
      }
      var id := Upsert(actor.id);
      rows := rows[id := rows[id].(pending := Some(tier), order := Some(order))];
      assert rows[id].user == actor.id;
      return Okay;
    }

    method HandlePaymentWebhook(order: OrderId, paid: bool, now: Time, periodDays: nat)
      modifies this
      ensures rows == Webhook(old(rows), order, paid, now, periodDays)
      ensures !paid ==> rows == old(rows)
      ensures |rows| == |old(rows)|
      ensures forall k :: 0 <= k < |rows| && paid && PendingWith(order)(old(rows)[k]) && (forall j :: 0 <= j < k ==> !PendingWith(order)(old(rows)[j])) ==>
        rows[k] == Subscription(
          old(rows)[k].user, old(rows)[k].pending.value, Some(now + periodDays * 24 * 60 * 60 * 1000), None, Some(order))
      ensures forall k :: 0 <= k < |rows| && (old(rows)[k].order != Some(order) || old(rows)[k].pending.None?) ==> rows[k] == old(rows)[k]
    {
      if !paid {
        return;
      }
      var k := FindFirst(rows, PendingWith(order));
      if k.None? {
        return;
      }
      var sub := rows[k.value];
      rows := rows[k.value := sub.(
        tier := sub.pending.value, expiresAt := Some(now + periodDays * DAY), pending := None)];
    }
  }

  // --- orders ---

  function Awaits(s: Subscription): Option<OrderId> { if s.pending.Some? then s.order else None }

  function NewOrder(r: SubscriptionRequest): Option<OrderId> {
    if r.CreateCheckout? then Some(r.order) else None
  }

  ghost predicate Distinct(t: Table) {
    forall i, k :: 0 <= i < |t| && 0 <= k < |t| && t[i].order.Some? && t[i].order == t[k].order ==> i == k
  }

  lemma StepOrders(t: Table, r: SubscriptionRequest, i: nat)
    ensures var u := After(Step(t, r), t);
            i < |u| && u[i].order.Some? ==>
              || (i < |t| && u[i].order == t[i].order && (Awaits(u[i]).Some? ==> Awaits(t[i]).Some?))
              || (i == RowOf(t, r.actor.id) && u[i].order == NewOrder(r))
  {
  }

  lemma WebhookSettles(t: Table, order: OrderId, now: Time, periodDays: nat, i: nat)
    requires Distinct(t) && i < |t|
    ensures var u := Webhook(t, order, true, now, periodDays);
            |u| == |t| && u[i] == (if Awaits(t[i]) == Some(order) then Settled(t[i], now, periodDays) else t[i])
  {
  }
}
