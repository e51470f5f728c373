/**
 Job referrals and sponsored listings: activation, top-up and renewal through the payment
 webhook, closing, and clicks billed against a prepaid budget.

 A click runs in three database statements (read, insert, conditional decrement) that
 interleave with everything else; every other handler is one step.
 */
module SponsoredListings {
  import opened Platform

  datatype ListingStatus = PendingPayment | Active | Closed

  datatype Operation = Activate | TopUp | Renew

  datatype Listing = Listing(
    poster: UserId, sponsored: bool, status: ListingStatus, costPerClick: nat, monthlyFee: nat,
    budget: int, clicks: nat, periodEnd: Option<Time>,
    pending: Option<Operation>, pendingBudget: Option<nat>, order: Option<OrderId>)

  /** A billed-at-most-once visit: unique on listing, tenant and day. */
  datatype Visit = Visit(listing: nat, tenant: UserId, day: int)

  /** A click handler that has read its listing, and perhaps inserted its visit, but not yet billed. */
  datatype Click = Click(visit: Visit, cost: nat, inserted: bool)

  datatype Ads = Ads(listings: seq<Listing>, visits: set<Visit>, clicks: map<nat, Click>)

  datatype AdRequest =
    | CreateReferral(actor: Actor)
    | CreateSponsored(actor: Actor, costPerClick: nat, monthlyFee: nat, initialBudget: nat, order: OrderId)
    | TopUpBudget(actor: Actor, id: nat, amount: nat, order: OrderId)
    | RenewPeriod(actor: Actor, id: nat, order: OrderId)
    | Close(actor: Actor, id: nat)
    | ClickRead(handler: nat, actor: Actor, id: nat, now: Time)
    | ClickInsert(handler: nat)
    | ClickBill(handler: nat)

  const BILLING_PERIOD := 30 * DAY

  function TodayKey(now: Time): int { now / DAY }

  // --- what the handlers do ---

  /** requireOwnSponsoredListing */
  function Refusal(a: Ads, actor: Actor, id: nat): Option<Status> {
    if id >= |a.listings| || !a.listings[id].sponsored then Some(NotFound)
    else if a.listings[id].poster != actor.id then Some(Forbidden)
    else if a.listings[id].status == Closed || a.listings[id].pending.Some? then Some(BadRequest)
    else None
  }

  function SetListing(a: Ads, id: nat, l: Listing): Ads
    requires id < |a.listings|
  {
    a.(listings := a.listings[id := l])
  }

  function Step(a: Ads, r: AdRequest): Outcome<Ads> {
    match r
    case CreateReferral(actor) =>
      if OwnTenantScoped(actor.role) || PlatformWide(actor.role)
      then Done(a.(listings := a.listings + [Listing(actor.id, false, Active, 0, 0, 0, 0, None, None, None, None)]))
      else Refused(Forbidden)
    case CreateSponsored(actor, cost, fee, initial, order) =>
      if !actor.role.Employer? && !PlatformWide(actor.role) then Refused(Forbidden)
      else if initial < cost then Refused(BadRequest)
      else
        var l := Listing(actor.id, true, PendingPayment, cost, fee, 0, 0, None, Some(Activate), Some(initial), Some(order));
        Done(a.(listings := a.listings + [l]))
    case TopUpBudget(actor, id, amount, order) =>
      var no := Refusal(a, actor, id);
      if no.Some? then Refused(no.value)
      else Done(SetListing(a, id, a.listings[id].(pending := Some(TopUp), pendingBudget := Some(amount), order := Some(order))))
    case RenewPeriod(actor, id, order) =>
      var no := Refusal(a, actor, id);
      if no.Some? then Refused(no.value)
      else Done(SetListing(a, id, a.listings[id].(pending := Some(Renew), pendingBudget := Some(0), order := Some(order))))
    case Close(actor, id) =>
      if id >= |a.listings| then Refused(NotFound)
      else if a.listings[id].poster != actor.id then Refused(Forbidden)
      else if a.listings[id].status == Closed then Refused(BadRequest)
      else Done(SetListing(a, id, a.listings[id].(status := Closed)))
    case ClickRead(h, actor, id, now) =>
      if !IsTenant(actor.role) then Refused(Forbidden)
      else if id >= |a.listings| || !a.listings[id].sponsored then Refused(NotFound)
      else if a.listings[id].status != Active then Refused(BadRequest)
      else if a.listings[id].periodEnd.None? || a.listings[id].periodEnd.value <= now then Refused(BadRequest)
      else Done(a.(clicks := a.clicks[h := Click(Visit(id, actor.id, TodayKey(now)), a.listings[id].costPerClick, false)]))
    case ClickInsert(h) =>
      if h !in a.clicks || a.clicks[h].inserted then Done(a)
      else if a.clicks[h].visit in a.visits then Done(a.(clicks := a.clicks - {h}))
      else Done(a.(visits := a.visits + {a.clicks[h].visit}, clicks := a.clicks[h := a.clicks[h].(inserted := true)]))
    case ClickBill(h) =>
      if h !in a.clicks || !a.clicks[h].inserted then Done(a)
      else Done(Bill(a.(clicks := a.clicks - {h}), a.clicks[h].visit.listing, a.clicks[h].cost))
  }

  /** updateMany where budgetRemainingCents >= cost: decrement and count. */
  function Bill(a: Ads, id: nat, cost: nat): Ads {
    if id < |a.listings| && a.listings[id].budget >= cost
    then SetListing(a, id, a.listings[id].(budget := a.listings[id].budget - cost, clicks := a.listings[id].clicks + 1))
    else a
  }

  function SponsoredWith(order: OrderId): Listing -> bool {
    (l: Listing) => l.order == Some(order) && l.sponsored
  }

  function Paid(l: Listing, now: Time): Listing
    requires l.pending.Some?
  {
    var cleared := l.(pending := None, pendingBudget := None);
    var amount := if l.pendingBudget.Some? then l.pendingBudget.value else 0;
    if l.status == Closed then cleared
    else
      match l.pending.value
      case Activate => cleared.(status := Active, budget := amount, periodEnd := Some(now + BILLING_PERIOD))
      case TopUp => cleared.(budget := l.budget + amount)
      case Renew => cleared.(status := Active, periodEnd := Some(RenewalBase(l, now) + BILLING_PERIOD))
  }

  function RenewalBase(l: Listing, now: Time): Time {
    if l.periodEnd.Some? && l.periodEnd.value > now then l.periodEnd.value else now
  }

  function Webhook(a: Ads, order: OrderId, paid: bool, now: Time): Ads {
    var k := FindFirst(a.listings, SponsoredWith(order));
    if k.None? || a.listings[k.value].pending.None? || !paid then a
    else SetListing(a, k.value, Paid(a.listings[k.value], now))
  }

  // --- the service ---

  class JobReferralsService {
    var listings: seq<Listing>
    var visits: set<Visit>
    var clicks: map<nat, Click>

    function Db(): Ads
      reads this
    {
      Ads(listings, visits, clicks)
    }

    constructor ()
      ensures Db() == Ads([], {}, map[])
    {
      listings, visits, clicks := [], {}, map[];
    }

    method Create(actor: Actor) returns (status: Status)
      modifies this
      ensures var o := Step(old(Db()), CreateReferral(actor)); status == Reply(o) && Db() == After(o, old(Db()))
      ensures status.Okay? <==> actor.role in {Landlord, PropertyManager, Administrator, SuperAdministrator}
      ensures listings == old(listings) + if status.Okay? then [Listing(actor.id, false, Active, 0, 0, 0, 0, None, None, None, None)] else []
    {
      if !OwnTenantScoped(actor.role) && !PlatformWide(actor.role) {
        return Forbidden;
      }
      listings := listings + [Listing(actor.id, false, Active, 0, 0, 0, 0, None, None, None, None)];
      return Okay;
    }

    method CreateSponsored(actor: Actor, cost: nat, fee: nat, initial: nat, order: OrderId) returns (status: Status)
      modifies this
      ensures var o := Step(old(Db()), AdRequest.CreateSponsored(actor, cost, fee, initial, order));
              status == Reply(o) && Db() == After(o, old(Db()))
      ensures status.Okay? <==> actor.role in {Employer, Administrator, SuperAdministrator} && initial >= cost
      ensures listings == old(listings) + if !status.Okay? then [] else [
        Listing(actor.id, true, PendingPayment, cost, fee, 0, 0, None, Some(Activate), Some(initial), Some(order))]
    {
      if !actor.role.Employer? && !PlatformWide(actor.role) {
        return Forbidden;
      }
      if initial < cost {
        return BadRequest;
      }
      var id := |listings|;
      listings := listings +
        [Listing(actor.id, true, PendingPayment, cost, fee, 0, 0, None, Some(Activate), Some(initial), None)];
      listings := listings[id := listings[id].(order := Some(order))];
      return Okay;
    }

    method RequireOwnSponsoredListing(actor: Actor, id: nat) returns (refusal: Option<Status>)
      ensures refusal == Refusal(Db(), actor, id)
      ensures refusal.None? ==> id < |listings| && listings[id].sponsored && listings[id].status != Closed
      ensures refusal.None? <==>
        && id < |listings| && listings[id].sponsored && listings[id].poster == actor.id
        && listings[id].status != Closed && listings[id].pending.None?
    {
      if id >= |listings| || !listings[id].sponsored {
        return Some(NotFound);
      }
      if listings[id].poster != actor.id {
        return Some(Forbidden);
      }
      if listings[id].status == Closed {
        return Some(BadRequest);
      }
      if listings[id].pending.Some? {
        return Some(BadRequest);
      }
      return None;
    }

    method TopUp(actor: Actor, id: nat, amount: nat, order: OrderId) returns (status: Status)
      modifies this
      ensures var o := Step(old(Db()), TopUpBudget(actor, id, amount, order));
              status == Reply(o) && Db() == After(o, old(Db()))
      ensures status.Okay? <==>
        && id < |old(listings)| && old(listings)[id].sponsored && old(listings)[id].poster == actor.id
        && old(listings)[id].status != Closed && old(listings)[id].pending.None?
      ensures if !status.Okay? then listings == old(listings)
              else OnlyRow(old(listings), listings, id, old(listings)[id].(
                pending := Some(Operation.TopUp), pendingBudget := Some(amount), order := Some(order)))
    {
      var refusal := RequireOwnSponsoredListing(actor, id);
      if refusal.Some? {
        return refusal.value;
      }
      listings := listings[id := listings[id].(
        pending := Some(Operation.TopUp), pendingBudget := Some(amount), order := Some(order))];
      return Okay;
    }

    method Renew(actor: Actor, id: nat, order: OrderId) returns (status: Status)
      modifies this
      ensures var o := Step(old(Db()), RenewPeriod(actor, id, order));
              status == Reply(o) && Db() == After(o, old(Db()))
      ensures status.Okay? <==>
        && id < |old(listings)| && old(listings)[id].sponsored && old(listings)[id].poster == actor.id
        && old(listings)[id].status != Closed && old(listings)[id].pending.None?
      ensures if !status.Okay? then listings == old(listings)
              else OnlyRow(old(listings), listings, id, old(listings)[id].(
                pending := Some(Operation.Renew), pendingBudget := Some(0), order := Some(order)))
    {
      var refusal := RequireOwnSponsoredListing(actor, id);
      if refusal.Some? {
        return refusal.value;
      }
      listings := listings[id := listings[id].(
        pending := Some(Operation.Renew), pendingBudget := Some(0), order := Some(order))];
      return Okay;
    }

    method Close(actor: Actor, id: nat) returns (status: Status)
      modifies this
      ensures var o := Step(old(Db()), AdRequest.Close(actor, id)); status == Reply(o) && Db() == After(o, old(Db()))
      ensures status.Okay? <==> id < |old(listings)| && old(listings)[id].poster == actor.id && old(listings)[id].status != Closed
      ensures if status.Okay? then OnlyRow(old(listings), listings, id, old(listings)[id].(status := Closed)) else listings == old(listings)
    {
      if id >= |listings| {
        return NotFound;
      }
      if listings[id].poster != actor.id {
        return Forbidden;
      }
      if listings[id].status == Closed {
        return BadRequest;
      }
      listings := listings[id := listings[id].(status := Closed)];
      return Okay;
    }

    /** registerClick up to its first await: the listing is read and checked. */
    method ReadForClick(handler: nat, actor: Actor, id: nat, now: Time) returns (status: Status)
      modifies this
      ensures var o := Step(old(Db()), ClickRead(handler, actor, id, now));
              status == Reply(o) && Db() == After(o, old(Db()))
      ensures status.Okay? <==>
        && actor.role in {ProspectiveTenant, CurrentTenant} && id < |listings| && listings[id].sponsored
        && listings[id].status == Active && listings[id].periodEnd.Some? && now < listings[id].periodEnd.value
      ensures status.Okay? ==>
        && handler in clicks && clicks[handler].visit.listing == id && clicks[handler].visit.tenant == actor.id
        && 0 <= now - clicks[handler].visit.day * 24 * 60 * 60 * 1000 < 24 * 60 * 60 * 1000
        && clicks[handler].cost == listings[id].costPerClick && !clicks[handler].inserted
    {
      if !IsTenant(actor.role) {
        return Forbidden;
      }
      if id >= |listings| || !listings[id].sponsored {
        return NotFound;
      }
      if listings[id].status != Active {
        return BadRequest;
      }
      if listings[id].periodEnd.None? || listings[id].periodEnd.value <= now {
        return BadRequest;
      }
      clicks := clicks[handler := Click(Visit(id, actor.id, TodayKey(now)), listings[id].costPerClick, false)];
      return Okay;
    }

    /** Its insert: a second visit on one day hits the unique index and ends the handler unbilled. */
    method InsertVisit(handler: nat)
      modifies this
      ensures Db() == After(Step(old(Db()), ClickInsert(handler)), old(Db()))
      ensures handler in old(clicks) && !old(clicks)[handler].inserted ==>
        && visits == old(visits) + {old(clicks)[handler].visit}
        && (handler in clicks <==> old(clicks)[handler].visit !in old(visits))
        && (handler in clicks ==> clicks[handler].inserted)
    {
      if handler in clicks && !clicks[handler].inserted {
        if clicks[handler].visit in visits {
          clicks := clicks - {handler};
        } else {
          visits := visits + {clicks[handler].visit};
          clicks := clicks[handler := clicks[handler].(inserted := true)];
        }
      }
    }

    /** Its conditional decrement. */
    method BillClick(handler: nat)
      modifies this
      ensures Db() == After(Step(old(Db()), ClickBill(handler)), old(Db()))
      ensures handler in old(clicks) && old(clicks)[handler].inserted ==>
        && handler !in clicks && |listings| == |old(listings)|
        && forall k :: 0 <= k < |listings| ==>
             var l, cost := old(listings)[k], old(clicks)[handler].cost;
             listings[k] == if k == old(clicks)[handler].visit.listing && l.budget >= cost
                            then l.(budget := l.budget - cost, clicks := l.clicks + 1) else l
    {
      if handler in clicks && clicks[handler].inserted {
        var click := clicks[handler];
        clicks := clicks - {handler};
        var id := click.visit.listing;
        if id < |listings| && listings[id].budget >= click.cost {
          listings := listings[id := listings[id].(
            budget := listings[id].budget - click.cost, clicks := listings[id].clicks + 1)];
        }
      }
    }

    method HandlePaymentWebhook(order: OrderId, paid: bool, now: Time) returns (mine: bool)
      modifies this
      ensures Db() == Webhook(old(Db()), order, paid, now)
      ensures var k := FindFirst(old(listings), SponsoredWith(order));
              mine <==> k.Some? && old(listings)[k.value].pending.Some?
      ensures !paid ==> listings == old(listings)
      ensures |listings| == |old(listings)| && visits == old(visits) && clicks == old(clicks)
      ensures forall k :: 0 <= k < |listings| ==>
        listings[k] == old(listings)[k]
        || (paid && old(listings)[k].sponsored && old(listings)[k].order == Some(order) && old(listings)[k].pending.Some?
            && listings[k].pending.None?)
      ensures forall k :: 0 <= k < |listings| && old(listings)[k].status == Closed ==>
        listings[k].(pending := None, pendingBudget := None) == old(listings)[k].(pending := None, pendingBudget := None)
    {
      var k := FindFirst(listings, SponsoredWith(order));
      if k.None? || listings[k.value].pending.None? {
        return false;
      }
      if !paid {
        return true;
      }
      var id, l := k.value, listings[k.value];
      var amount := if l.pendingBudget.Some? then l.pendingBudget.value else 0;
      if l.status == Closed {
        listings := listings[id := l.(pending := None, pendingBudget := None)];
        return true;
      }
      if l.pending.value == Activate {
        listings := listings[id := l.(status := Active, budget := amount, periodEnd := Some(now + BILLING_PERIOD),
                                      pending := None, pendingBudget := None)];
      } else if l.pending.value == Operation.TopUp {
        listings := listings[id := l.(budget := l.budget + amount, pending := None, pendingBudget := None)];
      } else {
        var base := if l.periodEnd.Some? && l.periodEnd.value > now then l.periodEnd.value else now;
        listings := listings[id := l.(status := Active, periodEnd := Some(base + BILLING_PERIOD),
                                      pending := None, pendingBudget := None)];
      }
      return true;
    }
  }

  // --- what every run keeps ---

  ghost predicate ListingFits(l: Listing) {
    && l.budget >= 0
    && (l.pending == Some(Activate) && l.status != Closed ==> l.status == PendingPayment)
    && (l.status == PendingPayment ==> l.pending == Some(Activate) && l.budget == 0 && l.clicks == 0 && l.periodEnd.None?)
    && (!l.sponsored ==> l.order.None? && l.pending.None? && l.budget == 0 && l.clicks == 0 && l.periodEnd.None?)
  }

  /** A click in flight was let in by an active listing and carries that listing's price. */
  ghost predicate ClickFits(a: Ads, c: Click) {
    && c.visit.listing < |a.listings|
    && c.cost == a.listings[c.visit.listing].costPerClick
    && a.listings[c.visit.listing].status != PendingPayment
    && a.listings[c.visit.listing].sponsored
    && a.listings[c.visit.listing].pending != Some(Activate)
    && (c.inserted ==> c.visit in a.visits)
  }

  ghost function VisitsOf(a: Ads, i: nat): set<Visit> {
    set v | v in a.visits && v.listing == i
  }

  /** Handlers that have inserted their visit to listing i and not billed it yet. */
  ghost function Unbilled(a: Ads, i: nat): set<nat> {
    set h | h in a.clicks && a.clicks[h].inserted && a.clicks[h].visit.listing == i
  }

  ghost predicate RowsFit(a: Ads) {
    && (forall i :: 0 <= i < |a.listings| ==> ListingFits(a.listings[i]))
    && (forall h :: h in a.clicks ==> ClickFits(a, a.clicks[h]))
    && (forall v :: v in a.visits ==> v.listing < |a.listings|)
  }

  ghost predicate VisitsCover(a: Ads, i: nat)
    requires i < |a.listings|
  {
    a.listings[i].clicks + |Unbilled(a, i)| <= |VisitsOf(a, i)|
  }

  ghost predicate Inv(a: Ads) {
    RowsFit(a) && forall i: nat :: i < |a.listings| ==> VisitsCover(a, i)
  }

  datatype AdEvent = Request(request: AdRequest) | Delivery(order: OrderId, paid: bool, now: Time)

  function Next(a: Ads, e: AdEvent): Ads {
    match e
    case Request(r) => After(Step(a, r), a)
    case Delivery(order, paid, now) => Webhook(a, order, paid, now)
  }

  /** Any interleaving of requests, click statements and webhook deliveries. */
  function Run(a: Ads, es: seq<AdEvent>): Ads
    decreases |es|
  {
    if es == [] then a else Run(Next(a, es[0]), es[1..])
  }

  const NO_ADS := Ads([], {}, map[])

  lemma UnbilledAfterInsert(a: Ads, h: nat, i: nat)
    requires h in a.clicks && !a.clicks[h].inserted && a.clicks[h].visit !in a.visits
    ensures var b := After(Step(a, ClickInsert(h)), a);
            |Unbilled(b, i)| - |Unbilled(a, i)| == |VisitsOf(b, i)| - |VisitsOf(a, i)|
  {
    var b := After(Step(a, ClickInsert(h)), a);
    var v := a.clicks[h].visit;
    if v.listing == i {
      assert Unbilled(b, i) == Unbilled(a, i) + {h} && h !in Unbilled(a, i);
      assert VisitsOf(b, i) == VisitsOf(a, i) + {v} && v !in VisitsOf(a, i);
    } else {
      assert Unbilled(b, i) == Unbilled(a, i);
      assert VisitsOf(b, i) == VisitsOf(a, i);
    }
  }

  lemma UnbilledAfterBill(a: Ads, h: nat, i: nat)
    requires h in a.clicks && a.clicks[h].inserted
    ensures var b := After(Step(a, ClickBill(h)), a);
            VisitsOf(b, i) == VisitsOf(a, i) &&
            |Unbilled(b, i)| == |Unbilled(a, i)| - (if a.clicks[h].visit.listing == i then 1 else 0)
  {
    var b := After(Step(a, ClickBill(h)), a);
    assert VisitsOf(b, i) == VisitsOf(a, i);
    if a.clicks[h].visit.listing == i {
      assert Unbilled(b, i) == Unbilled(a, i) - {h} && h in Unbilled(a, i);
    } else {
      assert Unbilled(b, i) == Unbilled(a, i);
    }
  }

  lemma FewerUnbilled(a: Ads, b: Ads, i: nat)
    requires Unbilled(b, i) <= Unbilled(a, i)
    ensures |Unbilled(b, i)| <= |Unbilled(a, i)|
  {
    assert Unbilled(a, i) == Unbilled(b, i) + (Unbilled(a, i) - Unbilled(b, i));
  }

  lemma RequestKeepsVisitCount(a: Ads, r: AdRequest, i: nat)
    requires Inv(a) && i < |After(Step(a, r), a).listings|
    ensures VisitsCover(After(Step(a, r), a), i)
  {
    var b := After(Step(a, r), a);
    if r.ClickInsert? && r.handler in a.clicks && !a.clicks[r.handler].inserted && a.clicks[r.handler].visit !in a.visits {
      UnbilledAfterInsert(a, r.handler, i);
      assert VisitsCover(a, i);
    } else if r.ClickBill? && r.handler in a.clicks && a.clicks[r.handler].inserted {
      UnbilledAfterBill(a, r.handler, i);
      assert VisitsCover(a, i);
    } else {
      assert VisitsOf(b, i) == VisitsOf(a, i);
      FewerUnbilled(a, b, i);
      if i == |a.listings| {
        assert Unbilled(b, i) == {};
      } else {
        assert VisitsCover(a, i);
      }
    }
  }

  lemma RequestKeepsListing(a: Ads, r: AdRequest, i: nat)
    requires RowsFit(a) && i < |After(Step(a, r), a).listings|
    ensures ListingFits(After(Step(a, r), a).listings[i])
    ensures i < |a.listings| ==>
              var l := After(Step(a, r), a).listings[i];
              l.sponsored == a.listings[i].sponsored && l.costPerClick == a.listings[i].costPerClick
              && (l.status == PendingPayment ==> a.listings[i].status == PendingPayment)
              && (l.pending == Some(Activate) ==> a.listings[i].pending == Some(Activate))
  {
  }

  lemma RequestKeepsRows(a: Ads, r: AdRequest)
    requires RowsFit(a)
    ensures RowsFit(After(Step(a, r), a))
  {
    var b := After(Step(a, r), a);
    forall i: nat | i < |b.listings|
      ensures ListingFits(b.listings[i])
      ensures i < |a.listings| ==>
                b.listings[i].sponsored == a.listings[i].sponsored && b.listings[i].costPerClick == a.listings[i].costPerClick
                && (b.listings[i].status == PendingPayment ==> a.listings[i].status == PendingPayment)
                && (b.listings[i].pending == Some(Activate) ==> a.listings[i].pending == Some(Activate))
    {
      RequestKeepsListing(a, r, i);
    }
    forall h | h in b.clicks
      ensures ClickFits(b, b.clicks[h])
    {
      hide ListingFits;
      assert |a.listings| <= |b.listings|;
    }
    assert forall v :: v in b.visits ==> v.listing < |b.listings| by {
      hide ListingFits;
      assert forall h :: h in a.clicks ==> ClickFits(a, a.clicks[h]);
    }
  }

  lemma DeliveryKeepsInv(a: Ads, order: OrderId, paid: bool, now: Time)
    requires Inv(a)
    ensures Inv(Webhook(a, order, paid, now))
  {
    var b := Webhook(a, order, paid, now);
    forall i: nat | i < |b.listings|
      ensures VisitsCover(b, i)
    {
      assert VisitsCover(a, i);
      assert VisitsOf(b, i) == VisitsOf(a, i) && Unbilled(b, i) == Unbilled(a, i);
    }
  }

  lemma NextKeepsInv(a: Ads, e: AdEvent)
    requires Inv(a)
    ensures Inv(Next(a, e))
  {
    match e
    case Request(r) =>
      hide Step, VisitsCover, RowsFit;
      RequestKeepsRows(a, r);
      var b := Next(a, e);
      forall i: nat | i < |b.listings|
        ensures VisitsCover(b, i)
      {
        RequestKeepsVisitCount(a, r, i);
      }
    case Delivery(order, paid, now) =>
      DeliveryKeepsInv(a, order, paid, now);
  }

  // --- the ledger ---

  /** What is left of listing i's budget plus what its billed clicks cost. */
  function Value(a: Ads, i: nat): int {
    if i < |a.listings| then a.listings[i].budget + a.listings[i].costPerClick * a.listings[i].clicks else 0
  }

  /** The budget an event credits to listing i: what an accepted activation or top-up paid for. */
  function Credit(a: Ads, e: AdEvent, i: nat): int {
    if e.Request? || !e.paid || FindFirst(a.listings, SponsoredWith(e.order)) != Some(i) then 0
    else
      var l := a.listings[i];
      if l.status == Closed || l.pendingBudget.None? then 0
      else if l.pending == Some(Activate) || l.pending == Some(TopUp) then l.pendingBudget.value else 0
  }

  function Credited(a: Ads, es: seq<AdEvent>, i: nat): int
    decreases |es|
  {
    if es == [] then 0 else Credit(a, es[0], i) + Credited(Next(a, es[0]), es[1..], i)
  }

  lemma BillKeepsValue(a: Ads, id: nat, cost: nat, i: nat)
    requires id < |a.listings| && cost == a.listings[id].costPerClick
    ensures Value(Bill(a, id, cost), i) == Value(a, i)
  {
    var n := if id < |a.listings| then a.listings[id].clicks else 0;
    assert cost * (n + 1) == cost * n + cost;
  }

  lemma NextAccounts(a: Ads, e: AdEvent, i: nat)
    requires Inv(a)
    ensures Value(Next(a, e), i) == Value(a, i) + Credit(a, e, i)
  {
    if e.Request? && e.request.ClickBill? && e.request.handler in a.clicks && a.clicks[e.request.handler].inserted {
      var h := e.request.handler;
      BillKeepsValue(a.(clicks := a.clicks - {h}), a.clicks[h].visit.listing, a.clicks[h].cost, i);
    }
  }

  lemma {:induction false} RunAccounts(a: Ads, es: seq<AdEvent>, i: nat)
    requires Inv(a)
    ensures Inv(Run(a, es)) && Value(Run(a, es), i) == Value(a, i) + Credited(a, es, i)
    decreases |es|
  {
    hide Inv, Next, Credit, Value;
    if es != [] {
      NextKeepsInv(a, es[0]);
      NextAccounts(a, es[0], i);
      RunAccounts(Next(a, es[0]), es[1..], i);
    }
  }

  /**
   Conservation over every run: what remains plus what clicks cost is what was paid in,
   the budget is never overdrawn, and no visit is billed twice.
   */
  lemma BudgetIsConserved(es: seq<AdEvent>, i: nat)
    ensures var a := Run(NO_ADS, es);
            i < |a.listings| ==>
              && a.listings[i].budget + a.listings[i].costPerClick * a.listings[i].clicks == Credited(NO_ADS, es, i)
              && a.listings[i].budget >= 0
              && a.listings[i].clicks <= |VisitsOf(a, i)|
  {
    RunAccounts(NO_ADS, es, i);
    assert i < |Run(NO_ADS, es).listings| ==> VisitsCover(Run(NO_ADS, es), i);
  }

  // --- paid listing time ---

  datatype Interval = Interval(start: Time, end: Time)

  /** The stretch of time an event grants to listing i. */
  function Grant(a: Ads, e: AdEvent, i: nat): Option<Interval> {
    if e.Request? || !e.paid || FindFirst(a.listings, SponsoredWith(e.order)) != Some(i) then None
    else
      var l := a.listings[i];
      if l.status == Closed then None
      else if l.pending == Some(Activate) then Some(Interval(e.now, e.now + BILLING_PERIOD))
      else if l.pending == Some(Renew) then Some(Interval(RenewalBase(l, e.now), RenewalBase(l, e.now) + BILLING_PERIOD))
      else None
  }

  function Granted(a: Ads, es: seq<AdEvent>, i: nat): seq<Interval>
    decreases |es|
  {
    if es == [] then []
    else
      var g := Grant(a, es[0], i);
      (if g.Some? then [g.value] else []) + Granted(Next(a, es[0]), es[1..], i)
  }

  function PeriodEnd(a: Ads, i: nat): Option<Time> {
    if i < |a.listings| then a.listings[i].periodEnd else None
  }

  lemma NextGrants(a: Ads, e: AdEvent, i: nat)
    requires Inv(a)
    ensures var g, p, q := Grant(a, e, i), PeriodEnd(a, i), PeriodEnd(Next(a, e), i);
            if g.None? then q == p
            else g.value.end == g.value.start + BILLING_PERIOD && q == Some(g.value.end)
                 && (p.Some? ==> p.value <= g.value.start)
  {
  }

  /** Thirty-day intervals, each starting no earlier than `p` or the end of the one before. */
  predicate Chain(g: seq<Interval>, p: Option<Time>) {
    g == [] ||
    (g[0].end == g[0].start + BILLING_PERIOD && (p.Some? ==> p.value <= g[0].start) && Chain(g[1..], Some(g[0].end)))
  }

  function ChainEnd(g: seq<Interval>, p: Option<Time>): Option<Time> {
    if g == [] then p else Some(g[|g| - 1].end)
  }

  /** Granted intervals follow one another, and the last one ends when the period ends. */
  lemma {:induction false} GrantsFollow(a: Ads, es: seq<AdEvent>, i: nat)
    requires Inv(a)
    ensures Chain(Granted(a, es, i), PeriodEnd(a, i))
    ensures PeriodEnd(Run(a, es), i) == ChainEnd(Granted(a, es, i), PeriodEnd(a, i))
    decreases |es|
  {
    hide Inv, Next, Grant, PeriodEnd;
    if es != [] {
      var b := Next(a, es[0]);
      NextKeepsInv(a, es[0]);
      NextGrants(a, es[0], i);
      GrantsFollow(b, es[1..], i);
      var g, rest := Granted(a, es, i), Granted(b, es[1..], i);
      if Grant(a, es[0], i).Some? {
        assert g == [Grant(a, es[0], i).value] + rest;
        assert g[1..] == rest;
      } else {
        assert g == rest;
      }
    }
  }

  lemma {:induction false} ChainIsDisjoint(g: seq<Interval>, p: Option<Time>)
    requires Chain(g, p)
    ensures forall k :: 0 <= k < |g| ==> g[k].end - g[k].start == BILLING_PERIOD && (p.Some? ==> p.value <= g[k].start)
    ensures forall j, k :: 0 <= j < k < |g| ==> g[j].end <= g[k].start
  {
    if g != [] {
      ChainIsDisjoint(g[1..], Some(g[0].end));
      assert forall k :: 0 < k < |g| ==> g[k] == g[1..][k - 1];
    }
  }

  /** k accepted payments entitle the listing to exactly 30*k days: the intervals never overlap. */
  lemma PaidTimeNeverOverlaps(es: seq<AdEvent>, i: nat)
    ensures var g := Granted(NO_ADS, es, i);
            && (forall k :: 0 <= k < |g| ==> g[k].end - g[k].start == 30 * DAY)
            && (forall j, k :: 0 <= j < k < |g| ==> g[j].end <= g[k].start)
            && PeriodEnd(Run(NO_ADS, es), i) == ChainEnd(g, None)
  {
    GrantsFollow(NO_ADS, es, i);
    ChainIsDisjoint(Granted(NO_ADS, es, i), None);
  }

  lemma ClosedStep(a: Ads, e: AdEvent, i: nat)
    requires i < |a.listings| && a.listings[i].status == Closed
    ensures var b := Next(a, e);
            && i < |b.listings| && b.listings[i].status == Closed
            && b.listings[i].periodEnd == a.listings[i].periodEnd
            && Grant(a, e, i) == None && Credit(a, e, i) == 0
  {
  }

  /** A closed listing stays closed and is granted nothing, even when a pending payment lands later. */
  lemma {:induction false} ClosedIsForever(a: Ads, es: seq<AdEvent>, i: nat)
    requires i < |a.listings| && a.listings[i].status == Closed
    ensures var b := Run(a, es);
            && i < |b.listings| && b.listings[i].status == Closed
            && b.listings[i].periodEnd == a.listings[i].periodEnd
            && Granted(a, es, i) == [] && Credited(a, es, i) == 0
    decreases |es|
  {
    hide Next, Grant, Credit;
    if es != [] {
      ClosedStep(a, es[0], i);
      ClosedIsForever(Next(a, es[0]), es[1..], i);
    }
  }

  // --- orders ---

  /** The order whose payment would complete the listing's pending operation. */
  function Awaits(l: Listing): Option<OrderId> {
    if l.sponsored && l.pending.Some? then l.order else None
  }

  function NewOrder(r: AdRequest): Option<OrderId> {
    if r.CreateSponsored? || r.TopUpBudget? || r.RenewPeriod? then Some(r.order) else None
  }

  /** The listing a request would attach its new order to. */
  function Target(a: Ads, r: AdRequest): nat {
    if r.TopUpBudget? || r.RenewPeriod? then r.id else |a.listings|
  }

  ghost predicate Distinct(a: Ads) {
    forall i, k ::
      0 <= i < |a.listings| && 0 <= k < |a.listings| && a.listings[i].order.Some? && a.listings[i].order == a.listings[k].order
      ==> i == k
  }

  lemma StepOrders(a: Ads, r: AdRequest, i: nat)
    requires Inv(a)
    ensures var b := After(Step(a, r), a);
            i < |b.listings| && b.listings[i].order.Some? ==>
              || (i < |a.listings| && a.listings[i].order == b.listings[i].order
                  && (Awaits(b.listings[i]).Some? ==> Awaits(a.listings[i]).Some?))
              || (i == Target(a, r) && b.listings[i].order == NewOrder(r))
  {
  }

  lemma WebhookSettles(a: Ads, order: OrderId, now: Time, i: nat)
    requires Inv(a) && Distinct(a) && i < |a.listings|
    ensures var b := Webhook(a, order, true, now);
            && |b.listings| == |a.listings| && b.visits == a.visits && b.clicks == a.clicks
            && b.listings[i] == (if Awaits(a.listings[i]) == Some(order) then Paid(a.listings[i], now) else a.listings[i])
  {
  }
}
