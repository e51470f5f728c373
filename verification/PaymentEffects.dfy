/**
 What a payment buys: from the checkout that was handed an order to the first paid delivery of it, over
 any run in between.
 */
module PaymentEffects {
  import opened Platform
  import opened Payments
  import Gig = GigJobs
  import Ad = SponsoredListings
  import Boost = PropertyBoosts
  import Sub = Subscriptions
  import Hqs = HqsInspections
  import Scr = TenantScreenings
  import App = Applications

  const MS_PER_DAY: Time := 24 * 60 * 60 * 1000

  /** The record waits for its order to be paid. */
  ghost predicate Waits(w: World, s: Slot, order: OrderId) {
    match s
    case GigSlot(i) => i < |w.gigs.jobs| && w.gigs.jobs[i].status == Gig.Completed && w.gigs.jobs[i].order == Some(order)
    case AdSlot(i) =>
      i < |w.ads.listings| && w.ads.listings[i].sponsored && w.ads.listings[i].pending.Some? && w.ads.listings[i].order == Some(order)
    case BoostSlot(i) => i < |w.boosts| && w.boosts[i].order == Some(order)
    case SubSlot(i) => i < |w.subs| && w.subs[i].pending.Some? && w.subs[i].order == Some(order)
    case InspectionSlot(i) =>
      i < |w.inspections| && w.inspections[i].status == Hqs.AwaitingPayment && w.inspections[i].order == Some(order)
    case ScreeningSlot(i) =>
      i < |w.desk.rows| && w.desk.rows[i].status == Scr.AwaitingAuthorization && w.desk.rows[i].order == Some(order)
    case AppSlot(i) => i < |w.apps| && w.apps[i].paidAt.None? && w.apps[i].order == Some(order)
  }

  /** A request that takes the record back, or gives it a new order. A subscription is known by its user. */
  predicate Undoes(e: Event, s: Slot, user: UserId) {
    match s
    case GigSlot(i) => e.OnGig? && (e.gig.RejectCompletion? || e.gig.PayAndConfirm?) && e.gig.job == i
    case AdSlot(i) => e.OnAd? && e.ad.Close? && e.ad.id == i
    case BoostSlot(i) => e.OnBoost? && e.boost.PurchaseBoost? && e.boost.property == i
    case SubSlot(_) => e.OnSub? && e.sub.CreateCheckout? && e.sub.actor.id == user
    case InspectionSlot(i) => e.OnInspection? && e.inspection.Cancel? && e.inspection.id == i
    case ScreeningSlot(i) => e.OnScreening? && (e.screening.Decline? || e.screening.CancelByAdmin?) && e.screening.id == i
    case AppSlot(_) => false
  }

  predicate Pays(e: Event, order: OrderId) { e.Webhook? && e.delivery.paid && e.delivery.order == order }

  /** Nothing takes the record back, and the order is not paid yet. */
  predicate Between(es: seq<Event>, s: Slot, order: OrderId, user: UserId) {
    forall e :: e in es ==> !Undoes(e, s, user) && !Pays(e, order)
  }

  /** What was wanted is still wanted. */
  ghost predicate SameWish(v: World, w: World, s: Slot) {
    match s
    case GigSlot(i) => i < |v.gigs.jobs| && i < |w.gigs.jobs| && v.gigs.jobs[i] == w.gigs.jobs[i]
    case AdSlot(i) =>
      i < |v.ads.listings| && i < |w.ads.listings| &&
      var a, b := v.ads.listings[i], w.ads.listings[i];
      a.status == b.status && a.pending == b.pending && a.pendingBudget == b.pendingBudget && a.periodEnd == b.periodEnd
    case SubSlot(i) => i < |v.subs| && i < |w.subs| && v.subs[i] == w.subs[i]
    case BoostSlot(_) => true
    case InspectionSlot(i) => i < |v.inspections| && i < |w.inspections| && v.inspections[i] == w.inspections[i]
    case ScreeningSlot(i) =>
      i < |v.desk.rows| && i < |w.desk.rows| && v.desk.rows[i].tenant == w.desk.rows[i].tenant && v.desk.rows[i].kind == w.desk.rows[i].kind
    case AppSlot(i) => i < |v.apps| && i < |w.apps| && v.apps[i].conversation == w.apps[i].conversation && v.apps[i].fee == w.apps[i].fee
  }

  lemma WaitsMeansAwaits(w: World, s: Slot, order: OrderId)
    requires Waits(w, s, order)
    ensures Awaits(At(w, s)) == Some(order) && Ready(At(w, s))
  {
  }

  lemma SameRecordWaits(v: World, w: World, s: Slot, order: OrderId)
    requires Waits(w, s, order) && At(v, s) == At(w, s)
    ensures Waits(v, s, order) && SameWish(v, w, s)
  {
  }

  lemma RequestLeavesWaiting(w: World, e: Event, s: Slot, order: OrderId, user: UserId)
    requires Waits(w, s, order) && !e.Webhook? && !Undoes(e, s, user)
    requires s.SubSlot? ==> w.subs[s.i].user == user
    ensures Waits(Next(w, e), s, order) && SameWish(Next(w, e), w, s)
  {
    if s.SubSlot? { SubWaits(w, e, s.i, order, user); }
    hide *;
    match s
    case GigSlot(i) => GigWaits(w, e, i, order, user);
    case AdSlot(i) => AdWaits(w, e, i, order, user);
    case BoostSlot(i) => BoostWaits(w, e, i, order, user);
    case SubSlot(_) =>
    case InspectionSlot(i) => InspectionWaits(w, e, i, order, user);
    case ScreeningSlot(i) => ScreeningWaits(w, e, i, order, user);
    case AppSlot(i) => AppWaits(w, e, i, order, user);
  }

  lemma SubWaits(w: World, e: Event, i: nat, order: OrderId, user: UserId)
    requires Waits(w, SubSlot(i), order) && !e.Webhook? && !Undoes(e, SubSlot(i), user) && w.subs[i].user == user
    ensures Waits(Next(w, e), SubSlot(i), order) && SameWish(Next(w, e), w, SubSlot(i))
  {
  }

  lemma BoostWaits(w: World, e: Event, i: nat, order: OrderId, user: UserId)
    requires Waits(w, BoostSlot(i), order) && !e.Webhook? && !Undoes(e, BoostSlot(i), user)
    ensures Waits(Next(w, e), BoostSlot(i), order) && SameWish(Next(w, e), w, BoostSlot(i))
  {
  }

  lemma InspectionWaits(w: World, e: Event, i: nat, order: OrderId, user: UserId)
    requires Waits(w, InspectionSlot(i), order) && !e.Webhook? && !Undoes(e, InspectionSlot(i), user)
    ensures Waits(Next(w, e), InspectionSlot(i), order) && SameWish(Next(w, e), w, InspectionSlot(i))
  {
  }

  lemma AppWaits(w: World, e: Event, i: nat, order: OrderId, user: UserId)
    requires Waits(w, AppSlot(i), order) && !e.Webhook? && !Undoes(e, AppSlot(i), user)
    ensures Waits(Next(w, e), AppSlot(i), order) && SameWish(Next(w, e), w, AppSlot(i))
  {
  }

  lemma GigWaits(w: World, e: Event, i: nat, order: OrderId, user: UserId)
    requires Waits(w, GigSlot(i), order) && !e.Webhook? && !Undoes(e, GigSlot(i), user)
    ensures Waits(Next(w, e), GigSlot(i), order) && SameWish(Next(w, e), w, GigSlot(i))
  {
  }

  lemma AdWaits(w: World, e: Event, i: nat, order: OrderId, user: UserId)
    requires Waits(w, AdSlot(i), order) && !e.Webhook? && !Undoes(e, AdSlot(i), user)
    ensures Waits(Next(w, e), AdSlot(i), order) && SameWish(Next(w, e), w, AdSlot(i))
  {
  }

  lemma ScreeningWaits(w: World, e: Event, i: nat, order: OrderId, user: UserId)
    requires Waits(w, ScreeningSlot(i), order) && !e.Webhook? && !Undoes(e, ScreeningSlot(i), user)
    ensures Waits(Next(w, e), ScreeningSlot(i), order) && SameWish(Next(w, e), w, ScreeningSlot(i))
  {
  }

  lemma DeliveryLeavesWaiting(w: World, d: Delivery, s: Slot, order: OrderId)
    requires Inv(w) && Waits(w, s, order) && !(d.paid && d.order == order)
    ensures Waits(Next(w, Webhook(d)), s, order) && SameWish(Next(w, Webhook(d)), w, s)
  {
    WaitsMeansAwaits(w, s, order);
    assert Next(w, Webhook(d)) == Deliver(w, d);
    hide Waits, SameWish, Inv, Deliver, At, Awaits;
    DeliverySettles(w, d, s);
    SameRecordWaits(Deliver(w, d), w, s, order);
  }

  lemma {:induction false} WaitsThrough(w: World, es: seq<Event>, s: Slot, order: OrderId, user: UserId)
    requires Inv(w) && Possible(w, es) && Waits(w, s, order) && Between(es, s, order, user)
    requires s.SubSlot? ==> w.subs[s.i].user == user
    ensures Waits(Run(w, es), s, order) && SameWish(Run(w, es), w, s) && Inv(Run(w, es))
    decreases |es|
  {
    if es == [] {
      SameRecordWaits(w, w, s, order);
    } else {
      var v := Next(w, es[0]);
      assert es[0] in es && forall e :: e in es[1..] ==> e in es;
      assert Between(es[1..], s, order, user) && !Undoes(es[0], s, user) && !Pays(es[0], order);
      assert Run(w, es) == Run(v, es[1..]) && Enabled(w, es[0]) && Possible(v, es[1..]);
      hide *;
      NextKeepsInv(w, es[0]);
      EventLeavesWaiting(w, es[0], s, order, user);
      WaitsThrough(v, es[1..], s, order, user);
      WishesChain(Run(v, es[1..]), v, w, s);
    }
  }

  lemma EventLeavesWaiting(w: World, e: Event, s: Slot, order: OrderId, user: UserId)
    requires Inv(w) && Waits(w, s, order) && !Undoes(e, s, user) && !Pays(e, order)
    requires s.SubSlot? ==> s.i < |w.subs| && w.subs[s.i].user == user
    ensures Waits(Next(w, e), s, order) && SameWish(Next(w, e), w, s)
    ensures s.SubSlot? ==> s.i < |Next(w, e).subs| && Next(w, e).subs[s.i].user == user
  {
    hide Inv, Waits, Next, Undoes;
    if e.Webhook? {
      DeliveryLeavesWaiting(w, e.delivery, s, order);
    } else {
      RequestLeavesWaiting(w, e, s, order, user);
    }
  }

  lemma WishesChain(u: World, v: World, w: World, s: Slot)
    requires SameWish(u, v, s) && SameWish(v, w, s)
    ensures SameWish(u, w, s)
  {
  }

  /** An unpaid delivery leaves everything alone. */
  lemma UnpaidChangesNothing(w: World, d: Delivery)
    requires !d.paid
    ensures Next(w, Webhook(d)) == w
  {
  }

  // --- from the checkout to the payment ---

  lemma ReachedInv(before: seq<Event>)
    requires Possible(NOTHING, before)
    ensures Inv(Run(NOTHING, before))
  {
    PaymentsTakeEffectOnce(before, 0);
  }

  /** A request is made in a reachable world, a possible run follows, and then the delivery. */
  predicate Follows(before: seq<Event>, e: Event, between: seq<Event>) {
    Possible(NOTHING, before) && Enabled(Run(NOTHING, before), e) && Possible(Next(Run(NOTHING, before), e), between)
  }

  /** The world after all of them. */
  function AfterAll(before: seq<Event>, e: Event, between: seq<Event>, d: Delivery): World {
    Next(Run(Next(Run(NOTHING, before), e), between), Webhook(d))
  }

  /** The record that waits after the request is settled by the delivery, from what it was when the delivery came. */
  lemma DeliverySettlesIt(before: seq<Event>, e: Event, between: seq<Event>, d: Delivery, s: Slot, user: UserId)
    requires Follows(before, e, between) && Between(between, s, d.order, user) && d.paid
    requires var w := Next(Run(NOTHING, before), e); Waits(w, s, d.order) && (s.SubSlot? ==> w.subs[s.i].user == user)
    ensures
      var w := Next(Run(NOTHING, before), e);
      var u := Run(w, between);
      && Waits(u, s, d.order) && SameWish(u, w, s) && Inv(u) && Awaits(At(u, s)).Some?
      && At(AfterAll(before, e, between, d), s) == Settled(At(u, s), u.convs, d)
  {
    ReachedInv(before);
    hide *;
    NextKeepsInv(Run(NOTHING, before), e);
    SettlesIt(Next(Run(NOTHING, before), e), between, d, s, user);
  }

  lemma SettlesIt(w: World, between: seq<Event>, d: Delivery, s: Slot, user: UserId)
    requires Inv(w) && Possible(w, between) && Between(between, s, d.order, user) && d.paid
    requires Waits(w, s, d.order) && (s.SubSlot? ==> w.subs[s.i].user == user)
    ensures
      var u := Run(w, between);
      && Waits(u, s, d.order) && SameWish(u, w, s) && Inv(u) && Awaits(At(u, s)).Some?
      && At(Next(u, Webhook(d)), s) == Settled(At(u, s), u.convs, d)
  {
    var u := Run(w, between);
    assert Next(u, Webhook(d)) == Deliver(u, d);
    hide *;
    WaitsThrough(w, between, s, d.order, user);
    WaitsMeansAwaits(u, s, d.order);
    DeliverySettles(u, d, s);
  }

  ghost predicate OneRowEach(t: Sub.Table) { forall i, k :: 0 <= i < k < |t| ==> t[i].user != t[k].user }

  lemma StepKeepsOneRow(w: World, e: Event)
    requires OneRowEach(w.subs)
    ensures OneRowEach(Next(w, e).subs)
  {
  }

  lemma {:induction false} RunKeepsOneRow(w: World, es: seq<Event>)
    requires OneRowEach(w.subs)
    ensures OneRowEach(Run(w, es).subs)
    decreases |es|
  {
    if es != [] {
      hide Next, OneRowEach;
      StepKeepsOneRow(w, es[0]);
      RunKeepsOneRow(Next(w, es[0]), es[1..]);
    }
  }

  lemma UserHasOneRow(before: seq<Event>, e: Event, between: seq<Event>, d: Delivery)
    ensures OneRowEach(AfterAll(before, e, between, d).subs)
  {
    var w := Run(NOTHING, before);
    assert OneRowEach(NOTHING.subs);
    hide Next, OneRowEach;
    RunKeepsOneRow(NOTHING, before);
    StepKeepsOneRow(w, e);
    RunKeepsOneRow(Next(w, e), between);
    StepKeepsOneRow(Run(Next(w, e), between), Webhook(d));
  }

  lemma CheckoutWaits(w: World, actor: Actor, tier: Sub.Tier, order: OrderId) returns (i: nat)
    requires actor.role in {Landlord, StaffModerator, Administrator, SuperAdministrator}
    ensures WaitingCheckout(Next(w, OnSub(Sub.CreateCheckout(actor, tier, order))), i, actor.id, tier, order)
  {
    i := Sub.RowOf(w.subs, actor.id);
  }

  /**
   A paid checkout buys its tier: the user has one row, on that tier until the period ends, with nothing
   pending, whatever happens between the checkout and its first paid delivery but a new checkout.
   */
  lemma CheckoutBuysItsTier(
      before: seq<Event>, actor: Actor, tier: Sub.Tier, between: seq<Event>, d: Delivery)
    requires Follows(before, OnSub(Sub.CreateCheckout(actor, tier, d.order)), between) && d.paid
    requires actor.role in {Landlord, StaffModerator, Administrator, SuperAdministrator}
    requires forall e :: e in between ==>
      !(e.OnSub? && e.sub.CreateCheckout? && e.sub.actor.id == actor.id) && !(e.Webhook? && e.delivery.paid && e.delivery.order == d.order)
    ensures
      var t := AfterAll(before, OnSub(Sub.CreateCheckout(actor, tier, d.order)), between, d).subs;
      && (exists i :: 0 <= i < |t| && t[i].user == actor.id)
      && forall i :: 0 <= i < |t| && t[i].user == actor.id ==>
           t[i].tier == tier && t[i].expiresAt == Some(d.now + d.periodDays * MS_PER_DAY) && t[i].pending == None
  {
    var e := OnSub(Sub.CreateCheckout(actor, tier, d.order));
    var w := Next(Run(NOTHING, before), e);
    hide *;
    var i := CheckoutWaits(Run(NOTHING, before), actor, tier, d.order);
    NoNewCheckout(between, i, d.order, actor.id);
    UserHasOneRow(before, e, between, d);
    CheckoutIsWaiting(w, i, actor.id, tier, d.order);
    DeliverySettlesIt(before, e, between, d, SubSlot(i), actor.id);
    SettledCheckout(w, Run(w, between), AfterAll(before, e, between, d), i, actor.id, tier, d);
    OnlyRow(AfterAll(before, e, between, d).subs, i);
  }

  lemma OnlyRow(t: Sub.Table, i: nat)
    requires OneRowEach(t) && i < |t|
    ensures forall k :: 0 <= k < |t| && t[k].user == t[i].user ==> k == i
  {
  }

  lemma NoNewCheckout(between: seq<Event>, i: nat, order: OrderId, user: UserId)
    requires forall e :: e in between ==>
      !(e.OnSub? && e.sub.CreateCheckout? && e.sub.actor.id == user) && !(e.Webhook? && e.delivery.paid && e.delivery.order == order)
    ensures Between(between, SubSlot(i), order, user)
  {
  }

  ghost predicate WaitingCheckout(w: World, i: nat, user: UserId, tier: Sub.Tier, order: OrderId) {
    i < |w.subs| && w.subs[i].user == user && w.subs[i].pending == Some(tier) && w.subs[i].order == Some(order)
  }

  lemma CheckoutIsWaiting(w: World, i: nat, user: UserId, tier: Sub.Tier, order: OrderId)
    requires WaitingCheckout(w, i, user, tier, order)
    ensures Waits(w, SubSlot(i), order) && w.subs[i].user == user
  {
  }

  lemma SettledCheckout(w: World, u: World, v: World, i: nat, user: UserId, tier: Sub.Tier, d: Delivery)
    requires WaitingCheckout(w, i, user, tier, d.order) && SameWish(u, w, SubSlot(i)) && Awaits(At(u, SubSlot(i))).Some?
    requires At(v, SubSlot(i)) == Settled(At(u, SubSlot(i)), u.convs, d)
    ensures
      i < |v.subs| && v.subs[i].user == user && v.subs[i].tier == tier
      && v.subs[i].expiresAt == Some(d.now + d.periodDays * MS_PER_DAY) && v.subs[i].pending == None
  {
    assert At(v, SubSlot(i)).SubRecord?;
  }

  /** A paid boost order boosts its property for the period and is forgotten, unless another was attached meanwhile. */
  lemma BoostIsBought(before: seq<Event>, property: nat, actor: Actor, between: seq<Event>, d: Delivery)
    requires Follows(before, OnBoost(Boost.PurchaseBoost(property, actor, d.order)), between) && d.paid
    requires
      var t := Run(NOTHING, before).boosts;
      property < |t| && (IsStaff(actor.role) || t[property].site.owner == actor.id || actor.id in t[property].site.managers)
    requires forall e :: e in between ==>
      !(e.OnBoost? && e.boost.PurchaseBoost? && e.boost.property == property) && !(e.Webhook? && e.delivery.paid && e.delivery.order == d.order)
    ensures
      var t := AfterAll(before, OnBoost(Boost.PurchaseBoost(property, actor, d.order)), between, d).boosts;
      property < |t| && t[property].boostedUntil == Some(d.now + d.periodDays * MS_PER_DAY) && t[property].order == None
  {
    var e := OnBoost(Boost.PurchaseBoost(property, actor, d.order));
    assert Waits(Next(Run(NOTHING, before), e), BoostSlot(property), d.order);
    assert Between(between, BoostSlot(property), d.order, 0);
    hide *;
    DeliverySettlesIt(before, e, between, d, BoostSlot(property), 0);
    PaidBoost(Run(Next(Run(NOTHING, before), e), between), AfterAll(before, e, between, d), property, d);
  }

  lemma PaidBoost(u: World, v: World, property: nat, d: Delivery)
    requires Awaits(At(u, BoostSlot(property))).Some?
    requires At(v, BoostSlot(property)) == Settled(At(u, BoostSlot(property)), u.convs, d)
    ensures property < |v.boosts| && v.boosts[property].boostedUntil == Some(d.now + d.periodDays * MS_PER_DAY)
    ensures property < |v.boosts| && v.boosts[property].order == None
  {
    assert At(v, BoostSlot(property)).BoostRecord?;
  }

  /** A paid inspection order pays the new request, unless it was cancelled meanwhile. */
  lemma InspectionIsPaid(before: seq<Event>, actor: Actor, property: nat, between: seq<Event>, d: Delivery)
    requires Follows(before, OnInspection(Hqs.Create(actor, property, d.order)), between) && d.paid
    requires
      var w := Run(NOTHING, before);
      && property < |w.boosts| && MayManage(w.boosts[property].site, actor)
      && (forall i :: 0 <= i < |w.inspections| && w.inspections[i].property == property ==>
            w.inspections[i].status == Hqs.Requested || w.inspections[i].status == Hqs.Canceled)
    requires
      var id := |Run(NOTHING, before).inspections|;
      forall e :: e in between ==>
        !(e.OnInspection? && e.inspection.Cancel? && e.inspection.id == id) && !(e.Webhook? && e.delivery.paid && e.delivery.order == d.order)
    ensures
      var id, t := |Run(NOTHING, before).inspections|, AfterAll(before, OnInspection(Hqs.Create(actor, property, d.order)), between, d).inspections;
      id < |t| && t[id].status == Hqs.Paid && t[id].paidAt == Some(d.now)
  {
    var e, w := OnInspection(Hqs.Create(actor, property, d.order)), Run(NOTHING, before);
    var s := InspectionSlot(|w.inspections|);
    NewInspectionWaits(w, actor, property, d.order);
    assert Between(between, s, d.order, 0);
    hide *;
    DeliverySettlesIt(before, e, between, d, s, 0);
    PaidInspection(Run(Next(w, e), between), AfterAll(before, e, between, d), |w.inspections|, d);
  }

  lemma NewInspectionWaits(w: World, actor: Actor, property: nat, order: OrderId)
    requires property < |w.boosts| && MayManage(w.boosts[property].site, actor)
    requires forall i :: 0 <= i < |w.inspections| && w.inspections[i].property == property ==>
      w.inspections[i].status == Hqs.Requested || w.inspections[i].status == Hqs.Canceled
    ensures Waits(Next(w, OnInspection(Hqs.Create(actor, property, order))), InspectionSlot(|w.inspections|), order)
  {
    assert Boost.Sites(w.boosts)[property] == w.boosts[property].site;
  }

  lemma PaidInspection(u: World, v: World, id: nat, d: Delivery)
    requires Awaits(At(u, InspectionSlot(id))).Some?
    requires At(v, InspectionSlot(id)) == Settled(At(u, InspectionSlot(id)), u.convs, d)
    ensures id < |v.inspections| && v.inspections[id].status == Hqs.Paid && v.inspections[id].paidAt == Some(d.now)
  {
    assert At(v, InspectionSlot(id)).InspectionRecord?;
  }

  /** The order a tenant's payment request put on an unpaid screening pays it, unless it was declined or cancelled meanwhile. */
  lemma ScreeningIsPaid(before: seq<Event>, actor: Actor, id: nat, between: seq<Event>, d: Delivery)
    requires Follows(before, OnScreening(Scr.Pay(actor, id, d.order)), between) && d.paid
    requires
      var t := Run(NOTHING, before).desk.rows;
      id < |t| && t[id].tenant == actor.id && t[id].status == Scr.AwaitingAuthorization && t[id].order == None
    requires forall e :: e in between ==>
      !(e.OnScreening? && (e.screening.Decline? || e.screening.CancelByAdmin?) && e.screening.id == id)
      && !(e.Webhook? && e.delivery.paid && e.delivery.order == d.order)
    ensures
      var t := AfterAll(before, OnScreening(Scr.Pay(actor, id, d.order)), between, d).desk.rows;
      id < |t| && t[id].status == Scr.Paid && t[id].paidAt == Some(d.now)
  {
    var e := OnScreening(Scr.Pay(actor, id, d.order));
    PaymentWaits(Run(NOTHING, before), actor, id, d.order);
    assert Between(between, ScreeningSlot(id), d.order, 0);
    hide *;
    DeliverySettlesIt(before, e, between, d, ScreeningSlot(id), 0);
    PaidScreening(Run(Next(Run(NOTHING, before), e), between), AfterAll(before, e, between, d), id, d);
  }

  lemma PaymentWaits(w: World, actor: Actor, id: nat, order: OrderId)
    requires id < |w.desk.rows| && w.desk.rows[id].tenant == actor.id
    requires w.desk.rows[id].status == Scr.AwaitingAuthorization && w.desk.rows[id].order == None
    ensures Waits(Next(w, OnScreening(Scr.Pay(actor, id, order))), ScreeningSlot(id), order)
  {
  }

  lemma PaidScreening(u: World, v: World, id: nat, d: Delivery)
    requires Awaits(At(u, ScreeningSlot(id))).Some?
    requires At(v, ScreeningSlot(id)) == Settled(At(u, ScreeningSlot(id)), u.convs, d)
    ensures id < |v.desk.rows| && v.desk.rows[id].status == Scr.Paid && v.desk.rows[id].paidAt == Some(d.now)
  {
    assert At(v, ScreeningSlot(id)).ScreeningRecord?;
  }

  /** The order of an open application fee dates the application as paid, whatever happens to it meanwhile. */
  lemma ApplicationIsPaid(before: seq<Event>, actor: Actor, c: nat, id: nat, between: seq<Event>, d: Delivery)
    requires Follows(before, OnApplication(App.Pay(actor, c, d.order)), between) && d.paid
    requires
      var w := Run(NOTHING, before);
      && c < |w.convs| && w.convs[c].tenant == actor.id
      && id < |w.apps| && w.apps[id].conversation == c && w.apps[id].status == App.Started
      && w.apps[id].fee.Some? && w.apps[id].fee.value > 0 && w.apps[id].order == None && w.apps[id].paidAt == None
    requires forall e :: e in between ==> !(e.Webhook? && e.delivery.paid && e.delivery.order == d.order)
    ensures
      var t := AfterAll(before, OnApplication(App.Pay(actor, c, d.order)), between, d).apps;
      id < |t| && t[id].conversation == c && t[id].paidAt == Some(d.now)
  {
    var e := OnApplication(App.Pay(actor, c, d.order));
    var w := Next(Run(NOTHING, before), e);
    var v := AfterAll(before, e, between, d);
    ReachedInv(before);
    assert Between(between, AppSlot(id), d.order, 0);
    hide Next, Run, Follows, Possible, AfterAll, Waits, Between, Inv, At, Settled;
    PayWaits(Run(NOTHING, before), actor, c, id, d.order);
    DeliverySettlesIt(before, e, between, d, AppSlot(id), 0);
    PaidApplication(w, Run(w, between), v, c, id, d);
  }

  lemma PaidApplication(w: World, u: World, v: World, c: nat, id: nat, d: Delivery)
    requires SameWish(u, w, AppSlot(id)) && w.apps[id].conversation == c && Awaits(At(u, AppSlot(id))).Some?
    requires At(v, AppSlot(id)) == Settled(At(u, AppSlot(id)), u.convs, d)
    ensures id < |v.apps| && v.apps[id].conversation == c && v.apps[id].paidAt == Some(d.now)
  {
    assert At(v, AppSlot(id)).AppRecord?;
  }

  /** The world just before the delivery. */
  function Before(before: seq<Event>, e: Event, between: seq<Event>): World { Run(Next(Run(NOTHING, before), e), between) }

  /** No request of the kind on this listing, and no payment yet. */
  predicate NotClosed(between: seq<Event>, id: nat, order: OrderId) {
    forall e :: e in between ==> !(e.OnAd? && e.ad.Close? && e.ad.id == id) && !(e.Webhook? && e.delivery.paid && e.delivery.order == order)
  }

  /** A paid new listing is active for thirty days on the budget it was created with. */
  lemma ListingIsActivated(
      before: seq<Event>, actor: Actor, cost: nat, fee: nat, initial: nat, between: seq<Event>, d: Delivery)
    requires Follows(before, OnAd(Ad.CreateSponsored(actor, cost, fee, initial, d.order)), between) && d.paid
    requires actor.role in {Employer, Administrator, SuperAdministrator} && initial >= cost
    requires NotClosed(between, |Run(NOTHING, before).ads.listings|, d.order)
    ensures
      var id := |Run(NOTHING, before).ads.listings|;
      var t := AfterAll(before, OnAd(Ad.CreateSponsored(actor, cost, fee, initial, d.order)), between, d).ads.listings;
      && id < |t| && t[id].status == Ad.Active && t[id].budget == initial && t[id].periodEnd == Some(d.now + 30 * MS_PER_DAY)
      && t[id].pending == None
  {
    var e, w := OnAd(Ad.CreateSponsored(actor, cost, fee, initial, d.order)), Run(NOTHING, before);
    var id := |w.ads.listings|;
    NewListingWaits(w, actor, cost, fee, initial, d.order);
    assert Between(between, AdSlot(id), d.order, 0);
    assert Before(before, e, between) == Run(Next(w, e), between);
    hide *;
    DeliverySettlesIt(before, e, between, d, AdSlot(id), 0);
    PaidActivation(Next(w, e), Before(before, e, between), AfterAll(before, e, between, d), id, initial, d);
  }

  lemma NewListingWaits(w: World, actor: Actor, cost: nat, fee: nat, initial: nat, order: OrderId)
    requires actor.role in {Employer, Administrator, SuperAdministrator} && initial >= cost
    ensures
      var v := Next(w, OnAd(Ad.CreateSponsored(actor, cost, fee, initial, order)));
      Waits(v, AdSlot(|w.ads.listings|), order) && WishesFor(v, |w.ads.listings|, Ad.Activate, initial, Ad.PendingPayment)
  {
  }

  ghost predicate WishesFor(w: World, id: nat, operation: Ad.Operation, amount: nat, status: Ad.ListingStatus) {
    id < |w.ads.listings| && w.ads.listings[id].pending == Some(operation) && w.ads.listings[id].pendingBudget == Some(amount)
    && w.ads.listings[id].status == status
  }

  lemma PaidActivation(w: World, u: World, v: World, id: nat, initial: nat, d: Delivery)
    requires WishesFor(w, id, Ad.Activate, initial, Ad.PendingPayment) && SameWish(u, w, AdSlot(id)) && Awaits(At(u, AdSlot(id))).Some?
    requires At(v, AdSlot(id)) == Settled(At(u, AdSlot(id)), u.convs, d)
    ensures
      && id < |v.ads.listings| && v.ads.listings[id].status == Ad.Active && v.ads.listings[id].budget == initial
      && v.ads.listings[id].periodEnd == Some(d.now + 30 * MS_PER_DAY) && v.ads.listings[id].pending == None
  {
    assert At(v, AdSlot(id)).AdRecord?;
  }

  /** The listing is the actor's, sponsored, not closed and with nothing pending. */
  ghost predicate MayExtend(w: World, actor: Actor, id: nat) {
    && id < |w.ads.listings| && w.ads.listings[id].sponsored && w.ads.listings[id].poster == actor.id
    && w.ads.listings[id].status != Ad.Closed && w.ads.listings[id].pending == None
  }

  lemma ExtensionWaits(w: World, actor: Actor, id: nat, amount: nat, order: OrderId)
    requires MayExtend(w, actor, id)
    ensures
      var v := Next(w, OnAd(Ad.TopUpBudget(actor, id, amount, order)));
      Waits(v, AdSlot(id), order) && WishesFor(v, id, Ad.TopUp, amount, w.ads.listings[id].status)
    ensures
      var v := Next(w, OnAd(Ad.RenewPeriod(actor, id, order)));
      && Waits(v, AdSlot(id), order) && WishesFor(v, id, Ad.Renew, 0, w.ads.listings[id].status)
      && id < |v.ads.listings| && v.ads.listings[id].periodEnd == w.ads.listings[id].periodEnd
  {
  }

  /** A paid top-up adds its amount to what the clicks have left, and changes nothing else. */
  lemma TopUpIsAdded(before: seq<Event>, actor: Actor, id: nat, amount: nat, between: seq<Event>, d: Delivery)
    requires Follows(before, OnAd(Ad.TopUpBudget(actor, id, amount, d.order)), between) && d.paid
    requires MayExtend(Run(NOTHING, before), actor, id) && NotClosed(between, id, d.order)
    ensures
      var t := Before(before, OnAd(Ad.TopUpBudget(actor, id, amount, d.order)), between).ads.listings;
      var t' := AfterAll(before, OnAd(Ad.TopUpBudget(actor, id, amount, d.order)), between, d).ads.listings;
      && id < |t| && id < |t'|
      && t'[id] == t[id].(budget := t[id].budget + amount, pending := None, pendingBudget := None)
  {
    var e, w := OnAd(Ad.TopUpBudget(actor, id, amount, d.order)), Run(NOTHING, before);
    ExtensionWaits(w, actor, id, amount, d.order);
    assert w.ads.listings[id].status != Ad.Closed;
    assert Between(between, AdSlot(id), d.order, 0);
    assert Before(before, e, between) == Run(Next(w, e), between);
    hide *;
    DeliverySettlesIt(before, e, between, d, AdSlot(id), 0);
    PaidTopUp(Next(w, e), Before(before, e, between), AfterAll(before, e, between, d), id, amount, w.ads.listings[id].status, d);
  }

  lemma PaidTopUp(w: World, u: World, v: World, id: nat, amount: nat, status: Ad.ListingStatus, d: Delivery)
    requires WishesFor(w, id, Ad.TopUp, amount, status) && status != Ad.Closed && SameWish(u, w, AdSlot(id))
    requires Awaits(At(u, AdSlot(id))).Some? && At(v, AdSlot(id)) == Settled(At(u, AdSlot(id)), u.convs, d)
    ensures
      && id < |u.ads.listings| && id < |v.ads.listings| && var l := u.ads.listings[id];
      v.ads.listings[id] == l.(budget := l.budget + amount, pending := None, pendingBudget := None)
  {
    assert At(v, AdSlot(id)).AdRecord?;
  }

  /** The listing is active for thirty days more: from the end of its period, if that is still to come, else from now. */
  ghost predicate Extended(w: World, v: World, id: nat, now: Time) {
    && id < |w.ads.listings| && id < |v.ads.listings| && v.ads.listings[id].status == Ad.Active && v.ads.listings[id].pending == None
    && var end := w.ads.listings[id].periodEnd;
       v.ads.listings[id].periodEnd == Some((if end.Some? && end.value > now then end.value else now) + 30 * MS_PER_DAY)
  }

  /** A paid renewal adds thirty days to a running period, or starts thirty new ones. */
  lemma RenewalIsGranted(before: seq<Event>, actor: Actor, id: nat, between: seq<Event>, d: Delivery)
    requires Follows(before, OnAd(Ad.RenewPeriod(actor, id, d.order)), between) && d.paid
    requires MayExtend(Run(NOTHING, before), actor, id) && NotClosed(between, id, d.order)
    ensures Extended(Run(NOTHING, before), AfterAll(before, OnAd(Ad.RenewPeriod(actor, id, d.order)), between, d), id, d.now)
  {
    var e, w := OnAd(Ad.RenewPeriod(actor, id, d.order)), Run(NOTHING, before);
    hide *;
    ExtensionWaits(w, actor, id, 0, d.order);
    ExtensionIsOpen(w, actor, id);
    NoneClosed(between, id, d.order);
    BeforeIsRun(before, e, between);
    DeliverySettlesIt(before, e, between, d, AdSlot(id), 0);
    PaidRenewal(Next(w, e), Before(before, e, between), AfterAll(before, e, between, d), id, w.ads.listings[id].status, d);
    SamePeriod(w, Next(w, e), AfterAll(before, e, between, d), id, d.now);
  }

  lemma ExtensionIsOpen(w: World, actor: Actor, id: nat)
    requires MayExtend(w, actor, id)
    ensures id < |w.ads.listings| && w.ads.listings[id].status != Ad.Closed
  {
  }

  lemma NoneClosed(between: seq<Event>, id: nat, order: OrderId)
    requires NotClosed(between, id, order)
    ensures Between(between, AdSlot(id), order, 0)
  {
  }

  lemma BeforeIsRun(before: seq<Event>, e: Event, between: seq<Event>)
    ensures Before(before, e, between) == Run(Next(Run(NOTHING, before), e), between)
  {
    hide Run, Next;
  }

  lemma SamePeriod(w: World, v: World, after: World, id: nat, now: Time)
    requires id < |w.ads.listings| && id < |v.ads.listings| && w.ads.listings[id].periodEnd == v.ads.listings[id].periodEnd
    requires Extended(v, after, id, now)
    ensures Extended(w, after, id, now)
  {
  }

  lemma PaidRenewal(w: World, u: World, v: World, id: nat, status: Ad.ListingStatus, d: Delivery)
    requires WishesFor(w, id, Ad.Renew, 0, status) && status != Ad.Closed && SameWish(u, w, AdSlot(id))
    requires Awaits(At(u, AdSlot(id))).Some? && At(v, AdSlot(id)) == Settled(At(u, AdSlot(id)), u.convs, d)
    ensures Extended(w, v, id, d.now)
  {
    assert At(v, AdSlot(id)).AdRecord?;
  }

  /** The job is confirmed and has the voucher that splits its payout by the delivery's percentage, to half a cent. */
  ghost predicate ConfirmedFor(j: Gig.Job, v: World, id: nat, d: Delivery) {
    && id < |v.gigs.jobs| && v.gigs.jobs[id] == j.(status := Gig.Confirmed, order := Some(d.order))
    && id in v.gigs.vouchers
    && var voucher := v.gigs.vouchers[id];
       && j.claimer == Some(voucher.tenant) && !voucher.applied && voucher.payout == j.payout
       && voucher.fee + voucher.rentCredit == j.payout && 0 <= voucher.fee <= j.payout
       && -0.5 < voucher.fee as real - j.payout as real * d.feePercent / 100.0 <= 0.5
       && j.conversation.Some? && j.conversation.value < |v.convs| && v.convs[j.conversation.value].landlord == voucher.landlord
  }

  /**
   A paid job is confirmed, and its claimer has a voucher with the landlord of the claimed conversation,
   unless the completion was rejected or paid anew meanwhile.
   */
  lemma JobIsConfirmed(before: seq<Event>, actor: Actor, id: nat, between: seq<Event>, d: Delivery)
    requires Follows(before, OnGig(Gig.PayAndConfirm(actor, id, d.order)), between) && d.paid && FeeOk(d)
    requires
      var t := Run(NOTHING, before).gigs.jobs;
      id < |t| && t[id].poster == actor.id && t[id].status == Gig.Completed
    requires forall e :: e in between ==>
      !(e.OnGig? && (e.gig.RejectCompletion? || e.gig.PayAndConfirm?) && e.gig.job == id)
      && !(e.Webhook? && e.delivery.paid && e.delivery.order == d.order)
    ensures
      ConfirmedFor(Run(NOTHING, before).gigs.jobs[id], AfterAll(before, OnGig(Gig.PayAndConfirm(actor, id, d.order)), between, d), id, d)
  {
    var e, w := OnGig(Gig.PayAndConfirm(actor, id, d.order)), Run(NOTHING, before);
    CompletedWaits(w, actor, id, d.order);
    assert Between(between, GigSlot(id), d.order, 0);
    assert Before(before, e, between) == Run(Next(w, e), between);
    var u, v := Before(before, e, between), AfterAll(before, e, between, d);
    assert v.convs == u.convs;
    hide *;
    DeliverySettlesIt(before, e, between, d, GigSlot(id), 0);
    PaidJob(w.gigs.jobs[id], Next(w, e), u, v, id, d);
  }

  lemma CompletedWaits(w: World, actor: Actor, id: nat, order: OrderId)
    requires id < |w.gigs.jobs| && w.gigs.jobs[id].poster == actor.id && w.gigs.jobs[id].status == Gig.Completed
    ensures
      var v := Next(w, OnGig(Gig.PayAndConfirm(actor, id, order)));
      Waits(v, GigSlot(id), order) && id < |v.gigs.jobs| && v.gigs.jobs[id] == w.gigs.jobs[id].(order := Some(order))
  {
  }

  lemma PaidJob(j: Gig.Job, w: World, u: World, v: World, id: nat, d: Delivery)
    requires id < |w.gigs.jobs| && w.gigs.jobs[id] == j.(order := Some(d.order)) && j.status == Gig.Completed
    requires SameWish(u, w, GigSlot(id)) && Inv(u) && FeeOk(d) && v.convs == u.convs
    requires Awaits(At(u, GigSlot(id))).Some? && At(v, GigSlot(id)) == Settled(At(u, GigSlot(id)), u.convs, d)
    ensures ConfirmedFor(j, v, id, d)
  {
    ReadyJobFits(u, GigSlot(id));
    hide Inv, Gig.FeeCents;
    assert At(u, GigSlot(id)).job == u.gigs.jobs[id];
    assert At(v, GigSlot(id)).GigRecord?;
    Gig.VoucherIsFair(u.gigs.jobs[id], u.convs[j.conversation.value], d.feePercent);
    assert id in v.gigs.vouchers;
  }

  lemma PayWaits(w: World, actor: Actor, c: nat, id: nat, order: OrderId)
    requires Inv(w) && c < |w.convs| && w.convs[c].tenant == actor.id
    requires id < |w.apps| && w.apps[id].conversation == c && w.apps[id].status == App.Started
    requires w.apps[id].fee.Some? && w.apps[id].fee.value > 0 && w.apps[id].order == None && w.apps[id].paidAt == None
    ensures var v := Next(w, OnApplication(App.Pay(actor, c, order))); Waits(v, AppSlot(id), order) && v.apps[id].conversation == c
  {
    hide Gig.Inv, Ad.Inv, Hqs.Inv, Scr.Inv, OrdersFit;
    assert FindFirst(w.apps, App.Of(c)) == Some(id);
  }
}
