/**
 One payment webhook serves seven services. Orders are delivered at least once, in any
 order, paid or unpaid, while users start, replace, reject, cancel and close things.
 */
module Payments {
  import opened Platform
  import Gig = GigJobs
  import Ad = SponsoredListings
  import Boost = PropertyBoosts
  import Sub = Subscriptions
  import Hqs = HqsInspections
  import Scr = TenantScreenings
  import App = Applications

  /** Everything stored, and every order id the payment provider has handed out. */
  datatype World = World(
    convs: seq<Conversation>, gigs: Gig.Gigs, ads: Ad.Ads, boosts: Boost.Table, subs: Sub.Table,
    inspections: Hqs.Table, desk: Scr.Desk, apps: App.Table, issued: set<OrderId>)

  /** What a webhook call brings besides its order: the time and the configured numbers. */
  datatype Delivery = Delivery(order: OrderId, paid: bool, now: Time, feePercent: real, periodDays: nat)

  datatype Event =
    | Talk(conversation: Conversation)
    | OnGig(gig: Gig.GigRequest)
    | OnAd(ad: Ad.AdRequest)
    | OnBoost(boost: Boost.BoostRequest)
    | OnSub(sub: Sub.SubscriptionRequest)
    | OnInspection(inspection: Hqs.InspectionRequest)
    | OnScreening(screening: Scr.ScreeningRequest)
    | OnApplication(application: App.AppRequest)
    | Webhook(delivery: Delivery)

  function NewOrder(e: Event): Option<OrderId> {
    match e
    case OnGig(r) => Gig.NewOrder(r)
    case OnAd(r) => Ad.NewOrder(r)
    case OnBoost(r) => Boost.NewOrder(r)
    case OnSub(r) => Sub.NewOrder(r)
    case OnInspection(r) => Hqs.NewOrder(r)
    case OnScreening(r) => Scr.NewOrder(r)
    case OnApplication(r) => App.NewOrder(r)
    case _ => None
  }

  /** The controller: every service is offered the event, in turn. */
  function Deliver(w: World, d: Delivery): World {
    w.(gigs := Gig.Webhook(w.gigs, w.convs, d.order, d.paid, d.feePercent),
       ads := Ad.Webhook(w.ads, d.order, d.paid, d.now),
       boosts := Boost.Webhook(w.boosts, d.order, d.paid, d.now, d.periodDays),
       subs := Sub.Webhook(w.subs, d.order, d.paid, d.now, d.periodDays),
       inspections := Hqs.Webhook(w.inspections, d.order, d.paid, d.now),
       desk := Scr.Webhook(w.desk, d.order, d.paid, d.now),
       apps := App.Webhook(w.apps, d.order, d.paid, d.now))
  }

  function Handled(w: World, e: Event): World {
    match e
    case Talk(c) => w.(convs := w.convs + [c])
    case OnGig(r) => w.(gigs := After(Gig.Step(w.gigs, w.convs, Boost.Sites(w.boosts), r), w.gigs))
    case OnAd(r) => w.(ads := After(Ad.Step(w.ads, r), w.ads))
    case OnBoost(r) => w.(boosts := After(Boost.Step(w.boosts, r), w.boosts))
    case OnSub(r) => w.(subs := After(Sub.Step(w.subs, r), w.subs))
    case OnInspection(r) => w.(inspections := After(Hqs.Step(w.inspections, Boost.Sites(w.boosts), r), w.inspections))
    case OnScreening(r) => w.(desk := After(Scr.Step(w.desk, w.convs, r), w.desk))
    case OnApplication(r) => w.(apps := After(App.Step(w.apps, w.convs, r), w.apps))
    case Webhook(d) => Deliver(w, d)
  }

  function Next(w: World, e: Event): World {
    var n := NewOrder(e);
    Handled(w, e).(issued := w.issued + if n.Some? then {n.value} else {})
  }

  /** The provider hands out fresh order ids, and the configured fee is a percentage. */
  predicate Enabled(w: World, e: Event) {
    && (NewOrder(e).Some? ==> NewOrder(e).value !in w.issued)
    && (e.Webhook? ==> 0.0 <= e.delivery.feePercent <= 100.0)
  }

  function Run(w: World, es: seq<Event>): World
    decreases |es|
  {
    if es == [] then w else Run(Next(w, es[0]), es[1..])
  }

  predicate Possible(w: World, es: seq<Event>)
    decreases |es|
  {
    es == [] || (Enabled(w, es[0]) && Possible(Next(w, es[0]), es[1..]))
  }

  const NOTHING := World([], Gig.Gigs([], map[]), Ad.NO_ADS, [], [], [], Scr.Desk([], []), [], {})

  // --- the controller ---

  class PaymentWebhooksController {
    const gigs: Gig.GigJobsService
    const ads: Ad.JobReferralsService
    const properties: Boost.PropertiesService
    const subscriptions: Sub.SubscriptionsService
    const inspections: Hqs.HqsInspectionsService
    const screenings: Scr.TenantScreeningsService
    const applications: App.ApplicationsService
    var convs: seq<Conversation>
    ghost var issued: set<OrderId>

    ghost function Stored(): World
      reads this, gigs, ads, properties, subscriptions, inspections, screenings, applications
    {
      World(convs, gigs.Db(), ads.Db(), properties.rows, subscriptions.rows, inspections.rows, screenings.Db(),
            applications.rows, issued)
    }

    constructor (gigs: Gig.GigJobsService, ads: Ad.JobReferralsService, properties: Boost.PropertiesService,
                 subscriptions: Sub.SubscriptionsService, inspections: Hqs.HqsInspectionsService,
                 screenings: Scr.TenantScreeningsService, applications: App.ApplicationsService)
      ensures this.gigs == gigs && this.ads == ads && this.properties == properties
      ensures this.subscriptions == subscriptions && this.inspections == inspections
      ensures this.screenings == screenings && this.applications == applications
      ensures convs == [] && issued == {}
    {
      this.gigs, this.ads, this.properties, this.subscriptions := gigs, ads, properties, subscriptions;
      this.inspections, this.screenings, this.applications := inspections, screenings, applications;
      convs, issued := [], {};
    }

    /** `event` is what the provider parses from the body, None if it is no payment event. */
    method Handle(validSignature: bool, event: Option<Delivery>) returns (status: Status)
      modifies gigs, ads, properties, subscriptions, inspections, screenings, applications
      ensures status == if validSignature then Okay else BadRequest
      ensures Stored() == if validSignature && event.Some? then Deliver(old(Stored()), event.value) else old(Stored())
    {
      // The first two services answer false to a bad signature, the third throws.
      if !validSignature {
        return BadRequest;
      }
      if event.None? {
        return Okay;
      }
      var d := event.value;
      var _ := gigs.HandlePaymentWebhook(convs, d.order, d.paid, d.feePercent);
      var _ := ads.HandlePaymentWebhook(d.order, d.paid, d.now);
      properties.HandlePaymentWebhook(d.order, d.paid, d.now, d.periodDays);
      subscriptions.HandlePaymentWebhook(d.order, d.paid, d.now, d.periodDays);
      inspections.HandlePaymentWebhook(d.order, d.paid, d.now);
      screenings.HandlePaymentWebhook(d.order, d.paid, d.now);
      applications.HandlePaymentWebhook(d.order, d.paid, d.now);
      return Okay;
    }
  }

  // --- records across the seven tables ---

  /** A place that can be paid for, in one of the tables. */
  datatype Slot =
    | GigSlot(i: nat) | AdSlot(i: nat) | BoostSlot(i: nat) | SubSlot(i: nat)
    | InspectionSlot(i: nat) | ScreeningSlot(i: nat) | AppSlot(i: nat)

  /** What is stored there; a gig job counts together with its voucher. */
  datatype Record =
    | NoRecord
    | GigRecord(job: Gig.Job, voucher: Option<Gig.Voucher>)
    | AdRecord(listing: Ad.Listing)
    | BoostRecord(property: Boost.Property)
    | SubRecord(subscription: Sub.Subscription)
    | InspectionRecord(inspection: Hqs.Inspection)
    | ScreeningRecord(screening: Scr.Screening)
    | AppRecord(application: App.Application)

  function At(w: World, s: Slot): Record {
    match s
    case GigSlot(i) =>
      if i < |w.gigs.jobs|
      then GigRecord(w.gigs.jobs[i], if i in w.gigs.vouchers then Some(w.gigs.vouchers[i]) else None) else NoRecord
    case AdSlot(i) => if i < |w.ads.listings| then AdRecord(w.ads.listings[i]) else NoRecord
    case BoostSlot(i) => if i < |w.boosts| then BoostRecord(w.boosts[i]) else NoRecord
    case SubSlot(i) => if i < |w.subs| then SubRecord(w.subs[i]) else NoRecord
    case InspectionSlot(i) => if i < |w.inspections| then InspectionRecord(w.inspections[i]) else NoRecord
    case ScreeningSlot(i) => if i < |w.desk.rows| then ScreeningRecord(w.desk.rows[i]) else NoRecord
    case AppSlot(i) => if i < |w.apps| then AppRecord(w.apps[i]) else NoRecord
  }

  /** The order stored with a record. */
  function OrderOf(r: Record): Option<OrderId> {
    match r
    case NoRecord => None
    case GigRecord(j, _) => j.order
    case AdRecord(l) => l.order
    case BoostRecord(p) => p.order
    case SubRecord(s) => s.order
    case InspectionRecord(x) => x.order
    case ScreeningRecord(s) => s.order
    case AppRecord(a) => a.order
  }

  /** The order whose payment the record may still honour. */
  function Awaits(r: Record): Option<OrderId> {
    match r
    case NoRecord => None
    case GigRecord(j, _) => Gig.Awaits(j)
    case AdRecord(l) => Ad.Awaits(l)
    case BoostRecord(p) => Boost.Awaits(p)
    case SubRecord(s) => Sub.Awaits(s)
    case InspectionRecord(x) => Hqs.Awaits(x)
    case ScreeningRecord(s) => Scr.Awaits(s)
    case AppRecord(a) => App.Awaits(a)
  }

  /** The record after a payment it awaits. Only a claimed gig job, not yet completed again, ignores its payment. */
  function Settled(r: Record, convs: seq<Conversation>, d: Delivery): Record
    requires Awaits(r).Some?
  {
    match r
    case GigRecord(j, v) =>
      var paid := j.status == Gig.Completed && j.claimer.Some? && j.conversation.Some? && j.conversation.value < |convs|;
      if paid then GigRecord(Gig.Settled(j), Some(Gig.IssuedVoucher(j, convs[j.conversation.value], d.feePercent))) else r
    case AdRecord(l) => AdRecord(Ad.Paid(l, d.now))
    case BoostRecord(p) => BoostRecord(Boost.Settled(p, d.now, d.periodDays))
    case SubRecord(s) => SubRecord(Sub.Settled(s, d.now, d.periodDays))
    case InspectionRecord(x) => InspectionRecord(Hqs.Settled(x, d.now))
    case ScreeningRecord(s) => ScreeningRecord(Scr.Settled(s, d.now))
    case AppRecord(a) => AppRecord(App.Settled(a, d.now))
  }

  // --- what every run keeps ---

  ghost predicate TablesFit(w: World) {
    && Gig.Inv(w.gigs, w.convs) && Ad.Inv(w.ads) && Hqs.Inv(w.inspections)
    && Scr.Inv(w.desk, w.convs) && App.Inv(w.apps)
  }

  ghost predicate OrdersFit(w: World) {
    && (forall s: Slot :: OrderOf(At(w, s)).Some? ==> OrderOf(At(w, s)).value in w.issued)
    && (forall s: Slot, t: Slot :: OrderOf(At(w, s)).Some? && OrderOf(At(w, s)) == OrderOf(At(w, t)) ==> s == t)
  }

  ghost predicate Inv(w: World) { TablesFit(w) && OrdersFit(w) }

  lemma OrdersAreDistinct(w: World)
    requires OrdersFit(w)
    ensures Gig.Distinct(w.gigs) && Ad.Distinct(w.ads) && Boost.Distinct(w.boosts) && Sub.Distinct(w.subs)
    ensures Hqs.Distinct(w.inspections) && Scr.Distinct(w.desk) && App.Distinct(w.apps)
  {
    forall i: nat, k: nat | i < |w.gigs.jobs| && k < |w.gigs.jobs| && w.gigs.jobs[i].order.Some? && w.gigs.jobs[i].order == w.gigs.jobs[k].order
      ensures i == k
    {
      assert OrderOf(At(w, GigSlot(i))) == OrderOf(At(w, GigSlot(k)));
    }
    forall i: nat, k: nat | i < |w.ads.listings| && k < |w.ads.listings| && w.ads.listings[i].order.Some? && w.ads.listings[i].order == w.ads.listings[k].order
      ensures i == k
    {
      assert OrderOf(At(w, AdSlot(i))) == OrderOf(At(w, AdSlot(k)));
    }
    forall i: nat, k: nat | i < |w.boosts| && k < |w.boosts| && w.boosts[i].order.Some? && w.boosts[i].order == w.boosts[k].order
      ensures i == k
    {
      assert OrderOf(At(w, BoostSlot(i))) == OrderOf(At(w, BoostSlot(k)));
    }
    forall i: nat, k: nat | i < |w.subs| && k < |w.subs| && w.subs[i].order.Some? && w.subs[i].order == w.subs[k].order
      ensures i == k
    {
      assert OrderOf(At(w, SubSlot(i))) == OrderOf(At(w, SubSlot(k)));
    }
    forall i: nat, k: nat | i < |w.inspections| && k < |w.inspections| && w.inspections[i].order.Some? && w.inspections[i].order == w.inspections[k].order
      ensures i == k
    {
      assert OrderOf(At(w, InspectionSlot(i))) == OrderOf(At(w, InspectionSlot(k)));
    }
    forall i: nat, k: nat | i < |w.desk.rows| && k < |w.desk.rows| && w.desk.rows[i].order.Some? && w.desk.rows[i].order == w.desk.rows[k].order
      ensures i == k
    {
      assert OrderOf(At(w, ScreeningSlot(i))) == OrderOf(At(w, ScreeningSlot(k)));
    }
    forall i: nat, k: nat | i < |w.apps| && k < |w.apps| && w.apps[i].order.Some? && w.apps[i].order == w.apps[k].order
      ensures i == k
    {
      assert OrderOf(At(w, AppSlot(i))) == OrderOf(At(w, AppSlot(k)));
    }
  }

  /** A paid delivery changes exactly the records that await its order, and changes them once. */
  lemma DeliverySettles(w: World, d: Delivery, s: Slot)
    requires Inv(w)
    ensures At(Deliver(w, d), s)
         == if d.paid && Awaits(At(w, s)) == Some(d.order) then Settled(At(w, s), w.convs, d) else At(w, s)
  {
    if !d.paid {
      assert Deliver(w, d) == w;
    } else {
      OrdersAreDistinct(w);
      PaidDeliverySettles(w, d, s);
    }
  }

  lemma PaidDeliverySettles(w: World, d: Delivery, s: Slot)
    requires TablesFit(w) && d.paid
    requires Gig.Distinct(w.gigs) && Ad.Distinct(w.ads) && Boost.Distinct(w.boosts) && Sub.Distinct(w.subs)
    requires Hqs.Distinct(w.inspections) && Scr.Distinct(w.desk) && App.Distinct(w.apps)
    ensures At(Deliver(w, d), s)
         == if Awaits(At(w, s)) == Some(d.order) then Settled(At(w, s), w.convs, d) else At(w, s)
  {
    hide Gig.Webhook, Ad.Webhook, Boost.Webhook, Sub.Webhook, Hqs.Webhook, Scr.Webhook, App.Webhook;
    DeliveryKeepsLengths(w, d);
    match s
    case GigSlot(i) => if i < |w.gigs.jobs| { Gig.WebhookSettles(w.gigs, w.convs, d.order, d.feePercent, i); }
    case AdSlot(i) => if i < |w.ads.listings| { Ad.WebhookSettles(w.ads, d.order, d.now, i); }
    case BoostSlot(i) => if i < |w.boosts| { Boost.WebhookSettles(w.boosts, d.order, d.now, d.periodDays, i); }
    case SubSlot(i) => if i < |w.subs| { Sub.WebhookSettles(w.subs, d.order, d.now, d.periodDays, i); }
    case InspectionSlot(i) => if i < |w.inspections| { Hqs.WebhookSettles(w.inspections, d.order, d.now, i); }
    case ScreeningSlot(i) => if i < |w.desk.rows| { Scr.WebhookSettles(w.desk, d.order, d.now, i); }
    case AppSlot(i) => if i < |w.apps| { App.WebhookSettles(w.apps, d.order, d.now, i); }
  }

  lemma DeliveryKeepsLengths(w: World, d: Delivery)
    ensures var v := Deliver(w, d);
            && |v.gigs.jobs| == |w.gigs.jobs| && |v.ads.listings| == |w.ads.listings| && |v.boosts| == |w.boosts|
            && |v.subs| == |w.subs| && |v.inspections| == |w.inspections| && |v.desk.rows| == |w.desk.rows|
            && |v.apps| == |w.apps|
            && v.ads.visits == w.ads.visits && v.ads.clicks == w.ads.clicks && v.desk.shares == w.desk.shares
            && v.convs == w.convs && v.issued == w.issued
  {
  }

  lemma NextKeepsTables(w: World, e: Event)
    requires TablesFit(w) && Enabled(w, e)
    ensures TablesFit(Next(w, e))
  {
    match e
    case Talk(c) =>
      Gig.MoreConversationsKeepInv(w.gigs, w.convs, w.convs + [c]);
      Scr.TalkKeepsInv(w.desk, w.convs, c);
    case OnGig(r) => Gig.StepKeepsInv(w.gigs, w.convs, Boost.Sites(w.boosts), r);
    case OnAd(r) => Ad.NextKeepsInv(w.ads, Ad.Request(r));
    case OnBoost(_) =>
    case OnSub(_) =>
    case OnInspection(r) => Hqs.StepKeepsInv(w.inspections, Boost.Sites(w.boosts), r);
    case OnScreening(r) => Scr.StepKeepsInv(w.desk, w.convs, r);
    case OnApplication(r) => App.StepKeepsInv(w.apps, w.convs, r);
    case Webhook(d) =>
      Gig.WebhookKeepsInv(w.gigs, w.convs, d.order, d.paid, d.feePercent);
      Ad.NextKeepsInv(w.ads, Ad.AdEvent.Delivery(d.order, d.paid, d.now));
      Hqs.WebhookKeepsInv(w.inspections, d.order, d.paid, d.now);
      Scr.WebhookKeepsInv(w.desk, w.convs, d.order, d.paid, d.now);
      App.WebhookKeepsInv(w.apps, d.order, d.paid, d.now);
  }

  /** The record a request attaches its new order to. */
  function Target(w: World, e: Event): Slot {
    match e
    case OnGig(r) => GigSlot(Gig.Target(w.gigs, r))
    case OnAd(r) => AdSlot(Ad.Target(w.ads, r))
    case OnBoost(r) => BoostSlot(Boost.Target(w.boosts, r))
    case OnSub(r) => SubSlot(Sub.RowOf(w.subs, r.actor.id))
    case OnInspection(_) => InspectionSlot(|w.inspections|)
    case OnScreening(r) => ScreeningSlot(Scr.Target(w.desk, r))
    case OnApplication(r) => AppSlot(App.Target(w.apps, r))
    case _ => GigSlot(0)
  }

  /** A step attaches no order but the new one, to one record, and makes no record await an order again. */
  lemma NextOrders(w: World, e: Event, s: Slot)
    requires Inv(w)
    ensures var before, after := At(w, s), At(Next(w, e), s);
            OrderOf(after).Some? ==>
              || (OrderOf(after) == OrderOf(before) && (Awaits(after).Some? ==> Awaits(before).Some?))
              || (s == Target(w, e) && OrderOf(after) == NewOrder(e))
  {
    hide Gig.Step, Ad.Step, Boost.Step, Sub.Step, Hqs.Step, Scr.Step, App.Step, Deliver, TablesFit, OrdersFit, After,
      Gig.Target, Ad.Target, Boost.Target, Sub.RowOf, Scr.Target, App.Target, Settled, Boost.Sites;
    InvParts(w);
    match e
    case Talk(_) =>
    case OnGig(r) => if s.GigSlot? { Gig.StepOrders(w.gigs, w.convs, Boost.Sites(w.boosts), r, s.i); }
    case OnAd(r) => if s.AdSlot? { Ad.StepOrders(w.ads, r, s.i); }
    case OnBoost(r) => if s.BoostSlot? { Boost.StepOrders(w.boosts, r, s.i); }
    case OnSub(r) => if s.SubSlot? { Sub.StepOrders(w.subs, r, s.i); }
    case OnInspection(r) => if s.InspectionSlot? { Hqs.StepOrders(w.inspections, Boost.Sites(w.boosts), r, s.i); }
    case OnScreening(r) => if s.ScreeningSlot? { Scr.StepOrders(w.desk, w.convs, r, s.i); }
    case OnApplication(r) => if s.AppSlot? { App.StepOrders(w.apps, w.convs, r, s.i); }
    case Webhook(d) => DeliveryOrders(w, d, s);
  }

  lemma DeliveryOrders(w: World, d: Delivery, s: Slot)
    requires Inv(w)
    ensures var before, after := At(w, s), At(Deliver(w, d), s);
            OrderOf(after).Some? ==> OrderOf(after) == OrderOf(before) && (Awaits(after).Some? ==> Awaits(before).Some?)
  {
    hide Deliver, Inv, At, OrderOf, Awaits, Settled;
    DeliverySettles(w, d, s);
    if Awaits(At(w, s)).Some? {
      SettlingSpends(At(w, s), w.convs, d);
    }
  }

  lemma InvParts(w: World)
    requires TablesFit(w)
    ensures Gig.Inv(w.gigs, w.convs) && Ad.Inv(w.ads)
  {
  }

  lemma SettlingSpends(r: Record, convs: seq<Conversation>, d: Delivery)
    requires Awaits(r).Some?
    ensures var t := Settled(r, convs, d);
            (OrderOf(t).Some? ==> OrderOf(t) == OrderOf(r)) && (t != r ==> Awaits(t).None?)
  {
  }

  lemma NextKeepsInv(w: World, e: Event)
    requires Inv(w) && Enabled(w, e)
    ensures Inv(Next(w, e))
  {
    NextKeepsTables(w, e);
    var v := Next(w, e);
    forall s: Slot
      ensures var before, after := At(w, s), At(v, s);
              OrderOf(after).Some? ==>
                OrderOf(after) == OrderOf(before) || (s == Target(w, e) && OrderOf(after) == NewOrder(e))
    {
      NextOrders(w, e, s);
    }
    hide Handled, At, OrderOf, Target, NewOrder, TablesFit;
    assert OrdersFit(v);
  }

  // --- each order takes effect once, on one record ---

  /** A gig job whose completion was rejected ignores its payment until it is completed again. */
  predicate Ready(r: Record) { r.GigRecord? ==> r.job.status == Gig.Completed }

  lemma SettlingChanges(r: Record, convs: seq<Conversation>, d: Delivery)
    requires Awaits(r).Some? && Ready(r) && (r.GigRecord? ==> Gig.JobFits(r.job, convs))
    ensures Settled(r, convs, d) != r
  {
  }

  /** Worlds with the same records, and the same rows that nobody pays for, are the same. */
  lemma SameRecordsSameWorld(v: World, w: World)
    requires TablesFit(v) && TablesFit(w) && forall s: Slot :: At(v, s) == At(w, s)
    requires v.convs == w.convs && v.issued == w.issued && v.desk.shares == w.desk.shares
    requires v.ads.visits == w.ads.visits && v.ads.clicks == w.ads.clicks
    ensures v == w
  {
    SameLengths(v, w);
    forall i: nat
      ensures i < |w.gigs.jobs| ==> v.gigs.jobs[i] == w.gigs.jobs[i]
      ensures i in v.gigs.vouchers <==> i in w.gigs.vouchers
      ensures i in w.gigs.vouchers ==> v.gigs.vouchers[i] == w.gigs.vouchers[i]
    {
      assert At(v, GigSlot(i)) == At(w, GigSlot(i));
    }
    assert v.gigs.vouchers == w.gigs.vouchers;
    forall i: nat | i < |w.ads.listings|
      ensures v.ads.listings[i] == w.ads.listings[i]
    {
      assert At(v, AdSlot(i)) == At(w, AdSlot(i));
    }
    forall i: nat | i < |w.boosts|
      ensures v.boosts[i] == w.boosts[i]
    {
      assert At(v, BoostSlot(i)) == At(w, BoostSlot(i));
    }
    forall i: nat | i < |w.subs|
      ensures v.subs[i] == w.subs[i]
    {
      assert At(v, SubSlot(i)) == At(w, SubSlot(i));
    }
    forall i: nat | i < |w.inspections|
      ensures v.inspections[i] == w.inspections[i]
    {
      assert At(v, InspectionSlot(i)) == At(w, InspectionSlot(i));
    }
    forall i: nat | i < |w.desk.rows|
      ensures v.desk.rows[i] == w.desk.rows[i]
    {
      assert At(v, ScreeningSlot(i)) == At(w, ScreeningSlot(i));
    }
    forall i: nat | i < |w.apps|
      ensures v.apps[i] == w.apps[i]
    {
      assert At(v, AppSlot(i)) == At(w, AppSlot(i));
    }
  }

  lemma SameLengths(v: World, w: World)
    requires forall s: Slot :: At(v, s) == At(w, s)
    ensures |v.gigs.jobs| == |w.gigs.jobs| && |v.ads.listings| == |w.ads.listings| && |v.boosts| == |w.boosts|
    ensures |v.subs| == |w.subs| && |v.inspections| == |w.inspections| && |v.desk.rows| == |w.desk.rows|
    ensures |v.apps| == |w.apps|
  {
    assert At(v, GigSlot(|w.gigs.jobs|)) == NoRecord && At(w, GigSlot(|v.gigs.jobs|)) == NoRecord;
    assert At(v, AdSlot(|w.ads.listings|)) == NoRecord && At(w, AdSlot(|v.ads.listings|)) == NoRecord;
    assert At(v, BoostSlot(|w.boosts|)) == NoRecord && At(w, BoostSlot(|v.boosts|)) == NoRecord;
    assert At(v, SubSlot(|w.subs|)) == NoRecord && At(w, SubSlot(|v.subs|)) == NoRecord;
    assert At(v, InspectionSlot(|w.inspections|)) == NoRecord && At(w, InspectionSlot(|v.inspections|)) == NoRecord;
    assert At(v, ScreeningSlot(|w.desk.rows|)) == NoRecord && At(w, ScreeningSlot(|v.desk.rows|)) == NoRecord;
    assert At(v, AppSlot(|w.apps|)) == NoRecord && At(w, AppSlot(|v.apps|)) == NoRecord;
  }

  predicate FeeOk(d: Delivery) { 0.0 <= d.feePercent <= 100.0 }

  lemma DeliveryKeepsInv(w: World, d: Delivery)
    requires Inv(w) && FeeOk(d)
    ensures Inv(Deliver(w, d))
  {
    NextKeepsInv(w, Webhook(d));
    assert Next(w, Webhook(d)) == Deliver(w, d);
  }

  /** A delivery changes something exactly if it is paid and some record awaits its order and is ready for it. */
  lemma DeliveryTakesEffect(w: World, d: Delivery)
    requires Inv(w) && FeeOk(d)
    ensures Deliver(w, d) != w <==>
            d.paid && exists s: Slot :: Awaits(At(w, s)) == Some(d.order) && Ready(At(w, s))
  {
    var v := Deliver(w, d);
    DeliveryKeepsInv(w, d);
    DeliveryKeepsLengths(w, d);
    forall s: Slot
      ensures At(v, s) != At(w, s) <==> d.paid && Awaits(At(w, s)) == Some(d.order) && Ready(At(w, s))
    {
      DeliverySettles(w, d, s);
      if Awaits(At(w, s)).Some? && Ready(At(w, s)) {
        SettlingChanges(At(w, s), w.convs, d);
      }
    }
    if forall s: Slot :: At(v, s) == At(w, s) {
      SameRecordsSameWorld(v, w);
    }
  }

  /** One delivery changes at most one record in all seven tables. */
  lemma DeliveryChangesOneRecord(w: World, d: Delivery, s: Slot, t: Slot)
    requires Inv(w) && At(Deliver(w, d), s) != At(w, s) && At(Deliver(w, d), t) != At(w, t)
    ensures s == t && d.paid && OrderOf(At(w, s)) == Some(d.order)
  {
    DeliverySettles(w, d, s);
    DeliverySettles(w, d, t);
  }

  /** The order was handed out and nothing will ever honour it again. */
  ghost predicate Spent(w: World, order: OrderId) {
    order in w.issued && forall s: Slot :: Awaits(At(w, s)) != Some(order)
  }

  lemma NextIssues(w: World, e: Event)
    ensures w.issued <= Next(w, e).issued
    ensures NewOrder(e).Some? ==> NewOrder(e).value in Next(w, e).issued
  {
  }

  lemma SpentStays(w: World, e: Event, order: OrderId)
    requires Inv(w) && Enabled(w, e) && Spent(w, order)
    ensures Spent(Next(w, e), order)
  {
    hide At, Next, Target, Inv, NewOrder;
    forall s: Slot
      ensures Awaits(At(Next(w, e), s)) != Some(order)
    {
      NextOrders(w, e, s);
      AwaitsIsOrder(At(Next(w, e), s));
      AwaitsIsOrder(At(w, s));
      assert Awaits(At(w, s)) != Some(order);
    }
    NextIssues(w, e);
  }

  lemma ReadyJobFits(w: World, s: Slot)
    requires TablesFit(w)
    ensures At(w, s).GigRecord? ==> Gig.JobFits(At(w, s).job, w.convs)
  {
  }

  lemma EffectSpends(w: World, d: Delivery)
    requires Inv(w) && FeeOk(d) && Deliver(w, d) != w
    ensures Spent(Deliver(w, d), d.order)
  {
    DeliveryTakesEffect(w, d);
    var k: Slot :| Awaits(At(w, k)) == Some(d.order) && Ready(At(w, k));
    AwaitsIsOrder(At(w, k));
    assert OrderOf(At(w, k)).value in w.issued;
    DeliveryKeepsLengths(w, d);
    forall s: Slot
      ensures Awaits(At(Deliver(w, d), s)) != Some(d.order)
    {
      DeliverySettles(w, d, s);
      AwaitsIsOrder(At(w, s));
      hide At, Deliver, Awaits, OrderOf, Settled;
      if Awaits(At(w, s)) == Some(d.order) {
        assert OrderOf(At(w, s)) == OrderOf(At(w, k));
        assert s == k;
        ReadyJobFits(w, s);
        SettlingChanges(At(w, s), w.convs, d);
        SettlingSpends(At(w, s), w.convs, d);
      }
    }
  }

  /** How many deliveries of `order` changed anything in the run. */
  function Effects(w: World, es: seq<Event>, order: OrderId): nat
    decreases |es|
  {
    if es == [] then 0
    else
      (if es[0].Webhook? && es[0].delivery.order == order && Deliver(w, es[0].delivery) != w then 1 else 0)
      + Effects(Next(w, es[0]), es[1..], order)
  }

  lemma {:induction false} EffectsFrom(w: World, es: seq<Event>, order: OrderId)
    requires Inv(w) && Possible(w, es)
    ensures Inv(Run(w, es))
    ensures Effects(w, es, order) <= 1
    ensures Spent(w, order) ==> Effects(w, es, order) == 0
    decreases |es|
  {
    hide Inv, Spent, Enabled, Deliver;
    if es != [] {
      var v := Next(w, es[0]);
      NextKeepsInv(w, es[0]);
      EffectsFrom(v, es[1..], order);
      if Spent(w, order) {
        SpentStays(w, es[0], order);
      }
      if es[0].Webhook? && es[0].delivery.order == order {
        OneDelivery(w, es[0], order);
      }
    }
  }

  lemma OneDelivery(w: World, e: Event, order: OrderId)
    requires Inv(w) && Enabled(w, e) && e.Webhook? && e.delivery.order == order
    ensures Spent(w, order) ==> Deliver(w, e.delivery) == w
    ensures Deliver(w, e.delivery) != w ==> Spent(Next(w, e), order)
  {
    DeliveryTakesEffect(w, e.delivery);
    assert Next(w, e) == Deliver(w, e.delivery);
    if Deliver(w, e.delivery) != w {
      EffectSpends(w, e.delivery);
    }
  }

  /**
   Exactly-once safety: whatever users do in between, and however often and in whatever
   order events are delivered, each order changes the stored state at most once.
   */
  lemma PaymentsTakeEffectOnce(es: seq<Event>, order: OrderId)
    requires Possible(NOTHING, es)
    ensures Inv(Run(NOTHING, es)) && Effects(NOTHING, es, order) <= 1
  {
    assert Inv(NOTHING);
    EffectsFrom(NOTHING, es, order);
  }

  /** The delivery paid this job, and the voucher splits the payout by its percentage, to half a cent. */
  predicate PaidBy(d: Delivery, j: Gig.Job, v: Gig.Voucher) {
    && d.paid && j.order == Some(d.order)
    && v.payout == j.payout && v.fee + v.rentCredit == j.payout && 0 <= v.fee <= j.payout
    && -0.5 < v.fee as real - j.payout as real * d.feePercent / 100.0 <= 0.5
  }

  /** The job and what its voucher is worth are the same in both worlds. */
  ghost predicate SameVoucher(v: World, w: World, job: nat) {
    && job < |v.gigs.jobs| && job < |w.gigs.jobs| && v.gigs.jobs[job] == w.gigs.jobs[job]
    && job in v.gigs.vouchers && job in w.gigs.vouchers
    && v.gigs.vouchers[job] == w.gigs.vouchers[job].(applied := v.gigs.vouchers[job].applied)
  }

  lemma DeliveryKeepsVoucher(w: World, d: Delivery, job: nat)
    requires Inv(w) && job in w.gigs.vouchers
    ensures SameVoucher(Deliver(w, d), w, job)
  {
    DeliverySettles(w, d, GigSlot(job));
    DeliveryKeepsLengths(w, d);
    hide Deliver, OrdersFit;
  }

  lemma VoucherStays(w: World, e: Event, job: nat)
    requires Inv(w) && job in w.gigs.vouchers
    ensures SameVoucher(Next(w, e), w, job)
  {
    hide Deliver, Gig.Step, OrdersFit;
    match e
    case OnGig(r) => Gig.StepKeepsInv(w.gigs, w.convs, Boost.Sites(w.boosts), r);
    case Webhook(d) => DeliveryKeepsVoucher(w, d, job);
    case _ =>
  }

  lemma SettledJobIsFair(j: Gig.Job, convs: seq<Conversation>, d: Delivery)
    requires FeeOk(d) && d.paid && Awaits(GigRecord(j, None)) == Some(d.order)
    ensures
      var r := Settled(GigRecord(j, None), convs, d);
      r.GigRecord? && (r.voucher.Some? ==> PaidBy(d, r.job, r.voucher.value))
  {
    var r := Settled(GigRecord(j, None), convs, d);
    if r.voucher.Some? { Gig.VoucherIsFair(j, convs[j.conversation.value], d.feePercent); }
  }

  lemma DeliveryIssuesFairly(w: World, d: Delivery, job: nat)
    requires Inv(w) && FeeOk(d) && job !in w.gigs.vouchers && job in Deliver(w, d).gigs.vouchers
    ensures var v := Deliver(w, d); job < |v.gigs.jobs| && PaidBy(d, v.gigs.jobs[job], v.gigs.vouchers[job])
  {
    var v := Deliver(w, d);
    DeliveryKeepsInv(w, d);
    VouchersAreOfJobs(v, job);
    DeliveryKeepsLengths(w, d);
    DeliverySettles(w, d, GigSlot(job));
    hide Deliver, Inv, PaidBy, Settled, Awaits, Gig.FeeCents;
    var j := w.gigs.jobs[job];
    assert At(w, GigSlot(job)) == GigRecord(j, None);
    assert At(v, GigSlot(job)) == GigRecord(v.gigs.jobs[job], Some(v.gigs.vouchers[job]));
    SettledJobIsFair(j, w.convs, d);
  }

  lemma VouchersAreOfJobs(w: World, job: nat)
    requires Inv(w) && job in w.gigs.vouchers
    ensures job < |w.gigs.jobs|
  {
  }

  lemma VoucherIsPaidFor(w: World, e: Event, job: nat)
    requires Inv(w) && Enabled(w, e) && job !in w.gigs.vouchers && job in Next(w, e).gigs.vouchers
    ensures e.Webhook? && job < |Next(w, e).gigs.jobs|
    ensures PaidBy(e.delivery, Next(w, e).gigs.jobs[job], Next(w, e).gigs.vouchers[job])
  {
    hide Deliver, Gig.Step, OrdersFit, PaidBy;
    match e
    case OnGig(r) => Gig.StepKeepsInv(w.gigs, w.convs, Boost.Sites(w.boosts), r);
    case Webhook(d) => DeliveryIssuesFairly(w, d, job);
    case _ =>
  }

  lemma {:induction false} VouchersFrom(w: World, es: seq<Event>, job: nat)
    requires Inv(w) && Possible(w, es)
    ensures
      var v := Run(w, es);
      job in v.gigs.vouchers ==>
        || SameVoucher(v, w, job)
        || (job < |v.gigs.jobs| && exists e :: e in es && e.Webhook? && PaidBy(e.delivery, v.gigs.jobs[job], v.gigs.vouchers[job]))
    decreases |es|
  {
    hide Inv, Enabled, Next, PaidBy;
    if es == [] {
      if job in w.gigs.vouchers { VouchersAreOfJobs(w, job); }
    } else {
      var v, u := Run(w, es), Next(w, es[0]);
      NextKeepsInv(w, es[0]);
      VouchersFrom(u, es[1..], job);
      if job in w.gigs.vouchers { VoucherStays(w, es[0], job); }
      if job !in w.gigs.vouchers && job in u.gigs.vouchers && SameVoucher(v, u, job) {
        VoucherIsPaidFor(w, es[0], job);
        StillPaidBy(es[0].delivery, u.gigs.jobs[job], u.gigs.vouchers[job], v.gigs.vouchers[job].applied);
      }
      assert forall e :: e in es[1..] ==> e in es;
    }
  }

  lemma StillPaidBy(d: Delivery, j: Gig.Job, v: Gig.Voucher, applied: bool)
    requires PaidBy(d, j, v)
    ensures PaidBy(d, j, v.(applied := applied))
  {
  }

  /**
   Through any run, with completions rejected, repeated and paid again: a job is confirmed exactly
   if it has its voucher, made out to its claimer and to the landlord of the claimed conversation,
   and a delivery of the run paid for it, by whose percentage the payout is split to half a cent.
   */
  lemma ConfirmedJobsHaveTheirVoucher(es: seq<Event>, job: nat)
    requires Possible(NOTHING, es)
    ensures
      var w := Run(NOTHING, es);
      && (job in w.gigs.vouchers <==> job < |w.gigs.jobs| && w.gigs.jobs[job].status == Gig.Confirmed)
      && (job in w.gigs.vouchers ==>
            && Gig.VoucherFits(w.gigs.jobs[job], w.gigs.vouchers[job], w.convs)
            && exists e :: e in es && e.Webhook? && PaidBy(e.delivery, w.gigs.jobs[job], w.gigs.vouchers[job]))
  {
    assert forall w: World :: !SameVoucher(w, NOTHING, job);
    NothingFits();
    hide *;
    PaymentsTakeEffectOnce(es, 0);
    VouchersFit(Run(NOTHING, es), job);
    VouchersFrom(NOTHING, es, job);
  }

  lemma NothingFits()
    ensures Inv(NOTHING)
  {
  }

  lemma VouchersFit(w: World, job: nat)
    requires Inv(w)
    ensures job in w.gigs.vouchers <==> job < |w.gigs.jobs| && w.gigs.jobs[job].status == Gig.Confirmed
    ensures job in w.gigs.vouchers ==> Gig.VoucherFits(w.gigs.jobs[job], w.gigs.vouchers[job], w.convs)
  {
    hide OrdersFit, Gig.VoucherFits, Gig.JobFits;
  }

  /** Deliveries of different orders can be swapped. */
  lemma DifferentOrdersCommute(w: World, d: Delivery, e: Delivery)
    requires Inv(w) && FeeOk(d) && FeeOk(e) && d.order != e.order
    ensures Deliver(Deliver(w, d), e) == Deliver(Deliver(w, e), d)
  {
    var wd, we := Deliver(w, d), Deliver(w, e);
    DeliveryKeepsInv(w, d);
    DeliveryKeepsInv(w, e);
    DeliveryKeepsInv(wd, e);
    DeliveryKeepsInv(we, d);
    DeliveryKeepsLengths(w, d);
    DeliveryKeepsLengths(w, e);
    DeliveryKeepsLengths(wd, e);
    DeliveryKeepsLengths(we, d);
    forall s: Slot
      ensures At(Deliver(wd, e), s) == At(Deliver(we, d), s)
    {
      DeliverySettles(w, d, s);
      DeliverySettles(w, e, s);
      DeliverySettles(wd, e, s);
      DeliverySettles(we, d, s);
      if Awaits(At(w, s)).Some? {
        SettlingSpends(At(w, s), w.convs, d);
        SettlingSpends(At(w, s), w.convs, e);
        AwaitsIsOrder(Settled(At(w, s), w.convs, d));
        AwaitsIsOrder(Settled(At(w, s), w.convs, e));
        AwaitsIsOrder(At(w, s));
      }
    }
    SameRecordsSameWorld(Deliver(wd, e), Deliver(we, d));
  }

  lemma AwaitsIsOrder(r: Record)
    ensures Awaits(r).Some? ==> Awaits(r) == OrderOf(r)
  {
  }
}
