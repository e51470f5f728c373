/** Gig jobs: claim, complete, reject, cancel, pay; a paid job becomes a rent voucher. */
module GigJobs {
  import opened Platform

  datatype JobStatus = Open | Claimed | Completed | Confirmed | Cancelled

  datatype Job = Job(
    poster: UserId, posterRole: Role, payout: nat, status: JobStatus,
    claimer: Option<UserId>, conversation: Option<nat>, order: Option<OrderId>)

  datatype Voucher = Voucher(tenant: UserId, landlord: UserId, payout: int, fee: int, rentCredit: int, applied: bool)

  /** Job ids are positions; a voucher is keyed by its job (the column is unique). */
  datatype Gigs = Gigs(jobs: seq<Job>, vouchers: map<nat, Voucher>)

  datatype GigRequest =
    | Create(actor: Actor, property: Option<nat>, payout: nat)
    | Claim(actor: Actor, job: nat, conversation: nat)
    | MarkComplete(actor: Actor, job: nat)
    | RejectCompletion(actor: Actor, job: nat)
    | Cancel(actor: Actor, job: nat)
    | PayAndConfirm(actor: Actor, job: nat, order: OrderId)
    | ApplyVoucher(actor: Actor, job: nat)

  // --- what the handlers do ---

  function SetJob(g: Gigs, id: nat, j: Job): Outcome<Gigs>
    requires id < |g.jobs|
  {
    Done(g.(jobs := g.jobs[id := j]))
  }

  /** The poster's and the claimer's moves share one shape: who, from which states, to which job row. */
  function Move(g: Gigs, id: nat, allowed: bool, ready: bool, j: Job): Outcome<Gigs>
    requires id < |g.jobs|
  {
    if !allowed then Refused(Forbidden) else if !ready then Refused(BadRequest) else SetJob(g, id, j)
  }

  function Step(g: Gigs, convs: seq<Conversation>, sites: seq<Site>, r: GigRequest): Outcome<Gigs> {
    match r
    case Create(actor, property, payout) =>
      if !OwnTenantScoped(actor.role) && !PlatformWide(actor.role) then Refused(Forbidden)
      else if property.Some? && property.value >= |sites| then Refused(NotFound)
      else if property.Some? && OwnTenantScoped(actor.role) && !Manages(sites[property.value], actor.id) then Refused(Forbidden)
      else Done(g.(jobs := g.jobs + [Job(actor.id, actor.role, payout, Open, None, None, None)]))
    case Claim(actor, id, c) =>
      if !IsTenant(actor.role) then Refused(Forbidden)
      else if id >= |g.jobs| then Refused(NotFound)
      else
        var j := g.jobs[id];
        if j.status != Open then Refused(BadRequest)
        else
          var mine := c < |convs| && convs[c].tenant == actor.id;
          Move(g, id, mine && (OwnTenantScoped(j.posterRole) ==> convs[c].landlord == j.poster), true,
               j.(status := Claimed, claimer := Some(actor.id), conversation := Some(c)))
    case ApplyVoucher(actor, id) =>
      if id !in g.vouchers then Refused(NotFound)
      else
        var v := g.vouchers[id];
        if v.landlord != actor.id && !IsStaff(actor.role) then Refused(Forbidden)
        else if v.applied then Refused(BadRequest)
        else Done(g.(vouchers := g.vouchers[id := v.(applied := true)]))
    case MarkComplete(actor, id) =>
      if id >= |g.jobs| then Refused(NotFound)
      else
        var j := g.jobs[id];
        Move(g, id, j.claimer == Some(actor.id), j.status == Claimed, j.(status := Completed))
    case RejectCompletion(actor, id) =>
      if id >= |g.jobs| then Refused(NotFound)
      else
        var j := g.jobs[id];
        Move(g, id, j.poster == actor.id, j.status == Completed, j.(status := Claimed))
    case Cancel(actor, id) =>
      if id >= |g.jobs| then Refused(NotFound)
      else
        var j := g.jobs[id];
        Move(g, id, j.poster == actor.id, j.status == Open || j.status == Claimed, j.(status := Cancelled))
    case PayAndConfirm(actor, id, order) =>
      if id >= |g.jobs| then Refused(NotFound)
      else
        var j := g.jobs[id];
        Move(g, id, j.poster == actor.id, j.status == Completed, j.(order := Some(order)))
  }

  /** Math.round(payout * feePercent / 100) */
  function FeeCents(payout: nat, feePercent: real): int {
    (payout as real * feePercent / 100.0 + 0.5).Floor
  }

  function IssuedVoucher(j: Job, c: Conversation, feePercent: real): Voucher
    requires j.claimer.Some?
  {
    var fee := FeeCents(j.payout, feePercent);
    Voucher(j.claimer.value, c.landlord, j.payout, fee, j.payout - fee, false)
  }

  function PaidAndCompleted(order: OrderId): Job -> bool {
    (j: Job) => j.order == Some(order) && j.status == Completed
  }

  /** The webhook: a paid order confirms the completed job it belongs to and issues its voucher. */
  function Webhook(g: Gigs, convs: seq<Conversation>, order: OrderId, paid: bool, feePercent: real): Gigs {
    var k := FindFirst(g.jobs, PaidAndCompleted(order));
    if k.None? || !paid then g
    else
      var id, j := k.value, g.jobs[k.value];
      if j.claimer.None? || j.conversation.None? || j.conversation.value >= |convs| || id in g.vouchers then g
      else
        Gigs(g.jobs[id := j.(status := Confirmed)],
             g.vouchers[id := IssuedVoucher(j, convs[j.conversation.value], feePercent)])
  }

  // --- the service ---

  class GigJobsService {
    var jobs: seq<Job>
    var vouchers: map<nat, Voucher>

    function Db(): Gigs
      reads this
    {
      Gigs(jobs, vouchers)
    }

    constructor ()
      ensures Db() == Gigs([], map[])
    {
      jobs, vouchers := [], map[];
    }

    method Create(actor: Actor, sites: seq<Site>, property: Option<nat>, payout: nat) returns (status: Status)
      modifies this
      ensures var o := Step(old(Db()), [], sites, GigRequest.Create(actor, property, payout));
              status == Reply(o) && Db() == After(o, old(Db()))
      ensures status.Okay? <==>
        && actor.role in {Landlord, PropertyManager, Administrator, SuperAdministrator}
        && (property.Some? ==> property.value < |sites|)
        && (property.Some? && actor.role in {Landlord, PropertyManager} ==>
              sites[property.value].owner == actor.id || actor.id in sites[property.value].managers)
      ensures jobs == old(jobs) + if status.Okay? then [Job(actor.id, actor.role, payout, Open, None, None, None)] else []
    {
      if !OwnTenantScoped(actor.role) && !PlatformWide(actor.role) {
        return Forbidden;
      }
      if property.Some? {
        if property.value >= |sites| {
          return NotFound;
        }
        var site := sites[property.value];
        if OwnTenantScoped(actor.role) && site.owner != actor.id && actor.id !in site.managers {
          return Forbidden;
        }
      }
      jobs := jobs + [Job(actor.id, actor.role, payout, Open, None, None, None)];
      return Okay;
    }

    method Claim(actor: Actor, id: nat, convs: seq<Conversation>, c: nat) returns (status: Status)
      modifies this
      ensures var o := Step(old(Db()), convs, [], GigRequest.Claim(actor, id, c));
              status == Reply(o) && Db() == After(o, old(Db()))
      ensures status.Okay? <==>
        && actor.role in {ProspectiveTenant, CurrentTenant} && id < |old(jobs)| && old(jobs)[id].status == Open
        && c < |convs| && convs[c].tenant == actor.id
        && (old(jobs)[id].posterRole in {Landlord, PropertyManager} ==> convs[c].landlord == old(jobs)[id].poster)
      ensures if !status.Okay? then jobs == old(jobs)
              else OnlyRow(old(jobs), jobs, id, old(jobs)[id].(status := Claimed, claimer := Some(actor.id), conversation := Some(c)))
    {
      if !IsTenant(actor.role) {
        return Forbidden;
      }
      if id >= |jobs| {
        return NotFound;
      }
      var job := jobs[id];
      if job.status != Open {
        return BadRequest;
      }
      if c >= |convs| || convs[c].tenant != actor.id {
        return Forbidden;
      }
      if OwnTenantScoped(job.posterRole) && convs[c].landlord != job.poster {
        return Forbidden;
      }
      jobs := jobs[id := job.(status := Claimed, claimer := Some(actor.id), conversation := Some(c))];
      return Okay;
    }

    method MarkComplete(actor: Actor, id: nat) returns (status: Status)
      modifies this
      ensures var o := Step(old(Db()), [], [], GigRequest.MarkComplete(actor, id));
              status == Reply(o) && Db() == After(o, old(Db()))
      ensures status.Okay? <==> id < |old(jobs)| && old(jobs)[id].claimer == Some(actor.id) && old(jobs)[id].status == Claimed
      ensures if status.Okay? then OnlyRow(old(jobs), jobs, id, old(jobs)[id].(status := Completed)) else jobs == old(jobs)
    {
      if id >= |jobs| {
        return NotFound;
      }
      var job := jobs[id];
      if job.claimer != Some(actor.id) {
        return Forbidden;
      }
      if job.status != Claimed {
        return BadRequest;
      }
      jobs := jobs[id := job.(status := Completed)];
      return Okay;
    }

    method RejectCompletion(actor: Actor, id: nat) returns (status: Status)
      modifies this
      ensures var o := Step(old(Db()), [], [], GigRequest.RejectCompletion(actor, id));
              status == Reply(o) && Db() == After(o, old(Db()))
      ensures status.Okay? <==> id < |old(jobs)| && old(jobs)[id].poster == actor.id && old(jobs)[id].status == Completed
      ensures if status.Okay? then OnlyRow(old(jobs), jobs, id, old(jobs)[id].(status := Claimed)) else jobs == old(jobs)
    {
      if id >= |jobs| {
        return NotFound;
      }
      var job := jobs[id];
      if job.poster != actor.id {
        return Forbidden;
      }
      if job.status != Completed {
        return BadRequest;
      }
      jobs := jobs[id := job.(status := Claimed)];
      return Okay;
    }

    method Cancel(actor: Actor, id: nat) returns (status: Status)
      modifies this
      ensures var o := Step(old(Db()), [], [], GigRequest.Cancel(actor, id));
              status == Reply(o) && Db() == After(o, old(Db()))
      ensures status.Okay? <==> id < |old(jobs)| && old(jobs)[id].poster == actor.id && old(jobs)[id].status in {Open, Claimed}
      ensures if status.Okay? then OnlyRow(old(jobs), jobs, id, old(jobs)[id].(status := Cancelled)) else jobs == old(jobs)
    {
      if id >= |jobs| {
        return NotFound;
      }
      var job := jobs[id];
      if job.poster != actor.id {
        return Forbidden;
      }
      if job.status != Open && job.status != Claimed {
        return BadRequest;
      }
      jobs := jobs[id := job.(status := Cancelled)];
      return Okay;
    }

    /** `order` is what the payment provider returns for the new checkout. */
    method PayAndConfirm(actor: Actor, id: nat, order: OrderId) returns (status: Status)
      modifies this
      ensures var o := Step(old(Db()), [], [], GigRequest.PayAndConfirm(actor, id, order));
              status == Reply(o) && Db() == After(o, old(Db()))
      ensures status.Okay? <==> id < |old(jobs)| && old(jobs)[id].poster == actor.id && old(jobs)[id].status == Completed
      ensures if status.Okay? then OnlyRow(old(jobs), jobs, id, old(jobs)[id].(order := Some(order))) else jobs == old(jobs)
    {
      if id >= |jobs| {
        return NotFound;
      }
      var job := jobs[id];
      if job.poster != actor.id {
        return Forbidden;
      }
      if job.status != Completed {
        return BadRequest;
      }
      jobs := jobs[id := job.(order := Some(order))];
      return Okay;
    }

    method ApplyVoucher(actor: Actor, id: nat) returns (status: Status)
      modifies this
      ensures var o := Step(old(Db()), [], [], GigRequest.ApplyVoucher(actor, id));
              status == Reply(o) && Db() == After(o, old(Db()))
      ensures status.Okay? <==>
        && id in old(vouchers) && !old(vouchers)[id].applied
        && (old(vouchers)[id].landlord == actor.id || actor.role in {StaffModerator, Administrator, SuperAdministrator})
      ensures vouchers.Keys == old(vouchers).Keys && forall k :: k in vouchers ==>
        vouchers[k] == if status.Okay? && k == id then old(vouchers)[k].(applied := true) else old(vouchers)[k]
    {
      if id !in vouchers {
        return NotFound;
      }
      var v := vouchers[id];
      if v.landlord != actor.id && !IsStaff(actor.role) {
        return Forbidden;
      }
      if v.applied {
        return BadRequest;
      }
      vouchers := vouchers[id := v.(applied := true)];
      return Okay;
    }

    method HandlePaymentWebhook(convs: seq<Conversation>, order: OrderId, paid: bool, feePercent: real)
      returns (mine: bool)
      modifies this
      ensures Db() == Webhook(old(Db()), convs, order, paid, feePercent)
      ensures mine <==> exists j :: j in old(jobs) && j.order == Some(order) && j.status == Completed
    {
      var k := FindFirst(jobs, PaidAndCompleted(order));
      if k.None? {
        return false;
      }
      var id, job := k.value, jobs[k.value];
      if !paid || job.claimer.None? || job.conversation.None? {
        return true;
      }
      if job.conversation.value >= |convs| {
        return true;
      }
      var conversation := convs[job.conversation.value];
      var feeCents := FeeCents(job.payout, feePercent);
      var voucherCents := job.payout - feeCents;
      // One transaction: a second voucher for the job would abort it.
      if id !in vouchers {
        vouchers := vouchers[id := Voucher(job.claimer.value, conversation.landlord, job.payout, feeCents, voucherCents, false)];
        jobs := jobs[id := job.(status := Confirmed)];
      }
      return true;
    }
  }

  // --- what every run keeps ---

  /** The voucher a confirmed job has: whom it is for and how the payout was split. */
  ghost predicate VoucherFits(j: Job, v: Voucher, convs: seq<Conversation>) {
    && j.claimer == Some(v.tenant)
    && j.conversation.Some? && j.conversation.value < |convs|
    && convs[j.conversation.value] == Conversation(v.tenant, v.landlord)
    && (OwnTenantScoped(j.posterRole) ==> v.landlord == j.poster)
    && v.payout == j.payout && v.fee + v.rentCredit == j.payout && 0 <= v.fee <= j.payout
  }

  ghost predicate JobFits(j: Job, convs: seq<Conversation>) {
    && (j.status == Open ==> j.order.None?)
    && (j.status != Open && j.status != Cancelled ==>
          && j.claimer.Some? && j.conversation.Some? && j.conversation.value < |convs|
          && convs[j.conversation.value].tenant == j.claimer.value
          && (OwnTenantScoped(j.posterRole) ==> convs[j.conversation.value].landlord == j.poster))
  }

  /** A job is confirmed exactly if it has a voucher, and the voucher fits the job. */
  ghost predicate Inv(g: Gigs, convs: seq<Conversation>) {
    && (forall i :: 0 <= i < |g.jobs| ==> JobFits(g.jobs[i], convs))
    && (forall i: nat :: i in g.vouchers <==> i < |g.jobs| && g.jobs[i].status == Confirmed)
    && (forall i: nat :: i in g.vouchers ==> VoucherFits(g.jobs[i], g.vouchers[i], convs))
  }

  /** The fee is within half a cent of the percentage and never exceeds the payout. */
  lemma FeeIsFair(payout: nat, feePercent: real)
    requires 0.0 <= feePercent <= 100.0
    ensures var exact := payout as real * feePercent / 100.0;
            var fee := FeeCents(payout, feePercent);
            0 <= fee <= payout && -0.5 < fee as real - exact <= 0.5
  {
    var exact := payout as real * feePercent / 100.0;
    assert 0.0 <= payout as real * feePercent <= payout as real * 100.0;
    assert 0.0 <= exact <= payout as real;
  }

  /** The platform keeps the fee, and the claimer gets the rest as a credit with the landlord of the conversation. */
  lemma VoucherIsFair(j: Job, c: Conversation, feePercent: real)
    requires j.claimer.Some? && 0.0 <= feePercent <= 100.0
    ensures
      var v := IssuedVoucher(j, c, feePercent);
      var exact := j.payout as real * feePercent / 100.0;
      && Some(v.tenant) == j.claimer && v.landlord == c.landlord && !v.applied
      && 0 <= v.fee && 0 <= v.rentCredit && v.fee + v.rentCredit == v.payout == j.payout
      && -0.5 < v.fee as real - exact <= 0.5
      && (feePercent == 0.0 ==> v.rentCredit == j.payout)
  {
    FeeIsFair(j.payout, feePercent);
  }

  lemma StepKeepsJob(g: Gigs, convs: seq<Conversation>, sites: seq<Site>, r: GigRequest, i: nat)
    requires Inv(g, convs) && i < |After(Step(g, convs, sites, r), g).jobs|
    ensures var h := After(Step(g, convs, sites, r), g);
            && JobFits(h.jobs[i], convs)
            && (h.jobs[i].status == Confirmed <==> i < |g.jobs| && g.jobs[i].status == Confirmed)
            && (i < |g.jobs| && g.jobs[i].status == Confirmed ==> h.jobs[i] == g.jobs[i])
  {
  }

  /** A request confirms nothing, and changes nothing about what is confirmed but that a voucher is applied. */
  lemma StepKeepsInv(g: Gigs, convs: seq<Conversation>, sites: seq<Site>, r: GigRequest)
    requires Inv(g, convs)
    ensures
      var h := After(Step(g, convs, sites, r), g);
      && Inv(h, convs)
      && h.vouchers.Keys == g.vouchers.Keys
      && (forall i: nat :: i in g.vouchers ==> h.jobs[i] == g.jobs[i])
      && forall i: nat :: i in g.vouchers ==>
           h.vouchers[i] == if h != g && r.ApplyVoucher? && r.job == i then g.vouchers[i].(applied := true) else g.vouchers[i]
  {
    var h := After(Step(g, convs, sites, r), g);
    assert |g.jobs| <= |h.jobs|;
    forall i: nat | i < |h.jobs|
      ensures JobFits(h.jobs[i], convs)
      ensures h.jobs[i].status == Confirmed <==> i < |g.jobs| && g.jobs[i].status == Confirmed
      ensures i < |g.jobs| && g.jobs[i].status == Confirmed ==> h.jobs[i] == g.jobs[i]
    {
      StepKeepsJob(g, convs, sites, r, i);
    }
    StepKeepsVouchers(g, convs, sites, r);
    hide JobFits, Step;
    forall i: nat | i in h.vouchers
      ensures i in g.vouchers && VoucherFits(h.jobs[i], h.vouchers[i], convs)
    {
    }
  }

  lemma StepKeepsVouchers(g: Gigs, convs: seq<Conversation>, sites: seq<Site>, r: GigRequest)
    ensures
      var h := After(Step(g, convs, sites, r), g);
      && h.vouchers.Keys == g.vouchers.Keys
      && forall i: nat :: i in g.vouchers ==>
           h.vouchers[i] == if h != g && r.ApplyVoucher? && r.job == i then g.vouchers[i].(applied := true) else g.vouchers[i]
  {
    if r.ApplyVoucher? && r.job in g.vouchers && After(Step(g, convs, sites, r), g) != g {
      assert After(Step(g, convs, sites, r), g).vouchers == g.vouchers[r.job := g.vouchers[r.job].(applied := true)];
    }
  }

  lemma WebhookKeepsInv(g: Gigs, convs: seq<Conversation>, order: OrderId, paid: bool, feePercent: real)
    requires Inv(g, convs) && 0.0 <= feePercent <= 100.0
    ensures Inv(Webhook(g, convs, order, paid, feePercent), convs)
  {
    var k := FindFirst(g.jobs, PaidAndCompleted(order));
    if k.Some? {
      FeeIsFair(g.jobs[k.value].payout, feePercent);
    }
  }

  lemma MoreConversationsKeepInv(g: Gigs, convs: seq<Conversation>, more: seq<Conversation>)
    requires Inv(g, convs) && convs <= more
    ensures Inv(g, more)
  {
  }

  // --- orders ---

  /** The order that could still pay this job. A rejected job may be completed again, so it keeps its order. */
  function Awaits(j: Job): Option<OrderId> {
    if j.status == Claimed || j.status == Completed then j.order else None
  }

  /** The job after its order is paid. */
  function Settled(j: Job): Job {
    if j.status == Completed then j.(status := Confirmed) else j
  }

  function NewOrder(r: GigRequest): Option<OrderId> {
    if r.PayAndConfirm? then Some(r.order) else None
  }

  ghost predicate Distinct(g: Gigs) {
    forall i, k ::
      0 <= i < |g.jobs| && 0 <= k < |g.jobs| && g.jobs[i].order.Some? && g.jobs[i].order == g.jobs[k].order
      ==> i == k
  }

  function Target(g: Gigs, r: GigRequest): nat { if r.PayAndConfirm? then r.job else |g.jobs| }

  /** A request attaches no order but its own new one, and revives none. */
  lemma StepOrders(g: Gigs, convs: seq<Conversation>, sites: seq<Site>, r: GigRequest, i: nat)
    requires Inv(g, convs)
    ensures var h := After(Step(g, convs, sites, r), g);
            i < |h.jobs| && h.jobs[i].order.Some? ==>
              || (i < |g.jobs| && h.jobs[i].order == g.jobs[i].order && (Awaits(h.jobs[i]).Some? ==> Awaits(g.jobs[i]).Some?))
              || (i == Target(g, r) && h.jobs[i].order == NewOrder(r))
  {
  }

  /** A paid order settles the one job that awaits it and touches nothing else. */
  lemma WebhookSettles(g: Gigs, convs: seq<Conversation>, order: OrderId, feePercent: real, i: nat)
    requires Inv(g, convs) && Distinct(g) && i < |g.jobs|
    ensures var h := Webhook(g, convs, order, true, feePercent);
            && |h.jobs| == |g.jobs|
            && h.jobs[i] == (if Awaits(g.jobs[i]) == Some(order) then Settled(g.jobs[i]) else g.jobs[i])
            && (i in h.vouchers <==> i in g.vouchers || h.jobs[i] != g.jobs[i])
            && (i in g.vouchers ==> i in h.vouchers && h.vouchers[i] == g.vouchers[i])
            && (i in h.vouchers && i !in g.vouchers ==>
                  g.jobs[i].claimer.Some? && g.jobs[i].conversation.Some? && g.jobs[i].conversation.value < |convs|
                  && h.vouchers[i] == IssuedVoucher(g.jobs[i], convs[g.jobs[i].conversation.value], feePercent))
  {
  }
}
