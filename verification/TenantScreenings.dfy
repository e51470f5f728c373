/**
 Tenant screenings: portable ones and ones tied to a conversation, from request through
 payment and result to sharing and download.
 */
module TenantScreenings {
  import opened Platform

  datatype Kind = Portable | ForApplication

  datatype ScreeningStatus = AwaitingAuthorization | Paid | SubmittedExternally | Complete | Declined | Canceled

  datatype File = File(name: string, mime: string, data: string)

  datatype Screening = Screening(
    tenant: UserId, kind: Kind, status: ScreeningStatus, initiator: Option<UserId>, conversation: Option<nat>,
    order: Option<OrderId>, paidAt: Option<Time>, expiresAt: Option<Time>, result: Option<File>)

  datatype Share = Shared(screening: nat, conversation: nat)

  /** Rows and shares in order of creation; a share is unique on its two ids. */
  datatype Desk = Desk(rows: seq<Screening>, shares: seq<Share>)

  datatype ScreeningRequest =
    | CreateMine(actor: Actor, order: OrderId)
    | RequestForTenant(actor: Actor, tenant: Option<Actor>)   // the user the e-mail address belongs to
    | CreateForConversation(actor: Actor, conversation: nat)
    | Pay(actor: Actor, id: nat, order: OrderId)
    | Decline(actor: Actor, id: nat)
    | ShareInto(actor: Actor, id: nat, conversation: nat, now: Time)
    | MarkSubmittedExternally(id: nat)
    | UploadResult(id: nat, file: File, now: Time)
    | CancelByAdmin(id: nat)

  const PORTABLE_VALIDITY := 30 * DAY

  // --- what the handlers do ---

  function UnpaidPortable(tenant: UserId): Screening -> bool {
    (s: Screening) => s.tenant == tenant && s.kind == Portable && s.status == AwaitingAuthorization
  }

  function LiveFor(conversation: nat): Screening -> bool {
    (s: Screening) => s.conversation == Some(conversation) && s.status != Canceled && s.status != Declined
  }

  function NewScreening(tenant: UserId, kind: Kind, initiator: Option<UserId>, conversation: Option<nat>): Screening {
    Screening(tenant, kind, AwaitingAuthorization, initiator, conversation, None, None, None, None)
  }

  /** ensureCheckout: a screening keeps the first checkout it gets. */
  function WithCheckout(s: Screening, order: OrderId): Screening {
    if s.order.Some? then s else s.(order := Some(order))
  }

  function SetRow(d: Desk, id: nat, s: Screening): Outcome<Desk>
    requires id < |d.rows|
  {
    Done(d.(rows := d.rows[id := s]))
  }

  function AddRow(d: Desk, s: Screening): Outcome<Desk> { Done(d.(rows := d.rows + [s])) }

  /** What the tenant's own requests check first. */
  function TenantRefusal(d: Desk, actor: Actor, id: nat, needs: ScreeningStatus): Option<Status> {
    if id >= |d.rows| then Some(NotFound)
    else if d.rows[id].tenant != actor.id then Some(Forbidden)
    else if d.rows[id].status != needs then Some(BadRequest)
    else None
  }

  function Step(d: Desk, convs: seq<Conversation>, r: ScreeningRequest): Outcome<Desk> {
    match r
    case CreateMine(actor, order) =>
      var k := FindLast(d.rows, UnpaidPortable(actor.id));
      if k.Some? then SetRow(d, k.value, WithCheckout(d.rows[k.value], order))
      else AddRow(d, WithCheckout(NewScreening(actor.id, Portable, None, None), order))
    case RequestForTenant(actor, tenant) =>
      if tenant.None? || !IsTenant(tenant.value.role) then Refused(NotFound)
      else
        var k := FindLast(d.rows, UnpaidPortable(tenant.value.id));
        if k.None? then AddRow(d, NewScreening(tenant.value.id, Portable, Some(actor.id), None))
        else if d.rows[k.value].initiator.Some? then Done(d)
        else SetRow(d, k.value, d.rows[k.value].(initiator := Some(actor.id)))
    case CreateForConversation(actor, c) =>
      if c >= |convs| then Refused(NotFound)
      else if actor.id != convs[c].landlord then Refused(Forbidden)
      else if FindLast(d.rows, LiveFor(c)).Some? then Done(d)
      else AddRow(d, NewScreening(convs[c].tenant, ForApplication, Some(actor.id), Some(c)))
    case Pay(actor, id, order) =>
      var no := TenantRefusal(d, actor, id, AwaitingAuthorization);
      if no.Some? then Refused(no.value) else SetRow(d, id, WithCheckout(d.rows[id], order))
    case Decline(actor, id) =>
      var no := TenantRefusal(d, actor, id, AwaitingAuthorization);
      if no.Some? then Refused(no.value) else SetRow(d, id, d.rows[id].(status := Declined))
    case ShareInto(actor, id, c, now) =>
      if id >= |d.rows| then Refused(NotFound)
      else if d.rows[id].tenant != actor.id then Refused(Forbidden)
      else if d.rows[id].kind != Portable || d.rows[id].status != Complete then Refused(BadRequest)
      else if d.rows[id].expiresAt.Some? && d.rows[id].expiresAt.value < now then Refused(BadRequest)
      else if c >= |convs| then Refused(NotFound)
      else if convs[c].tenant != actor.id then Refused(Forbidden)
      else if Shared(id, c) in d.shares then Done(d)
      else Done(d.(shares := d.shares + [Shared(id, c)]))
    case MarkSubmittedExternally(id) =>
      if id >= |d.rows| then Refused(NotFound)
      else if d.rows[id].status != Paid then Refused(BadRequest)
      else SetRow(d, id, d.rows[id].(status := SubmittedExternally))
    case UploadResult(id, file, now) =>
      if id >= |d.rows| then Refused(NotFound)
      else if d.rows[id].status != Paid && d.rows[id].status != SubmittedExternally then Refused(BadRequest)
      else SetRow(d, id, d.rows[id].(status := Complete, result := Some(file), expiresAt := Expiry(d.rows[id].kind, now)))
    case CancelByAdmin(id) =>
      if id >= |d.rows| then Refused(NotFound)
      else if d.rows[id].status in {Complete, Declined, Canceled} then Refused(BadRequest)
      else SetRow(d, id, d.rows[id].(status := Canceled))
  }

  function Expiry(kind: Kind, now: Time): Option<Time> {
    if kind == Portable then Some(now + PORTABLE_VALIDITY) else None
  }

  function AwaitingWith(order: OrderId): Screening -> bool {
    (s: Screening) => s.order == Some(order) && s.status == AwaitingAuthorization
  }

  function Webhook(d: Desk, order: OrderId, paid: bool, now: Time): Desk {
    if !paid then d
    else
      var k := FindFirst(d.rows, AwaitingWith(order));
      if k.None? then d else d.(rows := d.rows[k.value := d.rows[k.value].(status := Paid, paidAt := Some(now))])
  }

  // --- downloads ---

  function SharedWith(convs: seq<Conversation>, screening: nat, landlord: UserId): Share -> bool {
    (h: Share) => h.screening == screening && h.conversation < |convs| && convs[h.conversation].landlord == landlord
  }

  predicate CanAccess(d: Desk, convs: seq<Conversation>, actor: Actor, id: nat)
    requires id < |d.rows|
  {
    var s := d.rows[id];
    || IsStaff(actor.role) || actor.id == s.tenant || Some(actor.id) == s.initiator
    || (s.conversation.Some? && s.conversation.value < |convs| && convs[s.conversation.value].landlord == actor.id)
    || FindFirst(d.shares, SharedWith(convs, id, actor.id)).Some?
  }

  function DownloadTarget(d: Desk, convs: seq<Conversation>, actor: Actor, id: nat): Outcome<File> {
    if id >= |d.rows| then Refused(NotFound)
    else
      var s := d.rows[id];
      if s.status != Complete || !CanAccess(d, convs, actor, id) then Refused(Forbidden)
      else if s.result.None? || s.result.value.name == "" || s.result.value.mime == "" then Refused(NotFound)
      else Done(s.result.value)
  }

  function CompleteFor(conversation: nat): Screening -> bool {
    (s: Screening) => s.conversation == Some(conversation) && s.status == Complete
  }

  function CompleteShare(d: Desk, conversation: nat): Share -> bool {
    (h: Share) => h.conversation == conversation && h.screening < |d.rows| && d.rows[h.screening].status == Complete
  }

  /** The screening a conversation's download button stands for: its own first, else the latest shared one. */
  function ConversationScreening(d: Desk, c: nat): Option<nat> {
    var own := FindLast(d.rows, CompleteFor(c));
    if own.Some? then own
    else
      var shared := FindLast(d.shares, CompleteShare(d, c));
      if shared.Some? then Some(d.shares[shared.value].screening) else None
  }

  predicate Participates(convs: seq<Conversation>, actor: Actor, c: nat)
    requires c < |convs|
  {
    IsStaff(actor.role) || actor.id == convs[c].tenant || actor.id == convs[c].landlord
  }

  function DownloadForConversation(d: Desk, convs: seq<Conversation>, actor: Actor, c: nat): Outcome<File> {
    if c >= |convs| then Refused(NotFound)
    else if !Participates(convs, actor, c) then Refused(Forbidden)
    else
      var k := ConversationScreening(d, c);
      if k.None? then Refused(NotFound) else DownloadTarget(d, convs, actor, k.value)
  }

  // --- the service ---

  class TenantScreeningsService {
    var rows: seq<Screening>
    var shares: seq<Share>

    function Db(): Desk
      reads this
    {
      Desk(rows, shares)
    }

    constructor ()
      ensures Db() == Desk([], [])
    {
      rows, shares := [], [];
    }

    method EnsureCheckout(id: nat, order: OrderId)
      requires id < |rows|
      modifies this`rows
      ensures rows == old(rows)[id := WithCheckout(old(rows)[id], order)]
    {
      if rows[id].order.Some? {
        return;
      }
      rows := rows[id := rows[id].(order := Some(order))];
    }

    method CreateMine(actor: Actor, order: OrderId)
      modifies this
      ensures Db() == After(Step(old(Db()), [], ScreeningRequest.CreateMine(actor, order)), old(Db()))
      ensures shares == old(shares)
      ensures exists k :: 0 <= k < |rows| && rows[k].tenant == actor.id && rows[k].kind == Portable
                          && rows[k].status == AwaitingAuthorization && rows[k].order.Some?
    {
      var existing := FindLast(rows, UnpaidPortable(actor.id));
      var id := if existing.Some? then existing.value else |rows|;
      if existing.None? {
        rows := rows + [NewScreening(actor.id, Portable, None, None)];
      }
      EnsureCheckout(id, order);
      assert rows[id].tenant == actor.id;
    }

    method RequestForTenant(actor: Actor, tenant: Option<Actor>) returns (status: Status)
      modifies this
      ensures var o := Step(old(Db()), [], ScreeningRequest.RequestForTenant(actor, tenant));
              status == Reply(o) && Db() == After(o, old(Db()))
      ensures status.Okay? <==> tenant.Some? && tenant.value.role in {ProspectiveTenant, CurrentTenant}
      ensures status.Okay? ==> exists k :: 0 <= k < |rows| && rows[k].tenant == tenant.value.id && rows[k].kind == Portable
                                           && rows[k].status == AwaitingAuthorization && rows[k].initiator.Some?
    {
      if tenant.None? || !IsTenant(tenant.value.role) {
        return NotFound;
      }
      var existing := FindLast(rows, UnpaidPortable(tenant.value.id));
      if existing.Some? {
        var id := existing.value;
        if rows[id].initiator.None? {
          rows := rows[id := rows[id].(initiator := Some(actor.id))];
        }
        assert rows[id].tenant == tenant.value.id;
        return Okay;
      }
      rows := rows + [NewScreening(tenant.value.id, Portable, Some(actor.id), None)];
      assert rows[|rows| - 1].tenant == tenant.value.id;
      return Okay;
    }

    method CreateForConversation(actor: Actor, convs: seq<Conversation>, c: nat) returns (status: Status)
      modifies this
      ensures var o := Step(old(Db()), convs, ScreeningRequest.CreateForConversation(actor, c));
              status == Reply(o) && Db() == After(o, old(Db()))
      ensures status.Okay? <==> c < |convs| && convs[c].landlord == actor.id
      ensures rows == old(rows) || rows == old(rows) + [
        Screening(convs[c].tenant, ForApplication, AwaitingAuthorization, Some(actor.id), Some(c), None, None, None, None)]
      ensures status.Okay? ==> exists k :: 0 <= k < |rows| && rows[k].conversation == Some(c) && rows[k].status !in {Declined, Canceled}
    {
      if c >= |convs| {
        return NotFound;
      }
      if actor.id != convs[c].landlord {
        return Forbidden;
      }
      var existing := FindLast(rows, LiveFor(c));
      if existing.Some? {
        return Okay;
      }
      rows := rows + [NewScreening(convs[c].tenant, ForApplication, Some(actor.id), Some(c))];
      assert rows[|rows| - 1].conversation == Some(c);
      return Okay;
    }

    method Pay(actor: Actor, id: nat, order: OrderId) returns (status: Status)
      modifies this
      ensures var o := Step(old(Db()), [], ScreeningRequest.Pay(actor, id, order));
              status == Reply(o) && Db() == After(o, old(Db()))
      ensures status.Okay? <==> id < |old(rows)| && old(rows)[id].tenant == actor.id && old(rows)[id].status == AwaitingAuthorization
      ensures if !status.Okay? then rows == old(rows)
              else OnlyRow(old(rows), rows, id, if old(rows)[id].order.Some? then old(rows)[id] else old(rows)[id].(order := Some(order)))
    {
      var refusal := TenantRefusal(Db(), actor, id, AwaitingAuthorization);
      if refusal.Some? {
        return refusal.value;
      }
      EnsureCheckout(id, order);
      return Okay;
    }

    method Decline(actor: Actor, id: nat) returns (status: Status)
      modifies this
      ensures var o := Step(old(Db()), [], ScreeningRequest.Decline(actor, id));
              status == Reply(o) && Db() == After(o, old(Db()))
      ensures status.Okay? <==> id < |old(rows)| && old(rows)[id].tenant == actor.id && old(rows)[id].status == AwaitingAuthorization
      ensures if status.Okay? then OnlyRow(old(rows), rows, id, old(rows)[id].(status := Declined)) else rows == old(rows)
    {
      var refusal := TenantRefusal(Db(), actor, id, AwaitingAuthorization);
      if refusal.Some? {
        return refusal.value;
      }
      rows := rows[id := rows[id].(status := Declined)];
      return Okay;
    }

    method Share(actor: Actor, id: nat, convs: seq<Conversation>, c: nat, now: Time) returns (status: Status)
      modifies this
      ensures var o := Step(old(Db()), convs, ShareInto(actor, id, c, now));
              status == Reply(o) && Db() == After(o, old(Db()))
      ensures status.Okay? <==>
        && id < |rows| && rows[id].tenant == actor.id && rows[id].kind == Portable && rows[id].status == Complete
        && (rows[id].expiresAt.Some? ==> now <= rows[id].expiresAt.value)
        && c < |convs| && convs[c].tenant == actor.id
      ensures rows == old(rows)
      ensures forall h :: h in shares <==> h in old(shares) || (status.Okay? && h == Shared(id, c))
    {
      if id >= |rows| {
        return NotFound;
      }
      var screening := rows[id];
      if screening.tenant != actor.id {
        return Forbidden;
      }
      if screening.kind != Portable {
        return BadRequest;
      }
      if screening.status != Complete {
        return BadRequest;
      }
      if screening.expiresAt.Some? && screening.expiresAt.value < now {
        return BadRequest;
      }
      if c >= |convs| {
        return NotFound;
      }
      if convs[c].tenant != actor.id {
        return Forbidden;
      }
      if Shared(id, c) !in shares {
        shares := shares + [Shared(id, c)];
      }
      return Okay;
    }

    method MarkSubmittedExternally(id: nat) returns (status: Status)
      modifies this
      ensures var o := Step(old(Db()), [], ScreeningRequest.MarkSubmittedExternally(id));
              status == Reply(o) && Db() == After(o, old(Db()))
      ensures status.Okay? <==> id < |old(rows)| && old(rows)[id].status == Paid
      ensures if status.Okay? then OnlyRow(old(rows), rows, id, old(rows)[id].(status := SubmittedExternally)) else rows == old(rows)
    {
      if id >= |rows| {
        return NotFound;
      }
      if rows[id].status != Paid {
        return BadRequest;
      }
      rows := rows[id := rows[id].(status := SubmittedExternally)];
      return Okay;
    }

    method UploadResult(id: nat, file: File, now: Time) returns (status: Status)
      modifies this
      ensures var o := Step(old(Db()), [], ScreeningRequest.UploadResult(id, file, now));
              status == Reply(o) && Db() == After(o, old(Db()))
      ensures status.Okay? <==> id < |old(rows)| && old(rows)[id].status in {Paid, SubmittedExternally}
      ensures if !status.Okay? then rows == old(rows)
              else OnlyRow(old(rows), rows, id, old(rows)[id].(
                status := Complete, result := Some(file),
                expiresAt := if old(rows)[id].kind == Portable then Some(now + 30 * 24 * 60 * 60 * 1000) else None))
    {
      if id >= |rows| {
        return NotFound;
      }
      var screening := rows[id];
      if screening.status != Paid && screening.status != SubmittedExternally {
        return BadRequest;
      }
      var expiresAt := if screening.kind == Portable then Some(now + PORTABLE_VALIDITY) else None;
      rows := rows[id := screening.(status := Complete, result := Some(file), expiresAt := expiresAt)];
      return Okay;
    }

    method CancelByAdmin(id: nat) returns (status: Status)
      modifies this
      ensures var o := Step(old(Db()), [], ScreeningRequest.CancelByAdmin(id));
              status == Reply(o) && Db() == After(o, old(Db()))
      ensures status.Okay? <==>
        id < |old(rows)| && (old(rows)[id].status == AwaitingAuthorization || old(rows)[id].status == Paid || old(rows)[id].status == SubmittedExternally)
      ensures if status.Okay? then OnlyRow(old(rows), rows, id, old(rows)[id].(status := Canceled)) else rows == old(rows)
    {
      if id >= |rows| {
        return NotFound;
      }
      if rows[id].status in {Complete, Declined, Canceled} {
        return BadRequest;
      }
      rows := rows[id := rows[id].(status := Canceled)];
      return Okay;
    }

    method HandlePaymentWebhook(order: OrderId, paid: bool, now: Time)
      modifies this
      ensures Db() == Webhook(old(Db()), order, paid, now)
      ensures !paid ==> rows == old(rows)
      ensures |rows| == |old(rows)| && shares == old(shares)
      ensures forall k :: 0 <= k < |rows| && paid && AwaitingWith(order)(old(rows)[k]) && (forall j :: 0 <= j < k ==> !AwaitingWith(order)(old(rows)[j])) ==>
        rows[k] == old(rows)[k].(status := Paid, paidAt := Some(now))
      ensures forall k :: 0 <= k < |rows| && (old(rows)[k].order != Some(order) || old(rows)[k].status != AwaitingAuthorization) ==> rows[k] == old(rows)[k]
    {
      if !paid {
        return;
      }
      var k := FindFirst(rows, AwaitingWith(order));
      if k.None? {
        return;
      }
      rows := rows[k.value := rows[k.value].(status := Paid, paidAt := Some(now))];
    }
  }

  // --- what every run keeps ---

  predicate PaidFor(s: ScreeningStatus) { s == Paid || s == SubmittedExternally || s == Complete }

  ghost predicate RowFits(s: Screening, convs: seq<Conversation>) {
    && (s.kind == Portable <==> s.conversation.None?)
    && (s.conversation.Some? ==>
          s.conversation.value < |convs| && convs[s.conversation.value] == Conversation(s.tenant, convs[s.conversation.value].landlord)
          && s.initiator == Some(convs[s.conversation.value].landlord))
    && (PaidFor(s.status) ==> s.paidAt.Some? && s.order.Some?)
    && (s.status == Complete ==> s.result.Some?)
  }

  /** A share leads from a tenant's completed portable screening into one of that tenant's conversations. */
  ghost predicate ShareFits(d: Desk, convs: seq<Conversation>, h: Share) {
    && h.screening < |d.rows| && h.conversation < |convs|
    && d.rows[h.screening].kind == Portable && d.rows[h.screening].status == Complete
    && convs[h.conversation].tenant == d.rows[h.screening].tenant
  }

  /** Two rows the tables must not hold together. */
  predicate Clash(s: Screening, t: Screening) {
    || (s.tenant == t.tenant && s.kind == t.kind == Portable && s.status == t.status == AwaitingAuthorization)
    || (s.conversation.Some? && s.conversation == t.conversation
        && s.status !in {Canceled, Declined} && t.status !in {Canceled, Declined})
  }

  ghost predicate Inv(d: Desk, convs: seq<Conversation>) {
    && (forall i :: 0 <= i < |d.rows| ==> RowFits(d.rows[i], convs))
    && (forall i, k :: 0 <= i < k < |d.rows| ==> !Clash(d.rows[i], d.rows[k]))
    && (forall i :: 0 <= i < |d.shares| ==> ShareFits(d, convs, d.shares[i]))
  }

  datatype ScreeningEvent =
    | Talk(conversation: Conversation)
    | Request(request: ScreeningRequest)
    | Delivery(order: OrderId, paid: bool, now: Time)

  datatype World = World(desk: Desk, convs: seq<Conversation>)

  function Next(w: World, e: ScreeningEvent): World {
    match e
    case Talk(c) => w.(convs := w.convs + [c])
    case Request(r) => w.(desk := After(Step(w.desk, w.convs, r), w.desk))
    case Delivery(order, paid, now) => w.(desk := Webhook(w.desk, order, paid, now))
  }

  /** The world after any sequence of events, from empty tables. */
  function Run(es: seq<ScreeningEvent>): World {
    if es == [] then World(Desk([], []), []) else Next(Run(es[..|es| - 1]), es[|es| - 1])
  }

  /** What one step does to one row. */
  lemma StepOnRow(d: Desk, convs: seq<Conversation>, r: ScreeningRequest, i: nat)
    requires Inv(d, convs) && i < |After(Step(d, convs, r), d).rows|
    ensures var s := After(Step(d, convs, r), d).rows[i];
            && RowFits(s, convs)
            && (i >= |d.rows| ==> i == |d.rows|)
            && (i < |d.rows| ==>
                  && s.tenant == d.rows[i].tenant && s.kind == d.rows[i].kind && s.conversation == d.rows[i].conversation
                  && (d.rows[i].status == Complete ==> s == d.rows[i])
                  && (s.status == AwaitingAuthorization ==> d.rows[i].status == AwaitingAuthorization)
                  && (s.status !in {Canceled, Declined} ==> d.rows[i].status !in {Canceled, Declined}))
  {
  }

  /** A row is only created when no other row would clash with it. */
  lemma NewRowIsAlone(d: Desk, convs: seq<Conversation>, r: ScreeningRequest, i: nat)
    requires Inv(d, convs) && i < |d.rows| && |After(Step(d, convs, r), d).rows| > |d.rows|
    ensures var h := After(Step(d, convs, r), d); h.rows[i] == d.rows[i] && !Clash(d.rows[i], h.rows[|d.rows|])
  {
  }

  lemma StepKeepsInv(d: Desk, convs: seq<Conversation>, r: ScreeningRequest)
    requires Inv(d, convs)
    ensures Inv(After(Step(d, convs, r), d), convs)
  {
    var h := After(Step(d, convs, r), d);
    forall i: nat | i < |h.rows|
      ensures RowFits(h.rows[i], convs)
    {
      StepOnRow(d, convs, r, i);
    }
    forall i: nat, k: nat | i < k < |h.rows|
      ensures !Clash(h.rows[i], h.rows[k])
    {
      StepOnRow(d, convs, r, i);
      StepOnRow(d, convs, r, k);
      if k == |d.rows| {
        NewRowIsAlone(d, convs, r, i);
      } else {
        assert !Clash(d.rows[i], d.rows[k]);
      }
    }
    assert |d.rows| <= |h.rows|;
    forall i: nat | i < |h.shares|
      ensures ShareFits(h, convs, h.shares[i])
    {
      if i < |d.shares| {
        assert ShareFits(d, convs, d.shares[i]);
        StepOnRow(d, convs, r, d.shares[i].screening);
      }
    }
  }

  lemma WebhookKeepsInv(d: Desk, convs: seq<Conversation>, order: OrderId, paid: bool, now: Time)
    requires Inv(d, convs)
    ensures Inv(Webhook(d, order, paid, now), convs)
  {
    var h := Webhook(d, order, paid, now);
    forall i: nat, k: nat | i < k < |h.rows|
      ensures !Clash(h.rows[i], h.rows[k])
    {
      assert !Clash(d.rows[i], d.rows[k]);
    }
    forall i: nat | i < |h.shares|
      ensures ShareFits(h, convs, h.shares[i])
    {
      assert ShareFits(d, convs, d.shares[i]);
    }
  }

  lemma TalkKeepsInv(d: Desk, convs: seq<Conversation>, c: Conversation)
    requires Inv(d, convs)
    ensures Inv(d, convs + [c])
  {
  }

  lemma NextKeepsInv(w: World, e: ScreeningEvent)
    requires Inv(w.desk, w.convs)
    ensures Inv(Next(w, e).desk, Next(w, e).convs)
  {
    match e
    case Talk(c) => TalkKeepsInv(w.desk, w.convs, c);
    case Request(r) => StepKeepsInv(w.desk, w.convs, r);
    case Delivery(order, paid, now) => WebhookKeepsInv(w.desk, w.convs, order, paid, now);
  }

  /** The provider reported `order` as paid at some point of the run. */
  predicate Delivered(es: seq<ScreeningEvent>, order: OrderId) {
    exists e :: e in es && e.Delivery? && e.order == order && e.paid
  }

  lemma NextPaysOnlyOnDelivery(w: World, e: ScreeningEvent, i: nat)
    requires Inv(w.desk, w.convs) && i < |Next(w, e).desk.rows| && PaidFor(Next(w, e).desk.rows[i].status)
    ensures var s := Next(w, e).desk.rows[i];
            || (i < |w.desk.rows| && PaidFor(w.desk.rows[i].status) && s.order == w.desk.rows[i].order)
            || (e.Delivery? && e.paid && s.order == Some(e.order))
  {
  }

  /**
   Over every run: a screening with a result was paid for through its own order, at most one
   unpaid portable screening per tenant is open, and at most one live screening per conversation.
   */
  lemma {:induction false} ScreeningsStayInOrder(es: seq<ScreeningEvent>)
    ensures var w := Run(es);
            && Inv(w.desk, w.convs)
            && (forall i :: 0 <= i < |w.desk.rows| && PaidFor(w.desk.rows[i].status) ==>
                  w.desk.rows[i].order.Some? && Delivered(es, w.desk.rows[i].order.value))
            && (forall i, k :: 0 <= i < k < |w.desk.rows| ==> !Clash(w.desk.rows[i], w.desk.rows[k]))
  {
    if es != [] {
      var init, e := es[..|es| - 1], es[|es| - 1];
      var v, w := Run(init), Run(es);
      ScreeningsStayInOrder(init);
      NextKeepsInv(v, e);
      forall i: nat | i < |w.desk.rows| && PaidFor(w.desk.rows[i].status)
        ensures w.desk.rows[i].order.Some? && Delivered(es, w.desk.rows[i].order.value)
      {
        NextPaysOnlyOnDelivery(v, e, i);
        assert e in es && forall x :: x in init ==> x in es;
      }
    }
  }

  // --- who can read a result ---

  /** The actor has a conversation, as landlord, with the screened tenant. */
  ghost predicate LandlordOf(convs: seq<Conversation>, actor: Actor, tenant: UserId) {
    exists c :: 0 <= c < |convs| && convs[c] == Conversation(tenant, actor.id)
  }

  /** A result reaches only staff, the tenant, the initiator, or a landlord in a conversation with that tenant. */
  lemma ResultsReachOnlyInsiders(d: Desk, convs: seq<Conversation>, actor: Actor, id: nat)
    requires Inv(d, convs) && DownloadTarget(d, convs, actor, id).Done?
    ensures id < |d.rows| && d.rows[id].status == Complete && d.rows[id].paidAt.Some?
    ensures var s := d.rows[id];
            IsStaff(actor.role) || actor.id == s.tenant || Some(actor.id) == s.initiator || LandlordOf(convs, actor, s.tenant)
  {
    var s := d.rows[id];
    var k := FindFirst(d.shares, SharedWith(convs, id, actor.id));
    if k.Some? {
      assert ShareFits(d, convs, d.shares[k.value]);
    }
  }

  /** Staff, the tenant, who asked for it, the landlord of its conversation, and landlords it was shared with. */
  predicate Insider(d: Desk, convs: seq<Conversation>, actor: Actor, id: nat)
    requires id < |d.rows|
  {
    var s := d.rows[id];
    || actor.role in {StaffModerator, Administrator, SuperAdministrator} || actor.id == s.tenant || s.initiator == Some(actor.id)
    || (exists c :: 0 <= c < |convs| && s.conversation == Some(c) && convs[c].landlord == actor.id)
    || exists k :: 0 <= k < |d.shares| && d.shares[k].screening == id && d.shares[k].conversation < |convs|
                   && convs[d.shares[k].conversation].landlord == actor.id
  }

  /** A result is handed out exactly to an insider, of a complete screening with a named and typed file. */
  lemma DownloadsExactlyIf(d: Desk, convs: seq<Conversation>, actor: Actor, id: nat)
    ensures DownloadTarget(d, convs, actor, id).Done? <==>
      (&& id < |d.rows| && d.rows[id].status == Complete && Insider(d, convs, actor, id)
       && d.rows[id].result.Some? && d.rows[id].result.value.name != "" && d.rows[id].result.value.mime != "")
    ensures DownloadTarget(d, convs, actor, id).Done? ==> Some(DownloadTarget(d, convs, actor, id).db) == d.rows[id].result
  {
    if id < |d.rows| { AccessIsInside(d, convs, actor, id); }
    hide CanAccess, Insider;
  }

  lemma AccessIsInside(d: Desk, convs: seq<Conversation>, actor: Actor, id: nat)
    requires id < |d.rows|
    ensures CanAccess(d, convs, actor, id) <==> Insider(d, convs, actor, id)
  {
    assert forall k :: 0 <= k < |d.shares| ==>
      (SharedWith(convs, id, actor.id)(d.shares[k]) <==>
       d.shares[k].screening == id && d.shares[k].conversation < |convs| && convs[d.shares[k].conversation].landlord == actor.id);
  }

  /** A conversation shows its own newest complete screening, else the complete one shared into it last. */
  lemma ConversationShows(d: Desk, c: nat, k: nat)
    ensures ConversationScreening(d, c) == Some(k) <==>
      (|| (k < |d.rows| && d.rows[k].conversation == Some(c) && d.rows[k].status == Complete
           && forall j :: k < j < |d.rows| ==> d.rows[j].conversation != Some(c) || d.rows[j].status != Complete)
       || ((forall j :: 0 <= j < |d.rows| ==> d.rows[j].conversation != Some(c) || d.rows[j].status != Complete)
           && exists n :: (
                && 0 <= n < |d.shares| && d.shares[n] == Shared(k, c) && k < |d.rows| && d.rows[k].status == Complete
                && forall j :: n < j < |d.shares| ==> !CompleteShare(d, c)(d.shares[j]))))
  {
    var own := FindLast(d.rows, CompleteFor(c));
    assert forall j :: 0 <= j < |d.rows| ==> (CompleteFor(c)(d.rows[j]) <==> d.rows[j].conversation == Some(c) && d.rows[j].status == Complete);
    if own.None? {
      SharedShows(d, c, k);
    }
  }

  lemma SharedShows(d: Desk, c: nat, k: nat)
    ensures
      var shared := FindLast(d.shares, CompleteShare(d, c));
      ((shared.Some? && d.shares[shared.value].screening == k) <==>
       exists n :: (
         && 0 <= n < |d.shares| && d.shares[n] == Shared(k, c) && k < |d.rows| && d.rows[k].status == Complete
         && forall j :: n < j < |d.shares| ==> !CompleteShare(d, c)(d.shares[j])))
  {
    var shared := FindLast(d.shares, CompleteShare(d, c));
    if shared.Some? && d.shares[shared.value].screening == k {
      assert CompleteShare(d, c)(d.shares[shared.value]);
      assert d.shares[shared.value] == Shared(k, c);
    }
    if n :| 0 <= n < |d.shares| && d.shares[n] == Shared(k, c) && k < |d.rows| && d.rows[k].status == Complete
            && forall j :: n < j < |d.shares| ==> !CompleteShare(d, c)(d.shares[j]) {
      assert CompleteShare(d, c)(d.shares[n]);
    }
  }

  /** Whoever the conversation path lets in, the inner access check lets in too. */
  lemma ConversationPathIsNeverRefused(d: Desk, convs: seq<Conversation>, actor: Actor, c: nat)
    requires Inv(d, convs) && c < |convs| && Participates(convs, actor, c) && ConversationScreening(d, c).Some?
    ensures var id := ConversationScreening(d, c).value;
            && id < |d.rows| && d.rows[id].status == Complete && d.rows[id].tenant == convs[c].tenant
            && CanAccess(d, convs, actor, id)
            && DownloadForConversation(d, convs, actor, c) == DownloadTarget(d, convs, actor, id)
            && DownloadForConversation(d, convs, actor, c) != Refused(Forbidden)
  {
    var own := FindLast(d.rows, CompleteFor(c));
    if own.None? {
      var shared := FindLast(d.shares, CompleteShare(d, c));
      assert ShareFits(d, convs, d.shares[shared.value]);
      assert SharedWith(convs, d.shares[shared.value].screening, convs[c].landlord)(d.shares[shared.value]);
    }
  }

  // --- orders ---

  function Awaits(s: Screening): Option<OrderId> {
    if s.status == AwaitingAuthorization then s.order else None
  }

  function Settled(s: Screening, now: Time): Screening { s.(status := Paid, paidAt := Some(now)) }

  function NewOrder(r: ScreeningRequest): Option<OrderId> {
    if r.CreateMine? || r.Pay? then Some(r.order) else None
  }

  /** The row a request would attach its new order to. */
  function Target(d: Desk, r: ScreeningRequest): nat {
    match r
    case Pay(_, id, _) => id
    case CreateMine(actor, _) =>
      var k := FindLast(d.rows, UnpaidPortable(actor.id));
      if k.Some? then k.value else |d.rows|
    case _ => |d.rows|
  }

  ghost predicate Distinct(d: Desk) {
    forall i, k ::
      0 <= i < |d.rows| && 0 <= k < |d.rows| && d.rows[i].order.Some? && d.rows[i].order == d.rows[k].order
      ==> i == k
  }

  lemma StepOrders(d: Desk, convs: seq<Conversation>, r: ScreeningRequest, i: nat)
    ensures var h := After(Step(d, convs, r), d);
            i < |h.rows| && h.rows[i].order.Some? ==>
              || (i < |d.rows| && h.rows[i].order == d.rows[i].order && (Awaits(h.rows[i]).Some? ==> Awaits(d.rows[i]).Some?))
              || (i == Target(d, r) && h.rows[i].order == NewOrder(r))
  {
  }

  lemma WebhookSettles(d: Desk, order: OrderId, now: Time, i: nat)
    requires Distinct(d) && i < |d.rows|
    ensures var h := Webhook(d, order, true, now);
            && |h.rows| == |d.rows| && h.shares == d.shares
            && h.rows[i] == (if Awaits(d.rows[i]) == Some(order) then Settled(d.rows[i], now) else d.rows[i])
  {
  }
}
