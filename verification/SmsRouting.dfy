/**
 Routing text messages (sms-routing.service.ts, sms-webhooks.controller.ts): which conversation an
 inbound SMS belongs to, asking its sender by a numbered menu when several could be meant.
 */
module SmsRouting {
  import opened Platform
  import opened Moderation
  import opened Messages
  import opened Conversations
  import D = ContactInfoDetector
  import R = Regex

  const MENU_TTL: Time := 600 * 1000

  /** What the carrier delivers under one message id, however often. */
  datatype Text = Text(from: Phone, to: Phone, body: string)

  /** The cached message waits for its sender to choose among `threads`. */
  datatype Menu = Menu(threads: seq<nat>, sender: UserId, body: string, id: ProviderId, expiresAt: Time)

  /** `owners` has the verified numbers: a number has one row, which never changes hands. */
  datatype Desk = Desk(mail: Mail, owners: map<Phone, UserId>, menus: map<(Phone, Phone), Menu>)

  datatype Routing =
    | Routed(thread: nat, sender: UserId, body: string, id: ProviderId)
    | MenuSent
    | Unroutable

  // --- parseInt(body.trim(), 10) ---

  function SkipSpace(s: string): string {
    if s != "" && R.IsSpace(s[0]) then SkipSpace(s[1..]) else s
  }

  function LeadingDigits(s: string): (n: nat)
    ensures n <= |s| && forall k :: 0 <= k < n ==> R.IsDigit(s[k])
  {
    if s != "" && R.IsDigit(s[0]) then 1 + LeadingDigits(s[1..]) else 0
  }

  function Decimal(digits: string): nat
    requires forall k :: 0 <= k < |digits| ==> R.IsDigit(digits[k])
  {
    if digits == "" then 0
    else
      var last := digits[|digits| - 1];
      assert R.IsDigit(last);
      10 * Decimal(digits[..|digits| - 1]) + (last as int - '0' as int)
  }

  /** None is NaN. */
  function ParseInt(s: string): Option<int> {
    var t := SkipSpace(s);
    var sign := if t != "" && (t[0] == '+' || t[0] == '-') then 1 else 0;
    var n := LeadingDigits(t[sign..]);
    if n == 0 then None
    else
      var value: int := Decimal(t[sign..][..n]);
      Some(if sign == 1 && t[0] == '-' then -value else value)
  }

  // --- Routing ---

  function WithPhone(phone: Phone): RelayNumber -> bool { (n: RelayNumber) => n.phone == phone }

  /** The conversation runs over this relay number and the user is one of its parties. */
  predicate Reaches(pool: seq<RelayNumber>, mail: Mail, thread: nat, to: Phone, user: UserId) {
    && thread < |mail.threads|
    && Party(mail.threads[thread], user)
    && mail.threads[thread].relay < |pool|
    && pool[mail.threads[thread].relay].phone == to
  }

  predicate IsCandidate(pool: seq<RelayNumber>, mail: Mail, thread: nat, to: Phone, user: UserId) {
    Reaches(pool, mail, thread, to, user) && !mail.threads[thread].status.Closed? && !mail.threads[thread].status.Blocked?
  }

  /** What the query returns: the candidates, in the database's order. */
  ghost predicate IsResult(pool: seq<RelayNumber>, d: Desk, t: Text, found: seq<nat>) {
    t.from in d.owners ==>
      && (forall c :: c in found <==> IsCandidate(pool, d.mail, c, t.to, d.owners[t.from]))
      && forall i, j :: 0 <= i < j < |found| ==> found[i] != found[j]
  }

  function PendingMenu(d: Desk, t: Text, now: Time): Option<Menu> {
    if (t.to, t.from) in d.menus && now < d.menus[(t.to, t.from)].expiresAt then Some(d.menus[(t.to, t.from)]) else None
  }

  /** The entry of a menu that a reply selects. */
  function Selected(menu: Menu, reply: string): Option<nat> {
    var choice := ParseInt(reply);
    if choice.Some? && 1 <= choice.value <= |menu.threads| then Some(menu.threads[choice.value - 1]) else None
  }

  /** The text answers a menu that is still waiting, with the number of an entry. */
  predicate Replying(menus: map<(Phone, Phone), Menu>, t: Text, now: Time) {
    (t.to, t.from) in menus && now < menus[(t.to, t.from)].expiresAt && Selected(menus[(t.to, t.from)], t.body).Some?
  }

  function Route(pool: seq<RelayNumber>, d: Desk, id: ProviderId, t: Text, now: Time, found: seq<nat>): (Desk, Routing) {
    var menu := PendingMenu(d, t, now);
    if menu.Some? && Selected(menu.value, t.body).Some? then
      (d.(menus := d.menus - {(t.to, t.from)}),
       Routed(Selected(menu.value, t.body).value, menu.value.sender, menu.value.body, menu.value.id))
    else if FindFirst(pool, WithPhone(t.to)).None? || t.from !in d.owners || found == [] then (d, Unroutable)
    else if |found| == 1 then (d, Routed(found[0], d.owners[t.from], t.body, id))
    else (d.(menus := d.menus[(t.to, t.from) := Menu(found, d.owners[t.from], t.body, id, now + MENU_TTL)]), MenuSent)
  }

  /** The webhook: route, then ingest what was routed. */
  function Received(pool: seq<RelayNumber>, d: Desk, id: ProviderId, t: Text, now: Time, found: seq<nat>, ai: Option<D.Report>): Desk {
    var (routed, routing) := Route(pool, d, id, t, now, found);
    match routing
    case Routed(thread, sender, body, held) =>
      routed.(mail := After(Ingested(d.mail, thread, sender, body, held, now, ai), d.mail))
    case MenuSent => routed
    case Unroutable => routed
  }

  class SmsRoutingService {
    const pool: seq<RelayNumber>
    const messages: MessagesService
    var owners: map<Phone, UserId>
    var menus: map<(Phone, Phone), Menu>

    function All(): Desk
      reads this, messages, messages.moderation
    {
      Desk(messages.All(), owners, menus)
    }

    constructor (pool: seq<RelayNumber>, messages: MessagesService)
      ensures this.pool == pool && this.messages == messages && owners == map[] && menus == map[]
    {
      this.pool := pool;
      this.messages := messages;
      owners, menus := map[], map[];
    }

    method RouteText(id: ProviderId, t: Text, now: Time, found: seq<nat>) returns (routing: Routing)
      modifies this`menus
      ensures (All(), routing) == Route(pool, old(All()), id, t, now, found)
      ensures Replying(old(menus), t, now) ==>
        var menu := old(menus)[(t.to, t.from)];
        menus == old(menus) - {(t.to, t.from)} && routing == Routed(Selected(menu, t.body).value, menu.sender, menu.body, menu.id)
      ensures !Replying(old(menus), t, now) ==>
        (routing == Unroutable <==> t.from !in owners || found == [] || forall k :: 0 <= k < |pool| ==> pool[k].phone != t.to)
      ensures !Replying(old(menus), t, now) && routing != Unroutable ==>
        if |found| == 1 then routing == Routed(found[0], owners[t.from], t.body, id) && menus == old(menus)
        else routing == MenuSent && menus == old(menus)[(t.to, t.from) := Menu(found, owners[t.from], t.body, id, now + 10 * 60 * 1000)]
      ensures routing == Unroutable ==> menus == old(menus)
    {
      var key := (t.to, t.from);
      if key in menus && now < menus[key].expiresAt {
        var pending := menus[key];
        var selection := ParseInt(t.body);
        if selection.Some? && selection.value >= 1 && selection.value <= |pending.threads| {
          menus := menus - {key};
          return Routed(pending.threads[selection.value - 1], pending.sender, pending.body, pending.id);
        }
      }
      var relay := FindFirst(pool, WithPhone(t.to));
      if relay.None? {
        return Unroutable;
      }
      if t.from !in owners {
        return Unroutable;
      }
      if |found| == 0 {
        return Unroutable;
      }
      if |found| == 1 {
        return Routed(found[0], owners[t.from], t.body, id);
      }
      menus := menus[key := Menu(found, owners[t.from], t.body, id, now + MENU_TTL)];
      routing := MenuSent;
    }

    /** A refusal of the message behind a valid signature is the webhook's answer too. */
    method Inbound(validSignature: bool, id: ProviderId, t: Text, now: Time, found: seq<nat>, ai: Option<D.Report>)
      returns (status: Status)
      modifies this`menus, messages, messages.moderation
      ensures All() == if validSignature then Received(pool, old(All()), id, t, now, found, ai) else old(All())
      ensures !validSignature ==> status == BadRequest
      ensures validSignature ==>
        var routing := Route(pool, old(All()), id, t, now, found).1;
        status == if routing.Routed?
                  then Reply(Ingested(old(messages.All()), routing.thread, routing.sender, routing.body, routing.id, now, ai))
                  else Okay
    {
      hide Ingested;
      if !validSignature {
        return BadRequest;
      }
      status := Okay;
      var routing := RouteText(id, t, now, found);
      if routing.Routed? {
        var blocked;
        status, blocked := messages.IngestInbound(routing.thread, routing.sender, routing.body, routing.id, now, ai);
      }
    }
  }

  // --- Over whole runs ---

  datatype DeskEvent =
    | Sms(id: ProviderId, now: Time, found: seq<nat>, ai: Option<D.Report>)
    | Verify(phone: Phone, user: UserId)
    | Office(event: MailEvent)

  function Step(pool: seq<RelayNumber>, carrier: ProviderId -> Text, d: Desk, e: DeskEvent): Desk {
    match e
    case Sms(id, now, found, ai) => Received(pool, d, id, carrier(id), now, found, ai)
    case Verify(phone, user) => if phone in d.owners then d else d.(owners := d.owners[phone := user])
    case Office(event) => d.(mail := Next(d.mail, event))
  }

  /** Inbound texts come through the webhook only, and queries return what they should. */
  ghost predicate Proper(pool: seq<RelayNumber>, carrier: ProviderId -> Text, d: Desk, e: DeskEvent) {
    match e
    case Sms(id, now, found, ai) => IsResult(pool, d, carrier(id), found)
    case Verify(_, _) => true
    case Office(event) => !event.Ingest? && Plausible(d.mail, event)
  }

  ghost predicate ProperRun(pool: seq<RelayNumber>, carrier: ProviderId -> Text, d: Desk, events: seq<DeskEvent>)
    decreases |events|
  {
    events == []
    || (Proper(pool, carrier, d, events[0]) && ProperRun(pool, carrier, Step(pool, carrier, d, events[0]), events[1..]))
  }

  ghost function Run(pool: seq<RelayNumber>, carrier: ProviderId -> Text, d: Desk, events: seq<DeskEvent>): Desk
    decreases |events|
  {
    if events == [] then d else Run(pool, carrier, Step(pool, carrier, d, events[0]), events[1..])
  }

  const CLOSED_DESK := Desk(EMPTY, map[], map[])

  /** A text is attributed to the owner of the phone it came from, in a conversation it can belong to. */
  ghost predicate Attributed(
      pool: seq<RelayNumber>, d: Desk, t: Text, thread: nat, sender: UserId, body: string)
  {
    && t.body == body
    && t.from in d.owners && d.owners[t.from] == sender
    && Reaches(pool, d.mail, thread, t.to, sender)
  }

  ghost predicate Faithful(pool: seq<RelayNumber>, carrier: ProviderId -> Text, d: Desk) {
    forall k :: 0 <= k < |d.mail.messages| && d.mail.messages[k].inbound ==>
      var m := d.mail.messages[k];
      m.provider.Some? && Attributed(pool, d, carrier(m.provider.value), m.conversation, m.sender, m.content)
  }

  ghost predicate MenusFaithful(pool: seq<RelayNumber>, carrier: ProviderId -> Text, d: Desk) {
    forall key :: key in d.menus ==> MenuFaithful(pool, carrier, d, key.0, key.1, d.menus[key])
  }

  ghost predicate MenuFaithful(pool: seq<RelayNumber>, carrier: ProviderId -> Text, d: Desk, to: Phone, from: Phone, menu: Menu) {
    var t := carrier(menu.id);
    && t.from == from && t.to == to
    && forall c :: c in menu.threads ==> Attributed(pool, d, t, c, menu.sender, menu.body)
  }

  ghost predicate DeskInv(pool: seq<RelayNumber>, carrier: ProviderId -> Text, d: Desk) {
    MailInv(d.mail) && Faithful(pool, carrier, d) && MenusFaithful(pool, carrier, d)
  }

  /** Attribution survives whatever leaves owners, parties and relay numbers in place. */
  ghost predicate Extends(d: Desk, after: Desk) {
    && (forall p :: p in d.owners ==> p in after.owners && after.owners[p] == d.owners[p])
    && |d.mail.threads| <= |after.mail.threads|
    && forall k :: 0 <= k < |d.mail.threads| ==>
      && after.mail.threads[k].tenant == d.mail.threads[k].tenant
      && after.mail.threads[k].landlord == d.mail.threads[k].landlord
      && after.mail.threads[k].relay == d.mail.threads[k].relay
  }

  lemma AttributedStays(pool: seq<RelayNumber>, d: Desk, after: Desk, t: Text, thread: nat, sender: UserId, body: string)
    requires Extends(d, after) && Attributed(pool, d, t, thread, sender, body)
    ensures Attributed(pool, after, t, thread, sender, body)
  {
  }

  lemma MenusStay(pool: seq<RelayNumber>, carrier: ProviderId -> Text, d: Desk, after: Desk)
    requires Extends(d, after) && MenusFaithful(pool, carrier, d)
    requires forall key :: key in after.menus ==> key in d.menus && after.menus[key] == d.menus[key]
    ensures MenusFaithful(pool, carrier, after)
  {
    forall key | key in after.menus
      ensures MenuFaithful(pool, carrier, after, key.0, key.1, after.menus[key])
    {
      var menu := d.menus[key];
      assert MenuFaithful(pool, carrier, d, key.0, key.1, menu);
      forall c | c in menu.threads
        ensures Attributed(pool, after, carrier(menu.id), c, menu.sender, menu.body)
      {
        AttributedStays(pool, d, after, carrier(menu.id), c, menu.sender, menu.body);
      }
    }
  }

  /** New rows keep the store faithful if each inbound one is attributed. */
  lemma MessagesStay(pool: seq<RelayNumber>, carrier: ProviderId -> Text, d: Desk, after: Desk)
    requires Extends(d, after) && Faithful(pool, carrier, d)
    requires d.mail.messages <= after.mail.messages
    requires forall k :: |d.mail.messages| <= k < |after.mail.messages| && after.mail.messages[k].inbound ==>
      var m := after.mail.messages[k];
      m.provider.Some? && Attributed(pool, after, carrier(m.provider.value), m.conversation, m.sender, m.content)
    ensures Faithful(pool, carrier, after)
  {
    forall k | 0 <= k < |after.mail.messages| && after.mail.messages[k].inbound
      ensures
        var m := after.mail.messages[k];
        m.provider.Some? && Attributed(pool, after, carrier(m.provider.value), m.conversation, m.sender, m.content)
    {
      var m := after.mail.messages[k];
      if k < |d.mail.messages| {
        assert m == d.mail.messages[k];
        AttributedStays(pool, d, after, carrier(m.provider.value), m.conversation, m.sender, m.content);
      }
    }
  }

  /** What an event of the messaging side does to conversations and messages. */
  lemma MailStep(m: Mail, e: MailEvent)
    ensures
      var after := Next(m, e);
      && |m.threads| <= |after.threads|
      && (forall k :: 0 <= k < |m.threads| ==>
            && after.threads[k].tenant == m.threads[k].tenant
            && after.threads[k].landlord == m.threads[k].landlord
            && after.threads[k].relay == m.threads[k].relay)
      && m.messages <= after.messages
      && (forall k :: |m.messages| <= k < |after.messages| && after.messages[k].inbound ==>
            && e.Ingest?
            && after.messages[k].provider == Some(e.id) && after.messages[k].conversation == e.thread
            && after.messages[k].sender == e.sender && after.messages[k].content == e.body)
  {
    hide Evaluate, Recorded, Restricted, Staffed;
  }

  /** What is routed belongs to the text it is routed as. */
  lemma RoutedIsAttributed(
      pool: seq<RelayNumber>, carrier: ProviderId -> Text, d: Desk, id: ProviderId, now: Time, found: seq<nat>)
    requires MenusFaithful(pool, carrier, d) && IsResult(pool, d, carrier(id), found)
    ensures
      var routing := Route(pool, d, id, carrier(id), now, found).1;
      routing.Routed? ==> Attributed(pool, d, carrier(routing.id), routing.thread, routing.sender, routing.body)
  {
    var t := carrier(id);
    var menu := PendingMenu(d, t, now);
    if menu.Some? {
      assert MenuFaithful(pool, carrier, d, t.to, t.from, menu.value);
    }
    hide ParseInt;
    if |found| == 1 {
      assert found[0] in found;
    }
  }

  lemma RouteKeepsMenus(
      pool: seq<RelayNumber>, carrier: ProviderId -> Text, d: Desk, id: ProviderId, now: Time, found: seq<nat>)
    requires MenusFaithful(pool, carrier, d) && IsResult(pool, d, carrier(id), found)
    ensures
      var routed := Route(pool, d, id, carrier(id), now, found).0;
      routed.mail == d.mail && routed.owners == d.owners && MenusFaithful(pool, carrier, routed)
  {
    var t := carrier(id);
    var routed := Route(pool, d, id, t, now, found).0;
    hide ParseInt, Selected;
    forall key | key in routed.menus
      ensures MenuFaithful(pool, carrier, routed, key.0, key.1, routed.menus[key])
    {
      if key in d.menus && routed.menus[key] == d.menus[key] {
        assert MenuFaithful(pool, carrier, d, key.0, key.1, d.menus[key]);
      }
    }
  }

  lemma SmsKeepsInv(
      pool: seq<RelayNumber>, carrier: ProviderId -> Text, d: Desk, id: ProviderId, now: Time, found: seq<nat>, ai: Option<D.Report>)
    requires DeskInv(pool, carrier, d) && IsResult(pool, d, carrier(id), found)
    ensures DeskInv(pool, carrier, Received(pool, d, id, carrier(id), now, found, ai))
  {
    hide MailInv, MenuFaithful, IsResult, Attributed, Ingested, Next, Route;
    var (routed, routing) := Route(pool, d, id, carrier(id), now, found);
    RouteKeepsMenus(pool, carrier, d, id, now, found);
    RoutedIsAttributed(pool, carrier, d, id, now, found);
    if routing.Routed? {
      var e := MailEvent.Ingest(routing.thread, routing.sender, routing.body, routing.id, now, ai);
      var after := routed.(mail := Next(d.mail, e));
      IngestIsNext(d.mail, e);
      MailStep(d.mail, e);
      NextKeepsMailInv(d.mail, e);
      assert Extends(routed, after) && Extends(d, after);
      AttributedStays(pool, d, after, carrier(routing.id), routing.thread, routing.sender, routing.body);
      MenusStay(pool, carrier, routed, after);
      MessagesStay(pool, carrier, d, after);
    } else {
      assert Extends(d, routed);
      MessagesStay(pool, carrier, d, routed);
    }
  }

  lemma IngestIsNext(m: Mail, e: MailEvent)
    requires e.Ingest?
    ensures Next(m, e) == After(Ingested(m, e.thread, e.sender, e.body, e.id, e.now, e.ai), m)
  {
    hide Ingested;
  }

  lemma StepKeepsDeskInv(pool: seq<RelayNumber>, carrier: ProviderId -> Text, d: Desk, e: DeskEvent)
    requires DeskInv(pool, carrier, d) && Proper(pool, carrier, d, e)
    ensures DeskInv(pool, carrier, Step(pool, carrier, d, e))
  {
    match e
    case Sms(id, now, found, ai) =>
      hide DeskInv, Received, IsResult;
      SmsKeepsInv(pool, carrier, d, id, now, found, ai);
    case Verify(phone, user) =>
      var after := Step(pool, carrier, d, e);
      hide MailInv, Attributed;
      MenusStay(pool, carrier, d, after);
      MessagesStay(pool, carrier, d, after);
    case Office(event) =>
      hide MailInv, Attributed, Next, MenusFaithful, Faithful;
      var after := d.(mail := Next(d.mail, event));
      MailStep(d.mail, event);
      NextKeepsMailInv(d.mail, event);
      MenusStay(pool, carrier, d, after);
      MessagesStay(pool, carrier, d, after);
  }

  lemma {:induction false} RunKeepsDeskInv(pool: seq<RelayNumber>, carrier: ProviderId -> Text, d: Desk, events: seq<DeskEvent>)
    requires DeskInv(pool, carrier, d) && ProperRun(pool, carrier, d, events)
    ensures DeskInv(pool, carrier, Run(pool, carrier, d, events))
    decreases |events|
  {
    if events != [] {
      hide DeskInv, Step, Proper;
      StepKeepsDeskInv(pool, carrier, d, events[0]);
      RunKeepsDeskInv(pool, carrier, Step(pool, carrier, d, events[0]), events[1..]);
    }
  }

  /**
   Over any run, with deliveries repeated and menus overwritten or expired: a carrier id is stored
   at most once, with the text sent under it, as from the verified owner of the phone it came from,
   in a conversation of that owner over the relay number it was sent to.
   */
  lemma TextsAreStoredFaithfully(pool: seq<RelayNumber>, carrier: ProviderId -> Text, events: seq<DeskEvent>)
    requires ProperRun(pool, carrier, CLOSED_DESK, events)
    ensures
      var d := Run(pool, carrier, CLOSED_DESK, events);
      IdsUnique(d.mail.messages) && Faithful(pool, carrier, d)
  {
    EmptyMailInv();
    RunKeepsDeskInv(pool, carrier, CLOSED_DESK, events);
  }

  /** A valid reply to a menu delivers the message that was held, and is not stored itself. */
  lemma ReplyDeliversTheHeldText(
      pool: seq<RelayNumber>, d: Desk, id: ProviderId, t: Text, now: Time, found: seq<nat>, ai: Option<D.Report>)
    requires PendingMenu(d, t, now).Some? && Selected(PendingMenu(d, t, now).value, t.body).Some?
    ensures
      var held := PendingMenu(d, t, now).value;
      var before, after := d.mail.messages, Received(pool, d, id, t, now, found, ai);
      && (t.to, t.from) !in after.menus
      && before <= after.mail.messages && |after.mail.messages| <= |before| + 1
      && (|after.mail.messages| > |before| ==>
            var row := after.mail.messages[|before|];
            row.provider == Some(held.id) && row.content == held.body && row.sender == held.sender
            && row.conversation == Selected(held, t.body).value)
  {
    hide Evaluate, Recorded, Restricted, ParseInt;
  }

  /** A repeated delivery whose text is already stored stores nothing, whichever way it is routed. */
  lemma StoredTextsAreNotStoredAgain(m: Mail, thread: nat, sender: UserId, body: string, id: ProviderId, now: Time, ai: Option<D.Report>)
    requires exists k :: 0 <= k < |m.messages| && m.messages[k].provider == Some(id)
    ensures After(Ingested(m, thread, sender, body, id, now, ai), m) == m
  {
    var existing := FindFirst(m.messages, WithProvider(id));
    var k :| 0 <= k < |m.messages| && m.messages[k].provider == Some(id);
    assert WithProvider(id)(m.messages[k]);
  }

  /** The conversation is open, over the number the text was sent to, and its sender is one of the parties. */
  predicate CouldMean(pool: seq<RelayNumber>, d: Desk, c: nat, t: Text, user: UserId) {
    && c < |d.mail.threads|
    && var thread := d.mail.threads[c];
       && thread.status != Closed && thread.status != ThreadStatus.Blocked
       && (user == thread.tenant || user == thread.landlord)
       && thread.relay < |pool| && pool[thread.relay].phone == t.to
  }

  /** A text that can belong to one open conversation only goes there, as from its owner, unless it answers a menu. */
  lemma OnlyConversationGetsTheText(
      pool: seq<RelayNumber>, d: Desk, id: ProviderId, t: Text, now: Time, found: seq<nat>, c: nat)
    requires IsResult(pool, d, t, found) && t.from in d.owners && !Replying(d.menus, t, now)
    requires forall k: nat :: CouldMean(pool, d, k, t, d.owners[t.from]) <==> k == c
    ensures Route(pool, d, id, t, now, found) == (d, Routed(c, d.owners[t.from], t.body, id))
  {
    hide ParseInt;
    CandidatesAreMeant(pool, d, t, found);
    assert CouldMean(pool, d, c, t, d.owners[t.from]);
    var i :| 0 <= i < |found| && found[i] == c;
    assert forall j :: 0 <= j < |found| ==> found[j] in found && j == i;
    assert i == 0 by { assert found[0] in found; }
    assert i == |found| - 1 by { assert found[|found| - 1] in found; }
    assert WithPhone(t.to)(pool[d.mail.threads[c].relay]);
  }

  lemma CandidatesAreMeant(pool: seq<RelayNumber>, d: Desk, t: Text, found: seq<nat>)
    requires IsResult(pool, d, t, found) && t.from in d.owners
    ensures forall k: nat :: k in found <==> CouldMean(pool, d, k, t, d.owners[t.from])
  {
    forall k: nat
      ensures IsCandidate(pool, d.mail, k, t.to, d.owners[t.from]) <==> CouldMean(pool, d, k, t, d.owners[t.from])
    {
    }
  }

  /** A text that could belong to several is held, and its sender asked which of all of them is meant. */
  lemma SeveralConversationsAreAskedFor(
      pool: seq<RelayNumber>, d: Desk, id: ProviderId, t: Text, now: Time, found: seq<nat>, c: nat, c': nat)
    requires IsResult(pool, d, t, found) && t.from in d.owners && !Replying(d.menus, t, now)
    requires c != c' && CouldMean(pool, d, c, t, d.owners[t.from]) && CouldMean(pool, d, c', t, d.owners[t.from])
    ensures
      var (after, routing) := Route(pool, d, id, t, now, found);
      && routing == MenuSent && (t.to, t.from) in after.menus
      && var menu := after.menus[(t.to, t.from)];
         && menu.sender == d.owners[t.from] && menu.body == t.body && menu.id == id && menu.expiresAt == now + 10 * 60 * 1000
         && forall k: nat :: k in menu.threads <==> CouldMean(pool, d, k, t, d.owners[t.from])
  {
    hide ParseInt, CouldMean;
    CandidatesAreMeant(pool, d, t, found);
    assert c in found && c' in found;
    RelayIsFound(pool, d, c, t);
  }

  lemma RelayIsFound(pool: seq<RelayNumber>, d: Desk, c: nat, t: Text)
    requires t.from in d.owners && CouldMean(pool, d, c, t, d.owners[t.from])
    ensures FindFirst(pool, WithPhone(t.to)).Some?
  {
    assert WithPhone(t.to)(pool[d.mail.threads[c].relay]);
  }

  // --- Menu replies ---

  /** A number in figures. */
  function Show(n: nat): (r: string)
    ensures r != ""
  {
    (if n < 10 then "" else Show(n / 10)) + ["0123456789"[n % 10]]
  }

  lemma {:induction false} ShownIsRead(n: nat)
    ensures forall k :: 0 <= k < |Show(n)| ==> R.IsDigit(Show(n)[k])
    ensures Decimal(Show(n)) == n
  {
    var s := Show(n);
    if n >= 10 {
      ShownIsRead(n / 10);
      assert s[..|s| - 1] == Show(n / 10);
    } else {
      assert s[..|s| - 1] == "";
    }
  }

  /** The number of an entry, with blanks before it and text after it, selects that entry. */
  lemma ShownNumberSelects(menu: Menu, blanks: string, n: nat, rest: string)
    requires forall k :: 0 <= k < |blanks| ==> blanks[k] == ' ' || '\t' <= blanks[k] <= '\r'
    requires rest == "" || !('0' <= rest[0] <= '9')
    ensures Selected(menu, blanks + Show(n) + rest) == if 1 <= n <= |menu.threads| then Some(menu.threads[n - 1]) else None
  {
    ShownIsRead(n);
    NumberSelects(menu, blanks, Show(n), rest);
  }

  /** Any spelling of a menu entry's number selects it: blanks around it, leading zeros, text after it. */
  lemma {:induction false} NumberSelects(menu: Menu, blanks: string, digits: string, rest: string)
    requires forall k :: 0 <= k < |blanks| ==> R.IsSpace(blanks[k])
    requires digits != "" && forall k :: 0 <= k < |digits| ==> R.IsDigit(digits[k])
    requires rest == "" || !R.IsDigit(rest[0])
    ensures Selected(menu, blanks + digits + rest)
         == if 1 <= Decimal(digits) <= |menu.threads| then Some(menu.threads[Decimal(digits) - 1]) else None
  {
    assert blanks + digits + rest == blanks + (digits + rest);
    SkipsBlanks(blanks, digits + rest);
    DigitsLead(digits, rest);
    var t := digits + rest;
    assert t[0] == digits[0];
    assert t[0..] == t && t[..|digits|] == digits;
  }

  lemma {:induction false} SkipsBlanks(blanks: string, s: string)
    requires forall k :: 0 <= k < |blanks| ==> R.IsSpace(blanks[k])
    requires s != "" && !R.IsSpace(s[0])
    ensures SkipSpace(blanks + s) == s
  {
    if blanks == "" {
      assert blanks + s == s;
    } else {
      assert (blanks + s)[1..] == blanks[1..] + s;
      SkipsBlanks(blanks[1..], s);
    }
  }

  lemma {:induction false} DigitsLead(digits: string, rest: string)
    requires forall k :: 0 <= k < |digits| ==> R.IsDigit(digits[k])
    requires rest == "" || !R.IsDigit(rest[0])
    ensures LeadingDigits(digits + rest) == |digits|
  {
    if digits == "" {
      assert digits + rest == rest;
    } else {
      assert (digits + rest)[1..] == digits[1..] + rest;
      DigitsLead(digits[1..], rest);
    }
  }
}
