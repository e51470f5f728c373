/** Sending and receiving messages (messages.service.ts): the gates in front of a conversation. */
module Messages {
  import opened Platform
  import opened Moderation
  import D = ContactInfoDetector

  datatype ThreadStatus = NewInquiry | Underway | ShowingRequested | ShowingScheduled | Closed | Blocked

  /** What a conversation is about: a property, perhaps one of its units or beds. */
  datatype Place = Place(property: nat, unit: Option<nat>, bed: Option<nat>)

  /** A conversation: its place, parties and relay number never change. */
  datatype Thread = Thread(
    place: Place, tenant: UserId, landlord: UserId, relay: nat,
    status: ThreadStatus, flagged: bool, lastMessageAt: Option<Time>)

  datatype Mail = Mail(threads: seq<Thread>, messages: seq<Message>, records: Records)

  predicate Party(t: Thread, user: UserId) { user == t.tenant || user == t.landlord }

  function Other(t: Thread, user: UserId): UserId { if user == t.tenant then t.landlord else t.tenant }

  function WithProvider(id: ProviderId): Message -> bool { (m: Message) => m.provider == Some(id) }

  function Judge(m: Mail, thread: nat, sender: UserId, content: string, now: Time, ai: Option<D.Report>): Option<D.Report> {
    Evaluate(m.messages, thread, sender, content, now, ai)
  }

  /** A blocked message is kept, but only as evidence. */
  function Withheld(m: Mail, thread: nat, row: Message, report: D.Report, flags: bool): Mail
    requires thread < |m.threads|
  {
    Mail(
      if flags then m.threads[thread := m.threads[thread].(flagged := true)] else m.threads,
      m.messages + [row],
      Recorded(m.records, row.sender, |m.messages|, report, row.at))
  }

  function Delivered(m: Mail, thread: nat, row: Message): Mail
    requires thread < |m.threads|
  {
    var t := m.threads[thread];
    var status := if t.status.NewInquiry? && row.sender != t.tenant then Underway else t.status;
    m.(threads := m.threads[thread := t.(lastMessageAt := Some(row.at), status := status)], messages := m.messages + [row])
  }

  /** `sent` is the id of the text message that notified the other party, if one was sent. */
  function Composed(m: Mail, thread: nat, sender: UserId, content: string, now: Time, ai: Option<D.Report>, sent: Option<ProviderId>)
    : Outcome<Mail>
  {
    if thread >= |m.threads| then Refused(NotFound)
    else if !Party(m.threads[thread], sender) then Refused(Forbidden)
    else if Restricted(m.records, sender, now) then Refused(Forbidden)
    else
      var verdict := Judge(m, thread, sender, content, now, ai);
      var row := Message(thread, sender, Other(m.threads[thread], sender), false, content, verdict.Some?, None, now);
      if verdict.Some? then Done(Withheld(m, thread, row, verdict.value, true))
      else Done(Delivered(m, thread, row.(provider := sent)))
  }

  function Ingested(m: Mail, thread: nat, sender: UserId, body: string, id: ProviderId, now: Time, ai: Option<D.Report>): Outcome<Mail> {
    if thread >= |m.threads| then Refused(NotFound)
    else if FindFirst(m.messages, WithProvider(id)).Some? then Done(m)
    else if Restricted(m.records, sender, now) then Refused(Forbidden)
    else
      var verdict := Judge(m, thread, sender, body, now, ai);
      var row := Message(thread, sender, Other(m.threads[thread], sender), true, body, verdict.Some?, Some(id), now);
      if verdict.Some? then Done(Withheld(m, thread, row, verdict.value, false))
      else Done(Delivered(m, thread, row))
  }

  // --- What a request amounts to, field by field ---

  /** An unlifted restriction without end or not yet over. */
  ghost predicate HeldBack(m: Mail, user: UserId, now: Time) {
    exists k :: 0 <= k < |m.records.restrictions| &&
      var r := m.records.restrictions[k];
      r.user == user && r.liftedAt.None? && (r.endsAt.None? || r.endsAt.value > now)
  }

  lemma HeldBackIsRestricted(m: Mail, user: UserId, now: Time)
    ensures HeldBack(m, user, now) <==> Restricted(m.records, user, now)
  {
    var rows := m.records.restrictions;
    assert forall k :: 0 <= k < |rows| ==>
      (Active(user, now)(rows[k]) <==> rows[k].user == user && rows[k].liftedAt.None? && (rows[k].endsAt.None? || rows[k].endsAt.value > now));
  }

  /** A message is stopped for what it shows, for what it shows after the recent ones, or by the classifier. */
  ghost predicate Stopped(m: Mail, thread: nat, sender: UserId, content: string, now: Time, ai: Option<D.Report>) {
    D.Blocked(content) || D.Blocked(Together(m.messages, thread, sender, content, now)) || ai.Some?
  }

  lemma StoppedIsJudged(m: Mail, thread: nat, sender: UserId, content: string, now: Time, ai: Option<D.Report>)
    ensures Judge(m, thread, sender, content, now, ai).Some? <==> Stopped(m, thread, sender, content, now, ai)
  {
    EvaluateMeans(m.messages, thread, sender, content, now, ai);
    hide D.Blocked, Together, Evaluate;
  }

  /** Only the one conversation changed, and it became `t`. */
  predicate OnlyThread(before: Mail, after: Mail, thread: nat, t: Thread) {
    |after.threads| == |before.threads| && forall k :: 0 <= k < |before.threads| ==>
      after.threads[k] == if k == thread then t else before.threads[k]
  }

  /** A delivered message opens a new inquiry if it is an answer, and dates its conversation. */
  function Dated(t: Thread, sender: UserId, now: Time): Thread {
    Thread(t.place, t.tenant, t.landlord, t.relay,
           if t.status == NewInquiry && sender != t.tenant then Underway else t.status, t.flagged, Some(now))
  }

  lemma ComposedMeans(m: Mail, thread: nat, sender: UserId, content: string, now: Time, ai: Option<D.Report>, sent: Option<ProviderId>)
    ensures
      var o, verdict := Composed(m, thread, sender, content, now, ai, sent), Judge(m, thread, sender, content, now, ai);
      if thread >= |m.threads| then o == Refused(NotFound)
      else
        var t := m.threads[thread];
        if (sender != t.tenant && sender != t.landlord) || HeldBack(m, sender, now) then o == Refused(Forbidden)
        else
          var other := if sender == t.tenant then t.landlord else t.tenant;
          if verdict.Some? then
            && o.Done? && o.db.messages == m.messages + [Message(thread, sender, other, false, content, true, None, now)]
            && OnlyThread(m, o.db, thread, t.(flagged := true))
            && o.db.records == Recorded(m.records, sender, |m.messages|, verdict.value, now)
          else
            && o.Done? && o.db.messages == m.messages + [Message(thread, sender, other, false, content, false, sent, now)]
            && OnlyThread(m, o.db, thread, Dated(t, sender, now)) && o.db.records == m.records
  {
    HeldBackIsRestricted(m, sender, now);
    hide Restricted, HeldBack, Judge, Recorded;
  }

  ghost predicate Stored(m: Mail, id: ProviderId) { exists k :: 0 <= k < |m.messages| && m.messages[k].provider == Some(id) }

  lemma StoredIsFound(m: Mail, id: ProviderId)
    ensures Stored(m, id) <==> FindFirst(m.messages, WithProvider(id)).Some?
  {
    assert forall k :: 0 <= k < |m.messages| ==> (WithProvider(id)(m.messages[k]) <==> m.messages[k].provider == Some(id));
  }

  lemma IngestedMeans(m: Mail, thread: nat, sender: UserId, body: string, id: ProviderId, now: Time, ai: Option<D.Report>)
    ensures
      var o, verdict := Ingested(m, thread, sender, body, id, now, ai), Judge(m, thread, sender, body, now, ai);
      if thread >= |m.threads| then o == Refused(NotFound)
      else if Stored(m, id) then o == Done(m)
      else if HeldBack(m, sender, now) then o == Refused(Forbidden)
      else
        var t := m.threads[thread];
        var other := if sender == t.tenant then t.landlord else t.tenant;
        if verdict.Some? then
          && o.Done? && o.db.messages == m.messages + [Message(thread, sender, other, true, body, true, Some(id), now)]
          && o.db.threads == m.threads
          && o.db.records == Recorded(m.records, sender, |m.messages|, verdict.value, now)
        else
          && o.Done? && o.db.messages == m.messages + [Message(thread, sender, other, true, body, false, Some(id), now)]
          && OnlyThread(m, o.db, thread, Dated(t, sender, now)) && o.db.records == m.records
  {
    HeldBackIsRestricted(m, sender, now);
    StoredIsFound(m, id);
    hide Restricted, HeldBack, Judge, Recorded, Stored, WithProvider;
  }

  /** The provider hands out ids it has not used yet. */
  predicate Fresh(messages: seq<Message>, sent: Option<ProviderId>) {
    sent.Some? ==> forall k :: 0 <= k < |messages| ==> messages[k].provider != sent
  }

  class MessagesService {
    const moderation: ModerationService
    var threads: seq<Thread>
    var messages: seq<Message>

    function All(): Mail
      reads this, moderation
    {
      Mail(threads, messages, moderation.All())
    }

    constructor (moderation: ModerationService)
      ensures this.moderation == moderation && threads == [] && messages == []
    {
      this.moderation := moderation;
      threads, messages := [], [];
    }

    method Compose(thread: nat, sender: UserId, content: string, now: Time, ai: Option<D.Report>, sent: Option<ProviderId>)
      returns (status: Status, blocked: bool)
      requires Fresh(messages, sent)
      modifies this, moderation
      ensures
        var o := Composed(old(All()), thread, sender, content, now, ai, sent);
        status == Reply(o) && All() == After(o, old(All()))
      ensures status.Okay? ==> messages != [] && blocked == messages[|messages| - 1].blocked
    {
      hide Evaluate, Recorded, Restricted, Of, D.Blocked, Together;
      blocked := false;
      if thread >= |threads| {
        return NotFound, false;
      }
      var t := threads[thread];
      if sender != t.tenant && sender != t.landlord {
        return Forbidden, false;
      }
      var restricted := moderation.IsRestricted(sender, now);
      if restricted {
        return Forbidden, false;
      }
      var recipient := if sender == t.tenant then t.landlord else t.tenant;
      var verdict := moderation.EvaluateWithHistory(messages, thread, sender, content, now, ai);
      if verdict.Some? {
        var id := |messages|;
        messages := messages + [Message(thread, sender, recipient, false, content, true, None, now)];
        var _ := moderation.RecordViolationAndEscalate(sender, id, verdict.value, now);
        if !t.flagged {
          threads := threads[thread := t.(flagged := true)];
        }
        assert threads == old(threads)[thread := t.(flagged := true)];
        return Okay, true;
      }
      messages := messages + [Message(thread, sender, recipient, false, content, false, None, now)];
      if sent.Some? {
        var id := |messages| - 1;
        messages := messages[id := messages[id].(provider := sent)];
      }
      assert messages == old(messages) + [Message(thread, sender, recipient, false, content, false, sent, now)];
      Touch(thread, sender, now);
      status := Okay;
    }

    /** A delivered message moves its conversation on. */
    method Touch(thread: nat, sender: UserId, now: Time)
      requires thread < |threads|
      modifies this`threads
      ensures
        var t := old(threads)[thread];
        threads == old(threads)[thread := t.(
          lastMessageAt := Some(now), status := if t.status.NewInquiry? && sender != t.tenant then Underway else t.status)]
    {
      var t := threads[thread];
      var becameActive := t.status.NewInquiry? && sender != t.tenant;
      threads := threads[thread := t.(lastMessageAt := Some(now))];
      if becameActive {
        threads := threads[thread := threads[thread].(status := Underway)];
      }
    }

    method IngestInbound(thread: nat, sender: UserId, body: string, id: ProviderId, now: Time, ai: Option<D.Report>)
      returns (status: Status, blocked: bool)
      modifies this, moderation
      ensures
        var o := Ingested(old(All()), thread, sender, body, id, now, ai);
        status == Reply(o) && All() == After(o, old(All()))
      ensures status.Okay? ==> exists k :: 0 <= k < |messages| && messages[k].provider == Some(id) && blocked == messages[k].blocked
    {
      hide Evaluate, Recorded, Restricted, Of, D.Blocked, Together;
      blocked := false;
      if thread >= |threads| {
        return NotFound, false;
      }
      var existing := FindFirst(messages, WithProvider(id));
      if existing.Some? {
        return Okay, messages[existing.value].blocked;
      }
      var restricted := moderation.IsRestricted(sender, now);
      if restricted {
        return Forbidden, false;
      }
      var t := threads[thread];
      var recipient := if sender == t.tenant then t.landlord else t.tenant;
      var verdict := moderation.EvaluateWithHistory(messages, thread, sender, body, now, ai);
      var k := |messages|;
      messages := messages + [Message(thread, sender, recipient, true, body, verdict.Some?, Some(id), now)];
      assert messages[k].provider == Some(id);
      if verdict.Some? {
        var _ := moderation.RecordViolationAndEscalate(sender, k, verdict.value, now);
        return Okay, true;
      }
      Touch(thread, sender, now);
      status := Okay;
    }
  }

  // --- Over whole runs ---

  datatype MailEvent =
    | Start(place: Place, tenant: UserId, landlord: UserId, relay: nat)
    | Compose(thread: nat, sender: UserId, content: string, now: Time, ai: Option<D.Report>, sent: Option<ProviderId>)
    | Ingest(thread: nat, sender: UserId, body: string, id: ProviderId, now: Time, ai: Option<D.Report>)
    | Staff(request: StaffRequest)
    | SetStatus(thread: nat, status: ThreadStatus)

  function Opened(m: Mail, place: Place, tenant: UserId, landlord: UserId, relay: nat): Mail {
    m.(threads := m.threads + [Thread(place, tenant, landlord, relay, NewInquiry, false, None)])
  }

  function Next(m: Mail, e: MailEvent): Mail {
    match e
    case Start(place, tenant, landlord, relay) => Opened(m, place, tenant, landlord, relay)
    case Compose(thread, sender, content, now, ai, sent) => After(Composed(m, thread, sender, content, now, ai, sent), m)
    case Ingest(thread, sender, body, id, now, ai) => After(Ingested(m, thread, sender, body, id, now, ai), m)
    case Staff(request) => m.(records := After(Staffed(m.records, request), m.records))
    case SetStatus(thread, status) =>
      if thread < |m.threads| then m.(threads := m.threads[thread := m.threads[thread].(status := status)]) else m
  }

  predicate Plausible(m: Mail, e: MailEvent) { e.Compose? ==> Fresh(m.messages, e.sent) }

  ghost predicate PlausibleRun(m: Mail, events: seq<MailEvent>)
    decreases |events|
  {
    events == [] || (Plausible(m, events[0]) && PlausibleRun(Next(m, events[0]), events[1..]))
  }

  ghost function Run(m: Mail, events: seq<MailEvent>): Mail
    decreases |events|
  {
    if events == [] then m else Run(Next(m, events[0]), events[1..])
  }

  const EMPTY := Mail([], [], Records([], [], []))

  /** Who wrote which blocked message, oldest first. */
  function BlockedRows(messages: seq<Message>): seq<(UserId, nat)> {
    if messages == [] then []
    else
      var k := |messages| - 1;
      BlockedRows(messages[..k]) + if messages[k].blocked then [(messages[k].sender, k)] else []
  }

  function Cases(violations: seq<Violation>): seq<(UserId, nat)> {
    seq(|violations|, i requires 0 <= i < |violations| => (violations[i].user, violations[i].message))
  }

  /** Neither the message nor, with it, its sender's recent delivered ones showed anything. */
  predicate PassedAt(messages: seq<Message>, i: nat)
    requires i < |messages|
  {
    var m := messages[i];
    && D.Reports(m.content) == []
    && (RecentBackwards(messages[..i], m.conversation, m.sender, m.at, LOOKBACK_MESSAGES) == []
        || D.Reports(Combined(messages[..i], m.conversation, m.sender, m.content, m.at)) == [])
  }

  ghost predicate DeliveriesPassed(messages: seq<Message>) {
    forall i :: 0 <= i < |messages| && !messages[i].blocked ==> PassedAt(messages, i)
  }

  ghost predicate IdsUnique(messages: seq<Message>) {
    forall i, j :: 0 <= i < j < |messages| && messages[i].provider.Some? ==> messages[i].provider != messages[j].provider
  }

  ghost predicate SentByParties(m: Mail) {
    forall i :: 0 <= i < |m.messages| && !m.messages[i].inbound ==>
      m.messages[i].conversation < |m.threads| && Party(m.threads[m.messages[i].conversation], m.messages[i].sender)
  }

  /** While the automatic restriction is in force and not lifted, nothing its user writes is stored. */
  ghost predicate RestrictionHolds(m: Mail, user: UserId) {
    Silent(Of(m.records.violations, user), Automatic(m.records.restrictions, user), m.messages, user)
  }

  ghost predicate Silent(mine: seq<Violation>, auto: seq<Restriction>, messages: seq<Message>, user: UserId) {
    |mine| >= 3 && |auto| == 1 && auto[0].liftedAt.None? ==>
      forall k :: mine[2].message < k < |messages| && messages[k].sender == user ==> messages[k].at >= mine[2].at + DAY
  }

  /** Every restriction of the list is lifted or has run out. */
  predicate Over(auto: seq<Restriction>, now: Time) {
    forall k :: 0 <= k < |auto| ==> auto[k].liftedAt.Some? || (auto[k].endsAt.Some? && auto[k].endsAt.value <= now)
  }

  lemma SilentWithRow(mine: seq<Violation>, auto: seq<Restriction>, messages: seq<Message>, row: Message, user: UserId)
    requires Silent(mine, auto, messages, user) && InStep(mine, auto) && (row.sender == user ==> Over(auto, row.at))
    ensures Silent(mine, auto, messages + [row], user)
  {
  }

  lemma SilentWithViolation(
      mine: seq<Violation>, auto: seq<Restriction>, v: Violation, more: seq<Restriction>, messages: seq<Message>, row: Message, user: UserId)
    requires Silent(mine, auto, messages, user) && InStep(mine, auto) && Over(auto, row.at)
    requires v.message == |messages| && |more| == if |mine| == 2 then 1 else 0
    ensures Silent(mine + [v], auto + more, messages + [row], user)
  {
    if |mine| >= 3 {
      assert auto + more == auto && (mine + [v])[2] == mine[2];
      SilentWithRow(mine, auto, messages, row, user);
    }
  }

  ghost predicate RestrictionsHold(m: Mail) { forall u :: RestrictionHolds(m, u) }

  ghost predicate MailInv(m: Mail) {
    && RestrictionsHold(m)
    && EscalationInv(m.records)
    && Cases(m.records.violations) == BlockedRows(m.messages)
    && DeliveriesPassed(m.messages)
    && IdsUnique(m.messages)
    && SentByParties(m)
  }

  lemma BlockedAppended(messages: seq<Message>, row: Message)
    ensures BlockedRows(messages + [row]) == BlockedRows(messages) + if row.blocked then [(row.sender, |messages|)] else []
  {
    assert (messages + [row])[..|messages|] == messages;
  }

  lemma PassesAppended(messages: seq<Message>, row: Message)
    requires DeliveriesPassed(messages)
    requires row.blocked || Evaluate(messages, row.conversation, row.sender, row.content, row.at, None) == None
    ensures DeliveriesPassed(messages + [row])
  {
    var all := messages + [row];
    assert all[..|messages|] == messages;
    hide *;
    forall i | 0 <= i < |all| && !all[i].blocked
      ensures PassedAt(all, i)
    {
      if i == |messages| {
        PassesNow(messages, row);
      } else {
        PassedBefore(messages, row, i);
      }
    }
    PassedAll(all);
  }

  lemma PassesNow(messages: seq<Message>, row: Message)
    requires Evaluate(messages, row.conversation, row.sender, row.content, row.at, None) == None
    ensures PassedAt(messages + [row], |messages|)
  {
    assert (messages + [row])[..|messages|] == messages;
  }

  lemma PassedBefore(messages: seq<Message>, row: Message, i: nat)
    requires DeliveriesPassed(messages) && i < |messages| && !messages[i].blocked
    ensures PassedAt(messages + [row], i)
  {
    hide D.Reports, RecentBackwards, Combined;
    assert PassedAt(messages, i);
    hide DeliveriesPassed;
    assert (messages + [row])[..i] == messages[..i] && (messages + [row])[i] == messages[i];
  }

  lemma PassedAll(messages: seq<Message>)
    requires forall i :: 0 <= i < |messages| && !messages[i].blocked ==> PassedAt(messages, i)
    ensures DeliveriesPassed(messages)
  {
  }

  /** The classifier cannot let anything through. */
  lemma NoVerdictWithoutAi(
      messages: seq<Message>, conversation: nat, sender: UserId, content: string, now: Time, ai: Option<D.Report>)
    ensures Evaluate(messages, conversation, sender, content, now, ai) == None
        ==> Evaluate(messages, conversation, sender, content, now, None) == None
  {
  }

  lemma AppendedKeepsParties(m: Mail, after: Mail, row: Message)
    requires SentByParties(m) && IdsUnique(m.messages) && after.messages == m.messages + [row]
    requires |after.threads| == |m.threads| && row.conversation < |m.threads| && Fresh(m.messages, row.provider)
    requires forall t :: 0 <= t < |m.threads| ==>
      after.threads[t].tenant == m.threads[t].tenant && after.threads[t].landlord == m.threads[t].landlord
    requires row.inbound || Party(m.threads[row.conversation], row.sender)
    ensures SentByParties(after) && IdsUnique(after.messages)
  {
  }

  /** One more message of a user who is not restricted. */
  lemma DeliveredKeepsRestriction(m: Mail, after: Mail, row: Message, user: UserId)
    requires RestrictionHolds(m, user) && Escalated(m.records, user) && !Restricted(m.records, row.sender, row.at)
    requires after.records == m.records && after.messages == m.messages + [row]
    ensures RestrictionHolds(after, user)
  {
    UnrestrictedMeansOver(m.records, row.sender, row.at);
    hide Of, Automatic, Restricted, InStep, Silent;
    SilentWithRow(Of(m.records.violations, user), Automatic(m.records.restrictions, user), m.messages, row, user);
  }

  lemma WithheldKeepsRestriction(m: Mail, after: Mail, row: Message, report: D.Report, user: UserId)
    requires RestrictionHolds(m, user) && Escalated(m.records, user) && !Restricted(m.records, row.sender, row.at)
    requires after.records == Recorded(m.records, row.sender, |m.messages|, report, row.at)
    requires after.messages == m.messages + [row]
    ensures RestrictionHolds(after, user)
  {
    var mine, auto := Of(m.records.violations, user), Automatic(m.records.restrictions, user);
    UnrestrictedMeansOver(m.records, row.sender, row.at);
    RecordLists(m.records, row.sender, |m.messages|, report, row.at, user);
    hide Of, Automatic, Restricted, Recorded, InStep, Silent;
    if row.sender == user {
      var v := Violation(user, |m.messages|, report, Tier(|mine|), row.at);
      var more := if |mine| == 2 then [Restriction(user, true, row.at, Some(row.at + RESTRICTION_HOURS), None)] else [];
      SilentWithViolation(mine, auto, v, more, m.messages, row, user);
    } else {
      SilentWithRow(mine, auto, m.messages, row, user);
    }
  }

  lemma WithheldKeepsInv(m: Mail, thread: nat, row: Message, report: D.Report, flags: bool)
    requires MailInv(m) && thread < |m.threads| && row.blocked && !Restricted(m.records, row.sender, row.at)
    requires row.conversation == thread && (row.inbound || Party(m.threads[thread], row.sender)) && Fresh(m.messages, row.provider)
    ensures MailInv(Withheld(m, thread, row, report, flags))
  {
    hide EscalationInv, BlockedRows, DeliveriesPassed, Restricted, Recorded, Cases;
    RecordKeepsInv(m.records, row.sender, |m.messages|, report, row.at);
    CaseRecorded(m.records, row.sender, |m.messages|, report, row.at);
    BlockedAppended(m.messages, row);
    PassesAppended(m.messages, row);
    var after := Withheld(m, thread, row, report, flags);
    AppendedKeepsParties(m, after, row);
    InvIsEscalated(m.records);
    hide SentByParties, IdsUnique, RestrictionHolds, Escalated;
    forall u
      ensures RestrictionHolds(after, u)
    {
      WithheldKeepsRestriction(m, after, row, report, u);
    }
  }

  lemma CaseRecorded(r: Records, user: UserId, message: nat, report: D.Report, now: Time)
    ensures Cases(Recorded(r, user, message, report, now).violations) == Cases(r.violations) + [(user, message)]
  {
  }

  lemma InvIsEscalated(r: Records)
    requires EscalationInv(r)
    ensures forall u :: Escalated(r, u)
  {
  }

  lemma DeliveredKeepsInv(m: Mail, thread: nat, row: Message)
    requires MailInv(m) && thread < |m.threads| && !row.blocked && !Restricted(m.records, row.sender, row.at)
    requires Evaluate(m.messages, thread, row.sender, row.content, row.at, None) == None
    requires row.conversation == thread && (row.inbound || Party(m.threads[thread], row.sender)) && Fresh(m.messages, row.provider)
    ensures MailInv(Delivered(m, thread, row))
  {
    hide EscalationInv, BlockedRows, Cases, DeliveriesPassed, Evaluate;
    var after := Delivered(m, thread, row);
    BlockedAppended(m.messages, row);
    PassesAppended(m.messages, row);
    assert BlockedRows(m.messages) + [] == BlockedRows(m.messages);
    assert after.records == m.records && after.messages == m.messages + [row];
    AppendedKeepsParties(m, after, row);
    InvIsEscalated(m.records);
    hide Delivered, SentByParties, RestrictionHolds, Escalated;
    forall u
      ensures RestrictionHolds(after, u)
    {
      DeliveredKeepsRestriction(m, after, row, u);
    }
  }

  lemma NextKeepsMailInv(m: Mail, e: MailEvent)
    requires MailInv(m) && Plausible(m, e)
    ensures MailInv(Next(m, e))
  {
    hide EscalationInv, BlockedRows, DeliveriesPassed, Evaluate, Recorded, Restricted, MailInv;
    match e
    case Start(place, tenant, landlord, relay) => OtherKeepsInv(m, e);
    case SetStatus(thread, status) => OtherKeepsInv(m, e);
    case Staff(request) => StaffKeepsMailInv(m, request);
    case Compose(thread, sender, content, now, ai, sent) =>
      if Composed(m, thread, sender, content, now, ai, sent).Done? {
        var verdict := Judge(m, thread, sender, content, now, ai);
        var row := Message(thread, sender, Other(m.threads[thread], sender), false, content, verdict.Some?, None, now);
        NoVerdictWithoutAi(m.messages, thread, sender, content, now, ai);
        if verdict.Some? {
          WithheldKeepsInv(m, thread, row, verdict.value, true);
        } else {
          DeliveredKeepsInv(m, thread, row.(provider := sent));
        }
      }
    case Ingest(thread, sender, body, id, now, ai) =>
      var existing := FindFirst(m.messages, WithProvider(id));
      if Ingested(m, thread, sender, body, id, now, ai).Done? && existing.None? {
        var verdict := Judge(m, thread, sender, body, now, ai);
        var row := Message(thread, sender, Other(m.threads[thread], sender), true, body, verdict.Some?, Some(id), now);
        NoVerdictWithoutAi(m.messages, thread, sender, body, now, ai);
        assert forall k :: 0 <= k < |m.messages| ==> !WithProvider(id)(m.messages[k]);
        if verdict.Some? {
          WithheldKeepsInv(m, thread, row, verdict.value, false);
        } else {
          DeliveredKeepsInv(m, thread, row);
        }
      }
  }

  lemma OtherKeepsInv(m: Mail, e: MailEvent)
    requires MailInv(m) && (e.Start? || e.SetStatus?)
    ensures MailInv(Next(m, e))
  {
    hide EscalationInv, BlockedRows, DeliveriesPassed, Cases;
    var after := Next(m, e);
    forall u
      ensures RestrictionHolds(after, u)
    {
      assert RestrictionHolds(m, u);
    }
  }

  lemma StaffKeepsMailInv(m: Mail, request: StaffRequest)
    requires MailInv(m)
    ensures MailInv(Next(m, Staff(request)))
  {
    StaffKeepsInv(m.records, request);
    hide EscalationInv, BlockedRows, DeliveriesPassed, Cases, RestrictionHolds;
    forall u
      ensures RestrictionHolds(Next(m, Staff(request)), u)
    {
      StaffKeepsRestriction(m, request, u);
    }
  }

  lemma StaffKeepsRestriction(m: Mail, request: StaffRequest, user: UserId)
    requires RestrictionHolds(m, user)
    ensures RestrictionHolds(Next(m, Staff(request)), user)
  {
    var after := Next(m, Staff(request));
    if request.Impose? && request.known {
      AutomaticAppended(m.records.restrictions, after.records.restrictions[|m.records.restrictions|], user);
    } else if request.Lift? && request.restriction < |m.records.restrictions| {
      LiftKeepsAutomatic(m.records.restrictions, request.restriction, request.now, user);
    }
    hide Of, Automatic;
  }

  lemma {:induction false} RunKeepsMailInv(m: Mail, events: seq<MailEvent>)
    requires MailInv(m) && PlausibleRun(m, events)
    ensures MailInv(Run(m, events))
    decreases |events|
  {
    if events != [] {
      hide MailInv, Next, Plausible;
      NextKeepsMailInv(m, events[0]);
      RunKeepsMailInv(Next(m, events[0]), events[1..]);
    }
  }

  lemma EmptyMailInv()
    ensures MailInv(EMPTY)
  {
  }

  function BlockedCount(messages: seq<Message>, user: UserId): nat {
    if messages == [] then 0
    else
      var k := |messages| - 1;
      BlockedCount(messages[..k], user) + if messages[k].blocked && messages[k].sender == user then 1 else 0
  }

  function Count(cases: seq<(UserId, nat)>, user: UserId): nat {
    if cases == [] then 0 else Count(cases[..|cases| - 1], user) + if cases[|cases| - 1].0 == user then 1 else 0
  }

  lemma {:induction false} CountRows(messages: seq<Message>, user: UserId)
    ensures Count(BlockedRows(messages), user) == BlockedCount(messages, user)
  {
    if messages != [] {
      var k := |messages| - 1;
      CountRows(messages[..k], user);
      var rows := BlockedRows(messages[..k]);
      assert rows + [] == rows && (rows + [(messages[k].sender, k)])[..|rows|] == rows;
    }
  }

  lemma {:induction false} CountCases(violations: seq<Violation>, user: UserId)
    ensures Count(Cases(violations), user) == |Of(violations, user)|
  {
    if violations != [] {
      var k := |violations| - 1;
      CountCases(violations[..k], user);
      assert Cases(violations)[..k] == Cases(violations[..k]);
    }
  }

  /**
   Escalation over any run: a user's n blocked messages have met the first n of warning, strong
   warning, restriction, review, review and so on; all but three were flagged; the third brought
   the only automatic restriction, and no later one came within a day unless staff lifted it.
   */
  lemma EscalationOverRuns(events: seq<MailEvent>, user: UserId)
    requires PlausibleRun(EMPTY, events)
    ensures
      var m := Run(EMPTY, events);
      var mine := Of(m.records.violations, user);
      && |mine| == BlockedCount(m.messages, user)
      && InStep(mine, Automatic(m.records.restrictions, user))
      && (forall k :: 0 <= k < |mine| ==>
            mine[k].action == if k == 0 then EducationalWarning else if k == 1 then StrongWarning
                              else if k == 2 then TempRestriction else ModeratorReview)
      && ReviewCount(mine) == (if |mine| > 3 then |mine| - 3 else 0)
      && m.records.flags == Reviewed(m.records.violations)
  {
    EmptyMailInv();
    RunKeepsMailInv(EMPTY, events);
    var m := Run(EMPTY, events);
    CountRows(m.messages, user);
    CountCases(m.records.violations, user);
    assert Escalated(m.records, user);
    ReviewsOf(m.records, user);
  }

  /** Over any run, a third violation silences its user for a day unless staff lifted the restriction. */
  lemma RestrictionHoldsOverRuns(events: seq<MailEvent>, user: UserId)
    requires PlausibleRun(EMPTY, events)
    ensures RestrictionHolds(Run(EMPTY, events), user)
  {
    EmptyMailInv();
    RunKeepsMailInv(EMPTY, events);
  }

  /**
   Over any run, what was delivered had nothing to show, alone or after its sender's recent messages.
   The detector's functions are the code's on ASCII text; of other text this says what they find.
   */
  lemma DeliveriesPassOverRuns(events: seq<MailEvent>)
    requires PlausibleRun(EMPTY, events)
    ensures DeliveriesPassed(Run(EMPTY, events).messages) && SentByParties(Run(EMPTY, events))
  {
    EmptyMailInv();
    RunKeepsMailInv(EMPTY, events);
  }
}
