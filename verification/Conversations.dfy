/** Starting conversations and sharing out relay numbers (conversations.service.ts). */
module Conversations {
  import opened Platform
  import opened Moderation
  import opened Messages
  import D = ContactInfoDetector

  type Phone = nat

  datatype RelayNumber = RelayNumber(phone: Phone, active: bool, capacity: nat)

  /** How many conversations use a relay number; none is ever released. */
  function Load(threads: seq<Thread>, number: nat): nat {
    if threads == [] then 0
    else Load(threads[..|threads| - 1], number) + if threads[|threads| - 1].relay == number then 1 else 0
  }

  predicate HasRoom(pool: seq<RelayNumber>, threads: seq<Thread>, number: nat) {
    number < |pool| && Load(threads, number) < pool[number].capacity
  }

  function Available(pool: seq<RelayNumber>, threads: seq<Thread>, candidates: seq<nat>): seq<nat> {
    if candidates == [] then []
    else (if HasRoom(pool, threads, candidates[0]) then [candidates[0]] else []) + Available(pool, threads, candidates[1..])
  }

  function Insert(threads: seq<Thread>, number: nat, sorted: seq<nat>): seq<nat> {
    if sorted == [] || Load(threads, number) <= Load(threads, sorted[0]) then [number] + sorted
    else [sorted[0]] + Insert(threads, number, sorted[1..])
  }

  /** The stable sort by load. */
  function ByLoad(threads: seq<Thread>, numbers: seq<nat>): seq<nat> {
    if numbers == [] then [] else Insert(threads, numbers[0], ByLoad(threads, numbers[1..]))
  }

  /** `candidates` are the active numbers, in whatever order the query returns them. */
  function Assigned(pool: seq<RelayNumber>, threads: seq<Thread>, candidates: seq<nat>): Option<nat> {
    var sorted := ByLoad(threads, Available(pool, threads, candidates));
    if sorted == [] then None else Some(sorted[0])
  }

  predicate ActiveNumbers(pool: seq<RelayNumber>, candidates: seq<nat>) {
    && (forall c :: c in candidates ==> c < |pool| && pool[c].active)
    && forall k :: 0 <= k < |pool| && pool[k].active ==> k in candidates
  }

  /** Units by their property, beds by their unit. */
  datatype Housing = Housing(sites: seq<Site>, units: map<nat, nat>, beds: map<nat, nat>)

  predicate UnitOf(h: Housing, unit: nat, property: nat) { unit in h.units && h.units[unit] == property }

  /** The place a request names, with the unit its bed implies; None if they do not belong together. */
  function Placed(h: Housing, wanted: Place): Option<Place> {
    if wanted.unit.Some? && !UnitOf(h, wanted.unit.value, wanted.property) then None
    else if wanted.bed.None? then Some(wanted)
    else if wanted.bed.value !in h.beds || !UnitOf(h, h.beds[wanted.bed.value], wanted.property) then None
    else if wanted.unit.Some? && wanted.unit.value != h.beds[wanted.bed.value] then None
    else Some(wanted.(unit := Some(h.beds[wanted.bed.value])))
  }

  /** The manager assigned last answers for a property, else its owner. */
  function Landlord(s: Site): UserId {
    if s.managers == [] then s.owner else s.managers[|s.managers| - 1]
  }

  function OpenFor(property: nat, tenant: UserId): Thread -> bool {
    (t: Thread) => t.place.property == property && t.tenant == tenant && !t.status.Closed? && !t.status.Blocked?
  }

  /** A refused first message leaves the new conversation open. */
  function Started(
      pool: seq<RelayNumber>, h: Housing, m: Mail, candidates: seq<nat>, actor: Actor, wanted: Place,
      content: string, now: Time, ai: Option<D.Report>, sent: Option<ProviderId>): (Mail, Status)
  {
    if !IsTenant(actor.role) then (m, Forbidden)
    else if wanted.property >= |h.sites| || !h.sites[wanted.property].active then (m, NotFound)
    else if Placed(h, wanted).None? then (m, BadRequest)
    else
      var existing := FindFirst(m.threads, OpenFor(wanted.property, actor.id));
      var relay := Assigned(pool, m.threads, candidates);
      if existing.None? && relay.None? then (m, BadRequest)
      else
        var landlord := Landlord(h.sites[wanted.property]);
        var open := if existing.Some? then m else Opened(m, Placed(h, wanted).value, actor.id, landlord, relay.value);
        var thread := if existing.Some? then existing.value else |m.threads|;
        var o := Composed(open, thread, actor.id, content, now, ai, sent);
        (After(o, open), Reply(o))
  }

  class ConversationsService {
    const pool: seq<RelayNumber>
    const messages: MessagesService

    constructor (pool: seq<RelayNumber>, messages: MessagesService)
      ensures this.pool == pool && this.messages == messages
    {
      this.pool := pool;
      this.messages := messages;
    }

    method AssignRelayNumber(candidates: seq<nat>) returns (relay: Option<nat>)
      requires ActiveNumbers(pool, candidates)
      ensures relay == Assigned(pool, messages.threads, candidates)
      ensures relay.Some? ==> HasRoom(pool, messages.threads, relay.value)
    {
      var sorted := ByLoad(messages.threads, Available(pool, messages.threads, candidates));
      AssignedIsLeast(pool, messages.threads, candidates);
      relay := if |sorted| == 0 then None else Some(sorted[0]);
    }

    method StartConversation(
        h: Housing, candidates: seq<nat>, actor: Actor, wanted: Place,
        content: string, now: Time, ai: Option<D.Report>, sent: Option<ProviderId>)
      returns (status: Status)
      requires ActiveNumbers(pool, candidates) && Fresh(messages.messages, sent)
      modifies messages, messages.moderation
      ensures (messages.All(), status)
           == Started(pool, h, old(messages.All()), candidates, actor, wanted, content, now, ai, sent)
    {
      hide Composed, Assigned;
      if !IsTenant(actor.role) {
        return Forbidden;
      }
      if wanted.property >= |h.sites| || !h.sites[wanted.property].active {
        return NotFound;
      }
      var property := h.sites[wanted.property];
      if wanted.unit.Some? && !UnitOf(h, wanted.unit.value, wanted.property) {
        return BadRequest;
      }
      var effectiveUnit := wanted.unit;
      if wanted.bed.Some? {
        if wanted.bed.value !in h.beds || !UnitOf(h, h.beds[wanted.bed.value], wanted.property) {
          return BadRequest;
        }
        if wanted.unit.Some? && h.beds[wanted.bed.value] != wanted.unit.value {
          return BadRequest;
        }
        effectiveUnit := Some(h.beds[wanted.bed.value]);
      }
      var landlord := if |property.managers| > 0 then property.managers[|property.managers| - 1] else property.owner;
      var thread := FindFirst(messages.threads, OpenFor(wanted.property, actor.id));
      if thread.None? {
        var relay := AssignRelayNumber(candidates);
        if relay.None? {
          return BadRequest;
        }
        thread := Some(|messages.threads|);
        var place := Place(wanted.property, effectiveUnit, wanted.bed);
        messages.threads := messages.threads + [Thread(place, actor.id, landlord, relay.value, NewInquiry, false, None)];
      }
      var blocked;
      status, blocked := messages.Compose(thread.value, actor.id, content, now, ai, sent);
    }
  }

  // --- The allocator ---

  lemma {:induction false} AvailableIs(pool: seq<RelayNumber>, threads: seq<Thread>, candidates: seq<nat>)
    ensures forall c :: c in Available(pool, threads, candidates) <==> c in candidates && HasRoom(pool, threads, c)
  {
    if candidates != [] { AvailableIs(pool, threads, candidates[1..]); }
  }

  /** The number stands in the list, and every number before it carries more. */
  ghost predicate FirstLeast(threads: seq<Thread>, numbers: seq<nat>, number: nat) {
    exists k :: 0 <= k < |numbers| && numbers[k] == number
      && forall j :: 0 <= j < k ==> Load(threads, number) < Load(threads, numbers[j])
  }

  lemma {:induction false} ByLoadHead(threads: seq<Thread>, numbers: seq<nat>)
    requires numbers != []
    ensures ByLoad(threads, numbers) != [] && FirstLeast(threads, numbers, ByLoad(threads, numbers)[0])
    ensures forall n :: n in numbers ==> Load(threads, ByLoad(threads, numbers)[0]) <= Load(threads, n)
  {
    if |numbers| > 1 {
      var head := ByLoad(threads, numbers[1..])[0];
      ByLoadHead(threads, numbers[1..]);
      var k :| 0 <= k < |numbers[1..]| && numbers[1..][k] == head && forall j :: 0 <= j < k ==> Load(threads, head) < Load(threads, numbers[1..][j]);
      if Load(threads, numbers[0]) <= Load(threads, head) {
        assert numbers[0] == ByLoad(threads, numbers)[0];
      } else {
        assert numbers[k + 1] == head && ByLoad(threads, numbers)[0] == head;
        assert forall j :: 0 < j < k + 1 ==> numbers[j] == numbers[1..][j - 1];
      }
    } else {
      assert numbers[0] == ByLoad(threads, numbers)[0];
    }
  }

  /** The chosen number is active, has room, and no active number with room carries less; none is chosen only if all are full. */
  lemma AssignedIsLeast(pool: seq<RelayNumber>, threads: seq<Thread>, candidates: seq<nat>)
    requires ActiveNumbers(pool, candidates)
    ensures
      var relay := Assigned(pool, threads, candidates);
      if relay.Some?
      then HasRoom(pool, threads, relay.value) && pool[relay.value].active
        && FirstLeast(threads, Available(pool, threads, candidates), relay.value)
        && forall n :: 0 <= n < |pool| && pool[n].active && HasRoom(pool, threads, n)
             ==> Load(threads, relay.value) <= Load(threads, n)
      else forall n :: 0 <= n < |pool| && pool[n].active ==> !HasRoom(pool, threads, n)
  {
    var available := Available(pool, threads, candidates);
    AvailableIs(pool, threads, candidates);
    hide Available, Load;
    if available != [] {
      ByLoadHead(threads, available);
    } else {
      assert forall n :: 0 <= n < |pool| && pool[n].active && HasRoom(pool, threads, n) ==> n in available;
    }
  }

  /** No number above its capacity, and none more than one above an active number with room. */
  ghost predicate Balanced(pool: seq<RelayNumber>, threads: seq<Thread>) {
    && (forall n :: 0 <= n < |pool| ==> Load(threads, n) <= pool[n].capacity)
    && (forall n, o :: 0 <= n < |pool| && 0 <= o < |pool| && pool[o].active && HasRoom(pool, threads, o)
          ==> Load(threads, n) <= Load(threads, o) + 1)
  }

  lemma LoadAppended(threads: seq<Thread>, t: Thread, n: nat)
    ensures Load(threads + [t], n) == Load(threads, n) + if t.relay == n then 1 else 0
  {
    assert (threads + [t])[..|threads|] == threads;
  }

  lemma AssignmentKeepsBalance(pool: seq<RelayNumber>, threads: seq<Thread>, candidates: seq<nat>, t: Thread)
    requires Balanced(pool, threads) && ActiveNumbers(pool, candidates)
    requires Assigned(pool, threads, candidates) == Some(t.relay)
    ensures Balanced(pool, threads + [t])
  {
    AssignedIsLeast(pool, threads, candidates);
    forall n: nat
      ensures Load(threads + [t], n) == Load(threads, n) + if t.relay == n then 1 else 0
    {
      LoadAppended(threads, t, n);
    }
    hide Load, Assigned;
  }

  lemma {:induction false} SameRelays(before: seq<Thread>, after: seq<Thread>, n: nat)
    requires |before| == |after| && forall k :: 0 <= k < |before| ==> after[k].relay == before[k].relay
    ensures Load(after, n) == Load(before, n)
  {
    if before != [] { SameRelays(before[..|before| - 1], after[..|before| - 1], n); }
  }

  datatype ThreadEvent =
    | Begin(housing: Housing, candidates: seq<nat>, actor: Actor, wanted: Place,
            content: string, now: Time, ai: Option<D.Report>, sent: Option<ProviderId>)
    | Later(event: MailEvent)

  function Step(pool: seq<RelayNumber>, m: Mail, e: ThreadEvent): Mail {
    match e
    case Begin(housing, candidates, actor, wanted, content, now, ai, sent) =>
      Started(pool, housing, m, candidates, actor, wanted, content, now, ai, sent).0
    case Later(event) => Next(m, event)
  }

  /** Conversations begin with an allocation only. */
  predicate Proper(pool: seq<RelayNumber>, e: ThreadEvent) {
    match e
    case Begin(_, candidates, _, _, _, _, _, _) => ActiveNumbers(pool, candidates)
    case Later(event) => !event.Start?
  }

  ghost function RunThreads(pool: seq<RelayNumber>, m: Mail, events: seq<ThreadEvent>): Mail
    decreases |events|
  {
    if events == [] then m else RunThreads(pool, Step(pool, m, events[0]), events[1..])
  }

  lemma NextKeepsRelays(m: Mail, e: MailEvent)
    requires !e.Start?
    ensures |Next(m, e).threads| == |m.threads|
    ensures forall k :: 0 <= k < |m.threads| ==> Next(m, e).threads[k].relay == m.threads[k].relay
  {
    hide Evaluate, Recorded, Restricted, Staffed;
  }

  lemma LaterKeepsBalance(pool: seq<RelayNumber>, m: Mail, e: MailEvent)
    requires Balanced(pool, m.threads) && !e.Start?
    ensures Balanced(pool, Next(m, e).threads) && |Next(m, e).threads| == |m.threads|
  {
    hide Next;
    NextKeepsRelays(m, e);
    forall n: nat
      ensures Load(Next(m, e).threads, n) == Load(m.threads, n)
    {
      SameRelays(m.threads, Next(m, e).threads, n);
    }
    hide Load;
  }

  lemma StepKeepsBalance(pool: seq<RelayNumber>, m: Mail, e: ThreadEvent)
    requires Balanced(pool, m.threads) && Proper(pool, e)
    ensures Balanced(pool, Step(pool, m, e).threads)
  {
    hide Next, Composed, Assigned, Balanced, ActiveNumbers;
    match e
    case Later(event) => LaterKeepsBalance(pool, m, event);
    case Begin(housing, candidates, actor, wanted, content, now, ai, sent) =>
      if IsTenant(actor.role) && wanted.property < |housing.sites| && Placed(housing, wanted).Some? {
        var landlord := Landlord(housing.sites[wanted.property]);
        var place := Placed(housing, wanted).value;
        var existing := FindFirst(m.threads, OpenFor(wanted.property, actor.id));
        var relay := Assigned(pool, m.threads, candidates);
        if existing.Some? {
          LaterKeepsBalance(pool, m, MailEvent.Compose(existing.value, actor.id, content, now, ai, sent));
          ComposeIsNext(m, existing.value, actor.id, content, now, ai, sent);
        } else if relay.Some? {
          var t := Thread(place, actor.id, landlord, relay.value, NewInquiry, false, None);
          AssignmentKeepsBalance(pool, m.threads, candidates, t);
          var open := Opened(m, place, actor.id, landlord, relay.value);
          LaterKeepsBalance(pool, open, MailEvent.Compose(|m.threads|, actor.id, content, now, ai, sent));
          ComposeIsNext(open, |m.threads|, actor.id, content, now, ai, sent);
        }
      }
  }

  lemma ComposeIsNext(m: Mail, thread: nat, sender: UserId, content: string, now: Time, ai: Option<D.Report>, sent: Option<ProviderId>)
    ensures Next(m, MailEvent.Compose(thread, sender, content, now, ai, sent))
         == After(Composed(m, thread, sender, content, now, ai, sent), m)
  {
    hide Composed;
  }

  lemma {:induction false} RunKeepsBalance(pool: seq<RelayNumber>, m: Mail, events: seq<ThreadEvent>)
    requires Balanced(pool, m.threads) && forall e :: e in events ==> Proper(pool, e)
    ensures Balanced(pool, RunThreads(pool, m, events).threads)
    decreases |events|
  {
    if events != [] {
      hide Balanced, Step, Proper;
      StepKeepsBalance(pool, m, events[0]);
      RunKeepsBalance(pool, Step(pool, m, events[0]), events[1..]);
    }
  }

  /** Over any run from an empty platform, whatever order candidates come in, the loads stay within capacity and balanced. */
  lemma RelaysStayBalanced(pool: seq<RelayNumber>, events: seq<ThreadEvent>)
    requires forall e :: e in events ==> Proper(pool, e)
    ensures Balanced(pool, RunThreads(pool, EMPTY, events).threads)
  {
    RunKeepsBalance(pool, EMPTY, events);
  }

  /**
   A conversation that starts is with the property's last manager or its owner, about a unit of that
   property and a bed of that unit where they are named, over a number that had room; no conversation
   of this tenant about the property was open.
   */
  lemma NewConversationFits(
      pool: seq<RelayNumber>, h: Housing, m: Mail, candidates: seq<nat>, actor: Actor, wanted: Place,
      content: string, now: Time, ai: Option<D.Report>, sent: Option<ProviderId>)
    requires ActiveNumbers(pool, candidates)
    ensures
      var after := Started(pool, h, m, candidates, actor, wanted, content, now, ai, sent).0;
      |after.threads| > |m.threads| ==>
        && |after.threads| == |m.threads| + 1
        && (var t := after.threads[|m.threads|];
            && t.tenant == actor.id && t.place.property == wanted.property < |h.sites| && h.sites[wanted.property].active
            && (var s := h.sites[wanted.property]; t.landlord == if s.managers == [] then s.owner else s.managers[|s.managers| - 1])
            && (t.place.unit.Some? ==> UnitOf(h, t.place.unit.value, wanted.property))
            && (t.place.bed.Some? ==> t.place.bed.value in h.beds && t.place.unit == Some(h.beds[t.place.bed.value]))
            && t.place.bed == wanted.bed && (wanted.unit.Some? ==> t.place.unit == wanted.unit)
            && HasRoom(pool, m.threads, t.relay)
            && forall k :: 0 <= k < |m.threads| ==> !StillOpen(m.threads[k], wanted.property, actor.id))
  {
    hide Composed, Placed, Assigned, HasRoom, UnitOf, Landlord, FirstLeast;
    AssignedIsLeast(pool, m.threads, candidates);
    PlacedFits(h, wanted);
    var relay := Assigned(pool, m.threads, candidates);
    if wanted.property < |h.sites| {
      var landlord := Landlord(h.sites[wanted.property]);
      LandlordIs(h.sites[wanted.property]);
      if relay.Some? && Placed(h, wanted).Some? {
        var open := Opened(m, Placed(h, wanted).value, actor.id, landlord, relay.value);
        ComposeKeepsThreads(open, |m.threads|, actor.id, content, now, ai, sent);
      }
      var existing := FindFirst(m.threads, OpenFor(wanted.property, actor.id));
      if existing.Some? { ComposeKeepsThreads(m, existing.value, actor.id, content, now, ai, sent); }
    }
  }

  lemma LandlordIs(s: Site)
    ensures Landlord(s) == if s.managers == [] then s.owner else s.managers[|s.managers| - 1]
  {
  }

  /** The tenant's conversation about the property goes on. */
  predicate StillOpen(t: Thread, property: nat, tenant: UserId) {
    t.tenant == tenant && t.place.property == property && t.status in {NewInquiry, Underway, ShowingRequested, ShowingScheduled}
  }

  /** The unit is one of the property's, and the bed one of the unit's, where they are named. */
  predicate Belongs(h: Housing, wanted: Place) {
    && (wanted.unit.Some? ==> wanted.unit.value in h.units && h.units[wanted.unit.value] == wanted.property)
    && (wanted.bed.Some? ==>
          && wanted.bed.value in h.beds && h.beds[wanted.bed.value] in h.units
          && h.units[h.beds[wanted.bed.value]] == wanted.property
          && (wanted.unit.Some? ==> wanted.unit.value == h.beds[wanted.bed.value]))
  }

  /** How many conversations run over a number. */
  lemma {:induction false} LoadCounts(threads: seq<Thread>, number: nat)
    ensures Load(threads, number) == |set k | 0 <= k < |threads| && threads[k].relay == number|
  {
    var over := set k | 0 <= k < |threads| && threads[k].relay == number;
    if threads == [] {
      assert over == {};
    } else {
      LoadCounts(threads[..|threads| - 1], number);
      OneMoreOver(threads, number);
    }
  }

  lemma OneMoreOver(threads: seq<Thread>, number: nat)
    requires threads != []
    ensures
      var n := |threads| - 1;
      var over := set k | 0 <= k < |threads| && threads[k].relay == number;
      var less := set k | 0 <= k < n && threads[..n][k].relay == number;
      |over| == |less| + if threads[n].relay == number then 1 else 0
  {
    var n := |threads| - 1;
    var over := set k | 0 <= k < |threads| && threads[k].relay == number;
    var less := set k | 0 <= k < n && threads[..n][k].relay == number;
    if threads[n].relay == number {
      assert over == less + {n};
    } else {
      assert over == less;
    }
  }

  /**
   When a request starts a new conversation: exactly if a tenant asks about an active property, a unit and
   bed that belong to it, has no conversation about it going on, and some active number has room.
   */
  lemma StartsExactlyIf(
      pool: seq<RelayNumber>, h: Housing, m: Mail, candidates: seq<nat>, actor: Actor, wanted: Place,
      content: string, now: Time, ai: Option<D.Report>, sent: Option<ProviderId>)
    requires ActiveNumbers(pool, candidates)
    ensures
      |Started(pool, h, m, candidates, actor, wanted, content, now, ai, sent).0.threads| > |m.threads| <==>
      (&& actor.role in {ProspectiveTenant, CurrentTenant}
       && wanted.property < |h.sites| && h.sites[wanted.property].active && Belongs(h, wanted)
       && (forall k :: 0 <= k < |m.threads| ==> !StillOpen(m.threads[k], wanted.property, actor.id))
       && exists n :: 0 <= n < |pool| && pool[n].active && Load(m.threads, n) < pool[n].capacity)
  {
    PlacedIsBelonging(h, wanted);
    OpenIsStillOpen(m.threads, wanted.property, actor.id);
    RoomIsFound(pool, m.threads, candidates);
    hide Composed, Placed, Assigned, Belongs, StillOpen, OpenFor, Load, HasRoom, ActiveNumbers;
    if wanted.property < |h.sites| {
      StartedThreads(pool, h, m, candidates, actor, wanted, content, now, ai, sent);
    }
  }

  lemma StartedThreads(
      pool: seq<RelayNumber>, h: Housing, m: Mail, candidates: seq<nat>, actor: Actor, wanted: Place,
      content: string, now: Time, ai: Option<D.Report>, sent: Option<ProviderId>)
    requires wanted.property < |h.sites|
    ensures
      |Started(pool, h, m, candidates, actor, wanted, content, now, ai, sent).0.threads| > |m.threads| <==>
      (IsTenant(actor.role) && h.sites[wanted.property].active && Placed(h, wanted).Some?
       && FindFirst(m.threads, OpenFor(wanted.property, actor.id)).None? && Assigned(pool, m.threads, candidates).Some?)
  {
    var existing := FindFirst(m.threads, OpenFor(wanted.property, actor.id));
    var relay := Assigned(pool, m.threads, candidates);
    hide Composed, Placed, Assigned, OpenFor;
    if existing.Some? { ComposeKeepsThreads(m, existing.value, actor.id, content, now, ai, sent); }
    if relay.Some? && Placed(h, wanted).Some? {
      var open := Opened(m, Placed(h, wanted).value, actor.id, Landlord(h.sites[wanted.property]), relay.value);
      ComposeKeepsThreads(open, |m.threads|, actor.id, content, now, ai, sent);
    }
  }

  lemma PlacedIsBelonging(h: Housing, wanted: Place)
    ensures Placed(h, wanted).Some? <==> Belongs(h, wanted)
  {
  }

  lemma OpenIsStillOpen(threads: seq<Thread>, property: nat, tenant: UserId)
    ensures forall k :: 0 <= k < |threads| ==> (OpenFor(property, tenant)(threads[k]) <==> StillOpen(threads[k], property, tenant))
  {
  }

  lemma RoomIsFound(pool: seq<RelayNumber>, threads: seq<Thread>, candidates: seq<nat>)
    requires ActiveNumbers(pool, candidates)
    ensures Assigned(pool, threads, candidates).Some? <==>
      exists n :: 0 <= n < |pool| && pool[n].active && Load(threads, n) < pool[n].capacity
  {
    AssignedIsLeast(pool, threads, candidates);
    hide Load, Assigned;
  }

  /** A first message goes to the conversation that is going on, if there is one. */
  lemma OpenConversationIsReused(
      pool: seq<RelayNumber>, h: Housing, m: Mail, candidates: seq<nat>, actor: Actor, wanted: Place,
      content: string, now: Time, ai: Option<D.Report>, sent: Option<ProviderId>, k: nat)
    requires actor.role in {ProspectiveTenant, CurrentTenant} && wanted.property < |h.sites| && h.sites[wanted.property].active
    requires Belongs(h, wanted) && k < |m.threads| && StillOpen(m.threads[k], wanted.property, actor.id)
    requires forall j :: 0 <= j < k ==> !StillOpen(m.threads[j], wanted.property, actor.id)
    ensures
      var o := Composed(m, k, actor.id, content, now, ai, sent);
      Started(pool, h, m, candidates, actor, wanted, content, now, ai, sent) == (After(o, m), Reply(o))
  {
    PlacedIsBelonging(h, wanted);
    OpenIsStillOpen(m.threads, wanted.property, actor.id);
    hide Composed, Placed, Assigned, Belongs, StillOpen, OpenFor;
    var existing := FindFirst(m.threads, OpenFor(wanted.property, actor.id));
    assert existing == Some(k);
  }

  lemma PlacedFits(h: Housing, wanted: Place)
    ensures
      var placed := Placed(h, wanted);
      placed.Some? ==>
        && placed.value.property == wanted.property && placed.value.bed == wanted.bed
        && (wanted.unit.Some? ==> placed.value.unit == wanted.unit)
        && (placed.value.unit.Some? ==> UnitOf(h, placed.value.unit.value, wanted.property))
        && (wanted.bed.Some? ==> wanted.bed.value in h.beds && placed.value.unit == Some(h.beds[wanted.bed.value]))
  {
  }

  lemma ComposeKeepsThreads(m: Mail, thread: nat, sender: UserId, content: string, now: Time, ai: Option<D.Report>, sent: Option<ProviderId>)
    ensures
      var after := After(Composed(m, thread, sender, content, now, ai, sent), m);
      && |after.threads| == |m.threads|
      && forall k :: 0 <= k < |m.threads| ==>
           && after.threads[k].place == m.threads[k].place && after.threads[k].relay == m.threads[k].relay
           && after.threads[k].tenant == m.threads[k].tenant && after.threads[k].landlord == m.threads[k].landlord
  {
    hide Evaluate, Recorded, Restricted;
  }
}
