/**
 Enforcement (moderation.service.ts, moderation-admin.service.ts): how a message is judged with
 its sender's recent history, and how violations escalate to warnings, a restriction and flags.
 */
module Moderation {
  import opened Platform
  import D = ContactInfoDetector
  import S = SeparatorCollapse

  type ProviderId = nat

  datatype Message = Message(
    conversation: nat, sender: UserId, recipient: UserId, inbound: bool, content: string, blocked: bool,
    provider: Option<ProviderId>, at: Time)

  // --- Judging a message ---

  const LOOKBACK_MESSAGES := 5
  const LOOKBACK: Time := 30 * 60 * 1000

  predicate IsRecent(m: Message, conversation: nat, sender: UserId, now: Time) {
    m.conversation == conversation && m.sender == sender && !m.blocked && m.at >= now - LOOKBACK
  }

  /** The newest messages first, as the query orders them. */
  function RecentBackwards(messages: seq<Message>, conversation: nat, sender: UserId, now: Time, take: nat): (r: seq<Message>)
    ensures |r| <= take
  {
    if messages == [] || take == 0 then []
    else
      var last := messages[|messages| - 1];
      var others := messages[..|messages| - 1];
      if IsRecent(last, conversation, sender, now) then [last] + RecentBackwards(others, conversation, sender, now, take - 1)
      else RecentBackwards(others, conversation, sender, now, take)
  }

  /** The texts, oldest first, each followed by a blank. */
  function OldestFirst(newestFirst: seq<Message>): string {
    if newestFirst == [] then "" else OldestFirst(newestFirst[1..]) + newestFirst[0].content + " "
  }

  /** The first report of the highest confidence. */
  function Worst(matches: seq<D.Report>): (r: D.Report)
    requires matches != []
  {
    if |matches| == 1 then matches[0]
    else
      var w := Worst(matches[1..]);
      if matches[0].confidence >= w.confidence then matches[0] else w
  }

  function Disguised(r: D.Report): D.Report {
    D.Report(r.violation, D.HistoryAnalysis, if r.confidence < 65 then r.confidence else 65, "")
  }

  function Combined(messages: seq<Message>, conversation: nat, sender: UserId, content: string, now: Time): string {
    OldestFirst(RecentBackwards(messages, conversation, sender, now, LOOKBACK_MESSAGES)) + content
  }

  /** None lets the message through. `ai` is the verdict of the optional classifier. */
  function Evaluate(messages: seq<Message>, conversation: nat, sender: UserId, content: string, now: Time, ai: Option<D.Report>)
    : Option<D.Report>
  {
    var direct := D.Reports(content);
    if direct != [] then Some(Worst(direct))
    else
      var combined := D.Reports(Combined(messages, conversation, sender, content, now));
      if RecentBackwards(messages, conversation, sender, now, LOOKBACK_MESSAGES) != [] && combined != []
      then Some(Disguised(Worst(combined)))
      else ai
  }

  ghost predicate IsFirstHighest(matches: seq<D.Report>, k: int) {
    && 0 <= k < |matches|
    && (forall j :: 0 <= j < |matches| ==> matches[j].confidence <= matches[k].confidence)
    && forall j :: 0 <= j < k ==> matches[j].confidence < matches[k].confidence
  }

  lemma {:induction false} WorstIsFirstHighest(matches: seq<D.Report>)
    requires matches != []
    ensures exists k :: IsFirstHighest(matches, k) && Worst(matches) == matches[k]
  {
    if |matches| > 1 {
      var tail := matches[1..];
      WorstIsFirstHighest(tail);
      var k :| IsFirstHighest(tail, k) && Worst(tail) == tail[k];
      assert forall j :: 0 < j < |matches| ==> matches[j] == tail[j - 1];
      if matches[0].confidence >= tail[k].confidence {
        assert IsFirstHighest(matches, 0);
      } else {
        assert IsFirstHighest(matches, k + 1);
      }
    } else {
      assert IsFirstHighest(matches, 0);
    }
  }

  /** All the messages the query could return, oldest first. */
  function Matching(messages: seq<Message>, conversation: nat, sender: UserId, now: Time): seq<Message> {
    if messages == [] then []
    else
      var last := messages[|messages| - 1];
      Matching(messages[..|messages| - 1], conversation, sender, now)
      + if IsRecent(last, conversation, sender, now) then [last] else []
  }

  lemma {:induction false} RecentIsNewest(messages: seq<Message>, conversation: nat, sender: UserId, now: Time, take: nat)
    ensures
      var all, recent := Matching(messages, conversation, sender, now), RecentBackwards(messages, conversation, sender, now, take);
      && |recent| == (if |all| < take then |all| else take)
      && forall k :: 0 <= k < |recent| ==> recent[k] == all[|all| - 1 - k]
  {
    if messages != [] && take > 0 {
      var last, others := messages[|messages| - 1], messages[..|messages| - 1];
      var less := if IsRecent(last, conversation, sender, now) then take - 1 else take;
      RecentIsNewest(others, conversation, sender, now, less);
      hide IsRecent;
    }
  }

  /** The positions of the newest `take` messages that are recent, newest first. */
  ghost predicate Newest(at: seq<nat>, messages: seq<Message>, conversation: nat, sender: UserId, now: Time, take: nat) {
    && (forall k :: 0 <= k < |at| ==> at[k] < |messages| && IsRecent(messages[at[k]], conversation, sender, now))
    && (forall j, k :: 0 <= j < k < |at| ==> at[j] > at[k])
    && forall i :: 0 <= i < |messages| && IsRecent(messages[i], conversation, sender, now) && i !in at ==>
         |at| == take && forall k :: 0 <= k < |at| ==> at[k] > i
  }

  lemma NewestSkips(at: seq<nat>, messages: seq<Message>, conversation: nat, sender: UserId, now: Time, take: nat)
    requires messages != [] && Newest(at, messages[..|messages| - 1], conversation, sender, now, take)
    requires !IsRecent(messages[|messages| - 1], conversation, sender, now)
    ensures Newest(at, messages, conversation, sender, now, take)
  {
    hide IsRecent;
  }

  lemma NewestTakes(at: seq<nat>, messages: seq<Message>, conversation: nat, sender: UserId, now: Time, take: nat)
    requires messages != [] && take > 0 && Newest(at, messages[..|messages| - 1], conversation, sender, now, take - 1)
    requires IsRecent(messages[|messages| - 1], conversation, sender, now)
    ensures Newest([|messages| - 1] + at, messages, conversation, sender, now, take)
  {
    hide IsRecent;
    var n, all := |messages| - 1, [|messages| - 1] + at;
    assert forall i :: i in all <==> i == n || i in at;
    assert forall k :: 0 < k < |all| ==> all[k] == at[k - 1];
  }

  lemma {:induction false} RecentAt(messages: seq<Message>, conversation: nat, sender: UserId, now: Time, take: nat) returns (at: seq<nat>)
    ensures Newest(at, messages, conversation, sender, now, take)
    ensures
      var recent := RecentBackwards(messages, conversation, sender, now, take);
      |at| == |recent| && forall k :: 0 <= k < |at| ==> at[k] < |messages| && recent[k] == messages[at[k]]
  {
    if messages == [] || take == 0 {
      at := [];
    } else {
      var n, others := |messages| - 1, messages[..|messages| - 1];
      hide IsRecent, Newest;
      if IsRecent(messages[n], conversation, sender, now) {
        var older := RecentAt(others, conversation, sender, now, take - 1);
        at := [n] + older;
        NewestTakes(older, messages, conversation, sender, now, take);
      } else {
        at := RecentAt(others, conversation, sender, now, take);
        NewestSkips(at, messages, conversation, sender, now, take);
      }
    }
  }

  /**
   Whose messages are judged together: the history holds, newest first, stored messages of that conversation
   and that sender that were delivered and are at most half an hour old; a stored message of these that is
   not in it has five newer ones that are.
   */
  lemma HistoryIsRecent(messages: seq<Message>, conversation: nat, sender: UserId, now: Time) returns (at: seq<nat>)
    ensures
      var history := RecentBackwards(messages, conversation, sender, now, LOOKBACK_MESSAGES);
      && |at| == |history| <= 5
      && (forall k :: 0 <= k < |at| ==>
            && at[k] < |messages| && history[k] == messages[at[k]]
            && history[k].conversation == conversation && history[k].sender == sender
            && !history[k].blocked && history[k].at >= now - 30 * 60 * 1000)
    ensures forall j, k :: 0 <= j < k < |at| ==> at[j] > at[k]
    ensures forall i :: 0 <= i < |messages| && messages[i].conversation == conversation && messages[i].sender == sender
                        && !messages[i].blocked && messages[i].at >= now - 30 * 60 * 1000 && i !in at ==>
      |at| == 5 && forall k :: 0 <= k < |at| ==> at[k] > i
  {
    at := RecentAt(messages, conversation, sender, now, LOOKBACK_MESSAGES);
  }

  /** parts.join(' ') */
  function Joined(parts: seq<string>): string {
    if parts == [] then "" else if |parts| == 1 then parts[0] else parts[0] + " " + Joined(parts[1..])
  }

  function Contents(newestFirst: seq<Message>): seq<string> {
    seq(|newestFirst|, k requires 0 <= k < |newestFirst| => newestFirst[|newestFirst| - 1 - k].content)
  }

  lemma {:induction false} OldestFirstIsJoined(newestFirst: seq<Message>, tail: seq<string>)
    requires tail != []
    ensures OldestFirst(newestFirst) + Joined(tail) == Joined(Contents(newestFirst) + tail)
  {
    if newestFirst == [] {
      assert Contents(newestFirst) + tail == tail;
    } else {
      var newest, older := newestFirst[0].content, newestFirst[1..];
      assert ([newest] + tail)[1..] == tail;
      assert Contents(newestFirst) + tail == Contents(older) + ([newest] + tail);
      assert OldestFirst(newestFirst) + Joined(tail) == OldestFirst(older) + (newest + " " + Joined(tail));
      assert Joined([newest] + tail) == newest + " " + Joined(tail);
      hide OldestFirst, Joined, Contents;
      OldestFirstIsJoined(older, [newest] + tail);
    }
  }

  /** What is judged is the recent texts, oldest first, and the new one, joined by blanks. */
  lemma CombinedIsJoined(messages: seq<Message>, conversation: nat, sender: UserId, content: string, now: Time)
    ensures Combined(messages, conversation, sender, content, now)
         == Joined(Contents(RecentBackwards(messages, conversation, sender, now, LOOKBACK_MESSAGES)) + [content])
  {
    OldestFirstIsJoined(RecentBackwards(messages, conversation, sender, now, LOOKBACK_MESSAGES), [content]);
  }

  /**
   A phone number spread over a sender's recent messages stops the one that completes it.
   As everywhere here, the detector's functions are the code's on ASCII text.
   */
  lemma SplitPhoneIsStopped(
      messages: seq<Message>, conversation: nat, sender: UserId, content: string, now: Time, ai: Option<D.Report>, a: nat, b: nat)
    requires S.SpacedPhone(D.Undisguised(Combined(messages, conversation, sender, content, now)), a, b)
    ensures Evaluate(messages, conversation, sender, content, now, ai).Some?
  {
    var combined := Combined(messages, conversation, sender, content, now);
    D.SpacedPhoneIsBlocked(combined);
    if RecentBackwards(messages, conversation, sender, now, LOOKBACK_MESSAGES) == [] {
      assert combined == content;
    }
  }

  /** The recent texts, oldest first, and the new one, joined by blanks. */
  function Together(messages: seq<Message>, conversation: nat, sender: UserId, content: string, now: Time): string {
    Joined(Contents(RecentBackwards(messages, conversation, sender, now, LOOKBACK_MESSAGES)) + [content])
  }

  /** The report is the first of highest confidence. */
  ghost predicate Leads(r: D.Report, reports: seq<D.Report>) { exists k :: IsFirstHighest(reports, k) && r == reports[k] }

  /** A report on several messages: without a snippet, and of at most 65 percent. */
  predicate IsHistoryReport(r: D.Report, of: D.Report) {
    && r.violation == of.violation && r.via == D.HistoryAnalysis && r.snippet == ""
    && r.confidence <= 65 && r.confidence <= of.confidence && (r.confidence == 65 || r.confidence == of.confidence)
  }

  /** The message by itself comes first, then the recent ones with it, then the classifier. */
  lemma EvaluateMeans(
      messages: seq<Message>, conversation: nat, sender: UserId, content: string, now: Time, ai: Option<D.Report>)
    ensures
      var verdict := Evaluate(messages, conversation, sender, content, now, ai);
      var together := Together(messages, conversation, sender, content, now);
      if D.Blocked(content) then verdict.Some? && Leads(verdict.value, D.Reports(content))
      else if D.Blocked(together) then
        verdict.Some? && exists r :: Leads(r, D.Reports(together)) && IsHistoryReport(verdict.value, r)
      else verdict == ai
  {
    hide D.Reports;
    var together := Together(messages, conversation, sender, content, now);
    CombinedIsJoined(messages, conversation, sender, content, now);
    assert RecentBackwards(messages, conversation, sender, now, LOOKBACK_MESSAGES) == [] ==> together == content;
    hide RecentBackwards, Together;
    if D.Reports(content) != [] {
      WorstIsFirstHighest(D.Reports(content));
    } else if D.Reports(together) != [] {
      WorstIsFirstHighest(D.Reports(together));
      assert IsHistoryReport(Disguised(Worst(D.Reports(together))), Worst(D.Reports(together)));
    }
  }

  // --- Escalation ---

  datatype Action = EducationalWarning | StrongWarning | TempRestriction | ModeratorReview

  datatype Violation = Violation(user: UserId, message: nat, report: D.Report, action: Action, at: Time)

  datatype Restriction = Restriction(user: UserId, automatic: bool, startsAt: Time, endsAt: Option<Time>, liftedAt: Option<Time>)

  /** `message` names the message to review. */
  datatype Flag = Flag(message: nat, report: D.Report)

  datatype Records = Records(violations: seq<Violation>, restrictions: seq<Restriction>, flags: seq<Flag>)

  const RESTRICTION_HOURS: Time := DAY

  function Active(user: UserId, now: Time): Restriction -> bool {
    (r: Restriction) => r.user == user && r.liftedAt.None? && (r.endsAt.None? || r.endsAt.value > now)
  }

  predicate Restricted(r: Records, user: UserId, now: Time) { FindFirst(r.restrictions, Active(user, now)).Some? }

  /** A user's violations, oldest first. */
  function Of(violations: seq<Violation>, user: UserId): seq<Violation> {
    if violations == [] then []
    else
      var last := violations[|violations| - 1];
      Of(violations[..|violations| - 1], user) + if last.user == user then [last] else []
  }

  function Tier(priorCount: nat): Action {
    if priorCount == 0 then EducationalWarning
    else if priorCount == 1 then StrongWarning
    else if priorCount == 2 then TempRestriction
    else ModeratorReview
  }

  function Recorded(r: Records, user: UserId, message: nat, report: D.Report, now: Time): Records {
    var action := Tier(|Of(r.violations, user)|);
    Records(
      r.violations + [Violation(user, message, report, action, now)],
      r.restrictions + (if action.TempRestriction? then [Restriction(user, true, now, Some(now + RESTRICTION_HOURS), None)] else []),
      r.flags + if action.ModeratorReview? then [Flag(message, report)] else [])
  }

  datatype StaffRequest = Impose(user: UserId, known: bool, hours: Option<nat>, now: Time) | Lift(restriction: nat, now: Time)

  /** What a staff member does by hand to a user that exists or not; zero hours read as no end. */
  function Staffed(r: Records, q: StaffRequest): Outcome<Records> {
    match q
    case Impose(user, known, hours, now) =>
      var endsAt := if hours.Some? && hours.value != 0 then Some(now + hours.value * 60 * 60 * 1000) else None;
      if !known then Refused(NotFound)
      else Done(r.(restrictions := r.restrictions + [Restriction(user, false, now, endsAt, None)]))
    case Lift(k, now) =>
      if k >= |r.restrictions| then Refused(NotFound)
      else Done(r.(restrictions := r.restrictions[k := r.restrictions[k].(liftedAt := Some(now))]))
  }

  class ModerationService {
    var violations: seq<Violation>
    var restrictions: seq<Restriction>
    var flags: seq<Flag>

    function All(): Records
      reads this
    {
      Records(violations, restrictions, flags)
    }

    constructor ()
      ensures All() == Records([], [], [])
    {
      violations, restrictions, flags := [], [], [];
    }

    method EvaluateWithHistory(
        messages: seq<Message>, conversation: nat, sender: UserId, content: string, now: Time, ai: Option<D.Report>)
      returns (verdict: Option<D.Report>)
      ensures verdict == Evaluate(messages, conversation, sender, content, now, ai)
      ensures verdict.None? <==>
        !D.Blocked(content) && !D.Blocked(Together(messages, conversation, sender, content, now)) && ai.None?
    {
      EvaluateMeans(messages, conversation, sender, content, now, ai);
      hide D.Reports, Together;
      var direct := D.Reports(content);
      if direct != [] {
        return Some(Worst(direct));
      }
      var history := DetectSplitAcrossHistory(messages, conversation, sender, content, now);
      if history.Some? {
        return history;
      }
      verdict := ai;
    }

    method DetectSplitAcrossHistory(messages: seq<Message>, conversation: nat, sender: UserId, content: string, now: Time)
      returns (found: Option<D.Report>)
      ensures var combined := D.Reports(Combined(messages, conversation, sender, content, now));
              found == if RecentBackwards(messages, conversation, sender, now, LOOKBACK_MESSAGES) != [] && combined != []
                       then Some(Disguised(Worst(combined))) else None
    {
      var recent := RecentBackwards(messages, conversation, sender, now, LOOKBACK_MESSAGES);
      if |recent| == 0 {
        return None;
      }
      var combined := D.Reports(OldestFirst(recent) + content);
      if combined == [] {
        return None;
      }
      found := Some(Disguised(Worst(combined)));
    }

    method IsRestricted(user: UserId, now: Time) returns (restricted: bool)
      ensures restricted == Restricted(All(), user, now)
      ensures restricted <==> exists k :: 0 <= k < |restrictions| && restrictions[k].user == user && restrictions[k].liftedAt.None?
                                          && (restrictions[k].endsAt.None? || restrictions[k].endsAt.value > now)
    {
      var active := FindFirst(restrictions, Active(user, now));
      restricted := active.Some?;
    }

    method RecordViolationAndEscalate(user: UserId, message: nat, report: D.Report, now: Time) returns (action: Action)
      modifies this
      ensures All() == Recorded(old(All()), user, message, report, now)
      ensures
        var before := |Of(old(violations), user)|;
        && (action == EducationalWarning <==> before == 0) && (action == StrongWarning <==> before == 1)
        && (action == TempRestriction <==> before == 2) && (action == ModeratorReview <==> before >= 3)
        && violations == old(violations) + [Violation(user, message, report, action, now)]
        && restrictions == old(restrictions)
             + (if before == 2 then [Restriction(user, true, now, Some(now + 24 * 60 * 60 * 1000), None)] else [])
        && flags == old(flags) + (if before >= 3 then [Flag(message, report)] else [])
    {
      var priorCount := |Of(violations, user)|;
      if priorCount == 0 {
        action := EducationalWarning;
      } else if priorCount == 1 {
        action := StrongWarning;
      } else if priorCount == 2 {
        action := TempRestriction;
      } else {
        action := ModeratorReview;
      }
      violations := violations + [Violation(user, message, report, action, now)];
      if action == TempRestriction {
        restrictions := restrictions + [Restriction(user, true, now, Some(now + RESTRICTION_HOURS), None)];
      }
      if action == ModeratorReview {
        flags := flags + [Flag(message, report)];
      }
    }

    method ImposeRestriction(user: UserId, known: bool, hours: Option<nat>, now: Time) returns (status: Status)
      modifies this
      ensures var o := Staffed(old(All()), Impose(user, known, hours, now));
              status == Reply(o) && All() == After(o, old(All()))
      ensures status == if known then Okay else NotFound
      ensures known ==> restrictions == old(restrictions) + [Restriction(
        user, false, now, if hours.None? || hours.value == 0 then None else Some(now + hours.value * 3600000), None)]
    {
      if !known {
        return NotFound;
      }
      var endsAt := None;
      if hours.Some? && hours.value != 0 {
        endsAt := Some(now + hours.value * 60 * 60 * 1000);
      }
      restrictions := restrictions + [Restriction(user, false, now, endsAt, None)];
      status := Okay;
    }

    method LiftRestriction(restriction: nat, now: Time) returns (status: Status)
      modifies this
      ensures var o := Staffed(old(All()), Lift(restriction, now));
              status == Reply(o) && All() == After(o, old(All()))
      ensures status == if restriction < |old(restrictions)| then Okay else NotFound
      ensures |restrictions| == |old(restrictions)|
      ensures forall k :: 0 <= k < |restrictions| ==>
        restrictions[k] == if k == restriction then old(restrictions)[k].(liftedAt := Some(now)) else old(restrictions)[k]
    {
      if restriction >= |restrictions| {
        return NotFound;
      }
      restrictions := restrictions[restriction := restrictions[restriction].(liftedAt := Some(now))];
      status := Okay;
    }
  }

  // --- What escalation amounts to ---

  /** How many of the violations are the user's. */
  lemma {:induction false} OfCounts(violations: seq<Violation>, user: UserId)
    ensures |Of(violations, user)| == |set k | 0 <= k < |violations| && violations[k].user == user|
    ensures forall v :: v in Of(violations, user) <==> v in violations && v.user == user
  {
    var mine := set k | 0 <= k < |violations| && violations[k].user == user;
    if violations == [] {
      assert mine == {};
    } else {
      var others := violations[..|violations| - 1];
      OfCounts(others, user);
      OneMoreCounts(violations, user);
      assert forall v :: v in violations <==> v in others || v == violations[|others|];
    }
  }

  lemma OneMoreCounts(violations: seq<Violation>, user: UserId)
    requires violations != []
    ensures
      var n := |violations| - 1;
      var mine := set k | 0 <= k < |violations| && violations[k].user == user;
      var less := set k | 0 <= k < n && violations[..n][k].user == user;
      |mine| == |less| + if violations[n].user == user then 1 else 0
  {
    var n := |violations| - 1;
    var mine := set k | 0 <= k < |violations| && violations[k].user == user;
    var less := set k | 0 <= k < n && violations[..n][k].user == user;
    if violations[n].user == user {
      assert mine == less + {n};
    } else {
      assert mine == less;
    }
  }

  function Automatic(restrictions: seq<Restriction>, user: UserId): seq<Restriction> {
    if restrictions == [] then []
    else
      var last := restrictions[|restrictions| - 1];
      Automatic(restrictions[..|restrictions| - 1], user) + if last.automatic && last.user == user then [last] else []
  }

  /** The violations that called for a review, oldest first. */
  function Reviewed(violations: seq<Violation>): seq<Flag> {
    if violations == [] then []
    else
      var last := violations[|violations| - 1];
      Reviewed(violations[..|violations| - 1]) + if last.action.ModeratorReview? then [Flag(last.message, last.report)] else []
  }

  /** The n-th violation has the n-th sanction, and one automatic restriction covers a day from the third. */
  ghost predicate InStep(mine: seq<Violation>, auto: seq<Restriction>) {
    && (forall k :: 0 <= k < |mine| ==> mine[k].action == Tier(k))
    && |auto| == (if |mine| >= 3 then 1 else 0)
    && (|mine| >= 3 ==>
          && auto[0].startsAt == mine[2].at && auto[0].endsAt == Some(mine[2].at + DAY)
          && (auto[0].liftedAt.Some? || forall k :: 3 <= k < |mine| ==> mine[k].at >= mine[2].at + DAY))
  }

  ghost predicate Escalated(r: Records, user: UserId) {
    InStep(Of(r.violations, user), Automatic(r.restrictions, user))
  }

  ghost predicate EscalationInv(r: Records) {
    (forall u :: Escalated(r, u)) && r.flags == Reviewed(r.violations)
  }

  lemma OfAppended(violations: seq<Violation>, v: Violation, user: UserId)
    ensures Of(violations + [v], user) == Of(violations, user) + if v.user == user then [v] else []
  {
    assert (violations + [v])[..|violations|] == violations;
  }

  lemma AutomaticAppended(restrictions: seq<Restriction>, r: Restriction, user: UserId)
    ensures Automatic(restrictions + [r], user) == Automatic(restrictions, user) + if r.automatic && r.user == user then [r] else []
  {
    assert (restrictions + [r])[..|restrictions|] == restrictions;
  }

  lemma ReviewedAppended(violations: seq<Violation>, v: Violation)
    ensures Reviewed(violations + [v]) == Reviewed(violations) + if v.action.ModeratorReview? then [Flag(v.message, v.report)] else []
  {
    assert (violations + [v])[..|violations|] == violations;
  }

  lemma {:induction false} AutomaticIsRow(restrictions: seq<Restriction>, user: UserId, k: nat)
    requires k < |Automatic(restrictions, user)|
    ensures Automatic(restrictions, user)[k] in restrictions && Automatic(restrictions, user)[k].user == user
    decreases |restrictions|
  {
    var others := restrictions[..|restrictions| - 1];
    if k < |Automatic(others, user)| { AutomaticIsRow(others, user, k); }
  }

  /** A user whose restrictions let a message through has had the automatic one lifted or run out. */
  lemma UnrestrictedMeansOver(r: Records, user: UserId, now: Time)
    requires !Restricted(r, user, now)
    ensures forall k :: 0 <= k < |Automatic(r.restrictions, user)| ==>
      var auto := Automatic(r.restrictions, user)[k];
      auto.liftedAt.Some? || (auto.endsAt.Some? && auto.endsAt.value <= now)
  {
    forall k | 0 <= k < |Automatic(r.restrictions, user)|
      ensures !Active(user, now)(Automatic(r.restrictions, user)[k]) && Automatic(r.restrictions, user)[k].user == user
    {
      AutomaticIsRow(r.restrictions, user, k);
    }
  }

  lemma OneMoreInStep(mine: seq<Violation>, auto: seq<Restriction>, v: Violation, now: Time)
    requires InStep(mine, auto) && v.action == Tier(|mine|) && v.at == now
    requires forall k :: 0 <= k < |auto| ==> auto[k].liftedAt.Some? || (auto[k].endsAt.Some? && auto[k].endsAt.value <= now)
    ensures InStep(mine + [v], auto + if |mine| == 2 then [Restriction(v.user, true, now, Some(now + RESTRICTION_HOURS), None)] else [])
  {
    assert auto + [] == auto;
  }

  lemma RecordLists(r: Records, user: UserId, message: nat, report: D.Report, now: Time, u: UserId)
    ensures
      var v := Violation(user, message, report, Tier(|Of(r.violations, user)|), now);
      var mine, auto := Of(r.violations, u), Automatic(r.restrictions, u);
      var after := Recorded(r, user, message, report, now);
      var more := if |mine| == 2 then [Restriction(user, true, now, Some(now + RESTRICTION_HOURS), None)] else [];
      && Of(after.violations, u) == (if u == user then mine + [v] else mine)
      && Automatic(after.restrictions, u) == (if u == user then auto + more else auto)
  {
    hide Of, Automatic;
    var mine, auto := Of(r.violations, u), Automatic(r.restrictions, u);
    OfAppended(r.violations, Violation(user, message, report, Tier(|Of(r.violations, user)|), now), u);
    AutomaticAppended(r.restrictions, Restriction(user, true, now, Some(now + RESTRICTION_HOURS), None), u);
    assert r.restrictions + [] == r.restrictions && mine + [] == mine && auto + [] == auto;
  }

  lemma RecordEscalates(r: Records, user: UserId, message: nat, report: D.Report, now: Time, u: UserId)
    requires Escalated(r, u) && !Restricted(r, user, now)
    ensures Escalated(Recorded(r, user, message, report, now), u)
  {
    hide Of, Automatic, Restricted, InStep, Recorded;
    RecordLists(r, user, message, report, now, u);
    if u == user {
      UnrestrictedMeansOver(r, user, now);
      var v := Violation(user, message, report, Tier(|Of(r.violations, user)|), now);
      OneMoreInStep(Of(r.violations, u), Automatic(r.restrictions, u), v, now);
    }
  }

  lemma RecordKeepsInv(r: Records, user: UserId, message: nat, report: D.Report, now: Time)
    requires EscalationInv(r) && !Restricted(r, user, now)
    ensures EscalationInv(Recorded(r, user, message, report, now))
  {
    forall u
      ensures Escalated(Recorded(r, user, message, report, now), u)
    {
      RecordEscalates(r, user, message, report, now, u);
    }
    ReviewedAppended(r.violations, Violation(user, message, report, Tier(|Of(r.violations, user)|), now));
  }

  lemma {:induction false} LiftKeepsAutomatic(restrictions: seq<Restriction>, k: nat, now: Time, user: UserId)
    requires k < |restrictions|
    ensures
      var before := Automatic(restrictions, user);
      var after := Automatic(restrictions[k := restrictions[k].(liftedAt := Some(now))], user);
      |after| == |before| && forall i :: 0 <= i < |before| ==>
        after[i] == before[i] || after[i] == before[i].(liftedAt := Some(now))
    decreases |restrictions|
  {
    var n := |restrictions| - 1;
    var lifted := restrictions[k := restrictions[k].(liftedAt := Some(now))];
    if k < n {
      LiftKeepsAutomatic(restrictions[..n], k, now, user);
      assert lifted[..n] == restrictions[..n][k := restrictions[k].(liftedAt := Some(now))];
    } else {
      assert lifted[..n] == restrictions[..n];
    }
  }

  lemma StaffKeepsInv(r: Records, q: StaffRequest)
    requires EscalationInv(r)
    ensures EscalationInv(After(Staffed(r, q), r))
  {
    var after := After(Staffed(r, q), r);
    forall u
      ensures Escalated(after, u)
    {
      assert Escalated(r, u);
      if q.Impose? && q.known {
        AutomaticAppended(r.restrictions, after.restrictions[|r.restrictions|], u);
      } else if q.Lift? && q.restriction < |r.restrictions| {
        LiftKeepsAutomatic(r.restrictions, q.restriction, q.now, u);
      }
    }
  }

  /** How many of a user's violations were sent to review: all but the first three. */
  function ReviewCount(mine: seq<Violation>): nat {
    if mine == [] then 0
    else ReviewCount(mine[..|mine| - 1]) + if mine[|mine| - 1].action.ModeratorReview? then 1 else 0
  }

  lemma {:induction false} ReviewsOf(r: Records, user: UserId)
    requires Escalated(r, user)
    ensures var mine := Of(r.violations, user);
            ReviewCount(mine) == if |mine| > 3 then |mine| - 3 else 0
  {
    ReviewsOfTiers(Of(r.violations, user));
  }

  lemma {:induction false} ReviewsOfTiers(mine: seq<Violation>)
    requires forall k :: 0 <= k < |mine| ==> mine[k].action == Tier(k)
    ensures ReviewCount(mine) == if |mine| > 3 then |mine| - 3 else 0
  {
    if mine != [] { ReviewsOfTiers(mine[..|mine| - 1]); }
  }
}
