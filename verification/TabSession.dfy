/**
 The dashboard's single-flight token refresh composed with the server's token families.

 One browser tab has any number of callers. Each may meet a 401 at any moment and ask for a
 refresh; `wire` holds every refresh request and answer under way between tab and server.
 Other devices, other users and staff act on the server meanwhile.
 */
module TabSession {
  import opened Platform
  import opened AuthTokens

  datatype Pair = Pair(access: nat, refresh: nat)

  /** What one `request` call is doing. */
  datatype Caller = Calling | Waiting | Retrying(access: nat) | GaveUp

  /** The token store, whether refreshPromise is set, and the callers. */
  datatype Tab = Tab(store: Option<Pair>, refreshing: bool, callers: map<nat, Caller>)

  /** How the fetch of /auth/refresh ends for the tab. */
  datatype Fetched = Granted(pair: Pair) | Denied | NetworkError

  // --- the tab ---

  /** refreshAccessToken as called by `c`: the new tab and the refresh token it sends, if any. */
  function AskForRefresh(t: Tab, c: nat): (Tab, Option<nat>) {
    if t.refreshing then (t.(callers := t.callers[c := Waiting]), None)
    else if t.store.None? then (t.(callers := t.callers[c := GaveUp]), None)
    else (t.(refreshing := true, callers := t.callers[c := Waiting]), Some(t.store.value.refresh))
  }

  function Resumed(caller: Caller, f: Fetched): Caller {
    if !caller.Waiting? then caller
    else if f.Granted? then Retrying(f.pair.access)
    else GaveUp
  }

  /** The shared promise settles: store, flag and every caller that awaited it. */
  function Settle(t: Tab, f: Fetched): Tab {
    var store := match f
      case Granted(pair) => Some(pair)
      case Denied => None
      case NetworkError => t.store;
    Tab(store, false, map c | c in t.callers :: Resumed(t.callers[c], f))
  }

  class ApiClient {
    var store: Option<Pair>
    var refreshing: bool
    var callers: map<nat, Caller>

    function View(): Tab
      reads this
    {
      Tab(store, refreshing, callers)
    }

    constructor ()
      ensures View() == Tab(None, false, map[])
    {
      store, refreshing, callers := None, false, map[];
    }

    /** Up to the first await: only the caller that finds no refresh under way sends one. */
    method RefreshAccessToken(c: nat) returns (sent: Option<nat>)
      modifies this
      ensures (View(), sent) == AskForRefresh(old(View()), c)
      ensures sent.Some? ==> !old(refreshing) && refreshing
      ensures sent == if !old(refreshing) && old(store).Some? then Some(old(store).value.refresh) else None
      ensures refreshing <==> old(refreshing) || old(store).Some?
      ensures store == old(store) && callers == old(callers)[c := if refreshing then Waiting else GaveUp]
    {
      if refreshing {
        callers := callers[c := Waiting];
        return None;
      }
      if store.None? {
        callers := callers[c := GaveUp];
        return None;
      }
      refreshing := true;
      callers := callers[c := Waiting];
      return Some(store.value.refresh);
    }

    /** From the fetch's outcome to the finally block. */
    method FinishRefresh(f: Fetched)
      modifies this
      ensures View() == Settle(old(View()), f)
      ensures !refreshing
      ensures store == match f case Granted(pair) => Some(pair) case Denied => None case NetworkError => old(store)
      ensures callers.Keys == old(callers).Keys
      ensures forall c :: c in callers ==>
        callers[c] == if old(callers)[c] != Waiting then old(callers)[c]
                      else match f case Granted(pair) => Retrying(pair.access) case Denied => GaveUp case NetworkError => GaveUp
    {
      if f.Granted? {
        store := Some(f.pair);
      } else if f.Denied? {
        store := None;
      }
      callers := map c | c in callers :: Resumed(callers[c], f);
      refreshing := false;
    }
  }

  // --- tab and server together ---

  datatype Message = Request(raw: nat) | Answer(reply: Reply)

  /** `mine` are the refresh tokens the server ever issued to this tab. */
  datatype System = System(auth: Auth, tab: Tab, wire: seq<Message>, mine: set<nat>)

  datatype Event =
    | Call(caller: nat)                          // a caller sends its own request
    | Unauthorized(caller: nat)                  // and is answered 401
    | ServerActs(k: nat, now: Time, ttl: nat)    // the server handles the k-th message under way
    | Arrives(k: nat)                            // its answer reaches the tab
    | RequestLost(k: nat)
    | AnswerLost(k: nat)
    | SignIn(user: UserId, now: Time, ttl: nat)
    | SignOut
    | Elsewhere(e: AuthEvent)                    // anyone else acts on the server

  function FetchedOf(r: Reply): Fetched {
    if r.Rotated? then Granted(Pair(r.token, r.token)) else Denied
  }

  function Without<T>(s: seq<T>, k: nat): seq<T>
    requires k < |s|
  {
    s[..k] + s[k + 1..]
  }

  function Step(s: System, e: Event): System {
    match e
    case Call(c) => s.(tab := s.tab.(callers := s.tab.callers[c := Calling]))
    case Unauthorized(c) =>
      if c !in s.tab.callers || !s.tab.callers[c].Calling? then s
      else
        var (tab, sent) := AskForRefresh(s.tab, c);
        s.(tab := tab, wire := s.wire + if sent.Some? then [Request(sent.value)] else [])
    case ServerActs(k, now, ttl) =>
      if k >= |s.wire| || !s.wire[k].Request? then s
      else
        var (auth, reply) := Refreshed(s.auth, s.wire[k].raw, now, ttl);
        s.(auth := auth, wire := s.wire[k := Answer(reply)], mine := s.mine + if reply.Rotated? then {reply.token} else {})
    case Arrives(k) =>
      if k >= |s.wire| || !s.wire[k].Answer? then s
      else s.(tab := Settle(s.tab, FetchedOf(s.wire[k].reply)), wire := Without(s.wire, k))
    case RequestLost(k) =>
      if k >= |s.wire| || !s.wire[k].Request? then s
      else s.(tab := Settle(s.tab, NetworkError), wire := Without(s.wire, k))
    case AnswerLost(k) =>
      if k >= |s.wire| || !s.wire[k].Answer? then s
      else s.(tab := Settle(s.tab, NetworkError), wire := Without(s.wire, k))
    case SignIn(user, now, ttl) =>
      if user >= |s.auth.active| then s
      else
        var raw := |s.auth.tokens|;
        s.(auth := Next(s.auth, AuthEvent.Login(user, now, ttl)), tab := s.tab.(store := Some(Pair(raw, raw))), mine := s.mine + {raw})
    case SignOut => s.(tab := s.tab.(store := None))
    case Elsewhere(a) => s.(auth := Next(s.auth, a))
  }

  /** Nobody else holds this tab's refresh tokens. */
  predicate Enabled(s: System, e: Event) {
    e.Elsewhere? ==>
      (e.e.Refresh? || e.e.Logout?) ==> e.e.raw !in s.mine
  }

  function Run(s: System, es: seq<Event>): System
    decreases |es|
  {
    if es == [] then s else Run(Step(s, es[0]), es[1..])
  }

  predicate Possible(s: System, es: seq<Event>)
    decreases |es|
  {
    es == [] || (Enabled(s, es[0]) && Possible(Step(s, es[0]), es[1..]))
  }

  const START := System(NOBODY, Tab(None, false, map[]), [], {})

  // --- single flight ---

  ghost predicate OneFlight(s: System) {
    && (if s.tab.refreshing then |s.wire| == 1 else s.wire == [])
    && (forall c :: c in s.tab.callers && s.tab.callers[c].Waiting? ==> s.tab.refreshing)
  }

  lemma StepKeepsOneFlight(s: System, e: Event)
    requires OneFlight(s)
    ensures OneFlight(Step(s, e))
  {
  }

  /** In every run at most one refresh is under way, and no caller waits for one that is not. */
  lemma {:induction false} AtMostOneRefresh(s: System, es: seq<Event>)
    requires OneFlight(s)
    ensures OneFlight(Run(s, es)) && |Run(s, es).wire| <= 1
    decreases |es|
  {
    if es != [] {
      StepKeepsOneFlight(s, es[0]);
      AtMostOneRefresh(Step(s, es[0]), es[1..]);
    }
  }

  // --- no reuse ---

  predicate LiveToken(a: Auth, raw: nat) { raw < |a.tokens| && Live(a.tokens[raw]) }

  ghost predicate Owned(s: System) {
    && AuthTokens.Inv(s.auth) && OneFlight(s)
    && (forall i :: i in s.mine ==> i < |s.auth.tokens|)
    && (forall i, k :: i in s.mine && 0 <= k < |s.auth.tokens| && s.auth.tokens[i].family == s.auth.tokens[k].family ==> k in s.mine)
    && (s.tab.store.Some? ==> s.tab.store.value.refresh in s.mine)
    && (forall m :: m in s.wire ==>
          match m
          case Request(raw) => raw in s.mine
          case Answer(reply) => reply.Rotated? ==> reply.token in s.mine)
  }

  predicate StoreLive(s: System) { s.tab.store.Some? ==> LiveToken(s.auth, s.tab.store.value.refresh) }

  /** What the tab holds or is about to get is live; the server has not seen a used token from it. */
  ghost predicate Healthy(s: System) {
    && Owned(s)
    && (s.wire == [] ==> StoreLive(s))
    && (forall m :: m in s.wire ==>
          match m
          case Request(raw) => LiveToken(s.auth, raw) && StoreLive(s)
          case Answer(reply) =>
            reply != ReuseDetected && (if reply.Rotated? then LiveToken(s.auth, reply.token) else StoreLive(s)))
  }

  /** The two things that revoke the tab's token behind its back. */
  predicate Disturbs(s: System, e: Event) {
    match e
    case AnswerLost(k) => k < |s.wire| && s.wire[k].Answer? && s.wire[k].reply.Rotated?
    case Elsewhere(ResetPassword(raw, now)) =>
      Resettable(s.auth, raw, now) &&
      exists i :: i in s.mine && i < |s.auth.tokens| && s.auth.tokens[i].user == s.auth.resets[raw].user
    case _ => false
  }

  predicate Undisturbed(s: System, es: seq<Event>)
    decreases |es|
  {
    es == [] || (!Disturbs(s, es[0]) && Undisturbed(Step(s, es[0]), es[1..]))
  }

  /** What anyone else does to the tokens: rows keep their place and family, and this tab's live ones stay live. */
  lemma ElsewhereLeavesMine(s: System, a: AuthEvent)
    requires Owned(s) && Enabled(s, Elsewhere(a))
    ensures var b := Next(s.auth, a);
            && AuthTokens.Inv(b) && |s.auth.tokens| <= |b.tokens|
            && (forall i :: 0 <= i < |s.auth.tokens| ==> b.tokens[i].family == s.auth.tokens[i].family)
            && (forall i, k :: i in s.mine && |s.auth.tokens| <= k < |b.tokens| ==> b.tokens[i].family != b.tokens[k].family)
            && (!Disturbs(s, Elsewhere(a)) ==> forall i :: i in s.mine && LiveToken(s.auth, i) ==> LiveToken(b, i))
  {
    NextKeepsInv(s.auth, a);
  }

  lemma RefreshOfMine(s: System, raw: nat, now: Time, ttl: nat)
    requires Owned(s) && raw in s.mine
    ensures var (b, reply) := Refreshed(s.auth, raw, now, ttl);
            && AuthTokens.Inv(b) && |s.auth.tokens| <= |b.tokens|
            && (forall i :: 0 <= i < |s.auth.tokens| ==> b.tokens[i].family == s.auth.tokens[i].family)
            && (if reply.Rotated?
                then reply.token == |s.auth.tokens| && |b.tokens| == |s.auth.tokens| + 1 && LiveToken(b, reply.token)
                     && b.tokens[reply.token].family == s.auth.tokens[raw].family
                else |b.tokens| == |s.auth.tokens|)
            && (LiveToken(s.auth, raw) ==> reply != ReuseDetected && (reply.Rotated? || b == s.auth))
  {
    NextKeepsInv(s.auth, AuthEvent.Refresh(raw, now, ttl));
  }

  lemma StepKeepsOwned(s: System, e: Event)
    requires Owned(s) && Enabled(s, e)
    ensures Owned(Step(s, e))
  {
    StepKeepsOneFlight(s, e);
    match e
    case Elsewhere(a) => ElsewhereLeavesMine(s, a);
    case ServerActs(k, now, ttl) =>
      if k < |s.wire| && s.wire[k].Request? {
        ServerActsKeepsOwned(s, k, now, ttl);
      }
    case SignIn(user, now, ttl) => SignInKeepsOwned(s, user, now, ttl);
    case Unauthorized(c) =>
    case _ => TabStepKeepsOwned(s, e);
  }

  lemma TabStepKeepsOwned(s: System, e: Event)
    requires Owned(s) && (e.Call? || e.Arrives? || e.RequestLost? || e.AnswerLost? || e.SignOut?)
    ensures Owned(Step(s, e))
  {
    StepKeepsOneFlight(s, e);
    if s.wire != [] {
      assert s.wire == [s.wire[0]] && s.wire[0] in s.wire;
    }
  }

  lemma ServerActsKeepsOwned(s: System, k: nat, now: Time, ttl: nat)
    requires Owned(s) && k < |s.wire| && s.wire[k].Request?
    ensures Owned(Step(s, ServerActs(k, now, ttl)))
  {
    StepKeepsOneFlight(s, ServerActs(k, now, ttl));
    assert s.wire[k] in s.wire;
    RefreshOfMine(s, s.wire[k].raw, now, ttl);
    hide Refreshed, AuthTokens.Inv;
    assert s.wire == [s.wire[0]];
  }

  lemma SignInKeepsOwned(s: System, user: UserId, now: Time, ttl: nat)
    requires Owned(s)
    ensures Owned(Step(s, SignIn(user, now, ttl)))
  {
    StepKeepsOneFlight(s, SignIn(user, now, ttl));
    NextKeepsInv(s.auth, AuthEvent.Login(user, now, ttl));
  }

  lemma ElsewhereKeepsHealthy(s: System, a: AuthEvent)
    requires Healthy(s) && Enabled(s, Elsewhere(a)) && !Disturbs(s, Elsewhere(a)) && Owned(Step(s, Elsewhere(a)))
    ensures Healthy(Step(s, Elsewhere(a)))
  {
    ElsewhereLeavesMine(s, a);
    hide Next, Disturbs, AuthTokens.Inv, OneFlight, LiveToken;
  }

  lemma ServerActsKeepsHealthy(s: System, k: nat, now: Time, ttl: nat)
    requires Healthy(s) && Owned(Step(s, ServerActs(k, now, ttl)))
    ensures Healthy(Step(s, ServerActs(k, now, ttl)))
  {
    if k < |s.wire| && s.wire[k].Request? {
      assert s.wire[k] in s.wire && s.wire == [s.wire[0]];
      RefreshOfMine(s, s.wire[k].raw, now, ttl);
      hide Refreshed, AuthTokens.Inv, OneFlight;
    }
  }

  lemma TabStepKeepsHealthy(s: System, e: Event)
    requires Healthy(s) && !Disturbs(s, e) && !e.Elsewhere? && !e.ServerActs? && Owned(Step(s, e))
    ensures Healthy(Step(s, e))
  {
    hide AuthTokens.Inv, Owned;
    WireIsOne(s);
    assert s.wire != [] ==> s.wire[0] in s.wire;
  }

  lemma WireIsOne(s: System)
    requires Owned(s)
    ensures s.wire == [] || s.wire == [s.wire[0]]
    ensures s.tab.refreshing <==> s.wire != []
  {
  }

  lemma StepKeepsHealthy(s: System, e: Event)
    requires Healthy(s) && Enabled(s, e) && !Disturbs(s, e)
    ensures Healthy(Step(s, e))
  {
    StepKeepsOwned(s, e);
    hide Owned, StoreLive, Disturbs, Step;
    match e
    case Elsewhere(a) => ElsewhereKeepsHealthy(s, a);
    case ServerActs(k, now, ttl) => ServerActsKeepsHealthy(s, k, now, ttl);
    case _ => TabStepKeepsHealthy(s, e);
  }

  /**
   With any number of callers meeting 401s at any moment: unless an answer is lost after the
   server rotated the token, or this user's password is reset, the server never detects a reuse
   from this tab, and whenever no refresh is under way the stored token is live.
   */
  lemma {:induction false} UndisturbedTabStaysSignedIn(s: System, es: seq<Event>)
    requires Healthy(s) && Possible(s, es) && Undisturbed(s, es)
    ensures var t := Run(s, es);
            && Healthy(t)
            && (t.wire == [] ==> StoreLive(t))
            && Answer(ReuseDetected) !in t.wire
    decreases |es|
  {
    hide Owned;
    if es != [] {
      StepKeepsHealthy(s, es[0]);
      UndisturbedTabStaysSignedIn(Step(s, es[0]), es[1..]);
    }
  }

  /** The same from an empty server and a signed-out tab. */
  lemma UndisturbedFromTheStart(es: seq<Event>)
    requires Possible(START, es) && Undisturbed(START, es)
    ensures var t := Run(START, es);
            && |t.wire| <= 1 && Answer(ReuseDetected) !in t.wire
            && (t.wire == [] && t.tab.store.Some? ==> LiveToken(t.auth, t.tab.store.value.refresh))
  {
    UndisturbedTabStaysSignedIn(START, es);
    AtMostOneRefresh(START, es);
  }

  lemma {:induction false} RunKeepsOwned(s: System, es: seq<Event>)
    requires Owned(s) && Possible(s, es)
    ensures Owned(Run(s, es))
    decreases |es|
  {
    hide Owned;
    if es != [] {
      StepKeepsOwned(s, es[0]);
      RunKeepsOwned(Step(s, es[0]), es[1..]);
    }
  }

  /** What the tab holds and what is under way was issued to it, in every run. */
  lemma OwnedFromTheStart(es: seq<Event>)
    requires Possible(START, es)
    ensures Owned(Run(START, es))
  {
    assert Owned(START);
    hide Owned;
    RunKeepsOwned(START, es);
  }

  // --- and when it is disturbed ---

  /** One caller meets a 401, the server answers, the answer arrives. */
  function NextRefresh(s: System, c: nat, now: Time, ttl: nat): System {
    Step(Step(Step(Step(s, Call(c)), Unauthorized(c)), ServerActs(0, now, ttl)), Arrives(0))
  }

  lemma NextRefreshReuses(s: System, c: nat, now: Time, ttl: nat)
    requires Owned(s) && s.wire == [] && s.tab.store.Some?
    ensures var acted := Step(Step(Step(s, Call(c)), Unauthorized(c)), ServerActs(0, now, ttl));
            acted.wire == [Answer(ReuseDetected)] <==> !LiveToken(s.auth, s.tab.store.value.refresh)
    ensures !LiveToken(s.auth, s.tab.store.value.refresh) ==> NextRefresh(s, c, now, ttl).tab.store == None
  {
    var called := Step(s, Call(c));
    var asked := Step(called, Unauthorized(c));
    assert asked.wire == [Request(s.tab.store.value.refresh)];
    var acted := Step(asked, ServerActs(0, now, ttl));
    assert acted.wire == [Answer(Refreshed(s.auth, s.tab.store.value.refresh, now, ttl).1)];
  }

  lemma LossSignsOut(s: System, c: nat, now: Time, ttl: nat)
    requires Owned(s) && s.wire != [] && s.wire[0].Answer? && s.wire[0].reply.Rotated?
    requires s.tab.store.Some? && !LiveToken(s.auth, s.tab.store.value.refresh)
    ensures var t := Step(s, AnswerLost(0));
            && t.wire == [] && !StoreLive(t)
            && Dead(NextRefresh(t, c, now, ttl).auth, s.auth.tokens[s.tab.store.value.refresh].family)
            && NextRefresh(t, c, now, ttl).tab.store == None
  {
    var t := Step(s, AnswerLost(0));
    var raw := s.tab.store.value.refresh;
    StepKeepsOwned(s, AnswerLost(0));
    NextRefreshReuses(t, c, now, ttl);
    assert Refreshed(t.auth, raw, now, ttl).1 == ReuseDetected;
    assert Dead(Refreshed(t.auth, raw, now, ttl).0, t.auth.tokens[raw].family);
  }

  lemma RotationRevokes(s: System, k: nat, now: Time, ttl: nat)
    requires Owned(s) && k < |s.wire| && s.wire[k].Request?
    requires s.tab.store.Some? && s.tab.store.value.refresh == s.wire[k].raw
    ensures var t := Step(s, ServerActs(k, now, ttl));
            t.wire[k].reply.Rotated? ==> t.tab.store.Some? && !LiveToken(t.auth, t.tab.store.value.refresh)
  {
  }

  lemma ResetRevokes(s: System, reset: nat, at: Time, c: nat, now: Time, ttl: nat)
    requires Owned(s) && s.wire == [] && s.tab.store.Some? && Resettable(s.auth, reset, at)
    requires s.auth.tokens[s.tab.store.value.refresh].user == s.auth.resets[reset].user
    ensures var t := Step(s, Elsewhere(ResetPassword(reset, at)));
            var acted := Step(Step(Step(t, Call(c)), Unauthorized(c)), ServerActs(0, now, ttl));
            acted.wire == [Answer(ReuseDetected)] && NextRefresh(t, c, now, ttl).tab.store == None
  {
    StepKeepsOwned(s, Elsewhere(ResetPassword(reset, at)));
    NextRefreshReuses(Step(s, Elsewhere(ResetPassword(reset, at))), c, now, ttl);
  }

  /** After any run that leaves nothing under way, the next refresh is taken for a reuse exactly if the stored token is revoked. */
  lemma ReuseIffRevoked(es: seq<Event>, c: nat, now: Time, ttl: nat)
    requires Possible(START, es) && Run(START, es).wire == [] && Run(START, es).tab.store.Some?
    ensures
      var s := Run(START, es);
      var acted := Step(Step(Step(s, Call(c)), Unauthorized(c)), ServerActs(0, now, ttl));
      && (acted.wire == [Answer(ReuseDetected)] <==> !LiveToken(s.auth, s.tab.store.value.refresh))
      && (!LiveToken(s.auth, s.tab.store.value.refresh) ==> NextRefresh(s, c, now, ttl).tab.store == None)
  {
    OwnedFromTheStart(es);
    hide Owned, Step, Run, Possible;
    NextRefreshReuses(Run(START, es), c, now, ttl);
  }

  /** After any run, while the rotated answer to the stored token is under way, the stored token is the revoked one. */
  lemma RotationRevokesTheStored(es: seq<Event>, k: nat, now: Time, ttl: nat)
    requires Possible(START, es)
    requires
      var s := Run(START, es);
      k < |s.wire| && s.wire[k].Request? && s.tab.store.Some? && s.tab.store.value.refresh == s.wire[k].raw
    ensures
      var t := Step(Run(START, es), ServerActs(k, now, ttl));
      k < |t.wire| && t.wire[k].Answer?
      && (t.wire[k].reply.Rotated? ==> t.tab.store.Some? && !LiveToken(t.auth, t.tab.store.value.refresh))
  {
    OwnedFromTheStart(es);
    RotationRevokes(Run(START, es), k, now, ttl);
  }

  /**
   After any run: losing the answer after the server rotated the token leaves the tab with a revoked
   token; its next refresh is taken for theft, the session's family dies and the user is signed out.
   */
  lemma LostAnswerSignsOut(es: seq<Event>, c: nat, now: Time, ttl: nat)
    requires Possible(START, es)
    requires
      var s := Run(START, es);
      s.wire != [] && s.wire[0].Answer? && s.wire[0].reply.Rotated?
      && s.tab.store.Some? && !LiveToken(s.auth, s.tab.store.value.refresh)
    ensures
      var s := Run(START, es);
      var t := Step(s, AnswerLost(0));
      && t.wire == [] && !StoreLive(t) && s.tab.store.value.refresh < |s.auth.tokens|
      && Dead(NextRefresh(t, c, now, ttl).auth, s.auth.tokens[s.tab.store.value.refresh].family)
      && NextRefresh(t, c, now, ttl).tab.store == None
  {
    OwnedFromTheStart(es);
    LossSignsOut(Run(START, es), c, now, ttl);
  }

  /** After any run: a password reset from elsewhere makes the idle tab's next refresh a detected reuse. */
  lemma ResetLooksLikeReuse(es: seq<Event>, reset: nat, at: Time, c: nat, now: Time, ttl: nat)
    requires Possible(START, es)
    requires
      var s := Run(START, es);
      s.wire == [] && s.tab.store.Some? && Resettable(s.auth, reset, at) && s.tab.store.value.refresh < |s.auth.tokens|
      && s.auth.tokens[s.tab.store.value.refresh].user == s.auth.resets[reset].user
    ensures
      var t := Step(Run(START, es), Elsewhere(ResetPassword(reset, at)));
      var acted := Step(Step(Step(t, Call(c)), Unauthorized(c)), ServerActs(0, now, ttl));
      acted.wire == [Answer(ReuseDetected)] && NextRefresh(t, c, now, ttl).tab.store == None
  {
    OwnedFromTheStart(es);
    ResetRevokes(Run(START, es), reset, at, c, now, ttl);
  }

  // --- two such runs ---

  lemma RunFirst(s: System, e: Event, es: seq<Event>)
    ensures Run(s, [e] + es) == Run(Step(s, e), es)
    ensures Possible(s, [e] + es) <==> Enabled(s, e) && Possible(Step(s, e), es)
  {
    assert ([e] + es)[1..] == es;
  }

  /** Somebody registers and signs in with this tab. */
  function SignedIn(): System {
    System(
      Auth([Token(0, 0, None, 900), Token(0, 1, None, 900)], map[], [true], 2, 0),
      Tab(Some(Pair(1, 1)), false, map[]), [], {1})
  }

  lemma SigningIn(es: seq<Event>)
    ensures
      var all := [Elsewhere(Register(0, 900))] + ([SignIn(0, 0, 900)] + es);
      Run(START, all) == Run(SignedIn(), es) && (Possible(START, all) <==> Possible(SignedIn(), es))
  {
    var registered := Step(START, Elsewhere(Register(0, 900)));
    RunFirst(START, Elsewhere(Register(0, 900)), [SignIn(0, 0, 900)] + es);
    RunFirst(registered, SignIn(0, 0, 900), es);
    assert registered.auth.tokens == [Token(0, 0, None, 900)] && registered.auth.active == [true];
    assert Step(registered, SignIn(0, 0, 900)) == SignedIn();
  }

  function LossyEvents(): seq<Event> {
    [Elsewhere(Register(0, 900))] + ([SignIn(0, 0, 900)] + ([Call(7)] + ([Unauthorized(7)] + ([ServerActs(0, 5, 900)] + ([AnswerLost(0)] + [])))))
  }

  function Lossy(): System {
    System(
      Auth([Token(0, 0, None, 900), Token(0, 1, Some(5), 900), Token(0, 1, None, 905)], map[], [true], 2, 0),
      Tab(Some(Pair(1, 1)), false, map[7 := GaveUp]), [], {1, 2})
  }

  /** The tab asks, the server rotates, the answer is lost. */
  lemma Losing()
    ensures
      Step(Step(Step(Step(SignedIn(), Call(7)), Unauthorized(7)), ServerActs(0, 5, 900)), AnswerLost(0)) == Lossy()
  {
    var s1 := Step(SignedIn(), Call(7));
    var s2 := Step(s1, Unauthorized(7));
    assert s2 == SignedIn().(tab := Tab(Some(Pair(1, 1)), true, map[7 := Waiting]), wire := [Request(1)]);
    var s3 := Step(s2, ServerActs(0, 5, 900));
    assert s3.wire == [Answer(Rotated(2))] && s3.auth == Lossy().auth;
  }

  lemma LossyRun()
    ensures Possible(START, LossyEvents()) && Run(START, LossyEvents()) == Lossy()
  {
    var s0 := SignedIn();
    var s1 := Step(s0, Call(7));
    var s2 := Step(s1, Unauthorized(7));
    var s3 := Step(s2, ServerActs(0, 5, 900));
    Losing();
    SigningIn([Call(7)] + ([Unauthorized(7)] + ([ServerActs(0, 5, 900)] + ([AnswerLost(0)] + []))));
    hide Step, SignedIn;
    RunFirst(s0, Call(7), [Unauthorized(7)] + ([ServerActs(0, 5, 900)] + ([AnswerLost(0)] + [])));
    RunFirst(s1, Unauthorized(7), [ServerActs(0, 5, 900)] + ([AnswerLost(0)] + []));
    RunFirst(s2, ServerActs(0, 5, 900), [AnswerLost(0)] + []);
    RunFirst(s3, AnswerLost(0), []);
  }

  /** A possible run after which an answer is lost for good, and the refresh that then counts as theft. */
  lemma LostAnswerHappens()
    ensures Possible(START, LossyEvents())
    ensures
      var s := Run(START, LossyEvents());
      && s.wire == [] && s.tab.store == Some(Pair(1, 1)) && !StoreLive(s)
      && Step(Step(Step(s, Call(7)), Unauthorized(7)), ServerActs(0, 9, 900)).wire == [Answer(ReuseDetected)]
      && NextRefresh(s, 7, 9, 900).tab.store == None
  {
    assert Lossy().wire == [] && Lossy().tab.store == Some(Pair(1, 1)) && !LiveToken(Lossy().auth, 1) && !StoreLive(Lossy());
    hide *;
    LossyRun();
    ReuseIffRevoked(LossyEvents(), 7, 9, 900);
  }

  function ResetEvents(): seq<Event> {
    [Elsewhere(Register(0, 900))] + ([SignIn(0, 0, 900)] + ([Elsewhere(RequestReset(0, 1))] + []))
  }

  /** A possible run after which a reset elsewhere signs the tab out as if its token had been stolen. */
  lemma ResetHappens()
    ensures Possible(START, ResetEvents()) && Resettable(Run(START, ResetEvents()).auth, 0, 2)
    ensures
      var t := Step(Run(START, ResetEvents()), Elsewhere(ResetPassword(0, 2)));
      && Step(Step(Step(t, Call(7)), Unauthorized(7)), ServerActs(0, 9, 900)).wire == [Answer(ReuseDetected)]
      && NextRefresh(t, 7, 9, 900).tab.store == None
  {
    var s0 := SignedIn();
    var s1 := Step(s0, Elsewhere(RequestReset(0, 1)));
    SigningIn([Elsewhere(RequestReset(0, 1))] + []);
    RunFirst(s0, Elsewhere(RequestReset(0, 1)), []);
    assert s1.wire == [] && s1.tab.store == Some(Pair(1, 1)) && Resettable(s1.auth, 0, 2) && s1.auth.resets[0].user == 0;
    assert Possible(START, ResetEvents()) && Run(START, ResetEvents()) == s1;
    hide Step;
    ResetLooksLikeReuse(ResetEvents(), 0, 2, 7, 9, 900);
  }
}
