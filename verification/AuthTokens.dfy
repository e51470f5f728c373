/**
 Refresh tokens: issued in families, rotated on use, revoked family-wide when a used one
 comes back and user-wide on a password reset.

 A raw token is represented by the position of its row; hashing is injective and raw
 tokens are never guessed, so a raw string that names no row is simply out of range.
 */
module AuthTokens {
  import opened Platform

  datatype Token = Token(user: UserId, family: nat, revokedAt: Option<Time>, expiresAt: Time)

  datatype Reset = Reset(user: UserId, used: bool, expiresAt: Time)

  /** Users are positions in `active`; `families` and `resetCount` are the next fresh ids. */
  datatype Auth = Auth(tokens: seq<Token>, resets: map<nat, Reset>, active: seq<bool>, families: nat, resetCount: nat)

  datatype Reply = Rotated(token: nat) | Invalid | ReuseDetected | Expired | Inactive

  datatype AuthEvent =
    | Register(now: Time, ttl: nat)
    | Login(user: UserId, now: Time, ttl: nat)
    | Refresh(raw: nat, now: Time, ttl: nat)
    | Logout(raw: nat, now: Time)
    | RequestReset(user: UserId, now: Time)
    | ResetPassword(raw: nat, now: Time)
    | SetActive(user: UserId, on: bool)

  const PASSWORD_RESET_TTL: Time := 60 * 60 * 1000

  predicate Live(t: Token) { t.revokedAt.None? }

  // --- what the handlers do ---

  /** updateMany where revokedAt is null and `chosen`: set revokedAt. */
  function Revoke(tokens: seq<Token>, chosen: Token -> bool, now: Time): (r: seq<Token>)
    ensures |r| == |tokens|
    ensures forall i :: 0 <= i < |tokens| ==>
              r[i] == if Live(tokens[i]) && chosen(tokens[i]) then tokens[i].(revokedAt := Some(now)) else tokens[i]
  {
    seq(|tokens|, i requires 0 <= i < |tokens| =>
      if Live(tokens[i]) && chosen(tokens[i]) then tokens[i].(revokedAt := Some(now)) else tokens[i])
  }

  function InFamily(family: nat): Token -> bool { (t: Token) => t.family == family }

  function OfUser(user: UserId): Token -> bool { (t: Token) => t.user == user }

  /** issueTokenPair without a family: a fresh one is made. */
  function Issued(a: Auth, user: UserId, now: Time, ttl: nat): Auth {
    a.(tokens := a.tokens + [Token(user, a.families, None, now + ttl)], families := a.families + 1)
  }

  function Refreshed(a: Auth, raw: nat, now: Time, ttl: nat): (Auth, Reply) {
    if raw >= |a.tokens| then (a, Invalid)
    else
      var t := a.tokens[raw];
      if !Live(t) then (a.(tokens := Revoke(a.tokens, InFamily(t.family), now)), ReuseDetected)
      else if t.expiresAt < now then (a, Expired)
      else if t.user >= |a.active| || !a.active[t.user] then (a, Inactive)
      else
        (a.(tokens := a.tokens[raw := t.(revokedAt := Some(now))] + [Token(t.user, t.family, None, now + ttl)]),
         Rotated(|a.tokens|))
  }

  predicate Resettable(a: Auth, raw: nat, now: Time) {
    raw in a.resets && !a.resets[raw].used && a.resets[raw].expiresAt >= now
  }

  function Next(a: Auth, e: AuthEvent): Auth {
    match e
    case Register(now, ttl) => Issued(a.(active := a.active + [true]), |a.active|, now, ttl)
    case Login(user, now, ttl) => if user < |a.active| then Issued(a, user, now, ttl) else a
    case Refresh(raw, now, ttl) => Refreshed(a, raw, now, ttl).0
    case Logout(raw, now) =>
      if raw < |a.tokens| && Live(a.tokens[raw])
      then a.(tokens := a.tokens[raw := a.tokens[raw].(revokedAt := Some(now))]) else a
    case RequestReset(user, now) =>
      if user >= |a.active| || !a.active[user] then a
      else
        var kept := map r | r in a.resets && (a.resets[r].user != user || a.resets[r].used) :: a.resets[r];
        a.(resets := kept[a.resetCount := Reset(user, false, now + PASSWORD_RESET_TTL)], resetCount := a.resetCount + 1)
    case ResetPassword(raw, now) =>
      if !Resettable(a, raw, now) then a
      else a.(resets := a.resets[raw := a.resets[raw].(used := true)],
              tokens := Revoke(a.tokens, OfUser(a.resets[raw].user), now))
    case SetActive(user, on) => if user < |a.active| then a.(active := a.active[user := on]) else a
  }

  function Run(a: Auth, es: seq<AuthEvent>): Auth
    decreases |es|
  {
    if es == [] then a else Run(Next(a, es[0]), es[1..])
  }

  const NOBODY := Auth([], map[], [], 0, 0)

  // --- the service ---

  class AuthService {
    var tokens: seq<Token>
    var resets: map<nat, Reset>
    var active: seq<bool>
    var families: nat
    var resetCount: nat

    function Db(): Auth
      reads this
    {
      Auth(tokens, resets, active, families, resetCount)
    }

    constructor ()
      ensures Db() == NOBODY
    {
      tokens, resets, active, families, resetCount := [], map[], [], 0, 0;
    }

    /** A missing family means a new one. */
    method IssueTokenPair(user: UserId, now: Time, ttl: nat, family: Option<nat>) returns (raw: nat)
      modifies this`tokens, this`families
      ensures raw == |old(tokens)|
      ensures family.None? ==> Db() == Issued(old(Db()), user, now, ttl)
      ensures family.Some? ==> tokens == old(tokens) + [Token(user, family.value, None, now + ttl)] && families == old(families)
      ensures tokens == old(tokens) + [Token(user, if family.Some? then family.value else old(families), None, now + ttl)]
      ensures families == old(families) + if family.None? then 1 else 0
    {
      var f := if family.Some? then family.value else families;
      if family.None? {
        families := families + 1;
      }
      raw := |tokens|;
      tokens := tokens + [Token(user, f, None, now + ttl)];
    }

    /** `emailTaken` is the outcome of the look-up by e-mail address. */
    method Register(emailTaken: bool, now: Time, ttl: nat) returns (raw: Option<nat>)
      modifies this
      ensures if emailTaken then raw == None && Db() == old(Db())
              else raw == Some(|old(tokens)|) && Db() == Next(old(Db()), AuthEvent.Register(now, ttl))
      ensures !emailTaken ==>
        active == old(active) + [true] && tokens == old(tokens) + [Token(|old(active)|, old(families), None, now + ttl)]
    {
      if emailTaken {
        return None;
      }
      var user := |active|;
      active := active + [true];
      var pair := IssueTokenPair(user, now, ttl, None);
      return Some(pair);
    }

    method Login(user: UserId, now: Time, ttl: nat) returns (raw: Option<nat>)
      modifies this
      ensures Db() == Next(old(Db()), AuthEvent.Login(user, now, ttl))
      ensures raw == if user < |active| then Some(|old(tokens)|) else None
      ensures active == old(active) && resets == old(resets)
      ensures tokens == old(tokens) + if user < |active| then [Token(user, old(families), None, now + ttl)] else []
    {
      if user >= |active| {
        return None;
      }
      var pair := IssueTokenPair(user, now, ttl, None);
      return Some(pair);
    }

    method Refresh(raw: nat, now: Time, ttl: nat) returns (reply: Reply)
      modifies this
      ensures (Db(), reply) == Refreshed(old(Db()), raw, now, ttl)
      ensures reply == Invalid <==> raw >= |old(tokens)|
      ensures reply == ReuseDetected <==> raw < |old(tokens)| && old(tokens)[raw].revokedAt.Some?
      ensures reply == Expired <==> raw < |old(tokens)| && old(tokens)[raw].revokedAt.None? && old(tokens)[raw].expiresAt < now
      ensures reply == Inactive <==>
        && raw < |old(tokens)| && old(tokens)[raw].revokedAt.None? && old(tokens)[raw].expiresAt >= now
        && !(old(tokens)[raw].user < |active| && active[old(tokens)[raw].user])
      ensures reply.Rotated? <==>
        && raw < |old(tokens)| && old(tokens)[raw].revokedAt.None? && old(tokens)[raw].expiresAt >= now
        && old(tokens)[raw].user < |active| && active[old(tokens)[raw].user]
      ensures reply.Rotated? ==>
        var t := old(tokens)[raw];
        && reply.token == |old(tokens)| && |tokens| == |old(tokens)| + 1
        && tokens[reply.token] == Token(t.user, t.family, None, now + ttl)
        && OnlyRow(old(tokens), tokens[..|old(tokens)|], raw, Token(t.user, t.family, Some(now), t.expiresAt))
      ensures reply == ReuseDetected ==> |tokens| == |old(tokens)| && forall i :: 0 <= i < |tokens| ==>
        var t := old(tokens)[i];
        tokens[i] == if t.family == old(tokens)[raw].family && t.revokedAt.None? then t.(revokedAt := Some(now)) else t
      ensures reply in {Invalid, Expired, Inactive} ==> tokens == old(tokens)
      ensures active == old(active) && resets == old(resets) && families == old(families)
    {
      if raw >= |tokens| {
        return Invalid;
      }
      var record := tokens[raw];
      if record.revokedAt.Some? {
        tokens := Revoke(tokens, InFamily(record.family), now);
        return ReuseDetected;
      }
      if record.expiresAt < now {
        return Expired;
      }
      if record.user >= |active| || !active[record.user] {
        return Inactive;
      }
      tokens := tokens[raw := record.(revokedAt := Some(now))];
      var pair := IssueTokenPair(record.user, now, ttl, Some(record.family));
      return Rotated(pair);
    }

    method Logout(raw: nat, now: Time)
      modifies this
      ensures Db() == Next(old(Db()), AuthEvent.Logout(raw, now))
      ensures if raw < |old(tokens)| && old(tokens)[raw].revokedAt.None?
              then OnlyRow(old(tokens), tokens, raw, old(tokens)[raw].(revokedAt := Some(now))) else tokens == old(tokens)
      ensures active == old(active) && resets == old(resets)
    {
      if raw < |tokens| && tokens[raw].revokedAt.None? {
        tokens := tokens[raw := tokens[raw].(revokedAt := Some(now))];
      }
    }

    method RequestPasswordReset(user: UserId, now: Time)
      modifies this
      ensures Db() == Next(old(Db()), RequestReset(user, now))
      ensures tokens == old(tokens) && active == old(active)
      ensures !(user < |active| && active[user]) ==> resets == old(resets)
      ensures user < |active| && active[user] ==>
        && old(resetCount) in resets && resets[old(resetCount)] == Reset(user, false, now + 60 * 60 * 1000)
        && forall r :: r != old(resetCount) ==>
             && (r in resets <==> r in old(resets) && (old(resets)[r].user != user || old(resets)[r].used))
             && (r in resets ==> resets[r] == old(resets)[r])
    {
      if user >= |active| || !active[user] {
        return;
      }
      resets := map r | r in resets && (resets[r].user != user || resets[r].used) :: resets[r];
      resets := resets[resetCount := Reset(user, false, now + PASSWORD_RESET_TTL)];
      resetCount := resetCount + 1;
    }

    method ResetPassword(raw: nat, now: Time) returns (status: Status)
      modifies this
      ensures status == if Resettable(old(Db()), raw, now) then Okay else BadRequest
      ensures Db() == Next(old(Db()), AuthEvent.ResetPassword(raw, now))
      ensures status == Okay <==> raw in old(resets) && !old(resets)[raw].used && now <= old(resets)[raw].expiresAt
      ensures status != Okay ==> tokens == old(tokens) && resets == old(resets)
      ensures status == Okay ==>
        && raw in resets && resets[raw].used && |tokens| == |old(tokens)|
        && forall i :: 0 <= i < |tokens| ==>
             var t := old(tokens)[i];
             tokens[i] == if t.user == old(resets)[raw].user && t.revokedAt.None? then t.(revokedAt := Some(now)) else t
    {
      if raw !in resets || resets[raw].used || resets[raw].expiresAt < now {
        return BadRequest;
      }
      var user := resets[raw].user;
      resets := resets[raw := resets[raw].(used := true)];
      tokens := Revoke(tokens, OfUser(user), now);
      return Okay;
    }
  }

  // --- what every run keeps ---

  /** At most one live token per family, one user per family, and no family from the future. */
  ghost predicate Inv(a: Auth) {
    && (forall i :: 0 <= i < |a.tokens| ==> a.tokens[i].family < a.families)
    && (forall i, k :: 0 <= i < k < |a.tokens| && a.tokens[i].family == a.tokens[k].family ==>
          a.tokens[i].user == a.tokens[k].user && !(Live(a.tokens[i]) && Live(a.tokens[k])))
  }

  lemma NextKeepsInv(a: Auth, e: AuthEvent)
    requires Inv(a)
    ensures Inv(Next(a, e))
  {
  }

  lemma {:induction false} RunKeepsInv(a: Auth, es: seq<AuthEvent>)
    requires Inv(a)
    ensures Inv(Run(a, es))
    decreases |es|
  {
    hide Inv, Next;
    if es != [] {
      NextKeepsInv(a, es[0]);
      RunKeepsInv(Next(a, es[0]), es[1..]);
    }
  }

  /** The family exists and none of its tokens is live. */
  ghost predicate Dead(a: Auth, family: nat) {
    family < a.families && forall i :: 0 <= i < |a.tokens| && a.tokens[i].family == family ==> !Live(a.tokens[i])
  }

  lemma NextKeepsDead(a: Auth, e: AuthEvent, family: nat)
    requires Inv(a) && Dead(a, family)
    ensures Dead(Next(a, e), family)
  {
  }

  /** No token of a dead family is ever live again. */
  lemma {:induction false} DeadForever(a: Auth, es: seq<AuthEvent>, family: nat)
    requires Inv(a) && Dead(a, family)
    ensures Dead(Run(a, es), family)
    decreases |es|
  {
    hide Inv, Next, Dead;
    if es != [] {
      NextKeepsInv(a, es[0]);
      NextKeepsDead(a, es[0], family);
      DeadForever(Next(a, es[0]), es[1..], family);
    }
  }

  /** Presenting a revoked token kills its whole family, whatever happens afterwards. */
  lemma ReuseKillsTheFamily(a: Auth, raw: nat, now: Time, ttl: nat, es: seq<AuthEvent>)
    requires Inv(a) && Refreshed(a, raw, now, ttl).1 == ReuseDetected
    ensures Dead(Run(Next(a, Refresh(raw, now, ttl)), es), a.tokens[raw].family)
  {
    NextKeepsInv(a, Refresh(raw, now, ttl));
    DeadForever(Next(a, Refresh(raw, now, ttl)), es, a.tokens[raw].family);
  }

  /** A password reset kills every family its user had at that moment. */
  lemma ResetKillsTheSessions(a: Auth, raw: nat, now: Time, es: seq<AuthEvent>, i: nat)
    requires Inv(a) && Resettable(a, raw, now) && i < |a.tokens| && a.tokens[i].user == a.resets[raw].user
    ensures Dead(Run(Next(a, ResetPassword(raw, now)), es), a.tokens[i].family)
  {
    var b := Next(a, ResetPassword(raw, now));
    NextKeepsInv(a, ResetPassword(raw, now));
    forall k | 0 <= k < |b.tokens| && b.tokens[k].family == a.tokens[i].family
      ensures !Live(b.tokens[k])
    {
      assert a.tokens[k].family == a.tokens[i].family;
    }
    DeadForever(b, es, a.tokens[i].family);
  }

  /** Logging out with the live token of a session ends that session for good. */
  lemma LogoutKillsTheFamily(a: Auth, raw: nat, now: Time, es: seq<AuthEvent>)
    requires Inv(a) && raw < |a.tokens| && Live(a.tokens[raw])
    ensures Dead(Run(Next(a, Logout(raw, now)), es), a.tokens[raw].family)
  {
    NextKeepsInv(a, Logout(raw, now));
    DeadForever(Next(a, Logout(raw, now)), es, a.tokens[raw].family);
  }

  lemma {:induction false} RevokedForever(a: Auth, es: seq<AuthEvent>, raw: nat)
    requires raw < |a.tokens| && !Live(a.tokens[raw])
    ensures raw < |Run(a, es).tokens| && !Live(Run(a, es).tokens[raw])
    ensures Run(a, es).tokens[raw].family == a.tokens[raw].family
    decreases |es|
  {
    if es != [] {
      RevokedForever(Next(a, es[0]), es[1..], raw);
    }
  }

  /** A token works at most once: after it was rotated, presenting it is always detected as reuse. */
  lemma RotatedTokensAreDetected(a: Auth, raw: nat, now: Time, ttl: nat, es: seq<AuthEvent>, later: Time, ttl': nat)
    requires Inv(a) && Refreshed(a, raw, now, ttl).1.Rotated?
    ensures var b := Next(a, Refresh(raw, now, ttl));
            && Live(b.tokens[|a.tokens|]) && b.tokens[|a.tokens|].family == a.tokens[raw].family
            && b.tokens[|a.tokens|].user == a.tokens[raw].user
            && Refreshed(Run(b, es), raw, later, ttl').1 == ReuseDetected
  {
    RevokedForever(Next(a, Refresh(raw, now, ttl)), es, raw);
  }

  // --- who gets a token ---

  /** A registration, a sign-in of a known user, or a refresh with an unrevoked, unexpired token of an active user. */
  predicate Entitled(a: Auth, e: AuthEvent) {
    match e
    case Register(_, _) => true
    case Login(user, _, _) => user < |a.active|
    case Refresh(raw, now, _) =>
      && raw < |a.tokens| && a.tokens[raw].revokedAt == None && now <= a.tokens[raw].expiresAt
      && a.tokens[raw].user < |a.active| && a.active[a.tokens[raw].user]
    case _ => false
  }

  /** The token is made out to whom the event entitles, for the time it says. */
  predicate MadeOut(a: Auth, e: AuthEvent, t: Token) {
    match e
    case Register(now, ttl) => t.user == |a.active| && t.expiresAt == now + ttl && t.family == a.families
    case Login(user, now, ttl) => t.user == user && t.expiresAt == now + ttl && t.family == a.families
    case Refresh(raw, now, ttl) =>
      raw < |a.tokens| && t.user == a.tokens[raw].user && t.expiresAt == now + ttl && t.family == a.tokens[raw].family
    case _ => false
  }

  predicate SameTerms(t: Token, u: Token) { t.user == u.user && t.family == u.family && t.expiresAt == u.expiresAt }

  /** An event adds a token exactly if it is entitled to one, and changes the terms of none. */
  lemma NextTokens(a: Auth, e: AuthEvent)
    ensures
      var b := Next(a, e);
      && |b.tokens| == |a.tokens| + (if Entitled(a, e) then 1 else 0)
      && (Entitled(a, e) ==> MadeOut(a, e, b.tokens[|a.tokens|]) && Live(b.tokens[|a.tokens|]))
      && forall i :: 0 <= i < |a.tokens| ==> SameTerms(b.tokens[i], a.tokens[i])
  {
  }

  lemma {:induction false} TermsStay(a: Auth, es: seq<AuthEvent>)
    ensures |Run(a, es).tokens| >= |a.tokens|
    ensures forall i :: 0 <= i < |a.tokens| ==> SameTerms(Run(a, es).tokens[i], a.tokens[i])
    decreases |es|
  {
    if es != [] {
      hide Next, Entitled, MadeOut;
      NextTokens(a, es[0]);
      TermsStay(Next(a, es[0]), es[1..]);
    }
  }

  /**
   Every token of a run came from one entitled event and still has the terms it was made out on: no refresh
   with an expired or revoked token or for a suspended user ever adds one.
   */
  lemma {:induction false} TokensAreEarned(a: Auth, es: seq<AuthEvent>, i: nat) returns (k: nat)
    requires |a.tokens| <= i < |Run(a, es).tokens|
    ensures k < |es|
    ensures
      var before := Run(a, es[..k]);
      i == |before.tokens| && Entitled(before, es[k]) && MadeOut(before, es[k], Run(a, es).tokens[i])
    decreases |es|
  {
    var b := Next(a, es[0]);
    NextTokens(a, es[0]);
    hide Next, Entitled, MadeOut;
    if i < |b.tokens| {
      k := 0;
      assert es[..0] == [];
      TermsStay(b, es[1..]);
      SameTermsMadeOut(a, es[0], b.tokens[i], Run(a, es).tokens[i]);
    } else {
      k := TokensAreEarned(b, es[1..], i);
      k := k + 1;
      assert es[..k][1..] == es[1..][..k - 1] && es[..k][0] == es[0];
    }
  }

  lemma SameTermsMadeOut(a: Auth, e: AuthEvent, t: Token, u: Token)
    requires MadeOut(a, e, t) && SameTerms(u, t)
    ensures MadeOut(a, e, u)
  {
  }

  /** From the empty database, every run keeps one live token and one user per family. */
  lemma FamiliesStaySingle(es: seq<AuthEvent>)
    ensures Inv(Run(NOBODY, es))
  {
    RunKeepsInv(NOBODY, es);
  }
}
