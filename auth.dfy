/** Credentials and sessions: the password hash and the signed bearer token
    are foreign libraries (bcrypt, jsonwebtoken), so they enter the model as
    function values; the access guard in front of every protected route is
    modelled exactly. */
module Auth {
  import opened Seqs
  import opened Text
  import opened Records

  /** `expiresIn: '30d'`, in seconds: the gap between a token's `iat` and `exp` claims. */
  const TokenLifetime: int := 30 * 24 * 60 * 60

  /** A clock reading in milliseconds as the JWT claims see it,
      `Math.floor(ms / 1000)` (Dafny's `/` floors for a positive divisor). */
  function Seconds(ms: Date): int
  {
    ms / 1000
  }

  /** The `exp` claim of a token signed at `t`: its `iat` plus the lifetime. */
  function Expiry(t: Date): int
  {
    Seconds(t) + TokenLifetime
  }

  /** The foreign capabilities. `verify` answers `None` where `jwt.verify`
      throws (bad signature, malformed or expired token); `sign` and `verify`
      take the clock reading explicitly. */
  datatype Crypto = Crypto(
    hash: string -> string,
    compare: (string, string) -> bool,
    sign: (Id, Date) -> string,
    verify: (string, Date) -> Option<Id>)

  /** What bcrypt promises: a password matches its own hash. */
  ghost predicate HashSound(c: Crypto)
  {
    forall p :: c.compare(p, c.hash(p))
  }

  /** A signed JWT is never the empty string. */
  ghost predicate TokensNonEmpty(c: Crypto)
  {
    forall id: Id, t: Date :: c.sign(id, t) != ""
  }

  /** What jsonwebtoken promises of a token it signed at `t`: it is
      non-empty, and it decodes to its user id while the clock, in whole
      seconds, is before its `exp` claim. */
  ghost predicate TokensValid(c: Crypto)
  {
    && TokensNonEmpty(c)
    && (forall id: Id, t: Date, now: Date {:trigger c.verify(c.sign(id, t), now)} ::
          t <= now && Seconds(now) < Expiry(t) ==> c.verify(c.sign(id, t), now) == Some(id))
  }

  /** What jsonwebtoken's expiry check promises: once the clock, in whole
      seconds, reaches the `exp` claim, `verify` throws. */
  ghost predicate TokensExpire(c: Crypto)
  {
    forall id: Id, t: Date, now: Date {:trigger c.verify(c.sign(id, t), now)} ::
      Expiry(t) <= Seconds(now) ==> c.verify(c.sign(id, t), now) == None
  }

  /** jsonwebtoken's own rule for a token it signed: `verify` decodes it
      exactly while the clock's second is before the `exp` claim. */
  ghost predicate JwtRule(c: Crypto)
  {
    forall id: Id, t: Date, now: Date {:trigger c.verify(c.sign(id, t), now)} ::
      c.verify(c.sign(id, t), now) == if Seconds(now) < Expiry(t) then Some(id) else None
  }

  /** The two hypotheses ask no more of `verify` than the library's rule gives. */
  lemma JwtRuleMeetsHypotheses(c: Crypto)
    requires TokensNonEmpty(c) && JwtRule(c)
    ensures TokensValid(c) && TokensExpire(c)
  {
    forall id: Id, t: Date, now: Date | t <= now && Seconds(now) < Expiry(t)
      ensures c.verify(c.sign(id, t), now) == Some(id)
    {
    }
  }

  const BearerPrefix: string := "Bearer "

  /** `req.header('Authorization')?.replace('Bearer ', '')`. */
  function TokenOf(header: Option<string>): (r: Option<string>)
    ensures r.None? <==> header.None?
    ensures header.Some? ==> |r.value| <= |header.value|
    ensures header.Some? && !Includes(header.value, BearerPrefix) ==> r == header
  {
    match header
    case None => None
    case Some(h) => Some(RemoveFirst(h, BearerPrefix))
  }

  /** The outcome of the access guard: a bound caller, or one of its two refusals. */
  datatype Access = Granted(userId: Id) | Missing | Invalid

  /** The access guard: an absent header, or one that is empty once the first
      `"Bearer "` is removed, is `Missing`; otherwise the token is verified. */
  function Guard(header: Option<string>, verify: (string, Date) -> Option<Id>, now: Date): (r: Access)
    ensures r.Missing? <==> header.None? || RemoveFirst(header.value, BearerPrefix) == ""
    ensures r.Invalid? <==> header.Some? && var t := RemoveFirst(header.value, BearerPrefix);
      t != "" && verify(t, now).None?
    ensures r.Granted? ==> header.Some? && r.userId == verify(RemoveFirst(header.value, BearerPrefix), now).value
  {
    match TokenOf(header)
    case None => Missing
    case Some(t) =>
      if t == "" then Missing
      else match verify(t, now)
        case None => Invalid
        case Some(id) => Granted(id)
  }

  /** The client's header `Bearer ${token}` yields exactly `token`. */
  lemma BearerHeaderToken(token: string)
    ensures TokenOf(Some(BearerPrefix + token)) == Some(token)
  {
    RemoveFirstOfPrefixed(BearerPrefix, token);
  }

  /** A header carrying a token issued at `t` binds its user id until the
      second of its `exp` claim. */
  lemma IssuedTokenGrants(c: Crypto, id: Id, t: Date, now: Date)
    requires TokensValid(c)
    requires t <= now && Seconds(now) < Expiry(t)
    ensures Guard(Some(BearerPrefix + c.sign(id, t)), c.verify, now) == Granted(id)
  {
    BearerHeaderToken(c.sign(id, t));
    assert c.sign(id, t) != "";
    assert c.verify(c.sign(id, t), now) == Some(id);
  }

  /** The same header is refused as invalid from the second of its `exp` claim on. */
  lemma ExpiredTokenRefused(c: Crypto, id: Id, t: Date, now: Date)
    requires TokensNonEmpty(c) && TokensExpire(c)
    requires Expiry(t) <= Seconds(now)
    ensures Guard(Some(BearerPrefix + c.sign(id, t)), c.verify, now) == Invalid
  {
    BearerHeaderToken(c.sign(id, t));
    assert c.sign(id, t) != "";
    assert c.verify(c.sign(id, t), now) == None;
  }

  /** Shifting a reading by whole seconds shifts its second by as many. */
  lemma SecondsShift(ms: Date, k: int)
    ensures Seconds(ms + k * 1000) == Seconds(ms) + k
  {
  }

  /** A later reading is never an earlier second. */
  lemma SecondsMonotone(a: Date, b: Date)
    requires a <= b
    ensures Seconds(a) <= Seconds(b)
  {
  }

  /** In milliseconds: a token is accepted for the 30 days after signing less
      one second, whatever the sub-second part of the signing time. */
  lemma GrantedForThirtyDaysLessASecond(c: Crypto, id: Id, t: Date, now: Date)
    requires TokensValid(c)
    requires t <= now <= t + (TokenLifetime - 1) * 1000
    ensures Guard(Some(BearerPrefix + c.sign(id, t)), c.verify, now) == Granted(id)
  {
    SecondsShift(t, TokenLifetime - 1);
    SecondsMonotone(now, t + (TokenLifetime - 1) * 1000);
    IssuedTokenGrants(c, id, t, now);
  }

  /** In milliseconds: from 30 days after signing on, the token is refused. */
  lemma RefusedAfterThirtyDays(c: Crypto, id: Id, t: Date, now: Date)
    requires TokensNonEmpty(c) && TokensExpire(c)
    requires t + TokenLifetime * 1000 <= now
    ensures Guard(Some(BearerPrefix + c.sign(id, t)), c.verify, now) == Invalid
  {
    SecondsShift(t, TokenLifetime);
    SecondsMonotone(t + TokenLifetime * 1000, now);
    ExpiredTokenRefused(c, id, t, now);
  }

  /** The whole-second claims cut the window short: a token signed 500 ms into
      a second is refused 29 days, 23 hours, 59 minutes and 59.5 seconds later. */
  lemma RefusedBeforeThirtyDaysToTheMillisecond(c: Crypto, id: Id)
    requires TokensNonEmpty(c) && TokensExpire(c)
    ensures 2592000000 < 500 + TokenLifetime * 1000
    ensures Guard(Some(BearerPrefix + c.sign(id, 500)), c.verify, 2592000000) == Invalid
  {
    ExpiredTokenRefused(c, id, 500, 2592000000);
  }
}
