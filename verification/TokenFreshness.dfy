/** Whether a token was issued before the last password change: the arithmetic of its three timestamps. */
module TokenFreshness {
  import opened Outcomes

  /** Microseconds since 1970, UTC. A naive date-time is read as UTC. */
  datatype Moment = Aware(us: int) | Naive(us: int)

  /** A claim as JSON decoding leaves it; `Stamp` for callers that pass a date-time. */
  datatype Claim =
    | Missing
    | Truth(b: bool)
    | Whole(n: int)
    | Decimal(x: real)
    | NotANumber
    | Infinite
    | Text(s: string)
    | Stamp(m: Moment)
    | Other

  datatype Claims = Claims(issuedUs: Claim, issuedMs: Claim, issued: Claim)

  /** A point in time in microseconds, or nothing, or an exception that the reader does not catch. */
  datatype Reading = Instant(us: real) | Unreadable | Raises

  // ---- date-times -----------------------------------------------------------------------------

  /** The first second of year 1 and the last of year 9999. */
  const FIRST_SECOND: int := -62_135_596_800
  const LAST_SECOND: int := 253_402_300_799

  const MICROS: int := 1_000_000

  /** Beyond the platform's 64-bit seconds the conversion overflows instead of naming a year. */
  const TIME_LIMIT: int := 0x8000_0000_0000_0000

  predicate Representable(us: int) {
    FIRST_SECOND * MICROS <= us < (LAST_SECOND + 1) * MICROS
  }

  /** `datetime.fromtimestamp` on a number of seconds. */
  function FromTimestamp(seconds: real): Reading {
    if seconds >= TIME_LIMIT as real || seconds <= -TIME_LIMIT as real then Raises
    else if FIRST_SECOND as real <= seconds < (LAST_SECOND + 1) as real then Instant(seconds * MICROS as real)
    else Unreadable
  }

  /** `float(value)`, then a division, then the conversion. */
  function FromFloat(c: Claim, number: string -> Claim, divisor: int): Reading
    requires divisor > 0
  {
    match c
    case Truth(b) => FromTimestamp((if b then 1.0 else 0.0) / divisor as real)
    case Whole(n) => FromTimestamp(n as real / divisor as real)
    case Decimal(x) => FromTimestamp(x / divisor as real)
    case Infinite => Raises
    case Text(s) =>
      (match number(s)
       case Decimal(x) => FromTimestamp(x / divisor as real)
       case Infinite => Raises
       case _ => Unreadable)
    case _ => Unreadable
  }

  /** The branch for whole microseconds: split into seconds and a remainder, convert, put together again. */
  function FromMicros(us: int): Reading {
    var seconds, microseconds := us / MICROS, us % MICROS;
    match FromTimestamp(seconds as real)
    case Instant(t) => Instant(t + microseconds as real)
    case _ => Unreadable
  }

  /** `_normalize_token_timestamp` on a token's claims. */
  function Normalized(c: Claims, number: string -> Claim): Reading {
    if c.issuedUs != Missing then
      if c.issuedUs.Whole? then FromMicros(c.issuedUs.n) else Unreadable
    else if c.issuedMs != Missing then FromFloat(c.issuedMs, number, 1000)
    else match c.issued
      case Missing => Unreadable
      case Stamp(m) => Instant(m.us as real)
      case other => FromFloat(other, number, 1)
  }

  /** `_token_is_stale`; `None` when it raises. */
  function Stale(c: Claims, number: string -> Claim, changed: Option<Moment>): Option<bool> {
    match changed
    case None => Some(false)
    case Some(m) =>
      match Normalized(c, number)
      case Unreadable => Some(true)
      case Raises => None
      case Instant(t) => Some(t < m.us as real)
  }

  // ---- microseconds are exact -----------------------------------------------------------------

  /** Splitting and putting together loses nothing, for every representable integer, negative ones included; anything
      else is unreadable. */
  lemma MicrosExact(us: int)
    ensures FromMicros(us) == if Representable(us) then Instant(us as real) else Unreadable
  {
    var s, r := us / MICROS, us % MICROS;
    assert us == s * MICROS + r && 0 <= r < MICROS;
    assert (s as real) * (MICROS as real) == (s * MICROS) as real;
  }

  /** A token with whole microseconds is stale exactly when it was issued before the change, or beyond year 9999. */
  lemma StaleIffBefore(us: int, number: string -> Claim, change: Moment, others: Claims)
    requires Representable(change.us)
    ensures Stale(Claims(Whole(us), others.issuedMs, others.issued), number, Some(change)) ==
      Some(us < change.us || us >= (LAST_SECOND + 1) * MICROS)
  {
    MicrosExact(us);
  }

  // ---- which claims are stale -----------------------------------------------------------------

  /** What `float` makes of a claim, if it is a finite number. */
  function NumberOf(c: Claim, number: string -> Claim): Option<real> {
    match c
    case Truth(b) => Some(if b then 1.0 else 0.0)
    case Whole(n) => Some(n as real)
    case Decimal(x) => Some(x)
    case Text(s) => if number(s).Decimal? then Some(number(s).x) else None
    case _ => None
  }

  /** A claim whose conversion overflows: infinite, or beyond 64-bit seconds. Both may be written as a text. */
  predicate Overflows(c: Claim, number: string -> Claim, perSecond: int) {
    || c.Infinite?
    || (c.Text? && number(c.s).Infinite?)
    || (NumberOf(c, number).Some? &&
        var x := NumberOf(c, number).value;
        x >= (TIME_LIMIT * perSecond) as real || x <= -(TIME_LIMIT * perSecond) as real)
  }

  /** The claims raise: no microseconds, and the claim read instead overflows. That exception is not among those
      caught. */
  predicate Overflowing(c: Claims, number: string -> Claim) {
    && c.issuedUs == Missing
    && if c.issuedMs != Missing then Overflows(c.issuedMs, number, 1000) else Overflows(c.issued, number, 1)
  }

  predicate InRange(t: real) {
    (FIRST_SECOND * MICROS) as real <= t < ((LAST_SECOND + 1) * MICROS) as real
  }

  /** The claims name the instant t: the finest claim that is there is a number, or a date-time, and t can be
      represented. */
  predicate Names(c: Claims, number: string -> Claim, t: real) {
    if c.issuedUs != Missing then c.issuedUs.Whole? && Representable(c.issuedUs.n) && t == c.issuedUs.n as real
    else if c.issuedMs != Missing then InRange(t) && NumberOf(c.issuedMs, number) == Some(t / 1000.0)
    else if c.issued.Stamp? then t == c.issued.m.us as real
    else InRange(t) && NumberOf(c.issued, number) == Some(t / 1_000_000.0)
  }

  /** Claims that name no instant at all. */
  ghost predicate Malformed(c: Claims, number: string -> Claim) {
    forall t: real :: !Names(c, number, t)
  }

  /** The conversion of seconds overflows and succeeds on the same numbers as the claim it came from, which counts
      seconds or thousandths. */
  lemma SecondsReads(x: real, t: real)
    ensures FromTimestamp(x).Raises? <==> x >= TIME_LIMIT as real || x <= -TIME_LIMIT as real
    ensures FromTimestamp(x) == Instant(t) <==> InRange(t) && x == t / 1_000_000.0
  {
  }

  lemma MillisReads(x: real, t: real)
    ensures FromTimestamp(x / 1000.0).Raises? <==> x >= (TIME_LIMIT * 1000) as real || x <= -(TIME_LIMIT * 1000) as real
    ensures FromTimestamp(x / 1000.0) == Instant(t) <==> InRange(t) && x == t / 1000.0
  {
    SecondsReads(x / 1000.0, t);
  }

  lemma FromSecondsClaim(c: Claim, number: string -> Claim, t: real)
    ensures FromFloat(c, number, 1).Raises? <==> Overflows(c, number, 1)
    ensures FromFloat(c, number, 1) == Instant(t) <==> InRange(t) && NumberOf(c, number) == Some(t / 1_000_000.0)
  {
    hide FromTimestamp, InRange;
    if NumberOf(c, number).Some? {
      var x := NumberOf(c, number).value;
      SecondsReads(x, t);
      assert x / 1.0 == x;
      assert FromFloat(c, number, 1) == FromTimestamp(x);
    }
  }

  lemma FromMillisClaim(c: Claim, number: string -> Claim, t: real)
    ensures FromFloat(c, number, 1000).Raises? <==> Overflows(c, number, 1000)
    ensures FromFloat(c, number, 1000) == Instant(t) <==> InRange(t) && NumberOf(c, number) == Some(t / 1000.0)
  {
    hide FromTimestamp, InRange;
    if NumberOf(c, number).Some? {
      MillisReads(NumberOf(c, number).value, t);
    }
  }

  /** Reading claims gives the instant they name, and raises exactly when they overflow. */
  lemma NormalizedReads(c: Claims, number: string -> Claim, t: real)
    ensures Normalized(c, number).Raises? <==> Overflowing(c, number)
    ensures Normalized(c, number) == Instant(t) <==> Names(c, number, t)
  {
    hide FromFloat, FromMicros, FromTimestamp, InRange, Representable;
    if c.issuedUs != Missing {
      if c.issuedUs.Whole? {
        MicrosExact(c.issuedUs.n);
      }
    } else if c.issuedMs != Missing {
      FromMillisClaim(c.issuedMs, number, t);
    } else {
      FromSecondsClaim(c.issued, number, t);
    }
  }

  /** Once a change time exists the check raises exactly when the claims overflow, lets a token through exactly when its
      claims name an instant not before the change, and calls everything else stale. */
  lemma StaleExactly(c: Claims, number: string -> Claim, change: Moment)
    ensures Stale(c, number, Some(change)) == None <==> Overflowing(c, number)
    ensures Stale(c, number, Some(change)) == Some(false) <==>
      exists t: real :: Names(c, number, t) && t >= change.us as real
  {
    hide Normalized, Names, Overflowing;
    forall t: real ensures Normalized(c, number) == Instant(t) <==> Names(c, number, t) {
      NormalizedReads(c, number, t);
    }
    NormalizedReads(c, number, 0.0);
    if Normalized(c, number).Instant? {
      assert Names(c, number, Normalized(c, number).us);
    }
  }

  /** Malformed claims are stale once a change time exists, except for those that overflow: on them the check raises. */
  lemma MalformedIsStaleIff(c: Claims, number: string -> Claim, change: Moment)
    requires Malformed(c, number)
    ensures Stale(c, number, Some(change)) == Some(true) <==> !Overflowing(c, number)
    ensures Overflowing(c, number) ==> Stale(c, number, Some(change)) == None
  {
    StaleExactly(c, number, change);
  }

  /** Two claims on which the check raises: an infinite number of milliseconds, and ten to the twenty-second. */
  lemma OverflowRaises(number: string -> Claim, change: Moment)
    ensures Malformed(Claims(Missing, Infinite, Missing), number)
    ensures Stale(Claims(Missing, Infinite, Missing), number, Some(change)) == None
    ensures Malformed(Claims(Missing, Whole(10_000_000_000_000_000_000_000), Missing), number)
    ensures Stale(Claims(Missing, Whole(10_000_000_000_000_000_000_000), Missing), number, Some(change)) == None
  {
  }

  /** The microsecond claim is read only as a whole number; a boolean, a decimal or a text makes the token stale,
      whatever the coarser claims say. */
  lemma MalformedMicrosAreStale(c: Claims, number: string -> Claim, change: Moment)
    requires c.issuedUs != Missing && !c.issuedUs.Whole?
    ensures Stale(c, number, Some(change)) == Some(true)
  {
  }

  // ---- coarser claims -------------------------------------------------------------------------

  /** Python's `int()` of a quotient: towards zero. */
  function Truncated(n: int, d: int): int
    requires d > 0
  {
    if n >= 0 then n / d else -((-n) / d)
  }

  /** The claims `create_access_token` writes for an instant: seconds rounded down by the encoder, milliseconds and the
      seconds part of the microseconds truncated towards zero. */
  function SecondsClaim(us: int): int {
    us / MICROS
  }

  function MillisClaim(us: int): int {
    Truncated(us, 1000)
  }

  function MicrosClaim(us: int): int {
    Truncated(us, MICROS) * MICROS + us % MICROS
  }

  lemma TruncatedBound(n: int, d: int)
    requires d > 0
    ensures Truncated(n, d) * d <= n <==> n >= 0 || n % d == 0
    ensures n >= 0 ==> Truncated(n, d) == n / d
    ensures n < 0 && n % d != 0 ==> Truncated(n, d) == n / d + 1
    ensures n < 0 && n % d == 0 ==> Truncated(n, d) == n / d
  {
    if n < 0 {
      var q, r := n / d, n % d;
      assert n == q * d + r && 0 <= r < d;
      var p, s := (-n) / d, (-n) % d;
      assert -n == p * d + s && 0 <= s < d;
      assert (p + q) * d == -(r + s);
      if r == 0 {
        SmallMultiple(p + q, d, s);
      } else {
        SmallMultiple(p + q, d, r + s);
      }
    }
  }

  /** A multiple of d in (-2d, 0] is 0 or -d. */
  lemma SmallMultiple(k: int, d: int, t: int)
    requires d > 0 && 0 <= t < 2 * d && k * d == -t
    ensures (k == 0 && t == 0) || (k == -1 && t == d)
  {
    Scaled(k, d);
  }

  lemma Scaled(k: int, d: int)
    requires d > 0
    ensures k >= 1 ==> k * d >= d
    ensures k <= -2 ==> k * d <= -2 * d
  {
  }

  /** The reading of a token that carries only milliseconds, or only seconds. */
  function MillisOnly(us: int): Claims {
    Claims(Missing, Whole(MillisClaim(us)), Missing)
  }

  function SecondsOnly(us: int): Claims {
    Claims(Missing, Missing, Whole(SecondsClaim(us)))
  }

  lemma FloorRepresentable(us: int)
    requires Representable(us)
    ensures FIRST_SECOND <= us / MICROS <= LAST_SECOND
    ensures (us / MICROS) * MICROS <= us
  {
  }

  /** Seconds are rounded down, so a token that is stale to the microsecond stays stale to the second. */
  lemma SecondsNeverFreshen(us: int, number: string -> Claim, change: Moment)
    requires Representable(us) && us < change.us
    ensures Stale(SecondsOnly(us), number, Some(change)) == Some(true)
  {
    FloorRepresentable(us);
    var s := us / MICROS;
    assert (s as real) * (MICROS as real) == (s * MICROS) as real;
    assert Normalized(SecondsOnly(us), number) == FromTimestamp(s as real / 1.0);
  }

  lemma MillisReading(us: int, number: string -> Claim)
    requires Representable(us)
    ensures Normalized(MillisOnly(us), number) == Instant((MillisClaim(us) * 1000) as real)
  {
    var m := MillisClaim(us);
    TruncatedBound(us, 1000);
    MillisInRange(us);
    assert Normalized(MillisOnly(us), number) == FromTimestamp(m as real / 1000.0);
    assert (m as real / 1000.0) * (MICROS as real) == (m * 1000) as real;
  }

  lemma MillisInRange(us: int)
    requires Representable(us)
    ensures FIRST_SECOND * 1000 <= MillisClaim(us) < (LAST_SECOND + 1) * 1000
  {
    TruncatedBound(us, 1000);
  }

  /** Milliseconds are truncated towards zero: that keeps every stale token stale exactly for instants from 1970 on or
      on a whole millisecond. */
  lemma MillisNeverFreshenIff(us: int, number: string -> Claim)
    requires Representable(us)
    ensures (forall change: Moment | us < change.us :: Stale(MillisOnly(us), number, Some(change)) == Some(true))
      <==> us >= 0 || us % 1000 == 0
  {
    MillisReading(us, number);
    TruncatedBound(us, 1000);
    var read := MillisClaim(us) * 1000;
    if us < 0 && us % 1000 != 0 {
      var change := Aware(us + 1);
      assert us < change.us && Stale(MillisOnly(us), number, Some(change)) == Some((read as real) < (us + 1) as real);
    } else {
      forall change: Moment | us < change.us ensures Stale(MillisOnly(us), number, Some(change)) == Some(true) {
        assert read <= us;
      }
    }
  }

  /** The microsecond claim names the instant it was made from exactly when that is not a fraction of a second before
      1970; there it is one second late. */
  lemma MicrosClaimExactIff(us: int)
    ensures MicrosClaim(us) == us <==> us >= 0 || us % MICROS == 0
    ensures us < 0 && us % MICROS != 0 ==> MicrosClaim(us) == us + MICROS
  {
    TruncatedBound(us, MICROS);
  }

  /** What the service writes for an instant. */
  function Written(us: int): Claims {
    Claims(Whole(MicrosClaim(us)), Whole(MillisClaim(us)), Whole(SecondsClaim(us)))
  }

  /** Round trip: reading back the claims written for an instant gives the instant, with the same exception. */
  lemma WrittenReadsBackIff(us: int, number: string -> Claim)
    requires Representable(us)
    ensures Normalized(Written(us), number) == Instant(us as real) <==> us >= 0 || us % MICROS == 0
  {
    MicrosClaimExactIff(us);
    MicrosExact(MicrosClaim(us));
  }

  // ---- the decision ---------------------------------------------------------------------------

  datatype Revocation = NoBlacklist | Down | Listed(jti: bool)

  /** What `authenticate` learns from its collaborators. */
  datatype Facts = Facts(
    decodes: bool,
    isAccess: bool,
    hasJti: bool,
    revocation: Revocation,
    failClosed: bool,
    hasSubject: bool,
    hasServiceAndSession: bool,
    user: Option<Person>,
    claims: Claims)

  datatype Person = Person(proofIsCurrent: bool, canAuthenticate: bool, lastPasswordChange: Option<Moment>)

  /** A token is accepted exactly when it decodes as an access token, is not revoked (nor, if so configured, its
      revocation unknown), names a user who exists, may sign in and whose proof is current, and is known not to be
      stale. */
  predicate Accepts(f: Facts, number: string -> Claim) {
    && f.decodes && f.isAccess && f.hasSubject && f.hasServiceAndSession
    && (f.hasJti ==> f.revocation != Listed(true) && !(f.revocation == Down && f.failClosed))
    && f.user.Some? && f.user.value.proofIsCurrent && f.user.value.canAuthenticate
    && Stale(f.claims, number, f.user.value.lastPasswordChange) == Some(false)
  }

  method Authenticate(f: Facts, number: string -> Claim) returns (accepted: bool)
    ensures accepted == Accepts(f, number)
  {
    if !f.decodes || !f.isAccess {
      return false;
    }
    if f.hasJti && f.revocation != NoBlacklist {
      if f.revocation == Down {
        if f.failClosed {
          return false;
        }
      } else if f.revocation.jti {
        return false;
      }
    }
    if !f.hasSubject {
      return false;
    }
    if f.hasServiceAndSession {
      if f.user.Some? && !f.user.value.proofIsCurrent {
        return false;
      }
      if f.user.Some? {
        var stale := Stale(f.claims, number, f.user.value.lastPasswordChange);
        if stale.None? || stale.value {
          return false;
        }
        if f.user.value.canAuthenticate {
          return true;
        }
      }
    }
    return false;
  }

  /** Once a password has been changed, malformed claims are never accepted, whether the check calls them stale or
      raises. */
  lemma MalformedNeverAccepted(f: Facts, number: string -> Claim)
    requires f.user.Some? && f.user.value.lastPasswordChange.Some?
    requires Malformed(f.claims, number)
    ensures !Accepts(f, number)
  {
    StaleExactly(f.claims, number, f.user.value.lastPasswordChange.value);
  }

  /** After a password change no token written before it is accepted, for instants from 1970 on. */
  lemma ChangeRevokesOldTokens(f: Facts, number: string -> Claim, us: int)
    requires 0 <= us && Representable(us) && f.claims == Written(us)
    requires f.user.Some? && f.user.value.lastPasswordChange.Some? && us < f.user.value.lastPasswordChange.value.us
    ensures !Accepts(f, number)
  {
    WrittenReadsBackIff(us, number);
  }
}
