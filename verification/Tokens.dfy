/**
 Signed capability tokens (backend/internal/subscription/token.go): page access, Slack state, access
 link and unsubscribe tokens, and their parsers.

 The HMAC is a parameter: any function from secret and message to bytes.
 */
module Tokens {
  import opened Base
  import opened Decimal
  import opened Uuids
  import opened Base64Url
  import opened DottedText

  type Mac = (string, string) -> seq<Byte>

  function Sign(mac: Mac, secret: string, msg: string): string {
    Encode(mac(secret, msg))
  }

  /** A signature is the MAC itself, readable again, so messages with different MACs have different signatures. */
  lemma SignatureIsMac(mac: Mac, secret: string, msg: string, other: string)
    ensures Decode(Sign(mac, secret, msg)) == Some(mac(secret, msg))
    ensures Sign(mac, secret, msg) == Sign(mac, secret, other) <==> mac(secret, msg) == mac(secret, other)
  {
    EncodeThenDecode(mac(secret, msg));
    EncodeThenDecode(mac(secret, other));
  }

  datatype TokenError = Malformed | BadId | BadSignature | BadTime | Expired | BadEmail

  // ----- Cutting at dots -----

  /** strings.Cut at the first dot. */
  function Cut(s: string): Option<(string, string)> {
    if s == "" then None
    else if s[0] == '.' then Some(("", s[1..]))
    else
      match Cut(s[1..])
      case None => None
      case Some(parts) => Some((s[..1] + parts.0, parts.1))
  }

  /** The first dot of a text is the one behind a part without dots. */
  lemma {:induction false} CutAtSeparator(part: string, rest: string)
    requires DotFree(part)
    ensures Cut(part + "." + rest) == Some((part, rest))
  {
    var s := part + "." + rest;
    if part == "" {
      assert s[1..] == rest;
    } else {
      assert s[1..] == part[1..] + "." + rest && s[..1] == part[..1];
      CutAtSeparator(part[1..], rest);
      assert part[..1] + part[1..] == part;
    }
  }

  lemma {:induction false} CutIsSplit(s: string)
    ensures Cut(s).Some? ==> s == Cut(s).value.0 + "." + Cut(s).value.1 && DotFree(Cut(s).value.0)
  {
    if s != "" && s[0] != '.' {
      CutIsSplit(s[1..]);
    }
  }

  // ----- Time -----

  /** Seconds from year 1, the origin of time.Time, to the Unix epoch. */
  const UNIX_TO_INTERNAL: int := 62135596800

  const LAST_UNIX: int := MAX_INT64 - UNIX_TO_INTERNAL

  /** time.Now: Unix seconds and nanoseconds. */
  datatype Clock = Clock(sec: int, nsec: nat)

  /** Any time from year 1 on that fits. */
  predicate IsClock(now: Clock) {
    -UNIX_TO_INTERNAL <= now.sec <= LAST_UNIX && now.nsec < 1_000_000_000
  }

  function Wrap64(n: int): int {
    (n - MIN_INT64) % 0x1_0000_0000_0000_0000 + MIN_INT64
  }

  /** The seconds that time.Unix(sec, 0) stores; the sum wraps. */
  function Internal(sec: int): int {
    Wrap64(sec + UNIX_TO_INTERNAL)
  }

  /** now.After(time.Unix(sec, 0)) */
  predicate IsAfter(now: Clock, sec: int) {
    now.sec + UNIX_TO_INTERNAL > Internal(sec) || (now.sec + UNIX_TO_INTERNAL == Internal(sec) && now.nsec > 0)
  }

  /** now.Sub(time.Unix(sec, 0)), which saturates. */
  function Since(now: Clock, sec: int): int {
    var d := (now.sec + UNIX_TO_INTERNAL - Internal(sec)) * 1_000_000_000 + now.nsec;
    if d > MAX_INT64 then MAX_INT64 else if d < MIN_INT64 then MIN_INT64 else d
  }

  const SLACK_STATE_TTL: int := 3600 * 1_000_000_000

  /** The comparison meant, without wrap-around. */
  predicate HasPassed(now: Clock, sec: int) {
    now.sec > sec || (now.sec == sec && now.nsec > 0)
  }

  predicate IsStale(now: Clock, sec: int) {
    now.sec - sec > 3600 || (now.sec - sec == 3600 && now.nsec > 0)
  }

  /** Both comparisons are the meant ones exactly up to the last second that time.Unix represents. */
  lemma TimeIsExactIff(now: Clock, sec: int)
    requires IsClock(now) && IsInt64(sec)
    ensures (IsAfter(now, sec) <==> HasPassed(now, sec)) <==> sec <= LAST_UNIX
    ensures (Since(now, sec) > SLACK_STATE_TTL <==> IsStale(now, sec)) <==> sec <= LAST_UNIX
    ensures sec > LAST_UNIX ==> IsAfter(now, sec) && Since(now, sec) > SLACK_STATE_TTL
  {
    if sec > LAST_UNIX {
      assert Internal(sec) == sec + UNIX_TO_INTERNAL - 0x1_0000_0000_0000_0000;
    } else {
      assert Internal(sec) == sec + UNIX_TO_INTERNAL;
    }
  }

  // ----- Page access tokens and Slack states -----

  function SignedPair(mac: Mac, secret: string, pageId: Uuid, time: int): string {
    var msg := FormatUuid(pageId) + "." + FormatInt(time);
    msg + "." + Sign(mac, secret, msg)
  }

  function PageAccessToken(mac: Mac, secret: string, pageId: Uuid, expiresAt: int): string {
    SignedPair(mac, secret, pageId, expiresAt)
  }

  function SignSlackState(mac: Mac, secret: string, pageId: Uuid, issuedAt: int): string {
    SignedPair(mac, secret, pageId, issuedAt)
  }

  /** What both parsers do before they look at the time. */
  function ParseSignedPair(mac: Mac, secret: string, token: string): Result<(Uuid, int), TokenError> {
    match Cut(token)
    case None => Failure(Malformed)
    case Some((idStr, rest)) =>
      match Cut(rest)
      case None => Failure(Malformed)
      case Some((timeStr, sig)) =>
        match ParseUuid(idStr)
        case None => Failure(BadId)
        case Some(id) =>
          if sig != Sign(mac, secret, idStr + "." + timeStr) then Failure(BadSignature)
          else
            match ParseInt(timeStr)
            case None => Failure(BadTime)
            case Some(time) => Success((id, time))
  }

  function ParsePageAccessToken(mac: Mac, secret: string, token: string, now: Clock): Result<Uuid, TokenError> {
    match ParseSignedPair(mac, secret, token)
    case Failure(e) => Failure(e)
    case Success((id, exp)) => if IsAfter(now, exp) then Failure(Expired) else Success(id)
  }

  function ParseSlackState(mac: Mac, secret: string, state: string, now: Clock): Result<Uuid, TokenError> {
    match ParseSignedPair(mac, secret, state)
    case Failure(e) => Failure(e)
    case Success((id, issued)) => if Since(now, issued) > SLACK_STATE_TTL then Failure(Expired) else Success(id)
  }

  lemma TimeHasDotFree(time: int)
    ensures DotFree(FormatInt(time))
  {
    Decimal.FormatAlphabet(time);
  }

  lemma IdHasDotFree(id: Uuid)
    ensures DotFree(FormatUuid(id))
  {
    FormatIsPlain(id);
  }

  lemma SignedPairRoundTrip(mac: Mac, secret: string, pageId: Uuid, time: int)
    requires IsInt64(time)
    ensures ParseSignedPair(mac, secret, SignedPair(mac, secret, pageId, time)) == Success((pageId, time))
  {
    var idStr, timeStr := FormatUuid(pageId), FormatInt(time);
    var sig := Sign(mac, secret, idStr + "." + timeStr);
    IdHasDotFree(pageId);
    TimeHasDotFree(time);
    ThreeParts(idStr, timeStr, sig);
    Uuids.FormatThenParse(pageId);
    Decimal.FormatThenParse(time);
  }

  lemma ThreeParts(a: string, b: string, c: string)
    requires DotFree(a) && DotFree(b)
    ensures Cut(a + "." + b + "." + c) == Some((a, b + "." + c)) && Cut(b + "." + c) == Some((b, c))
  {
    assert (a + "." + b) + "." + c == a + "." + (b + "." + c);
    CutAtSeparator(a, b + "." + c);
    CutAtSeparator(b, c);
  }

  /**
   Main result: a printed page access token gives back its page exactly when it is not expired, for
   every page, secret and 64-bit time that time.Unix represents; beyond, it always reads as expired.
   */
  lemma PageAccessRoundTrip(mac: Mac, secret: string, pageId: Uuid, expiresAt: int, now: Clock)
    requires IsInt64(expiresAt) && IsClock(now)
    ensures ParsePageAccessToken(mac, secret, PageAccessToken(mac, secret, pageId, expiresAt), now)
         == if HasPassed(now, expiresAt) || expiresAt > LAST_UNIX then Failure(Expired) else Success(pageId)
  {
    SignedPairRoundTrip(mac, secret, pageId, expiresAt);
    TimeIsExactIff(now, expiresAt);
  }

  /** The same for Slack states, with a time to live of one hour; a state from the far future is refused. */
  lemma SlackStateRoundTrip(mac: Mac, secret: string, pageId: Uuid, issuedAt: int, now: Clock)
    requires IsInt64(issuedAt) && IsClock(now)
    ensures ParseSlackState(mac, secret, SignSlackState(mac, secret, pageId, issuedAt), now)
         == if IsStale(now, issuedAt) || issuedAt > LAST_UNIX then Failure(Expired) else Success(pageId)
  {
    SignedPairRoundTrip(mac, secret, pageId, issuedAt);
    TimeIsExactIff(now, issuedAt);
  }

  /**
   Both kinds have one format and one secret, so each parser also reads tokens of the other kind: a page
   access token as a state issued at its expiry, a state as a token that expires when it was issued.
   */
  lemma KindsShareTheirFormat(mac: Mac, secret: string, pageId: Uuid, time: int, now: Clock)
    requires IsInt64(time) && IsClock(now)
    ensures ParseSlackState(mac, secret, PageAccessToken(mac, secret, pageId, time), now)
         == if IsStale(now, time) || time > LAST_UNIX then Failure(Expired) else Success(pageId)
    ensures ParsePageAccessToken(mac, secret, SignSlackState(mac, secret, pageId, time), now)
         == if HasPassed(now, time) || time > LAST_UNIX then Failure(Expired) else Success(pageId)
  {
    SlackStateRoundTrip(mac, secret, pageId, time, now);
    PageAccessRoundTrip(mac, secret, pageId, time, now);
  }

  /** Only signed texts are accepted: a token that parses is an id, a number and their signature. */
  lemma AcceptedIsSigned(mac: Mac, secret: string, token: string) returns (idStr: string, timeStr: string)
    requires ParseSignedPair(mac, secret, token).Success?
    ensures token == idStr + "." + timeStr + "." + Sign(mac, secret, idStr + "." + timeStr)
    ensures ParseUuid(idStr) == Some(ParseSignedPair(mac, secret, token).value.0)
    ensures ParseInt(timeStr) == Some(ParseSignedPair(mac, secret, token).value.1)
  {
    CutIsSplit(token);
    idStr := Cut(token).value.0;
    var rest := Cut(token).value.1;
    CutIsSplit(rest);
    timeStr := Cut(rest).value.0;
  }

  /** And they are accepted in time only: not after their expiry, or within an hour of their issue. */
  lemma AcceptedIsInTime(mac: Mac, secret: string, token: string, now: Clock)
    requires IsClock(now)
    ensures ParsePageAccessToken(mac, secret, token, now).Success? <==>
            && ParseSignedPair(mac, secret, token).Success?
            && ParseSignedPair(mac, secret, token).value.1 <= LAST_UNIX
            && !HasPassed(now, ParseSignedPair(mac, secret, token).value.1)
    ensures ParseSlackState(mac, secret, token, now).Success? <==>
            && ParseSignedPair(mac, secret, token).Success?
            && ParseSignedPair(mac, secret, token).value.1 <= LAST_UNIX
            && !IsStale(now, ParseSignedPair(mac, secret, token).value.1)
  {
    if ParseSignedPair(mac, secret, token).Success? {
      ReadTimesFit(mac, secret, token);
      TimeIsExactIff(now, ParseSignedPair(mac, secret, token).value.1);
    }
  }

  lemma ReadTimesFit(mac: Mac, secret: string, token: string)
    requires ParseSignedPair(mac, secret, token).Success?
    ensures IsInt64(ParseSignedPair(mac, secret, token).value.1)
  {
  }

  // ----- Access links -----

  function AccessLinkToken(mac: Mac, secret: string, pageId: Uuid, email: seq<Byte>, expiresAt: int): string {
    var msg := FormatUuid(pageId) + "." + Encode(email) + "." + FormatInt(expiresAt);
    msg + "." + Sign(mac, secret, msg)
  }

  function ParseAccessLinkToken(
    mac: Mac, secret: string, token: string, now: Clock): Result<(Uuid, seq<Byte>), TokenError> {
    var parts := Words(token);
    if |parts| != 4 then Failure(Malformed)
    else
      match ParseUuid(parts[0])
      case None => Failure(BadId)
      case Some(id) =>
        if parts[3] != Sign(mac, secret, parts[0] + "." + parts[1] + "." + parts[2]) then Failure(BadSignature)
        else
          match ParseInt(parts[2])
          case None => Failure(BadTime)
          case Some(exp) =>
            if IsAfter(now, exp) then Failure(Expired)
            else
              match Decode(parts[1])
              case None => Failure(BadEmail)
              case Some(email) => Success((id, email))
  }

  lemma TwoParts(a: string, b: string)
    requires DotFree(a) && DotFree(b)
    ensures Words(a + "." + b) == [a, b]
  {
    WordsOfPath(a, b);
    WordsOfDotFree(b);
  }

  lemma MoreParts(a: string, rest: string, parts: seq<string>)
    requires DotFree(a) && Words(rest) == parts
    ensures Words(a + "." + rest) == [a] + parts
  {
    WordsOfPath(a, rest);
  }

  /** Four texts joined with a separator, however they are grouped. */
  lemma Regrouped(a: string, b: string, c: string, d: string, dot: string)
    ensures a + dot + b + dot + c + dot + d == a + dot + (b + dot + (c + dot + d))
  {
    var left := a + dot + b;
    assert left + dot + c + dot + d == left + dot + (c + dot + d);
    assert left + (dot + (c + dot + d)) == a + dot + (b + (dot + (c + dot + d)));
  }

  lemma FourParts(a: string, b: string, c: string, d: string)
    requires DotFree(a) && DotFree(b) && DotFree(c) && DotFree(d)
    ensures Words(a + "." + b + "." + c + "." + d) == [a, b, c, d]
  {
    TwoParts(c, d);
    MoreParts(b, c + "." + d, [c, d]);
    MoreParts(a, b + "." + (c + "." + d), [b, c, d]);
    Regrouped(a, b, c, d, ".");
  }

  /** Main result: an access link gives back its page and its email, whatever bytes that has. */
  lemma AccessLinkRoundTrip(mac: Mac, secret: string, pageId: Uuid, email: seq<Byte>, expiresAt: int, now: Clock)
    requires IsInt64(expiresAt) && IsClock(now)
    ensures ParseAccessLinkToken(mac, secret, AccessLinkToken(mac, secret, pageId, email, expiresAt), now)
         == if HasPassed(now, expiresAt) || expiresAt > LAST_UNIX then Failure(Expired) else Success((pageId, email))
  {
    var idStr, enc, expStr := FormatUuid(pageId), Encode(email), FormatInt(expiresAt);
    var sig := Sign(mac, secret, idStr + "." + enc + "." + expStr);
    IdHasDotFree(pageId);
    TimeHasDotFree(expiresAt);
    EncodedIsPlain(email);
    EncodedIsPlain(mac(secret, idStr + "." + enc + "." + expStr));
    FourParts(idStr, enc, expStr, sig);
    Uuids.FormatThenParse(pageId);
    Decimal.FormatThenParse(expiresAt);
    EncodeThenDecode(email);
    TimeIsExactIff(now, expiresAt);
  }

  /** Only signed links are accepted, and not after their expiry: an id, an email, a time and their signature. */
  lemma AcceptedLinkIsSigned(mac: Mac, secret: string, token: string, now: Clock)
    returns (idStr: string, enc: string, expStr: string)
    requires IsClock(now) && ParseAccessLinkToken(mac, secret, token, now).Success?
    ensures token == idStr + "." + enc + "." + expStr + "." + Sign(mac, secret, idStr + "." + enc + "." + expStr)
    ensures var (id, email) := ParseAccessLinkToken(mac, secret, token, now).value;
            ParseUuid(idStr) == Some(id) && Decode(enc) == Some(email)
    ensures ParseInt(expStr).Some? && ParseInt(expStr).value <= LAST_UNIX && !HasPassed(now, ParseInt(expStr).value)
  {
    var parts := Words(token);
    WordsJoin(token);
    idStr, enc, expStr := parts[0], parts[1], parts[2];
    JoinedFour(parts, ".");
    Regrouped(parts[0], parts[1], parts[2], parts[3], ".");
    TimeIsExactIff(now, ParseInt(expStr).value);
  }

  lemma JoinedFour(parts: seq<string>, dot: string)
    requires |parts| == 4 && dot == "."
    ensures Joined(parts) == parts[0] + dot + (parts[1] + dot + (parts[2] + dot + parts[3]))
  {
    assert parts[1..][1..] == parts[2..] && parts[2..][1..] == parts[3..];
    assert Joined(parts[3..]) == parts[3];
    assert Joined(parts[2..]) == parts[2] + dot + parts[3];
    assert Joined(parts[1..]) == parts[1] + dot + Joined(parts[2..]);
  }

  // ----- Unsubscribe tokens -----

  function UnsubscribeToken(mac: Mac, secret: string, subscriberId: Uuid): string {
    FormatUuid(subscriberId) + "." + Sign(mac, secret, FormatUuid(subscriberId))
  }

  function ParseUnsubscribeToken(mac: Mac, secret: string, token: string): Result<Uuid, TokenError> {
    match Cut(token)
    case None => Failure(Malformed)
    case Some((idStr, sig)) =>
      match ParseUuid(idStr)
      case None => Failure(BadId)
      case Some(id) => if sig != Sign(mac, secret, idStr) then Failure(BadSignature) else Success(id)
  }

  lemma UnsubscribeRoundTrip(mac: Mac, secret: string, subscriberId: Uuid)
    ensures ParseUnsubscribeToken(mac, secret, UnsubscribeToken(mac, secret, subscriberId)) == Success(subscriberId)
  {
    var idStr := FormatUuid(subscriberId);
    IdHasDotFree(subscriberId);
    CutAtSeparator(idStr, Sign(mac, secret, idStr));
    Uuids.FormatThenParse(subscriberId);
  }

  /** Only signed unsubscribe tokens are accepted, and all of them: an id and its signature. */
  lemma UnsubscribeAcceptsIff(mac: Mac, secret: string, token: string, id: Uuid)
    ensures ParseUnsubscribeToken(mac, secret, token) == Success(id) <==>
            exists idStr: string :: DotFree(idStr) && ParseUuid(idStr) == Some(id)
              && token == idStr + "." + Sign(mac, secret, idStr)
  {
    CutIsSplit(token);
    forall idStr: string | DotFree(idStr) && ParseUuid(idStr) == Some(id)
                           && token == idStr + "." + Sign(mac, secret, idStr)
      ensures ParseUnsubscribeToken(mac, secret, token) == Success(id)
    {
      CutAtSeparator(idStr, Sign(mac, secret, idStr));
    }
  }
}
