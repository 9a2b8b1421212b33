/** The token service: `create_access_token` and the `jwt.decode` call the handlers make. */
module Tokens {
  import opened Wrappers

  /** A claim value: a string, or an instant in whole seconds since the epoch. */
  datatype Claim = Text(text: string) | Instant(seconds: int)

  /** A token payload, a dictionary of claims. */
  type Payload = map<string, Claim>

  /** Compact JWS serialisation under the process-wide secret key and algorithm:
      `encode` signs a payload, `decode` checks the signature and parses the payload back. */
  datatype Codec = Codec(encode: Payload -> string, decode: string -> Option<Payload>)

  /** What the model relies on from JWT signing: decoding a token the key signed gives
      back exactly the payload that was signed. */
  ghost predicate Sound(c: Codec) {
    forall p :: c.decode(c.encode(p)) == Some(p)
  }

  const SecondsPerMinute := 60

  /** The lifetime used when the caller passes no delta, 15 minutes. */
  const DefaultLifetime := 15 * SecondsPerMinute

  /** `expires_delta or timedelta(minutes=15)`: a missing delta and a zero one are both
      false in Python, and both fall back to the default. */
  function Lifetime(expiresDelta: Option<int>): int {
    if expiresDelta.Some? && expiresDelta.value != 0 then expiresDelta.value else DefaultLifetime
  }

  /** The payload `create_access_token` signs: a copy of the caller's claims updated with
      `exp`. Dafny maps are values, so the caller's own dictionary cannot change. */
  function AccessClaims(data: Payload, expiresDelta: Option<int>, now: int): (p: Payload)
    ensures p.Keys == data.Keys + {"exp"}
    ensures forall k | k in data && k != "exp" :: p[k] == data[k]
    ensures expiresDelta.Some? && expiresDelta.value != 0 ==> p["exp"] == Instant(now + expiresDelta.value)
    ensures expiresDelta.None? || expiresDelta == Some(0) ==> p["exp"] == Instant(now + 15 * 60)
  {
    var toEncode := data;
    toEncode["exp" := Instant(now + Lifetime(expiresDelta))]
  }

  /** `create_access_token(data, expires_delta)` at time `now`: the signed token of the
      caller's claims plus an expiry claim. */
  function CreateAccessToken(c: Codec, data: Payload, expiresDelta: Option<int>, now: int): (token: string)
    ensures Sound(c) ==> c.decode(token) == Some(AccessClaims(data, expiresDelta, now))
  {
    c.encode(AccessClaims(data, expiresDelta, now))
  }

  /** Why `jwt.decode` raises `JWTError`: a bad signature or unparsable claims, or an
      expiry in the past. */
  datatype TokenError = Malformed | Expired

  /** The payload's `exp` claim is present and is not an instant. */
  predicate BadExpiry(p: Payload) {
    "exp" in p && !p["exp"].Instant?
  }

  /** The payload's `exp` claim lies strictly before `now` (python-jose rejects `exp < now`). */
  predicate ExpiredAt(p: Payload, now: int) {
    "exp" in p && p["exp"].Instant? && p["exp"].seconds < now
  }

  /** The payload's `sub` claim is present and is not a string. */
  predicate BadSubject(p: Payload) {
    "sub" in p && !p["sub"].Text?
  }

  /** `jwt.decode(token, SECRET_KEY, algorithms=[ALGORITHM])` followed by `payload.get("sub")`:
      the subject (if the payload has one), or why the token was rejected. The claims are
      checked in python-jose's order, the expiry before the subject. */
  function Decode(c: Codec, token: string, now: int): (r: Result<Option<string>, TokenError>)
    ensures r.Success? <==>
      c.decode(token).Some? && !BadExpiry(c.decode(token).value)
      && !ExpiredAt(c.decode(token).value, now) && !BadSubject(c.decode(token).value)
    ensures r == Failure(Expired) <==>
      c.decode(token).Some? && !BadExpiry(c.decode(token).value) && ExpiredAt(c.decode(token).value, now)
    ensures r.Success? ==> (r.value.Some? <==> "sub" in c.decode(token).value)
    ensures r.Success? && r.value.Some? ==> c.decode(token).value["sub"] == Text(r.value.value)
  {
    match c.decode(token)
    case None => Failure(Malformed)
    case Some(payload) =>
      if BadExpiry(payload) then Failure(Malformed)
      else if ExpiredAt(payload, now) then Failure(Expired)
      else if BadSubject(payload) then Failure(Malformed)
      else if "sub" in payload then Success(Some(payload["sub"].text))
      else Success(None)
  }

  /** The subject a token was issued for, as `payload.get("sub")` reads it back. */
  function SubjectOf(data: Payload): Option<string> {
    if "sub" in data && data["sub"].Text? then Some(data["sub"].text) else None
  }

  /** A token this service issued decodes to its subject up to and including its expiry
      instant, and is rejected as expired from the next second on. */
  lemma {:induction false} DecodeIssuedToken(c: Codec, data: Payload, expiresDelta: Option<int>, issuedAt: int, now: int)
    requires Sound(c)
    requires !BadSubject(data)
    ensures Decode(c, CreateAccessToken(c, data, expiresDelta, issuedAt), now) ==
      if now <= issuedAt + Lifetime(expiresDelta) then Success(SubjectOf(data)) else Failure(Expired)
  {
    var p := AccessClaims(data, expiresDelta, issuedAt);
    assert "sub" in p <==> "sub" in data;
    assert "sub" in data ==> p["sub"] == data["sub"];
  }
}
