/** The signed OAuth `state` token (functions/src/services/oauthState.ts).

    A token is `base64(payload + "." + hex(HMAC-SHA256(secret, payload)))` where the
    payload is the JSON text of `{timestamp, randomValue}`: the issue time in whole
    seconds and 16 random bytes in hex. Validation decodes, splits on `.`, recomputes
    the signature, parses the payload and checks its age; every failure, thrown or
    not, yields `false`.

    Base64, HMAC-SHA256 and `JSON.parse` are given as functions in `Primitives`;
    `Lawful` states the facts about them the proofs rely on. The JSON text of the
    payload is built concretely. */
module OAuthState {
  import opened Wrappers
  import opened Text

  /** What `JSON.parse(payload).timestamp` amounts to once the age computation
      `currentTime - data.timestamp` has converted it to a number. `ParseFailed` is a
      throw (bad JSON, or `null` whose field access throws); `ParsedObject(None)` is a
      timestamp that converts to NaN (a missing field, an object, a non-numeric
      string), so that every age computed from it is NaN; `ParsedObject(Some(t))` is
      one that converts to the integer `t`, which includes `"0"`, `null` and `true`. */
  datatype ParseResult = ParseFailed | ParsedObject(timestamp: Option<int>)

  datatype Primitives = Primitives(
    base64Encode: string -> string,             // Buffer.from(s).toString('base64')
    base64Decode: string -> string,             // Buffer.from(s, 'base64').toString()
    hmacSha256Hex: (string, string) -> string,  // createHmac('sha256', key).update(m).digest('hex')
    jsonParse: string -> ParseResult)           // JSON.parse(s), read for its timestamp

  /** The payload `generateState` signs. */
  datatype Payload = Payload(timestamp: int, randomValue: string)

  /** A JSON string literal for text that needs no escaping. */
  function Quote(s: string): string {
    "\"" + s + "\""
  }

  /** One `"key":value` member of a JSON object. */
  function Member(key: string, value: string): string {
    Quote(key) + ":" + value
  }

  /** `JSON.stringify({timestamp, randomValue})` for a hex `randomValue` (which needs no escaping). */
  function PayloadJson(p: Payload): string {
    "{" + Member("timestamp", IntToDecimal(p.timestamp)) + "," + Member("randomValue", Quote(p.randomValue)) + "}"
  }

  /** The facts about the primitives the proofs use: base64 decoding inverts
      encoding, an HMAC digest is 64 hex digits, and parsing the payload's JSON
      text gives back its timestamp. */
  ghost predicate Lawful(prims: Primitives) {
    (forall s :: prims.base64Decode(prims.base64Encode(s)) == s) &&
    (forall key, msg :: |prims.hmacSha256Hex(key, msg)| == 64 && IsHexString(prims.hmacSha256Hex(key, msg))) &&
    (forall p: Payload :: IsHexString(p.randomValue) ==>
       prims.jsonParse(PayloadJson(p)) == ParsedObject(Some(p.timestamp)))
  }

  /** The service's fixed configuration: the signing secret and the expiry window. */
  datatype StateService = StateService(secret: string, expiryMinutes: int)

  /** The maximum accepted age in seconds. */
  function MaxAge(svc: StateService): int {
    svc.expiryMinutes * 60
  }

  /** `Math.floor(ms / 1000)`: Dafny's division by a positive constant is floor division. */
  function Seconds(nowMs: int): int {
    nowMs / 1000
  }

  /** `generateState()` at time `nowMs` with `random` as the 16 random bytes. Under
      the laws the token decodes to exactly two segments, the payload and its HMAC,
      and the payload parses back to the issue second. */
  function GenerateState(svc: StateService, prims: Primitives, nowMs: int, random: seq<byte>): (token: string)
    requires |random| == 16
    ensures Lawful(prims) ==>
              var payload := PayloadJson(Payload(Seconds(nowMs), HexEncode(random)));
              Split(prims.base64Decode(token), '.') == [payload, prims.hmacSha256Hex(svc.secret, payload)] &&
              prims.jsonParse(payload) == ParsedObject(Some(Seconds(nowMs)))
  {
    var p := Payload(Seconds(nowMs), HexEncode(random));
    var payload := PayloadJson(p);
    var signature := prims.hmacSha256Hex(svc.secret, payload);
    PayloadJsonLacksDot(p);
    SignedPayloadSplits(payload, signature);
    prims.base64Encode(payload + "." + signature)
  }

  /** A dot-free payload followed by `.` and a hex signature splits back into the two. */
  lemma SignedPayloadSplits(payload: string, signature: string)
    requires '.' !in payload
    ensures IsHexString(signature) ==> Split(payload + "." + signature, '.') == [payload, signature]
  {
    if IsHexString(signature) {
      assert !IsHexChar('.');
      HexStringLacks(signature, '.');
      SplitTwo(payload, '.', signature);
    }
  }

  /** `validateState(state)` at time `nowMs`. A token it accepts is one that
      `isExpired` does not report as expired; a token whose first two segments are
      non-empty and whose signature matches is accepted exactly when its payload
      parses to a numeric timestamp at most the window old (the boundary included,
      a future timestamp passing). */
  function ValidateState(svc: StateService, prims: Primitives, state: string, nowMs: int): (valid: bool)
    ensures valid ==> !IsExpired(svc, prims, state, nowMs)
    ensures var parts := Split(prims.base64Decode(state), '.');
            |parts| >= 2 && parts[0] != "" && parts[1] != "" && parts[1] == prims.hmacSha256Hex(svc.secret, parts[0]) ==>
              (valid <==> prims.jsonParse(parts[0]).ParsedObject? && prims.jsonParse(parts[0]).timestamp.Some? &&
                          Seconds(nowMs) - prims.jsonParse(parts[0]).timestamp.value <= MaxAge(svc))
  {
    var parts := Split(prims.base64Decode(state), '.');
    if |parts| < 2 || parts[0] == "" || parts[1] == "" then false
    else if prims.hmacSha256Hex(svc.secret, parts[0]) != parts[1] then false
    else
      match prims.jsonParse(parts[0])
      case ParseFailed => false
      case ParsedObject(None) => false                // NaN <= maxAge is false
      case ParsedObject(Some(t)) => Seconds(nowMs) - t <= MaxAge(svc)
  }

  /** `isExpired(state)`: reads only the first segment and never checks the
      signature. A payload that does not parse counts as expired (the `catch`); one
      whose timestamp converts to NaN never does; otherwise the token is expired
      exactly when its age exceeds the window. */
  function IsExpired(svc: StateService, prims: Primitives, state: string, nowMs: int): (expired: bool)
    ensures prims.jsonParse(Split(prims.base64Decode(state), '.')[0]).ParseFailed? ==> expired
    ensures prims.jsonParse(Split(prims.base64Decode(state), '.')[0]) == ParsedObject(None) ==> !expired
    ensures forall t :: prims.jsonParse(Split(prims.base64Decode(state), '.')[0]) == ParsedObject(Some(t)) ==>
              (expired <==> Seconds(nowMs) - t > MaxAge(svc))
  {
    match prims.jsonParse(Split(prims.base64Decode(state), '.')[0])
    case ParseFailed => true
    case ParsedObject(None) => false                  // NaN > maxAge is false
    case ParsedObject(Some(t)) => Seconds(nowMs) - t > MaxAge(svc)
  }

  /** `getStateTimestamp(state)`: `None` is `null`, returned exactly when the payload
      does not parse; otherwise the timestamp field in its numeric reading, `Some(None)`
      for one that converts to NaN. */
  function GetStateTimestamp(prims: Primitives, state: string): (r: Option<Option<int>>)
    ensures r.None? <==> prims.jsonParse(Split(prims.base64Decode(state), '.')[0]).ParseFailed?
    ensures r.Some? ==> r.value == prims.jsonParse(Split(prims.base64Decode(state), '.')[0]).timestamp
  {
    match prims.jsonParse(Split(prims.base64Decode(state), '.')[0])
    case ParseFailed => None
    case ParsedObject(t) => Some(t)
  }

  // ---------------------------------------------------------------------------
  // Properties

  /** The payload's JSON text is non-empty and holds no `.`, so it is exactly the
      first segment of the signed string. */
  lemma PayloadJsonLacksDot(p: Payload)
    requires IsHexString(p.randomValue)
    ensures '.' !in PayloadJson(p) && PayloadJson(p) != ""
  {
    TimestampKeyLacksDot();
    RandomValueKeyLacksDot();
    DecimalLacksDot(p.timestamp);
    assert !IsHexChar('.');
    HexStringLacks(p.randomValue, '.');
    MemberLacksDot("timestamp", IntToDecimal(p.timestamp));
    QuoteLacksDot(p.randomValue);
    MemberLacksDot("randomValue", Quote(p.randomValue));
  }

  lemma TimestampKeyLacksDot()
    ensures '.' !in "timestamp"
  {
  }

  lemma RandomValueKeyLacksDot()
    ensures '.' !in "randomValue"
  {
  }

  lemma QuoteLacksDot(s: string)
    requires '.' !in s
    ensures '.' !in Quote(s)
  {
  }

  lemma MemberLacksDot(key: string, value: string)
    requires '.' !in key && '.' !in value
    ensures '.' !in Member(key, value)
  {
    QuoteLacksDot(key);
  }

  lemma DecimalLacksDot(t: int)
    ensures '.' !in IntToDecimal(t)
  {
    var d := IntToDecimal(t);
    forall k | 0 <= k < |d|
      ensures d[k] != '.'
    {
      assert IsDigitChar(d[k]) || d[k] == '-';
    }
  }

  /** Round trip: under the same secret a generated token validates exactly when it
      is checked no more than `expiryMinutes * 60` seconds after its issue second
      (the boundary is inclusive; a check before issuance also passes). */
  lemma {:induction false} GeneratedTokenValidates(svc: StateService, prims: Primitives, issuedMs: int, random: seq<byte>, nowMs: int)
    requires Lawful(prims) && |random| == 16
    ensures ValidateState(svc, prims, GenerateState(svc, prims, issuedMs, random), nowMs)
            <==> Seconds(nowMs) - Seconds(issuedMs) <= MaxAge(svc)
  {
    var p := Payload(Seconds(issuedMs), HexEncode(random));
    var payload := PayloadJson(p);
    var signature := prims.hmacSha256Hex(svc.secret, payload);
    PayloadJsonLacksDot(p);
    assert !IsHexChar('.');
    HexStringLacks(signature, '.');
    SplitTwo(payload, '.', signature);
    assert prims.base64Decode(prims.base64Encode(payload + "." + signature)) == payload + "." + signature;
  }

  /** A token whose decoded text lacks a non-empty payload or signature segment is refused. */
  lemma RejectsMissingSegment(svc: StateService, prims: Primitives, state: string, nowMs: int)
    requires var parts := Split(prims.base64Decode(state), '.');
             |parts| < 2 || parts[0] == "" || parts[1] == ""
    ensures !ValidateState(svc, prims, state, nowMs)
  {
  }

  /** A token whose carried signature is not the HMAC of its payload is refused, whatever its age. */
  lemma RejectsWrongSignature(svc: StateService, prims: Primitives, state: string, nowMs: int)
    requires var parts := Split(prims.base64Decode(state), '.');
             |parts| >= 2 && prims.hmacSha256Hex(svc.secret, parts[0]) != parts[1]
    ensures !ValidateState(svc, prims, state, nowMs)
  {
  }

  /** A validated token carries the HMAC of its payload under the service's secret and
      a numeric timestamp no older than the window. */
  lemma ValidatedMeansSignedAndFresh(svc: StateService, prims: Primitives, state: string, nowMs: int)
    requires ValidateState(svc, prims, state, nowMs)
    ensures var parts := Split(prims.base64Decode(state), '.');
            |parts| >= 2 && parts[0] != "" &&
            parts[1] == prims.hmacSha256Hex(svc.secret, parts[0]) &&
            prims.jsonParse(parts[0]).ParsedObject? &&
            prims.jsonParse(parts[0]).timestamp.Some? &&
            Seconds(nowMs) - prims.jsonParse(parts[0]).timestamp.value <= MaxAge(svc)
  {
  }

  /** Replacing a generated token's signature by any other text yields a token that
      is refused. */
  lemma {:induction false} ForgedSignatureRejected(svc: StateService, prims: Primitives, issuedMs: int, random: seq<byte>, forged: string, nowMs: int)
    requires Lawful(prims) && |random| == 16
    requires '.' !in forged
    requires var payload := PayloadJson(Payload(Seconds(issuedMs), HexEncode(random)));
             forged != prims.hmacSha256Hex(svc.secret, payload)
    ensures var payload := PayloadJson(Payload(Seconds(issuedMs), HexEncode(random)));
            !ValidateState(svc, prims, prims.base64Encode(payload + "." + forged), nowMs)
  {
    var payload := PayloadJson(Payload(Seconds(issuedMs), HexEncode(random)));
    PayloadJsonLacksDot(Payload(Seconds(issuedMs), HexEncode(random)));
    SplitTwo(payload, '.', forged);
    assert prims.base64Decode(prims.base64Encode(payload + "." + forged)) == payload + "." + forged;
  }

  /** Only the first two `.`-separated segments are read: trailing segments change nothing. */
  lemma {:induction false} TrailingSegmentsIgnored(svc: StateService, prims: Primitives, payload: string, signature: string, rest: string, nowMs: int)
    requires Lawful(prims)
    requires '.' !in payload && '.' !in signature
    ensures ValidateState(svc, prims, prims.base64Encode(payload + "." + signature + "." + rest), nowMs)
            == ValidateState(svc, prims, prims.base64Encode(payload + "." + signature), nowMs)
  {
    var long := payload + "." + signature + "." + rest;
    assert prims.base64Decode(prims.base64Encode(long)) == long;
    assert prims.base64Decode(prims.base64Encode(payload + "." + signature)) == payload + "." + signature;
    SplitTwo(payload, '.', signature);
    assert long == payload + "." + (signature + "." + rest);
    SplitAfter(payload, '.', signature + "." + rest);
    SplitAfter(signature, '.', rest);
  }

  /** `isExpired` ignores the signature: two tokens with the same payload give the same answer. */
  lemma {:induction false} IsExpiredIgnoresSignature(svc: StateService, prims: Primitives, payload: string, sig1: string, sig2: string, nowMs: int)
    requires Lawful(prims) && '.' !in payload
    ensures IsExpired(svc, prims, prims.base64Encode(payload + "." + sig1), nowMs)
            == IsExpired(svc, prims, prims.base64Encode(payload + "." + sig2), nowMs)
  {
    assert prims.base64Decode(prims.base64Encode(payload + "." + sig1)) == payload + "." + sig1;
    assert prims.base64Decode(prims.base64Encode(payload + "." + sig2)) == payload + "." + sig2;
    SplitAfter(payload, '.', sig1);
    SplitAfter(payload, '.', sig2);
  }

  /** For a genuine token `isExpired` is the negation of `validateState`, and
      `getStateTimestamp` returns the issue second. */
  lemma {:induction false} GeneratedTokenProjections(svc: StateService, prims: Primitives, issuedMs: int, random: seq<byte>, nowMs: int)
    requires Lawful(prims) && |random| == 16
    ensures IsExpired(svc, prims, GenerateState(svc, prims, issuedMs, random), nowMs)
            == !ValidateState(svc, prims, GenerateState(svc, prims, issuedMs, random), nowMs)
    ensures GetStateTimestamp(prims, GenerateState(svc, prims, issuedMs, random)) == Some(Some(Seconds(issuedMs)))
  {
    GeneratedTokenValidates(svc, prims, issuedMs, random, nowMs);
    var p := Payload(Seconds(issuedMs), HexEncode(random));
    var payload := PayloadJson(p);
    var signature := prims.hmacSha256Hex(svc.secret, payload);
    PayloadJsonLacksDot(p);
    assert !IsHexChar('.');
    HexStringLacks(signature, '.');
    SplitTwo(payload, '.', signature);
    assert prims.base64Decode(prims.base64Encode(payload + "." + signature)) == payload + "." + signature;
  }

  /** `isExpired` is not an authorisation check: a token with a forged signature but a
      fresh payload is refused by `validateState` yet reported as not expired. */
  lemma {:induction false} IsExpiredNotAuthoritative(svc: StateService, prims: Primitives, issuedMs: int, random: seq<byte>, forged: string, nowMs: int)
    requires Lawful(prims) && |random| == 16 && '.' !in forged
    requires var payload := PayloadJson(Payload(Seconds(issuedMs), HexEncode(random)));
             forged != prims.hmacSha256Hex(svc.secret, payload)
    requires Seconds(nowMs) - Seconds(issuedMs) <= MaxAge(svc)
    ensures var token := prims.base64Encode(PayloadJson(Payload(Seconds(issuedMs), HexEncode(random))) + "." + forged);
            !ValidateState(svc, prims, token, nowMs) && !IsExpired(svc, prims, token, nowMs)
  {
    var p := Payload(Seconds(issuedMs), HexEncode(random));
    var payload := PayloadJson(p);
    ForgedSignatureRejected(svc, prims, issuedMs, random, forged, nowMs);
    PayloadJsonLacksDot(p);
    SplitTwo(payload, '.', forged);
    assert prims.base64Decode(prims.base64Encode(payload + "." + forged)) == payload + "." + forged;
  }
}
