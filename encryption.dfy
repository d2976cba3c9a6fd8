/** The encrypted Slack-token envelope (functions/src/services/encryption.ts).

    `encryptSlackToken` seals the token with AES-256-GCM under a fixed additional
    authenticated data (AAD) string and writes `hex(aad):hex(iv):hex(tag):hex(ct)`;
    `decryptSlackToken` splits on `:`, checks the segment count, then the AAD, then
    hands the segments to Node's decipher, which checks the IV, the key and the tag
    length, refuses an odd-length ciphertext hex string and finally authenticates
    the tag. The cipher and UTF-8 are given abstractly; the envelope format and
    Node's argument checks are concrete. */
module Encryption {
  import opened Wrappers
  import opened Text

  /** The result of one sealing: the authentication tag and the ciphertext. */
  datatype Sealed = Sealed(tag: seq<byte>, ciphertext: seq<byte>)

  /** AES-256-GCM on bytes: `seal(key, iv, aad, plaintext)` is what the cipher's
      `update`, `final` and `getAuthTag` produce, and `open(key, iv, aad, tag,
      ciphertext)` is the decipher's `update` followed by `final()`, `None` when
      `final()` throws. The length checks Node makes on the key, the IV and the tag
      before that are made by the functions below. */
  datatype Aead = Aead(
    seal: (seq<byte>, seq<byte>, seq<byte>, seq<byte>) -> Sealed,
    open: (seq<byte>, seq<byte>, seq<byte>, seq<byte>, seq<byte>) -> Option<seq<byte>>)

  /** UTF-8 as `Buffer` encodes a string and the decipher's string decoder reads
      bytes back (a malformed sequence becomes U+FFFD). */
  datatype Utf8 = Utf8(encode: string -> seq<byte>, decode: seq<byte> -> string)

  const KeyLength := 32
  const IvLength := 16
  const TagLength := 16

  /** Decoding what was encoded gives the text back. */
  ghost predicate Utf8RoundTrip(u: Utf8) {
    forall s :: u.decode(u.encode(s)) == s
  }

  /** With a 32-byte key and a non-empty IV, sealing yields a 16-byte tag, and
      opening the ciphertext with that tag gives back the plaintext bytes. */
  ghost predicate RoundTrip(aead: Aead) {
    forall key, iv, aad, p :: |key| == KeyLength && |iv| > 0 ==>
      |aead.seal(key, iv, aad, p).tag| == TagLength &&
      aead.open(key, iv, aad, aead.seal(key, iv, aad, p).tag, aead.seal(key, iv, aad, p).ciphertext) == Some(p)
  }

  /** GCM's authenticity: when opening succeeds, sealing the returned bytes gives
      the carried ciphertext and a tag that the carried tag is a prefix of. GCM
      accepts a truncated tag, so the carried tag need not be the whole one. */
  ghost predicate Authentic(aead: Aead) {
    forall key, iv, aad, tag, ct :: aead.open(key, iv, aad, tag, ct).Some? ==>
      aead.seal(key, iv, aad, aead.open(key, iv, aad, tag, ct).value).ciphertext == ct &&
      tag <= aead.seal(key, iv, aad, aead.open(key, iv, aad, tag, ct).value).tag
  }

  /** The fixed AAD text, as the UTF-8 bytes `Buffer.from('slack-token')` holds. */
  const AadText := "slack-token"

  function AadBytes(): (r: seq<byte>)
    ensures |r| == |AadText|
  {
    AsciiBytes(AadText)
  }

  /** The tag lengths `setAuthTag` accepts for GCM when no `authTagLength` is given. */
  predicate ValidTagLength(n: nat) {
    n == 4 || n == 8 || 12 <= n <= 16
  }

  const MalformedMessage := "不正な暗号化データ形式"
  const AadMismatchMessage := "不正なAAD: データの整合性が確認できません"
  /** What Node's cipher constructors throw for an empty IV and a key of the wrong size. */
  const InvalidIvMessage := "Invalid initialization vector"
  const InvalidKeyMessage := "Invalid key length"
  /** What Node's `decipher.final()` throws when the tag does not authenticate. */
  const AuthFailedMessage := "Unsupported state or unable to authenticate data"

  /** What `setAuthTag` throws for a tag of `n` bytes outside `ValidTagLength`. */
  function TagLengthMessage(n: nat): string {
    "Invalid authentication tag length: " + NatToDecimal(n)
  }

  /** What `decipher.update(data, 'hex')` throws for hex text of odd length `n`. */
  function OddHexMessage(n: nat): string {
    "The argument 'encoding' is invalid for data of length " + NatToDecimal(n) + ". Received 'hex'"
  }

  /** The messages decryption can throw. */
  ghost predicate DecryptError(m: string) {
    m in {MalformedMessage, AadMismatchMessage, InvalidIvMessage, InvalidKeyMessage, AuthFailedMessage} ||
    (exists n: nat :: m == TagLengthMessage(n)) ||
    (exists n: nat :: m == OddHexMessage(n))
  }

  /** A returned string or a thrown error's message. */
  datatype Outcome = Returns(value: string) | Throws(message: string)

  /** The envelope text for one sealing. */
  function Envelope(iv: seq<byte>, sealed: Sealed): string {
    HexEncode(AadBytes()) + ":" + HexEncode(iv) + ":" + HexEncode(sealed.tag) + ":" + HexEncode(sealed.ciphertext)
  }

  /** `encryptSlackToken(token)` under `key`, with `iv` as the 16 fresh random bytes.
      `createCipheriv` throws before anything is sealed when the key is not 32 bytes. */
  function EncryptSlackToken(aead: Aead, utf8: Utf8, key: seq<byte>, iv: seq<byte>, token: string): (r: Outcome)
    requires |iv| == IvLength
    ensures r.Returns? <==> |key| == KeyLength
    ensures r.Throws? ==> r.message == InvalidKeyMessage
  {
    if |key| != KeyLength then Throws(InvalidKeyMessage)
    else Returns(Envelope(iv, aead.seal(key, iv, AadBytes(), utf8.encode(token))))
  }

  /** `decryptSlackToken(encryptedToken)` under `key`. The AAD test compares the
      decoded bytes, read as UTF-8, with `slack-token`: that text is pure ASCII and a
      malformed sequence decodes to U+FFFD, so the test holds exactly when the bytes
      are those of `slack-token`. The first three segments go through
      `Buffer.from(_, 'hex')`, which stops at the first pair that is not hex; the
      fourth goes to `decipher.update` as hex text, which must have even length.
      `createDecipheriv` checks the IV before the key. */
  function DecryptSlackToken(aead: Aead, utf8: Utf8, key: seq<byte>, encryptedToken: string): (r: Outcome)
    ensures r.Throws? ==> DecryptError(r.message)
    ensures r.Returns? ==>
              var parts := Split(encryptedToken, ':');
              |parts| == 4 && HexDecode(parts[0]) == AadBytes() &&
              |HexDecode(parts[1])| > 0 && |key| == KeyLength &&
              ValidTagLength(|HexDecode(parts[2])|) && |parts[3]| % 2 == 0 &&
              var plain := aead.open(key, HexDecode(parts[1]), AadBytes(), HexDecode(parts[2]), HexDecode(parts[3]));
              plain.Some? && r.value == utf8.decode(plain.value)
  {
    var parts := Split(encryptedToken, ':');
    if |parts| != 4 then Throws(MalformedMessage)
    else
      var aad := HexDecode(parts[0]);
      var iv := HexDecode(parts[1]);
      var tag := HexDecode(parts[2]);
      if aad != AadBytes() then Throws(AadMismatchMessage)
      else if |iv| == 0 then Throws(InvalidIvMessage)
      else if |key| != KeyLength then Throws(InvalidKeyMessage)
      else if !ValidTagLength(|tag|) then
        assert DecryptError(TagLengthMessage(|tag|));
        Throws(TagLengthMessage(|tag|))
      else if |parts[3]| % 2 != 0 then
        assert DecryptError(OddHexMessage(|parts[3]|));
        Throws(OddHexMessage(|parts[3]|))
      else
        match aead.open(key, iv, aad, tag, HexDecode(parts[3]))
        case None => Throws(AuthFailedMessage)
        case Some(b) => Returns(utf8.decode(b))
  }

  // ---------------------------------------------------------------------------
  // Properties

  /** Four hex segments joined by `:` split back into those four segments. */
  lemma {:induction false} HexSegmentsSplit(a: string, b: string, c: string, d: string)
    requires IsHexString(a) && IsHexString(b) && IsHexString(c) && IsHexString(d)
    ensures Split(a + ":" + b + ":" + c + ":" + d, ':') == [a, b, c, d]
  {
    assert !IsHexChar(':');
    HexStringLacks(a, ':');
    HexStringLacks(b, ':');
    HexStringLacks(c, ':');
    HexStringLacks(d, ':');
    SplitNoSep(d, ':');
    var cd := c + [':'] + d;
    SplitAfter(c, ':', d);
    assert Split(cd, ':') == [c, d];
    var bcd := b + [':'] + cd;
    SplitAfter(b, ':', cd);
    assert Split(bcd, ':') == [b, c, d];
    SplitAfter(a, ':', bcd);
    assert Split(a + [':'] + bcd, ':') == [a, b, c, d];
    assert a + ":" + b + ":" + c + ":" + d == a + [':'] + bcd;
  }

  /** The envelope always splits on `:` into its four hex segments. */
  lemma EnvelopeHasFourSegments(iv: seq<byte>, sealed: Sealed)
    ensures Split(Envelope(iv, sealed), ':')
              == [HexEncode(AadBytes()), HexEncode(iv), HexEncode(sealed.tag), HexEncode(sealed.ciphertext)]
  {
    HexSegmentsSplit(HexEncode(AadBytes()), HexEncode(iv), HexEncode(sealed.tag), HexEncode(sealed.ciphertext));
  }

  lemma EvenHexLength(b: seq<byte>)
    ensures |HexEncode(b)| % 2 == 0
  {
    var n := |b|;
    assert |HexEncode(b)| == n + n;
  }

  /** An envelope built from hex segments that pass Node's checks reaches the cipher. */
  lemma {:induction false} WellFormedReachesCipher(aead: Aead, utf8: Utf8, key: seq<byte>, t: string,
                                                   iv: seq<byte>, tag: seq<byte>, ct: seq<byte>)
    requires Split(t, ':') == [HexEncode(AadBytes()), HexEncode(iv), HexEncode(tag), HexEncode(ct)]
    requires |iv| > 0 && |key| == KeyLength && ValidTagLength(|tag|)
    ensures var plain := aead.open(key, iv, AadBytes(), tag, ct);
            DecryptSlackToken(aead, utf8, key, t)
              == if plain.Some? then Returns(utf8.decode(plain.value)) else Throws(AuthFailedMessage)
  {
    HexRoundTrip(AadBytes());
    HexRoundTrip(iv);
    HexRoundTrip(tag);
    HexRoundTrip(ct);
    EvenHexLength(ct);
  }

  /** Round trip: under the same key, decryption returns the token that was
      encrypted. Only the round-trip laws of the cipher and of UTF-8 are needed. */
  lemma {:induction false} DecryptEncrypt(aead: Aead, utf8: Utf8, key: seq<byte>, iv: seq<byte>, token: string)
    requires RoundTrip(aead) && Utf8RoundTrip(utf8) && |iv| == IvLength
    ensures var e := EncryptSlackToken(aead, utf8, key, iv, token);
            e.Returns? ==> DecryptSlackToken(aead, utf8, key, e.value) == Returns(token)
  {
    if |key| == KeyLength {
      var sealed := aead.seal(key, iv, AadBytes(), utf8.encode(token));
      EnvelopeHasFourSegments(iv, sealed);
      assert |sealed.tag| == TagLength;
      WellFormedReachesCipher(aead, utf8, key, Envelope(iv, sealed), iv, sealed.tag, sealed.ciphertext);
    }
  }

  /** Any text that does not split into exactly four segments is refused as malformed. */
  lemma WrongSegmentCountIsMalformed(aead: Aead, utf8: Utf8, key: seq<byte>, encryptedToken: string)
    requires |Split(encryptedToken, ':')| != 4
    ensures DecryptSlackToken(aead, utf8, key, encryptedToken) == Throws(MalformedMessage)
  {
  }

  /** A four-segment envelope whose first segment is not the AAD is refused with the
      AAD error before the cipher is consulted: the answer is the same for every cipher
      and key. */
  lemma AadCheckedBeforeDecryption(aead1: Aead, aead2: Aead, utf8: Utf8, key1: seq<byte>, key2: seq<byte>, encryptedToken: string)
    requires |Split(encryptedToken, ':')| == 4
    requires HexDecode(Split(encryptedToken, ':')[0]) != AadBytes()
    ensures DecryptSlackToken(aead1, utf8, key1, encryptedToken) == Throws(AadMismatchMessage)
    ensures DecryptSlackToken(aead2, utf8, key2, encryptedToken) == Throws(AadMismatchMessage)
  {
  }

  /** Under a key of the wrong size both directions throw Node's key-length error;
      decryption gets that far only for an envelope with the right AAD and an IV. */
  lemma {:induction false} WrongKeyLengthThrows(aead: Aead, utf8: Utf8, key: seq<byte>, iv: seq<byte>, token: string, encryptedToken: string)
    requires |iv| == IvLength && |key| != KeyLength
    requires var parts := Split(encryptedToken, ':');
             |parts| == 4 && HexDecode(parts[0]) == AadBytes() && |HexDecode(parts[1])| > 0
    ensures EncryptSlackToken(aead, utf8, key, iv, token) == Throws(InvalidKeyMessage)
    ensures DecryptSlackToken(aead, utf8, key, encryptedToken) == Throws(InvalidKeyMessage)
  {
  }

  /** A digit appended to a genuine envelope makes its ciphertext hex odd in length,
      which `decipher.update` refuses; the lenient `Buffer.from` reading would have
      dropped the digit and decrypted. */
  lemma {:induction false} TrailingDigitRejected(aead: Aead, utf8: Utf8, key: seq<byte>, iv: seq<byte>, token: string)
    requires RoundTrip(aead) && |iv| == IvLength && |key| == KeyLength
    ensures var sealed := aead.seal(key, iv, AadBytes(), utf8.encode(token));
            DecryptSlackToken(aead, utf8, key, EncryptSlackToken(aead, utf8, key, iv, token).value + "0")
              == Throws(OddHexMessage(|HexEncode(sealed.ciphertext)| + 1))
  {
    var sealed := aead.seal(key, iv, AadBytes(), utf8.encode(token));
    assert |sealed.tag| == TagLength;
    EnvelopeWithTrailingDigit(aead, utf8, key, iv, sealed);
  }

  lemma {:induction false} EnvelopeWithTrailingDigit(aead: Aead, utf8: Utf8, key: seq<byte>, iv: seq<byte>, sealed: Sealed)
    requires |iv| > 0 && |key| == KeyLength && ValidTagLength(|sealed.tag|)
    ensures DecryptSlackToken(aead, utf8, key, Envelope(iv, sealed) + "0")
              == Throws(OddHexMessage(|HexEncode(sealed.ciphertext)| + 1))
  {
    var a, b, c, d := HexEncode(AadBytes()), HexEncode(iv), HexEncode(sealed.tag), HexEncode(sealed.ciphertext);
    HexDigitAppended(sealed.ciphertext);
    HexSegmentsSplit(a, b, c, d + "0");
    AppendToLastSegment(a, b, c, d, "0");
    OddCiphertextHexRejected(aead, utf8, key, Envelope(iv, sealed) + "0", iv, sealed.tag, d + "0");
  }

  lemma AppendToLastSegment(a: string, b: string, c: string, d: string, x: string)
    ensures a + ":" + b + ":" + c + ":" + d + x == a + ":" + b + ":" + c + ":" + (d + x)
  {
  }

  /** A hex encoding with one more digit is hex text of odd length. */
  lemma HexDigitAppended(b: seq<byte>)
    ensures IsHexString(HexEncode(b) + "0")
    ensures |HexEncode(b) + "0"| % 2 == 1
  {
    var d := HexEncode(b);
    var e := d + "0";
    forall i | 0 <= i < |e|
      ensures IsHexChar(e[i])
    {
      if i < |d| {
        assert e[i] == d[i];
      } else {
        assert e[i] == '0';
      }
    }
    OddSuccessor(|b|);
  }

  lemma OddSuccessor(n: nat)
    ensures (2 * n + 1) % 2 == 1
  {
  }

  /** An envelope that passes every other check but whose ciphertext hex is odd in
      length throws `update`'s encoding error. */
  lemma {:induction false} OddCiphertextHexRejected(aead: Aead, utf8: Utf8, key: seq<byte>, t: string,
                                                    iv: seq<byte>, tag: seq<byte>, ctHex: string)
    requires Split(t, ':') == [HexEncode(AadBytes()), HexEncode(iv), HexEncode(tag), ctHex]
    requires |iv| > 0 && |key| == KeyLength && ValidTagLength(|tag|) && |ctHex| % 2 == 1
    ensures DecryptSlackToken(aead, utf8, key, t) == Throws(OddHexMessage(|ctHex|))
  {
    HexRoundTrip(AadBytes());
    HexRoundTrip(iv);
    HexRoundTrip(tag);
  }

  /** An envelope whose tag and ciphertext are no truncation of any sealing under the
      key, IV and AAD it carries never decrypts. */
  lemma ForgedEnvelopeRejected(aead: Aead, utf8: Utf8, key: seq<byte>, encryptedToken: string)
    requires Authentic(aead)
    requires var parts := Split(encryptedToken, ':');
             |parts| == 4 &&
             forall p :: var s := aead.seal(key, HexDecode(parts[1]), AadBytes(), p);
                         !(s.ciphertext == HexDecode(parts[3]) && HexDecode(parts[2]) <= s.tag)
    ensures DecryptSlackToken(aead, utf8, key, encryptedToken).Throws?
  {
  }

  /** Whatever is decrypted was sealed: a successful decryption passed every check
      and returns the decoding of bytes whose sealing under the carried IV gives the
      carried ciphertext and a tag that begins with the carried one. */
  lemma DecryptedMeansAuthentic(aead: Aead, utf8: Utf8, key: seq<byte>, encryptedToken: string)
    requires Authentic(aead)
    requires DecryptSlackToken(aead, utf8, key, encryptedToken).Returns?
    ensures var parts := Split(encryptedToken, ':');
            |parts| == 4 && HexDecode(parts[0]) == AadBytes() && |key| == KeyLength &&
            ValidTagLength(|HexDecode(parts[2])|) &&
            exists p :: var s := aead.seal(key, HexDecode(parts[1]), AadBytes(), p);
                        utf8.decode(p) == DecryptSlackToken(aead, utf8, key, encryptedToken).value &&
                        s.ciphertext == HexDecode(parts[3]) && HexDecode(parts[2]) <= s.tag
  {
    var parts := Split(encryptedToken, ':');
    var p := aead.open(key, HexDecode(parts[1]), AadBytes(), HexDecode(parts[2]), HexDecode(parts[3])).value;
    assert aead.seal(key, HexDecode(parts[1]), AadBytes(), p).ciphertext == HexDecode(parts[3]);
  }
}
