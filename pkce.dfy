/** The PKCE helpers of app.js: `sha256`, `createVerifier` and
    `createChallenge`, checked against the `S256` method of RFC 7636. */
module Pkce {
  import opened Base64

  /** A SHA-256 digest: always 32 octets. */
  type Digest = d: seq<byte> | |d| == 32 witness seq(32, _ => 0)

  /** `sha256` of app.js (`crypto.createHash('sha256').update(buffer).digest()`).
      The hash itself is not modelled: every function here takes it as a
      parameter, and nothing is assumed of it beyond its 32-octet result. */
  type Sha256 = seq<byte> -> Digest

  // ---------------------------------------------------------------------
  // What Node feeds to the hash: `hash.update(string)` encodes the
  // string as UTF-8
  // ---------------------------------------------------------------------

  /** UTF-8 encoding of one Unicode scalar value (section 3 of RFC 3629). */
  function Utf8Char(c: char): (b: seq<byte>)
    ensures 1 <= |b| <= 4
    ensures (c as int < 0x80) == (|b| == 1)
  {
    var n := c as int;
    if n < 0x80 then [n]
    else if n < 0x800 then [0xC0 + n / 0x40, 0x80 + n % 0x40]
    else if n < 0x1_0000 then [0xE0 + n / 0x1000, 0x80 + n / 0x40 % 0x40, 0x80 + n % 0x40]
    else [0xF0 + n / 0x4_0000, 0x80 + n / 0x1000 % 0x40, 0x80 + n / 0x40 % 0x40, 0x80 + n % 0x40]
  }

  /** UTF-8 encoding of a string, character after character. */
  function Utf8(s: string): (b: seq<byte>)
    ensures |b| >= |s|
    ensures |b| == |s| <==> IsAscii(s)
  {
    if s == [] then [] else Utf8Char(s[0]) + Utf8(s[1..])
  }

  /** ASCII(s) of RFC 7636: the octets of a string all of whose characters are ASCII. */
  predicate IsAscii(s: string) {
    forall i :: 0 <= i < |s| ==> s[i] as int < 0x80
  }

  function Ascii(s: string): (b: seq<byte>)
    requires IsAscii(s)
    ensures |b| == |s|
  {
    seq(|s|, i requires 0 <= i < |s| => s[i] as int)
  }

  /** On ASCII text, the UTF-8 that Node hashes is exactly ASCII(s). */
  lemma {:induction false} Utf8OfAscii(s: string)
    requires IsAscii(s)
    ensures Utf8(s) == Ascii(s)
  {
    if s != [] {
      Utf8OfAscii(s[1..]);
      assert Ascii(s) == [s[0] as int] + Ascii(s[1..]);
    }
  }

  // ---------------------------------------------------------------------
  // RFC 7636, section 4.1: what a code verifier is
  // ---------------------------------------------------------------------

  /** The unreserved characters of section 4.1 of RFC 7636. */
  predicate IsUnreserved(c: char) {
    IsUrlChar(c) || c == '.' || c == '~'
  }

  /** A code verifier: 43 to 128 unreserved characters. */
  predicate IsCodeVerifier(v: string) {
    43 <= |v| <= 128 && forall i :: 0 <= i < |v| ==> IsUnreserved(v[i])
  }

  lemma UrlTextIsAscii(s: string)
    requires forall i :: 0 <= i < |s| ==> IsUrlChar(s[i])
    ensures IsAscii(s)
  {
  }

  // ---------------------------------------------------------------------
  // The helpers of app.js
  // ---------------------------------------------------------------------

  /** `createVerifier`: base64url of the 32 octets from `crypto.randomBytes(32)`. */
  function CreateVerifier(random: seq<byte>): (v: string)
    requires |random| == 32
    ensures v == UrlEncode(random)
    ensures |v| == 43
    ensures IsCodeVerifier(v)
    ensures forall i :: 0 <= i < |v| ==> IsUrlChar(v[i])
  {
    Base64UrlEncode(random)
  }

  /** The verifier keeps every one of the 32 random octets: different
      octets never give the same verifier. */
  lemma VerifierKeepsRandom(r1: seq<byte>, r2: seq<byte>)
    requires |r1| == 32 && |r2| == 32
    ensures CreateVerifier(r1) == CreateVerifier(r2) <==> r1 == r2
  {
    UrlEncodeInjective(r1, r2);
  }

  /** `createChallenge`: base64url of the SHA-256 of the verifier's UTF-8 octets. */
  function CreateChallenge(sha256: Sha256, verifier: string): (c: string)
    ensures |c| == 43
    ensures forall i :: 0 <= i < |c| ==> IsUrlChar(c[i])
    ensures c == UrlEncode(sha256(Utf8(verifier)))
  {
    Base64UrlEncode(sha256(Utf8(verifier)))
  }

  /** Section 4.2 of RFC 7636, method `S256`:
      code_challenge = BASE64URL-ENCODE(SHA256(ASCII(code_verifier))).
      Every verifier app.js creates has its challenge computed this way. */
  lemma ChallengeIsS256(sha256: Sha256, random: seq<byte>)
    requires |random| == 32
    ensures var v := CreateVerifier(random);
      IsAscii(v) && CreateChallenge(sha256, v) == UrlEncode(sha256(Ascii(v)))
  {
    var v := CreateVerifier(random);
    UrlTextIsAscii(v);
    Utf8OfAscii(v);
  }

  /** The challenge is a function of the verifier's digest and of nothing
      else, and it keeps all of it: two verifiers give the same challenge
      exactly when their digests agree. */
  lemma ChallengeBindsDigest(sha256: Sha256, v1: string, v2: string)
    ensures CreateChallenge(sha256, v1) == CreateChallenge(sha256, v2)
        <==> sha256(Utf8(v1)) == sha256(Utf8(v2))
  {
    UrlEncodeInjective(sha256(Utf8(v1)), sha256(Utf8(v2)));
  }
}
