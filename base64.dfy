/** Base64 as Node's `Buffer.prototype.toString('base64')` produces it
    (section 4 of RFC 4648, padded), the three `replace` passes with which
    app.js turns it into URL-safe text, and the unpadded "base64url"
    encoding of section 5 of RFC 4648 that those passes are meant to yield. */
module Base64 {

  /** One octet of a Node `Buffer`. */
  type byte = x: int | 0 <= x < 256

  // ---------------------------------------------------------------------
  // Alphabets
  // ---------------------------------------------------------------------

  /** Table 1 of RFC 4648: the standard alphabet, sextet value to character. */
  function StdChar(i: int): char
    requires 0 <= i < 64
  {
    if i < 26 then ('A' as int + i) as char
    else if i < 52 then ('a' as int + (i - 26)) as char
    else if i < 62 then ('0' as int + (i - 52)) as char
    else if i == 62 then '+'
    else '/'
  }

  /** Table 2 of RFC 4648: the URL and filename safe alphabet. */
  function UrlChar(i: int): char
    requires 0 <= i < 64
  {
    if i < 26 then ('A' as int + i) as char
    else if i < 52 then ('a' as int + (i - 26)) as char
    else if i < 62 then ('0' as int + (i - 52)) as char
    else if i == 62 then '-'
    else '_'
  }

  /** The 64 characters of Table 2. */
  predicate IsUrlChar(c: char) {
    ('A' <= c <= 'Z') || ('a' <= c <= 'z') || ('0' <= c <= '9') || c == '-' || c == '_'
  }

  /** Table 2 read backwards: the sextet value a URL-safe character stands for. */
  function UrlIndex(c: char): (i: int)
    requires IsUrlChar(c)
    ensures 0 <= i < 64 && UrlChar(i) == c
  {
    if 'A' <= c <= 'Z' then c as int - 'A' as int
    else if 'a' <= c <= 'z' then c as int - 'a' as int + 26
    else if '0' <= c <= '9' then c as int - '0' as int + 52
    else if c == '-' then 62
    else 63
  }

  lemma UrlCharRoundTrip(i: int)
    requires 0 <= i < 64
    ensures IsUrlChar(UrlChar(i)) && UrlIndex(UrlChar(i)) == i
  {
  }

  // ---------------------------------------------------------------------
  // Splitting three octets into four sextets (section 4 of RFC 4648)
  // ---------------------------------------------------------------------

  /** High six bits of the first octet. */
  function Sextet0(b0: byte): (r: int)
    ensures 0 <= r < 64
  {
    b0 / 4
  }

  /** Low two bits of the first octet, then high four bits of the second. */
  function Sextet1(b0: byte, b1: byte): (r: int)
    ensures 0 <= r < 64
  {
    (b0 % 4) * 16 + b1 / 16
  }

  /** Low four bits of the second octet, then high two bits of the third. */
  function Sextet2(b1: byte, b2: byte): (r: int)
    ensures 0 <= r < 64
  {
    (b1 % 16) * 4 + b2 / 64
  }

  /** Low six bits of the third octet. */
  function Sextet3(b2: byte): (r: int)
    ensures 0 <= r < 64
  {
    b2 % 64
  }

  /** Lengths after one more group of three octets. */
  lemma LengthStep(n: nat)
    requires n >= 3
    ensures 4 * ((n + 2) / 3) == 4 + 4 * ((n - 3 + 2) / 3)
    ensures (4 * n + 2) / 3 == 4 + (4 * (n - 3) + 2) / 3
    ensures ((4 * n + 2) / 3) % 4 == ((4 * (n - 3) + 2) / 3) % 4
  {
  }

  // ---------------------------------------------------------------------
  // Node's padded encoding
  // ---------------------------------------------------------------------

  /** `buffer.toString('base64')`: every group of three octets becomes four
      characters of Table 1; a final group of one or two octets is filled
      with zero bits and padded with `=` to four characters. */
  function Encode(b: seq<byte>): (s: string)
    ensures |s| == 4 * ((|b| + 2) / 3)
    decreases |b|
  {
    if |b| == 0 then ""
    else if |b| == 1 then
      [StdChar(Sextet0(b[0])), StdChar(Sextet1(b[0], 0)), '=', '=']
    else if |b| == 2 then
      [StdChar(Sextet0(b[0])), StdChar(Sextet1(b[0], b[1])), StdChar(Sextet2(b[1], 0)), '=']
    else
      LengthStep(|b|);
      [StdChar(Sextet0(b[0])), StdChar(Sextet1(b[0], b[1])), StdChar(Sextet2(b[1], b[2])), StdChar(Sextet3(b[2]))]
      + Encode(b[3..])
  }

  // ---------------------------------------------------------------------
  // The rewrite passes of app.js
  // ---------------------------------------------------------------------

  /** `s.replace(/x/g, y)` for a one-character pattern `x` and replacement `y`. */
  function ReplaceAll(s: string, x: char, y: char): (r: string)
    ensures |r| == |s|
    ensures forall i :: 0 <= i < |s| ==> r[i] == (if s[i] == x then y else s[i])
  {
    if s == [] then [] else [if s[0] == x then y else s[0]] + ReplaceAll(s[1..], x, y)
  }

  /** `s.replace(/x/g, '')`: every occurrence of `x` deleted, the rest kept in order. */
  function RemoveAll(s: string, x: char): (r: string)
    ensures x !in r
    ensures multiset(r) == multiset(s)[x := 0]
    ensures |r| == |s| - multiset(s)[x]
    ensures forall c :: c in r ==> c in s
  {
    if s == [] then []
    else
      assert s == [s[0]] + s[1..];
      (if s[0] == x then [] else [s[0]]) + RemoveAll(s[1..], x)
  }

  /** Deleting distributes over concatenation, so the characters that stay
      keep their order. */
  lemma {:induction false} RemoveAllAppend(a: string, b: string, x: char)
    ensures RemoveAll(a + b, x) == RemoveAll(a, x) + RemoveAll(b, x)
  {
    if a == [] {
      assert a + b == b;
    } else {
      assert (a + b)[1..] == a[1..] + b;
      RemoveAllAppend(a[1..], b, x);
    }
  }

  /** The chain `.replace(/\+/g, '-').replace(/\//g, '_').replace(/=/g, '')`. */
  function UrlSafe(s: string): (r: string)
    ensures '+' !in r && '/' !in r && '=' !in r
  {
    RemoveAll(ReplaceAll(ReplaceAll(s, '+', '-'), '/', '_'), '=')
  }

  /** `base64URLEncode`: Node's padded base64, then the three rewrite passes. */
  function Base64UrlEncode(b: seq<byte>): (s: string)
    ensures '+' !in s && '/' !in s && '=' !in s
    ensures s == UrlEncode(b)
  {
    UrlSafeMatchesRfc(b);
    UrlSafe(Encode(b))
  }

  // ---------------------------------------------------------------------
  // The chain is a character-wise rewrite
  // ---------------------------------------------------------------------

  /** What the chain does to one character. */
  function RewriteChar(c: char): string {
    if c == '+' then "-" else if c == '/' then "_" else if c == '=' then "" else [c]
  }

  /** Rewrite every character independently, keeping their order. */
  function Charwise(s: string): string {
    if s == [] then [] else RewriteChar(s[0]) + Charwise(s[1..])
  }

  lemma {:induction false} CharwiseAppend(a: string, b: string)
    ensures Charwise(a + b) == Charwise(a) + Charwise(b)
  {
    if a == [] {
      assert a + b == b;
    } else {
      assert (a + b)[1..] == a[1..] + b;
      CharwiseAppend(a[1..], b);
    }
  }

  /** The three passes of the chain, taken together, rewrite `+` to `-`,
      `/` to `_`, delete `=` and keep every other character in place. */
  lemma {:induction false} UrlSafeIsCharwise(s: string)
    ensures UrlSafe(s) == Charwise(s)
  {
    if s != [] {
      UrlSafeIsCharwise(s[1..]);
      var p := ReplaceAll(s, '+', '-');
      var q := ReplaceAll(p, '/', '_');
      assert ReplaceAll(s, '+', '-') == [p[0]] + ReplaceAll(s[1..], '+', '-');
      assert p[1..] == ReplaceAll(s[1..], '+', '-');
      assert q == [q[0]] + ReplaceAll(p[1..], '/', '_');
      assert q[1..] == ReplaceAll(p[1..], '/', '_');
      assert RemoveAll(q, '=') == (if q[0] == '=' then [] else [q[0]]) + RemoveAll(q[1..], '=');
    }
  }

  // ---------------------------------------------------------------------
  // The reference: unpadded base64url (section 5 of RFC 4648, and
  // Appendix A of RFC 7636)
  // ---------------------------------------------------------------------

  /** Base64url without padding, written directly from Table 2: a final
      group of one octet gives two characters, of two octets three. */
  function UrlEncode(b: seq<byte>): (s: string)
    ensures |s| == (4 * |b| + 2) / 3
    ensures |s| % 4 != 1
    ensures forall i :: 0 <= i < |s| ==> IsUrlChar(s[i])
    decreases |b|
  {
    if |b| == 0 then ""
    else if |b| == 1 then
      [UrlChar(Sextet0(b[0])), UrlChar(Sextet1(b[0], 0))]
    else if |b| == 2 then
      [UrlChar(Sextet0(b[0])), UrlChar(Sextet1(b[0], b[1])), UrlChar(Sextet2(b[1], 0))]
    else
      LengthStep(|b|);
      [UrlChar(Sextet0(b[0])), UrlChar(Sextet1(b[0], b[1])), UrlChar(Sextet2(b[1], b[2])), UrlChar(Sextet3(b[2]))]
      + UrlEncode(b[3..])
  }

  lemma RewriteStdChar(i: int)
    requires 0 <= i < 64
    ensures RewriteChar(StdChar(i)) == [UrlChar(i)]
  {
  }

  lemma CharwiseSingle(c: char)
    ensures Charwise([c]) == RewriteChar(c)
  {
    assert [c][1..] == [];
  }

  lemma CharwiseFour(a: char, b: char, c: char, d: char)
    ensures Charwise([a, b, c, d]) == RewriteChar(a) + RewriteChar(b) + RewriteChar(c) + RewriteChar(d)
  {
    assert [a, b, c, d] == [a] + [b] + [c] + [d];
    CharwiseAppend([a] + [b] + [c], [d]);
    CharwiseAppend([a] + [b], [c]);
    CharwiseAppend([a], [b]);
    CharwiseSingle(a);
    CharwiseSingle(b);
    CharwiseSingle(c);
    CharwiseSingle(d);
  }

  /** A full group of four standard characters rewrites to the same group in Table 2. */
  lemma CharwiseGroup(s0: int, s1: int, s2: int, s3: int)
    requires 0 <= s0 < 64 && 0 <= s1 < 64 && 0 <= s2 < 64 && 0 <= s3 < 64
    ensures Charwise([StdChar(s0), StdChar(s1), StdChar(s2), StdChar(s3)])
         == [UrlChar(s0), UrlChar(s1), UrlChar(s2), UrlChar(s3)]
  {
    CharwiseFour(StdChar(s0), StdChar(s1), StdChar(s2), StdChar(s3));
    RewriteStdChar(s0);
    RewriteStdChar(s1);
    RewriteStdChar(s2);
    RewriteStdChar(s3);
  }

  /** A final group padded with `==` loses its padding. */
  lemma CharwiseTailOne(s0: int, s1: int)
    requires 0 <= s0 < 64 && 0 <= s1 < 64
    ensures Charwise([StdChar(s0), StdChar(s1), '=', '=']) == [UrlChar(s0), UrlChar(s1)]
  {
    CharwiseFour(StdChar(s0), StdChar(s1), '=', '=');
    RewriteStdChar(s0);
    RewriteStdChar(s1);
  }

  /** A final group padded with `=` loses its padding. */
  lemma CharwiseTailTwo(s0: int, s1: int, s2: int)
    requires 0 <= s0 < 64 && 0 <= s1 < 64 && 0 <= s2 < 64
    ensures Charwise([StdChar(s0), StdChar(s1), StdChar(s2), '=']) == [UrlChar(s0), UrlChar(s1), UrlChar(s2)]
  {
    CharwiseFour(StdChar(s0), StdChar(s1), StdChar(s2), '=');
    RewriteStdChar(s0);
    RewriteStdChar(s1);
    RewriteStdChar(s2);
  }

  /** Rewriting Node's padded output character by character gives exactly
      the unpadded base64url encoding. */
  lemma {:induction false} CharwiseEncode(b: seq<byte>)
    ensures Charwise(Encode(b)) == UrlEncode(b)
    decreases |b|
  {
    if |b| == 1 {
      CharwiseTailOne(Sextet0(b[0]), Sextet1(b[0], 0));
    } else if |b| == 2 {
      CharwiseTailTwo(Sextet0(b[0]), Sextet1(b[0], b[1]), Sextet2(b[1], 0));
    } else if |b| >= 3 {
      var s0, s1, s2, s3 := Sextet0(b[0]), Sextet1(b[0], b[1]), Sextet2(b[1], b[2]), Sextet3(b[2]);
      var group := [StdChar(s0), StdChar(s1), StdChar(s2), StdChar(s3)];
      assert Encode(b) == group + Encode(b[3..]);
      CharwiseAppend(group, Encode(b[3..]));
      CharwiseGroup(s0, s1, s2, s3);
      CharwiseEncode(b[3..]);
    }
  }

  /** app.js's `base64URLEncode` is the unpadded base64url of RFC 4648. */
  lemma UrlSafeMatchesRfc(b: seq<byte>)
    ensures UrlSafe(Encode(b)) == UrlEncode(b)
  {
    UrlSafeIsCharwise(Encode(b));
    CharwiseEncode(b);
  }

  // ---------------------------------------------------------------------
  // The encoding loses nothing: a decoder and the round trip
  // ---------------------------------------------------------------------

  /** The first octet of a group, from its first two sextets. */
  function Octet0(c0: int, c1: int): (b: byte)
    requires 0 <= c0 < 64 && 0 <= c1 < 64
  {
    c0 * 4 + c1 / 16
  }

  /** The second octet of a group, from its second and third sextets. */
  function Octet1(c1: int, c2: int): (b: byte)
    requires 0 <= c1 < 64 && 0 <= c2 < 64
  {
    (c1 % 16) * 16 + c2 / 4
  }

  /** The third octet of a group, from its last two sextets. */
  function Octet2(c2: int, c3: int): (b: byte)
    requires 0 <= c2 < 64 && 0 <= c3 < 64
  {
    (c2 % 4) * 64 + c3
  }

  /** Decoding of unpadded base64url text; two characters give one octet,
      three give two, four give three. */
  function UrlDecode(s: string): (b: seq<byte>)
    requires |s| % 4 != 1
    requires forall i :: 0 <= i < |s| ==> IsUrlChar(s[i])
    decreases |s|
  {
    if |s| == 0 then []
    else if |s| == 2 then [Octet0(UrlIndex(s[0]), UrlIndex(s[1]))]
    else if |s| == 3 then [Octet0(UrlIndex(s[0]), UrlIndex(s[1])), Octet1(UrlIndex(s[1]), UrlIndex(s[2]))]
    else
      [Octet0(UrlIndex(s[0]), UrlIndex(s[1])), Octet1(UrlIndex(s[1]), UrlIndex(s[2])), Octet2(UrlIndex(s[2]), UrlIndex(s[3]))]
      + UrlDecode(s[4..])
  }

  lemma SextetsRecombine(b0: byte, b1: byte, b2: byte)
    ensures Octet0(Sextet0(b0), Sextet1(b0, b1)) == b0
    ensures Octet1(Sextet1(b0, b1), Sextet2(b1, b2)) == b1
    ensures Octet2(Sextet2(b1, b2), Sextet3(b2)) == b2
  {
  }

  lemma GroupKeepsRemainder(n: nat)
    ensures (4 + n) % 4 == n % 4
  {
  }

  /** Text made of a full group of four characters in front of decodable text is decodable. */
  lemma DecodableGroup(group: string, rest: string)
    requires |group| == 4 && forall i :: 0 <= i < 4 ==> IsUrlChar(group[i])
    requires |rest| % 4 != 1 && forall i :: 0 <= i < |rest| ==> IsUrlChar(rest[i])
    ensures |group + rest| % 4 != 1 && forall i :: 0 <= i < |group + rest| ==> IsUrlChar((group + rest)[i])
    ensures (group + rest)[4..] == rest
  {
    GroupKeepsRemainder(|rest|);
    assert (group + rest)[4..] == rest;
  }

  /** Decoding one full group of four characters in front of the rest. */
  lemma DecodeGroup(b0: byte, b1: byte, b2: byte, rest: string)
    requires |rest| % 4 != 1
    requires forall i :: 0 <= i < |rest| ==> IsUrlChar(rest[i])
    ensures var group := [UrlChar(Sextet0(b0)), UrlChar(Sextet1(b0, b1)), UrlChar(Sextet2(b1, b2)), UrlChar(Sextet3(b2))];
      UrlDecode(group + rest) == [b0, b1, b2] + UrlDecode(rest)
  {
    var c0, c1, c2, c3 := Sextet0(b0), Sextet1(b0, b1), Sextet2(b1, b2), Sextet3(b2);
    var group := [UrlChar(c0), UrlChar(c1), UrlChar(c2), UrlChar(c3)];
    UrlCharRoundTrip(c0);
    UrlCharRoundTrip(c1);
    UrlCharRoundTrip(c2);
    UrlCharRoundTrip(c3);
    DecodableGroup(group, rest);
    var s := group + rest;
    assert UrlIndex(s[0]) == c0 && UrlIndex(s[1]) == c1 && UrlIndex(s[2]) == c2 && UrlIndex(s[3]) == c3;
    assert UrlDecode(s) == [Octet0(c0, c1), Octet1(c1, c2), Octet2(c2, c3)] + UrlDecode(rest);
    SextetsRecombine(b0, b1, b2);
  }

  /** Decoding the two-character final group. */
  lemma DecodeTailOne(b0: byte)
    ensures UrlDecode(UrlEncode([b0])) == [b0]
  {
    var c0, c1 := Sextet0(b0), Sextet1(b0, 0);
    UrlCharRoundTrip(c0);
    UrlCharRoundTrip(c1);
    assert UrlDecode(UrlEncode([b0])) == [Octet0(c0, c1)];
    SextetsRecombine(b0, 0, 0);
  }

  /** Decoding the three-character final group. */
  lemma DecodeTailTwo(b0: byte, b1: byte)
    ensures UrlDecode(UrlEncode([b0, b1])) == [b0, b1]
  {
    var c0, c1, c2 := Sextet0(b0), Sextet1(b0, b1), Sextet2(b1, 0);
    UrlCharRoundTrip(c0);
    UrlCharRoundTrip(c1);
    UrlCharRoundTrip(c2);
    assert UrlDecode(UrlEncode([b0, b1])) == [Octet0(c0, c1), Octet1(c1, c2)];
    SextetsRecombine(b0, b1, 0);
  }

  /** One step of the round trip: the first group decodes to the first three octets. */
  lemma DecodeStep(b: seq<byte>)
    requires |b| >= 3
    ensures UrlDecode(UrlEncode(b)) == [b[0], b[1], b[2]] + UrlDecode(UrlEncode(b[3..]))
  {
    var rest := UrlEncode(b[3..]);
    var group := [UrlChar(Sextet0(b[0])), UrlChar(Sextet1(b[0], b[1])), UrlChar(Sextet2(b[1], b[2])), UrlChar(Sextet3(b[2]))];
    assert UrlEncode(b) == group + rest;
    DecodeGroup(b[0], b[1], b[2], rest);
  }

  /** Decoding undoes the encoding. */
  lemma {:induction false} UrlDecodeEncode(b: seq<byte>)
    ensures UrlDecode(UrlEncode(b)) == b
    decreases |b|
  {
    if |b| == 0 {
    } else if |b| == 1 {
      assert b == [b[0]];
      DecodeTailOne(b[0]);
    } else if |b| == 2 {
      assert b == [b[0], b[1]];
      DecodeTailTwo(b[0], b[1]);
    } else {
      DecodeStep(b);
      UrlDecodeEncode(b[3..]);
      assert b == [b[0], b[1], b[2]] + b[3..];
    }
  }

  /** Distinct octet strings have distinct base64url encodings. */
  lemma UrlEncodeInjective(a: seq<byte>, b: seq<byte>)
    ensures UrlEncode(a) == UrlEncode(b) <==> a == b
  {
    UrlDecodeEncode(a);
    UrlDecodeEncode(b);
  }
}
