/**
 * The "base64url" encoding of section 5 of RFC 4648 (Python's
 * `base64.urlsafe_b64encode`), with `=` padding, and the padding strip the
 * PKCE S256 transformation of section 4.2 of RFC 7636 applies after it.
 */
module Base64Url {

  type byte = x: int | 0 <= x < 256

  /** The URL- and filename-safe alphabet: `-` and `_` in place of `+` and `/`. */
  predicate InAlphabet(x: char) {
    ('A' <= x <= 'Z') || ('a' <= x <= 'z') || ('0' <= x <= '9') || x == '-' || x == '_'
  }

  /** The 6-bit value of an alphabet character (63 for anything else). */
  function DigitValue(c: char): (v: int)
    ensures 0 <= v < 64
  {
    if 'A' <= c <= 'Z' then c as int - 'A' as int
    else if 'a' <= c <= 'z' then c as int - 'a' as int + 26
    else if '0' <= c <= '9' then c as int - '0' as int + 52
    else if c == '-' then 62
    else 63
  }

  /** The alphabet character for a 6-bit value; reading it back gives the value. */
  function Digit(v: int): (c: char)
    requires 0 <= v < 64
    ensures InAlphabet(c) && c != '='
    ensures DigitValue(c) == v
  {
    if v < 26 then ('A' as int + v) as char
    else if v < 52 then ('a' as int + v - 26) as char
    else if v < 62 then ('0' as int + v - 52) as char
    else if v == 62 then '-'
    else '_'
  }

  /** Every character is an alphabet character. */
  predicate AlphabetText(s: string) {
    forall i :: 0 <= i < |s| ==> InAlphabet(s[i])
  }

  /** Every character is an alphabet character or the pad `=`. */
  predicate PaddedText(s: string) {
    forall i :: 0 <= i < |s| ==> InAlphabet(s[i]) || s[i] == '='
  }

  /** A full group: three bytes as four digits of six bits each. */
  function Quad(x: byte, y: byte, z: byte): (q: string)
    ensures |q| == 4 && AlphabetText(q)
  {
    [Digit(x / 4), Digit((x % 4) * 16 + y / 16), Digit((y % 16) * 4 + z / 64), Digit(z % 64)]
  }

  /** A final group of two bytes: three digits, the last with two zero bits. */
  function Pair(x: byte, y: byte): (q: string)
    ensures |q| == 3 && AlphabetText(q)
  {
    [Digit(x / 4), Digit((x % 4) * 16 + y / 16), Digit((y % 16) * 4)]
  }

  /** A final group of one byte: two digits, the last with four zero bits. */
  function Single(x: byte): (q: string)
    ensures |q| == 2 && AlphabetText(q)
  {
    [Digit(x / 4), Digit((x % 4) * 16)]
  }

  /** Python's `base64.urlsafe_b64encode`: four characters per three bytes, the last group padded with `=`. */
  function Encode(b: seq<byte>): (s: string)
    ensures |s| == 4 * ((|b| + 2) / 3)
    ensures PaddedText(s)
    decreases |b|
  {
    if |b| == 0 then ""
    else if |b| == 1 then Single(b[0]) + "=="
    else if |b| == 2 then Pair(b[0], b[1]) + "="
    else Quad(b[0], b[1], b[2]) + Encode(b[3..])
  }

  /** Python's `s.replace(c, "")`. */
  function Remove(s: string, c: char): (r: string)
    ensures c !in r
    ensures |r| <= |s|
    ensures forall x :: x in r ==> x in s
  {
    if |s| == 0 then ""
    else if s[0] == c then Remove(s[1..], c)
    else [s[0]] + Remove(s[1..], c)
  }

  lemma {:induction false} RemoveConcat(a: string, b: string, c: char)
    ensures Remove(a + b, c) == Remove(a, c) + Remove(b, c)
    decreases |a|
  {
    if |a| > 0 {
      assert (a + b)[1..] == a[1..] + b;
      RemoveConcat(a[1..], b, c);
    } else {
      assert a + b == b;
    }
  }

  lemma {:induction false} RemoveAbsent(s: string, c: char)
    requires c !in s
    ensures Remove(s, c) == s
    decreases |s|
  {
    if |s| > 0 {
      RemoveAbsent(s[1..], c);
      assert s == [s[0]] + s[1..];
    }
  }

  /** Base64url without padding, as `urlsafe_b64encode(b).replace("=", "")` produces it. */
  function EncodeNoPad(b: seq<byte>): (s: string)
  {
    Remove(Encode(b), '=')
  }

  /** The `=` characters a padded encoding of `n` bytes ends with. */
  function Padding(n: nat): string {
    if n % 3 == 1 then "==" else if n % 3 == 2 then "=" else ""
  }

  /** Stripping `=` from a pad-free group followed by more text strips only the text. */
  lemma StripAfterGroup(g: string, rest: string)
    requires AlphabetText(g)
    ensures Remove(g + rest, '=') == g + Remove(rest, '=')
  {
    forall i | 0 <= i < |g|
      ensures g[i] != '='
    {
      assert InAlphabet(g[i]);
    }
    RemoveConcat(g, rest, '=');
    RemoveAbsent(g, '=');
  }

  /** The padded encoding is the unpadded one followed by the padding its length implies. */
  lemma {:induction false} EncodeIsNoPadPlusPadding(b: seq<byte>)
    ensures Encode(b) == EncodeNoPad(b) + Padding(|b|)
    decreases |b|
  {
    if |b| == 1 {
      StripAfterGroup(Single(b[0]), "==");
    } else if |b| == 2 {
      StripAfterGroup(Pair(b[0], b[1]), "=");
    } else if |b| >= 3 {
      EncodeIsNoPadPlusPadding(b[3..]);
      GroupThenRest(b);
    }
  }

  /** One step of the induction: a full group passes through the strip unchanged. */
  lemma GroupThenRest(b: seq<byte>)
    requires |b| >= 3
    requires Encode(b[3..]) == EncodeNoPad(b[3..]) + Padding(|b| - 3)
    ensures Encode(b) == EncodeNoPad(b) + Padding(|b|)
  {
    var q := Quad(b[0], b[1], b[2]);
    EncodeStep(b);
    StripAfterGroup(q, Encode(b[3..]));
    PaddingStep(|b|);
    Regroup(q, EncodeNoPad(b[3..]), Padding(|b|));
  }

  lemma EncodeStep(b: seq<byte>)
    requires |b| >= 3
    ensures Encode(b) == Quad(b[0], b[1], b[2]) + Encode(b[3..])
  {
  }

  lemma PaddingStep(n: nat)
    requires n >= 3
    ensures Padding(n) == Padding(n - 3)
  {
  }

  lemma Regroup(q: string, n: string, p: string)
    ensures q + (n + p) == (q + n) + p
  {
  }

  /**
   * Stripping the padding leaves `ceil(4n / 3)` characters, none of them `=`:
   * 43 characters for a 32-byte SHA-256 digest.
   */
  lemma EncodeNoPadLength(b: seq<byte>)
    ensures |EncodeNoPad(b)| == (4 * |b| + 2) / 3
    ensures forall x :: x in EncodeNoPad(b) ==> InAlphabet(x)
  {
    EncodeIsNoPadPlusPadding(b);
    assert |Encode(b)| == |EncodeNoPad(b)| + |Padding(|b|)|;
    PaddedLength(|b|);
  }

  /** Four characters per started group, less the padding, is `ceil(4n / 3)`. */
  lemma PaddedLength(n: nat)
    ensures 4 * ((n + 2) / 3) - |Padding(n)| == (4 * n + 2) / 3
  {
    var k := n / 3;
    assert n == 3 * k + n % 3;
    if n % 3 == 0 {
      assert (n + 2) / 3 == k && (4 * n + 2) / 3 == 4 * k;
    } else if n % 3 == 1 {
      assert (n + 2) / 3 == k + 1 && (4 * n + 2) / 3 == 4 * k + 2;
    } else {
      assert (n + 2) / 3 == k + 1 && (4 * n + 2) / 3 == 4 * k + 3;
    }
  }
  lemma DigestChallengeLength(digest: seq<byte>)
    requires |digest| == 32
    ensures |EncodeNoPad(digest)| == 43
  {
    EncodeNoPadLength(digest);
  }

  /** The first byte of a group, from its first two digits. */
  function Byte0(c0: char, c1: char): byte {
    DigitValue(c0) * 4 + DigitValue(c1) / 16
  }

  /** The second byte of a group, from its second and third digits. */
  function Byte1(c1: char, c2: char): byte {
    (DigitValue(c1) % 16) * 16 + DigitValue(c2) / 4
  }

  /** The third byte of a group, from its last two digits. */
  function Byte2(c2: char, c3: char): byte {
    (DigitValue(c2) % 4) * 64 + DigitValue(c3)
  }

  /**
   * Reading base64url text back, four characters at a time: a group ending in
   * `==` holds one byte, one ending in `=` two, any other three.
   */
  function Decode(s: string): seq<byte>
    decreases |s|
  {
    if |s| < 4 then []
    else if s[2] == '=' then [Byte0(s[0], s[1])]
    else if s[3] == '=' then [Byte0(s[0], s[1]), Byte1(s[1], s[2])]
    else [Byte0(s[0], s[1]), Byte1(s[1], s[2]), Byte2(s[2], s[3])] + Decode(s[4..])
  }

  /** The bytes of a full group survive the split into four digits. */
  lemma QuadRoundTrip(x: byte, y: byte, z: byte)
    ensures var q := Quad(x, y, z);
      Byte0(q[0], q[1]) == x && Byte1(q[1], q[2]) == y && Byte2(q[2], q[3]) == z
  {
    assert ((x % 4) * 16 + y / 16) / 16 == x % 4;
    assert ((x % 4) * 16 + y / 16) % 16 == y / 16;
    assert ((y % 16) * 4 + z / 64) / 4 == y % 16;
    assert ((y % 16) * 4 + z / 64) % 4 == z / 64;
  }

  /** The bytes of a final two-byte group survive. */
  lemma PairRoundTrip(x: byte, y: byte)
    ensures var q := Pair(x, y);
      Byte0(q[0], q[1]) == x && Byte1(q[1], q[2]) == y
  {
    assert ((x % 4) * 16 + y / 16) / 16 == x % 4;
    assert ((x % 4) * 16 + y / 16) % 16 == y / 16;
    assert ((y % 16) * 4) / 4 == y % 16;
  }

  /** Decoding inverts encoding. */
  lemma {:induction false} DecodeEncode(b: seq<byte>)
    ensures Decode(Encode(b)) == b
    decreases |b|
  {
    if |b| == 1 {
      DecodeSingle(b[0]);
    } else if |b| == 2 {
      DecodePair(b[0], b[1]);
    } else if |b| >= 3 {
      DecodeEncode(b[3..]);
      DecodeGroupThenRest(b);
    }
  }

  lemma DecodeSingle(x: byte)
    ensures Decode(Encode([x])) == [x]
  {
    var s := Single(x) + "==";
    assert Encode([x]) == s;
    assert s[2] == '=';
    assert ((x % 4) * 16) / 16 == x % 4;
  }

  lemma DecodePair(x: byte, y: byte)
    ensures Decode(Encode([x, y])) == [x, y]
  {
    var s := Pair(x, y) + "=";
    assert Encode([x, y]) == s;
    PairRoundTrip(x, y);
    assert s[2] != '=' && s[3] == '=';
  }

  /** One step of the induction: a full group decodes to its three bytes. */
  lemma DecodeGroupThenRest(b: seq<byte>)
    requires |b| >= 3
    requires Decode(Encode(b[3..])) == b[3..]
    ensures Decode(Encode(b)) == b
  {
    var x, y, z, tail := b[0], b[1], b[2], b[3..];
    var q := Quad(x, y, z);
    EncodeStep(b);
    QuadRoundTrip(x, y, z);
    DecodeStep(q, Encode(tail));
    assert Decode(Encode(b)) == [x, y, z] + tail;
    Unprepend3(b);
  }

  lemma Unprepend3(b: seq<byte>)
    requires |b| >= 3
    ensures [b[0], b[1], b[2]] + b[3..] == b
  {
  }

  /** A pad-free group at the front decodes to three bytes ahead of the rest. */
  lemma DecodeStep(q: string, rest: string)
    requires |q| == 4 && AlphabetText(q)
    ensures Decode(q + rest) ==
      [Byte0(q[0], q[1]), Byte1(q[1], q[2]), Byte2(q[2], q[3])] + Decode(rest)
  {
    var s := q + rest;
    assert InAlphabet(q[2]) && InAlphabet(q[3]);
    assert s[4..] == rest;
  }

  /** Distinct byte strings have distinct encodings. */
  lemma EncodeInjective(a: seq<byte>, b: seq<byte>)
    requires Encode(a) == Encode(b)
    ensures a == b
  {
    DecodeEncode(a);
    DecodeEncode(b);
  }

  /** Longer byte strings have longer unpadded encodings. */
  lemma NoPadLengthIncreasing(m: nat, n: nat)
    ensures (4 * m + 2) / 3 == (4 * n + 2) / 3 ==> m == n
  {
    if m < n {
      assert 4 * m + 2 + 3 < 4 * n + 2 + 1;
    } else if n < m {
      assert 4 * n + 2 + 3 < 4 * m + 2 + 1;
    }
  }

  /**
   * Stripping the padding loses nothing: equal unpadded encodings come from
   * equal byte strings, so comparing S256 challenges compares digests.
   */
  lemma EncodeNoPadInjective(a: seq<byte>, b: seq<byte>)
    requires EncodeNoPad(a) == EncodeNoPad(b)
    ensures a == b
  {
    EncodeNoPadLength(a);
    EncodeNoPadLength(b);
    NoPadLengthIncreasing(|a|, |b|);
    EncodeIsNoPadPlusPadding(a);
    EncodeIsNoPadPlusPadding(b);
    EncodeInjective(a, b);
  }
}
