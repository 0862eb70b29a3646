/**
 * The hexadecimal form of a SHA-256 digest, as the upload code writes it:
 * `bytes.map(b => b.toString(16).padStart(2, "0")).join("")`.
 * The digest itself is computed outside this model.
 */
module Hex {
  import opened Text

  type byte = x: nat | x < 256

  /** `b.toString(16).padStart(2, "0")` */
  function HexByte(b: byte): string {
    PadStart(ToRadix(b, 16), 2, '0')
  }

  /** The two lower-case hex digits of a byte, high nibble first. */
  function HexPair(b: byte): string {
    [DigitChar(b / 16), DigitChar(b % 16)]
  }

  /** `b.toString(16).padStart(2, "0")` is always exactly the two-digit form of the byte. */
  lemma HexByteDigits(b: byte)
    ensures HexByte(b) == HexPair(b)
  {
    var digits := ToRadix(b, 16);
    if b < 16 {
      assert digits == [DigitChar(b)];
      assert b / 16 == 0 && b % 16 == b;
      assert Repeat('0', 1) == [DigitChar(0)];
      assert HexByte(b) == Repeat('0', 1) + digits;
    } else {
      DivideByBase(b, 16);
      assert b / 16 < 16;
      assert ToRadix(b / 16, 16) == [DigitChar(b / 16)];
      assert digits == [DigitChar(b / 16)] + [DigitChar(b % 16)];
      assert HexByte(b) == digits;
    }
  }

  /**
   * The digest as a hex string: the join of `HexByte` over the bytes, each piece written in its
   * two-digit form (HexByteDigits shows the two are the same string).
   */
  function HexDigest(bytes: seq<byte>): (r: string)
    ensures |r| == 2 * |bytes|
  {
    if bytes == [] then "" else HexPair(bytes[0]) + HexDigest(bytes[1..])
  }

  /** Byte `i` of the input is written at positions 2i and 2i+1. */
  lemma {:induction false} HexDigestAt(bytes: seq<byte>, i: nat)
    requires i < |bytes|
    ensures HexDigest(bytes)[2 * i] == DigitChar(bytes[i] / 16)
    ensures HexDigest(bytes)[2 * i + 1] == DigitChar(bytes[i] % 16)
  {
    if i > 0 {
      HexDigestAt(bytes[1..], i - 1);
    }
  }

  /** Characters 2i and 2i+1 of the hex digest are the two-digit form of byte `i`. */
  lemma {:induction false} HexDigestPairAt(bytes: seq<byte>, i: nat)
    requires i < |bytes|
    ensures HexDigest(bytes)[2 * i..2 * i + 2] == HexPair(bytes[i])
  {
    var head := HexPair(bytes[0]);
    var rest := HexDigest(bytes[1..]);
    assert HexDigest(bytes) == head + rest;
    if i > 0 {
      HexDigestPairAt(bytes[1..], i - 1);
      assert (head + rest)[2 * i..2 * i + 2] == rest[2 * (i - 1)..2 * (i - 1) + 2];
    } else {
      assert (head + rest)[..2] == head;
    }
  }

  /** The hex digest is the join of `b.toString(16).padStart(2, "0")` over the bytes, in order. */
  lemma HexDigestIsJoin(bytes: seq<byte>, i: nat)
    requires i < |bytes|
    ensures HexDigest(bytes)[2 * i..2 * i + 2] == HexByte(bytes[i])
  {
    HexByteDigits(bytes[i]);
    HexDigestPairAt(bytes, i);
  }

  /** A 32-byte SHA-256 digest is 64 characters long, every one a lower-case hex digit. */
  lemma Sha256HexLength(digest: seq<byte>)
    requires |digest| == 32
    ensures |HexDigest(digest)| == 64
    ensures forall k :: 0 <= k < 64 ==> HexDigest(digest)[k] in DigitChars
  {
    forall k | 0 <= k < 64 ensures HexDigest(digest)[k] in DigitChars {
      HexDigestAt(digest, k / 2);
    }
  }

  /** Reads pairs of hex digits back into bytes: the inverse of HexDigest. */
  function HexDecode(s: string): seq<byte> {
    if |s| < 2 then []
    else
      var v := DigitValue(s[0]) * 16 + DigitValue(s[1]);
      [if v < 256 then v else 0] + HexDecode(s[2..])
  }

  lemma {:induction false} HexRoundTrip(bytes: seq<byte>)
    ensures HexDecode(HexDigest(bytes)) == bytes
  {
    if bytes != [] {
      var b := bytes[0];
      DigitValueOfDigitChar(b / 16);
      DigitValueOfDigitChar(b % 16);
      var s := HexDigest(bytes);
      assert s[2..] == HexDigest(bytes[1..]);
      HexRoundTrip(bytes[1..]);
    }
  }

  /** Hence different digests never share a hex form. */
  lemma HexDigestInjective(a: seq<byte>, b: seq<byte>)
    ensures HexDigest(a) == HexDigest(b) ==> a == b
  {
    HexRoundTrip(a);
    HexRoundTrip(b);
  }
}
