/**
 * `CryptoUtils.md5Hex`: the MD5 digest of a string, written out in
 * hexadecimal. MD5 itself is a parameter (any function giving 16 bytes);
 * the model covers the rendering of the digest.
 */
module Crypto {
  import opened Wrappers

  /** A byte. */
  newtype Byte = x: int | 0 <= x < 256

  /** An MD5 digest: 16 bytes. */
  type Digest = d: seq<Byte> | |d| == 16 witness seq(16, _ => 0 as Byte)

  const HexDigits: string := "0123456789abcdef"

  predicate IsLowerHexDigit(c: char) {
    c in HexDigits
  }

  /** `String(format: "%02hhx", b)`: two lowercase hex digits, high nibble first. */
  function ByteHex(b: Byte): string {
    [HexDigits[(b / 16) as int], HexDigits[(b % 16) as int]]
  }

  /** `digest.map { String(format: "%02hhx", $0) }.joined()` */
  function HexString(bytes: seq<Byte>): (r: string)
    ensures |r| == 2 * |bytes|
    ensures forall i :: 0 <= i < |bytes| ==> r[2 * i..2 * i + 2] == ByteHex(bytes[i])
  {
    if bytes == [] then []
    else
      var rest := HexString(bytes[1..]);
      var r := ByteHex(bytes[0]) + rest;
      assert forall i :: 1 <= i < |bytes| ==> r[2 * i..2 * i + 2] == rest[2 * (i - 1)..2 * (i - 1) + 2];
      r
  }

  /** `CryptoUtils.md5Hex(s)`, with `md5` standing for `Insecure.MD5.hash`
      over the UTF-8 bytes of `s`. */
  function Md5Hex(md5: string -> Digest, s: string): (r: string)
    ensures |r| == 32
    ensures forall i :: 0 <= i < |r| ==> IsLowerHexDigit(r[i])
  {
    var r := HexString(md5(s));
    HexStringIsLowerHex(md5(s));
    r
  }

  /** Every character of the rendering is a lowercase hex digit. */
  lemma HexStringIsLowerHex(bytes: seq<Byte>)
    ensures forall i :: 0 <= i < |HexString(bytes)| ==> IsLowerHexDigit(HexString(bytes)[i])
  {
    var r := HexString(bytes);
    forall i | 0 <= i < |r|
      ensures IsLowerHexDigit(r[i])
    {
      var k := i / 2;
      assert r[2 * k..2 * k + 2] == ByteHex(bytes[k]);
      assert r[i] == ByteHex(bytes[k])[i - 2 * k];
    }
  }

  /** The value of a lowercase hex digit. */
  function NibbleOf(c: char): Option<nat> {
    if '0' <= c <= '9' then Some(c as int - '0' as int)
    else if 'a' <= c <= 'f' then Some(c as int - 'a' as int + 10)
    else None
  }

  /** A digit's value names that digit, and exactly the lowercase hex digits have one. */
  lemma NibbleOfSpec(c: char)
    ensures NibbleOf(c).Some? <==> IsLowerHexDigit(c)
    ensures NibbleOf(c).Some? ==> NibbleOf(c).value < 16 && HexDigits[NibbleOf(c).value] == c
  {
    if IsLowerHexDigit(c) {
      var n :| 0 <= n < 16 && HexDigits[n] == c;
      NibbleOfDigit(n);
    }
  }

  /** Two digits read as one byte, high nibble first. */
  function ByteOf(hi: char, lo: char): Option<Byte> {
    match (NibbleOf(hi), NibbleOf(lo))
    case (Some(h), Some(l)) => if h < 16 && l < 16 then Some((h * 16 + l) as Byte) else None
    case _ => None
  }

  /** Reads a lowercase hex string back into bytes; the inverse of `HexString`. */
  function HexDecode(s: string): Option<seq<Byte>> {
    if |s| == 0 then Some([])
    else if |s| == 1 then None
    else match (ByteOf(s[0], s[1]), HexDecode(s[2..]))
      case (Some(b), Some(rest)) => Some([b] + rest)
      case _ => None
  }

  /** Each digit reads back as its own value. */
  lemma NibbleOfDigit(n: nat)
    requires n < 16
    ensures NibbleOf(HexDigits[n]) == Some(n)
  {
  }

  /** The two digits of one byte read back as that byte. */
  lemma ByteHexDecodes(b: Byte)
    ensures ByteOf(ByteHex(b)[0], ByteHex(b)[1]) == Some(b)
  {
    var hi, lo := (b / 16) as int, (b % 16) as int;
    assert hi * 16 + lo == b as int && hi < 16 && lo < 16;
    NibbleOfDigit(hi);
    NibbleOfDigit(lo);
  }

  /** Two hex digits per byte, high nibble first, so the rendering can be
      read back: no two digests render alike. */
  lemma {:induction false} HexRoundTrip(bytes: seq<Byte>)
    ensures HexDecode(HexString(bytes)) == Some(bytes)
  {
    if bytes != [] {
      var hex, rest := ByteHex(bytes[0]), HexString(bytes[1..]);
      assert HexString(bytes) == hex + rest;
      var s := hex + rest;
      assert s[0] == hex[0] && s[1] == hex[1] && s[2..] == rest;
      ByteHexDecodes(bytes[0]);
      HexRoundTrip(bytes[1..]);
      assert [bytes[0]] + bytes[1..] == bytes;
    }
  }
}
