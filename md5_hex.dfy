/**
 * `MainActivity.md5`: the lower-case, zero-padded hexadecimal rendering of an
 * MD5 digest. The digest itself (MessageDigest, including `getBytes()`'s
 * charset) is a parameter; `None` stands for NoSuchAlgorithmException.
 */
module Md5Hex {
  import opened JavaText

  /** A Java `byte`: signed, -128..127. */
  newtype JByte = x: int | -128 <= x < 128

  /** `b & 0xff`: the unsigned value of a signed byte. */
  function Unsigned(b: JByte): (n: nat)
    ensures n < 256
    ensures n % 256 == (b as int) % 256
  {
    if b < 0 then b as int + 256 else b as int
  }

  function HexDigit(d: nat): (c: char)
    requires d < 16
  {
    "0123456789abcdef"[d]
  }

  predicate IsLowerHex(c: char) {
    '0' <= c <= '9' || 'a' <= c <= 'f'
  }

  function HexValue(c: char): int {
    if '0' <= c <= '9' then c as int - '0' as int else c as int - 'a' as int + 10
  }

  /** `Integer.toHexString(n)` for 0 <= n < 256: no leading zero. */
  function ToHexString(n: nat): string
    requires n < 256
  {
    if n < 16 then [HexDigit(n)] else [HexDigit(n / 16), HexDigit(n % 16)]
  }

  /** The loop body: `toHexString(b & 0xff)`, with a "0" put in front of a single digit. */
  function ByteToHex(b: JByte): (r: string)
    ensures |r| == 2
    ensures r == [HexDigit(Unsigned(b) / 16), HexDigit(Unsigned(b) % 16)]
  {
    var temp := ToHexString(Unsigned(b));
    if |temp| == 1 then "0" + temp else temp
  }

  /** The whole digest rendered byte by byte. */
  function HexOf(bytes: seq<JByte>): string {
    if bytes == [] then "" else HexOf(bytes[..|bytes| - 1]) + ByteToHex(bytes[|bytes| - 1])
  }

  /** What `md5(s)` returns. */
  function Md5Spec(s: string, digest: string -> Option<seq<JByte>>): string {
    if s == [] then ""
    else match digest(s)
      case None => ""
      case Some(bytes) => HexOf(bytes)
  }

  /** `md5(s)`: builds the hexadecimal string in a loop over the digest bytes. */
  method Md5(s: string, digest: string -> Option<seq<JByte>>) returns (r: string)
    ensures r == Md5Spec(s, digest)
    ensures s == [] ==> r == ""
    ensures s != [] && digest(s).Some? ==> |r| == 2 * |digest(s).value|
  {
    if s == [] {
      return "";
    }
    var d := digest(s);
    if d.None? {
      return "";
    }
    var bytes := d.value;
    var result := "";
    var i := 0;
    while i < |bytes|
      invariant 0 <= i <= |bytes|
      invariant result == HexOf(bytes[..i])
      invariant |result| == 2 * i
    {
      var temp := ToHexString(Unsigned(bytes[i]));
      if |temp| == 1 {
        temp := "0" + temp;
      }
      PaddedByte(bytes[i]);
      HexOfPrefixStep(bytes, i);
      result := result + temp;
      i := i + 1;
    }
    assert bytes[..|bytes|] == bytes;
    r := result;
    HexOfLength(bytes);
  }

  /** The padded `toHexString` of the loop body is ByteToHex. */
  lemma PaddedByte(b: JByte)
    ensures |ToHexString(Unsigned(b))| == 1 ==> "0" + ToHexString(Unsigned(b)) == ByteToHex(b)
    ensures |ToHexString(Unsigned(b))| != 1 ==> ToHexString(Unsigned(b)) == ByteToHex(b)
  {
  }

  /** One more byte of the prefix adds its two digits. */
  lemma HexOfPrefixStep(bytes: seq<JByte>, i: nat)
    requires i < |bytes|
    ensures HexOf(bytes[..i + 1]) == HexOf(bytes[..i]) + ByteToHex(bytes[i])
  {
    assert bytes[..i + 1][..i] == bytes[..i];
  }

  lemma {:induction false} HexOfLength(bytes: seq<JByte>)
    ensures |HexOf(bytes)| == 2 * |bytes|
  {
    if bytes != [] {
      HexOfLength(bytes[..|bytes| - 1]);
    }
  }

  /** Every character of the result is a lower-case hexadecimal digit. */
  lemma {:induction false} HexOfIsLowerHex(bytes: seq<JByte>)
    ensures forall i :: 0 <= i < |HexOf(bytes)| ==> IsLowerHex(HexOf(bytes)[i])
  {
    if bytes != [] {
      HexOfIsLowerHex(bytes[..|bytes| - 1]);
    }
  }

  function ByteOfHexPair(hi: char, lo: char): JByte
    requires IsLowerHex(hi) && IsLowerHex(lo)
  {
    var n := HexValue(hi) * 16 + HexValue(lo);
    (if n >= 128 then n - 256 else n) as JByte
  }

  /** An even number of lower-case hexadecimal digits. */
  predicate IsHexString(h: string) {
    |h| % 2 == 0 && forall i :: 0 <= i < |h| ==> IsLowerHex(h[i])
  }

  /** Reading the hexadecimal string back, two characters per byte. */
  function DecodeHex(h: string): seq<JByte>
    requires IsHexString(h)
  {
    if h == [] then [] else DecodeHex(h[..|h| - 2]) + [ByteOfHexPair(h[|h| - 2], h[|h| - 1])]
  }

  lemma HexDigitValue(d: nat)
    requires d < 16
    ensures IsLowerHex(HexDigit(d)) && HexValue(HexDigit(d)) == d
  {
    var digits := "0123456789abcdef";
    assert forall j :: 0 <= j < 16 ==> digits[j] as int == if j < 10 then '0' as int + j else 'a' as int + j - 10;
  }

  lemma ByteToHexRoundTrip(b: JByte)
    ensures var p := ByteToHex(b); IsLowerHex(p[0]) && IsLowerHex(p[1]) && ByteOfHexPair(p[0], p[1]) == b
  {
    var n := Unsigned(b);
    HexDigitValue(n / 16);
    HexDigitValue(n % 16);
    assert (n / 16) * 16 + n % 16 == n;
  }

  lemma DecodeHexSnoc(h: string, p: string)
    requires IsHexString(h) && |p| == 2 && IsLowerHex(p[0]) && IsLowerHex(p[1])
    ensures IsHexString(h + p)
    ensures DecodeHex(h + p) == DecodeHex(h) + [ByteOfHexPair(p[0], p[1])]
  {
    var g := h + p;
    assert g[..|g| - 2] == h;
  }

  /** A non-empty sequence is its front followed by its last element. */
  lemma FrontAndLast(bytes: seq<JByte>)
    requires bytes != []
    ensures bytes[..|bytes| - 1] + [bytes[|bytes| - 1]] == bytes
  {
  }

  /** The last byte's two digits, appended to the digits of the bytes before it, decode to it. */
  lemma DecodeHexStep(bytes: seq<JByte>)
    requires bytes != []
    requires IsHexString(HexOf(bytes[..|bytes| - 1])) && DecodeHex(HexOf(bytes[..|bytes| - 1])) == bytes[..|bytes| - 1]
    ensures IsHexString(HexOf(bytes))
    ensures DecodeHex(HexOf(bytes)) == bytes
  {
    var init := bytes[..|bytes| - 1];
    var last := bytes[|bytes| - 1];
    FrontAndLast(bytes);
    var pair := ByteToHex(last);
    assert HexOf(bytes) == HexOf(init) + pair;
    ByteToHexRoundTrip(last);
    DecodeHexSnoc(HexOf(init), pair);
  }

  /** The rendering loses nothing: the digest bytes can be read back from `md5`'s output. */
  lemma {:induction false} DecodeHexOf(bytes: seq<JByte>)
    ensures IsHexString(HexOf(bytes))
    ensures DecodeHex(HexOf(bytes)) == bytes
  {
    if bytes != [] {
      DecodeHexOf(bytes[..|bytes| - 1]);
      DecodeHexStep(bytes);
    }
  }

  /** Hence two digests with the same `md5` string are equal. */
  lemma HexOfInjective(a: seq<JByte>, b: seq<JByte>)
    requires HexOf(a) == HexOf(b)
    ensures a == b
  {
    DecodeHexOf(a);
    DecodeHexOf(b);
  }
}
