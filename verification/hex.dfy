/** The salt encoder shared by the token strategy and the legacy auth helper:
    random bytes are written as two lowercase, zero-padded hexadecimal digits
    each (packages/api/src/auth/strategy/token-strategy.ts:12-18,
    packages/api/src/auth.ts:4-10). */
module Hex {
  import opened Outcomes

  /** One element of a `Uint8Array`. */
  newtype Byte = x: int | 0 <= x < 256

  /** `generateSalt()` is called without an argument: six random bytes. */
  const DefaultSaltLength: nat := 6

  /** Exactly `DefaultSaltLength` bytes, as drawn for one default salt. */
  type SaltDraw = b: seq<Byte> | |b| == DefaultSaltLength
    witness [0, 0, 0, 0, 0, 0]

  predicate IsLowerHexDigit(c: char) {
    '0' <= c <= '9' || 'a' <= c <= 'f'
  }

  predicate IsLowerHex(s: string) {
    forall i :: 0 <= i < |s| ==> IsLowerHexDigit(s[i])
  }

  /** The digit that `toString(16)` prints for a value below sixteen. */
  function HexDigit(d: int): (c: char)
    requires 0 <= d < 16
    ensures IsLowerHexDigit(c)
  {
    if d < 10 then ('0' as int + d) as char else ('a' as int + d - 10) as char
  }

  /** The value of a lowercase hexadecimal digit. */
  function DigitValue(c: char): (d: int)
    requires IsLowerHexDigit(c)
    ensures 0 <= d < 16 && HexDigit(d) == c
  {
    if c <= '9' then c as int - '0' as int else c as int - 'a' as int + 10
  }

  /** Reading back the digit printed for `d` gives `d`. */
  lemma DigitRoundTrip(d: int)
    requires 0 <= d < 16
    ensures DigitValue(HexDigit(d)) == d
  {
  }

  /** `n.toString(16)` for a non-negative integer: lowercase digits, most
      significant first, no leading zeros. */
  function ToRadix16(n: nat): (s: string)
    ensures 1 <= |s| && IsLowerHex(s)
    ensures |s| == 1 <==> n < 16
    decreases n
  {
    if n < 16 then [HexDigit(n)] else ToRadix16(n / 16) + [HexDigit(n % 16)]
  }

  /** `s.padStart(width, fill)` for a one-character fill: prefixes copies of
      `fill` until the string is `width` long; longer strings are unchanged. */
  function PadStart(s: string, width: nat, fill: char): (r: string)
    ensures |r| == if |s| >= width then |s| else width
    ensures |r| >= |s| && r[|r| - |s|..] == s
    ensures forall i :: 0 <= i < |r| - |s| ==> r[i] == fill
  {
    if |s| >= width then s else seq(width - |s|, _ => fill) + s
  }

  /** The two characters written for one byte: the high nibble's digit, then
      the low nibble's digit. */
  function ByteToHex(b: Byte): string {
    [HexDigit(b as int / 16), HexDigit(b as int % 16)]
  }

  /** `b.toString(16).padStart(2, "0")` is exactly the two-nibble spelling:
      below sixteen the single digit gets a leading '0', from sixteen up the
      two digits already fill the width. */
  lemma PaddedRadix16IsByteToHex(b: Byte)
    ensures PadStart(ToRadix16(b as nat), 2, '0') == ByteToHex(b)
  {
    var n := b as nat;
    if n < 16 {
      assert ToRadix16(n) == [HexDigit(n)];
      assert HexDigit(0) == '0';
    } else {
      assert n / 16 < 16;
      assert ToRadix16(n / 16) == [HexDigit(n / 16)];
    }
  }

  /** `Array.from(bytes).map(ByteToHex).join("")`. */
  function HexEncode(bytes: seq<Byte>): (s: string)
    ensures |s| == 2 * |bytes|
    ensures IsLowerHex(s)
  {
    if |bytes| == 0 then "" else ByteToHex(bytes[0]) + HexEncode(bytes[1..])
  }

  /** The inverse of `HexEncode`: accepts only an even number of lowercase
      hexadecimal digits. */
  function HexDecode(s: string): (r: Option<seq<Byte>>)
    ensures r.Some? ==> 2 * |r.value| == |s|
  {
    if |s| == 0 then Some([])
    else if |s| == 1 || !IsLowerHexDigit(s[0]) || !IsLowerHexDigit(s[1]) then None
    else
      match HexDecode(s[2..])
      case None => None
      case Some(rest) => Some([(16 * DigitValue(s[0]) + DigitValue(s[1])) as Byte] + rest)
  }

  /** Encoding one more byte appends its two digits. */
  lemma {:induction false} HexEncodeAppend(bytes: seq<Byte>, b: Byte)
    ensures HexEncode(bytes + [b]) == HexEncode(bytes) + ByteToHex(b)
    decreases |bytes|
  {
    if |bytes| == 0 {
      assert bytes + [b] == [b] + [];
      HexEncodeCons(b, []);
    } else {
      HexEncodeAppend(bytes[1..], b);
      assert bytes + [b] == [bytes[0]] + (bytes[1..] + [b]);
      HexEncodeCons(bytes[0], bytes[1..] + [b]);
      HexEncodeCons(bytes[0], bytes[1..]);
    }
  }

  /** Encoding a byte in front prepends its two digits. */
  lemma HexEncodeCons(x: Byte, rest: seq<Byte>)
    ensures HexEncode([x] + rest) == ByteToHex(x) + HexEncode(rest)
  {
    assert ([x] + rest)[1..] == rest;
  }

  /** The two digits of a byte read back as that byte. */
  lemma ByteDigitsRoundTrip(b: Byte)
    ensures IsLowerHexDigit(ByteToHex(b)[0]) && IsLowerHexDigit(ByteToHex(b)[1])
    ensures 16 * DigitValue(ByteToHex(b)[0]) + DigitValue(ByteToHex(b)[1]) == b as int
  {
    var n := b as int;
    DigitRoundTrip(n / 16);
    DigitRoundTrip(n % 16);
  }

  /** Decoding consumes two digits at the front and decodes the rest. */
  lemma HexDecodeStep(hi: char, lo: char, rest: string)
    requires IsLowerHexDigit(hi) && IsLowerHexDigit(lo)
    ensures HexDecode([hi, lo] + rest) ==
      match HexDecode(rest)
      case None => None
      case Some(tail) => Some([(16 * DigitValue(hi) + DigitValue(lo)) as Byte] + tail)
  {
    var s := [hi, lo] + rest;
    assert s[0] == hi && s[1] == lo && s[2..] == rest;
  }

  /** Hex-decoding a salt gives back exactly the bytes it was made from. */
  lemma {:induction false} HexRoundTrip(bytes: seq<Byte>)
    ensures HexDecode(HexEncode(bytes)) == Some(bytes)
    decreases |bytes|
  {
    if |bytes| > 0 {
      var x := bytes[0];
      var pair := ByteToHex(x);
      assert bytes == [x] + bytes[1..];
      HexEncodeCons(x, bytes[1..]);
      ByteDigitsRoundTrip(x);
      HexRoundTrip(bytes[1..]);
      assert pair == [pair[0], pair[1]];
      HexDecodeStep(pair[0], pair[1], HexEncode(bytes[1..]));
    }
  }

  /** Every string the decoder accepts is the encoding of what it returns:
      the encoding is canonical, so no other spelling of a salt decodes. */
  lemma {:induction false} HexDecodeCanonical(s: string)
    requires HexDecode(s).Some?
    ensures HexEncode(HexDecode(s).value) == s
    decreases |s|
  {
    if |s| > 0 {
      var hi, lo, rest := s[0], s[1], s[2..];
      assert s == [hi, lo] + rest;
      HexDecodeStep(hi, lo, rest);
      var tail := HexDecode(rest).value;
      var d1, d0 := DigitValue(hi), DigitValue(lo);
      var b := (16 * d1 + d0) as Byte;
      HexDecodeCanonical(rest);
      assert b as int / 16 == d1 && b as int % 16 == d0;
      assert ByteToHex(b) == [hi, lo];
      HexEncodeCons(b, tail);
    }
  }

  /** Different byte draws always give different salts. */
  lemma HexEncodeInjective(a: seq<Byte>, b: seq<Byte>)
    ensures HexEncode(a) == HexEncode(b) <==> a == b
  {
    if HexEncode(a) == HexEncode(b) {
      HexRoundTrip(a);
      HexRoundTrip(b);
    }
  }

  /** `generateSalt(length)` once `crypto.getRandomValues` has filled a
      `length`-byte array with `random`: two lowercase hex digits per byte,
      which decode back to the drawn bytes. */
  method GenerateSalt(random: seq<Byte>) returns (salt: string)
    ensures salt == HexEncode(random)
    ensures |salt| == 2 * |random|
    ensures IsLowerHex(salt)
    ensures HexDecode(salt) == Some(random)
  {
    salt := "";
    var i := 0;
    while i < |random|
      invariant 0 <= i <= |random|
      invariant salt == HexEncode(random[..i])
    {
      HexEncodeAppend(random[..i], random[i]);
      assert random[..i + 1] == random[..i] + [random[i]];
      salt := salt + ByteToHex(random[i]);
      i := i + 1;
    }
    assert random[..i] == random;
    HexRoundTrip(random);
  }
}
