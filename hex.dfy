/** ASCII-hex strings: `int(s, 16)`, `unhexlify`, `hex_to_int_le`, `int_to_hex` and the
    byte readers the decoders apply at fixed offsets of a packet. */
module Hex {
  import opened Wrappers
  import opened Bits

  type Byte = x: int | 0 <= x < 256

  predicate IsHexDigit(c: char)
  {
    '0' <= c <= '9' || 'a' <= c <= 'f' || 'A' <= c <= 'F'
  }

  predicate IsHexString(s: string)
  {
    forall i :: 0 <= i < |s| ==> IsHexDigit(s[i])
  }

  /** A digit as Python's `hex` writes it: 0-9 or a lower-case letter. */
  predicate IsLowerHexDigit(c: char)
  {
    '0' <= c <= '9' || 'a' <= c <= 'f'
  }

  predicate IsLowerHexString(s: string)
  {
    forall i :: 0 <= i < |s| ==> IsLowerHexDigit(s[i])
  }

  function DigitValue(c: char): (r: nat)
    requires IsHexDigit(c)
    ensures r < 16
  {
    if '0' <= c <= '9' then c as int - '0' as int
    else if 'a' <= c <= 'f' then c as int - 'a' as int + 10
    else c as int - 'A' as int + 10
  }

  /** The lower-case digit Python's `hex` writes for d. */
  function LowerDigit(d: nat): (c: char)
    requires d < 16
    ensures IsHexDigit(c) && IsLowerHexDigit(c) && DigitValue(c) == d
  {
    if d < 10 then ('0' as int + d) as char else ('a' as int + d - 10) as char
  }

  function Pow16(k: nat): (r: nat)
    ensures r >= 1
  {
    if k == 0 then 1 else 16 * Pow16(k - 1)
  }

  /** `int(s, 16)` on a string of hex digits (the empty string, which Python rejects, reads 0). */
  function HexValue(s: string): nat
    requires IsHexString(s)
  {
    if |s| == 0 then 0 else 16 * HexValue(s[..|s| - 1]) + DigitValue(s[|s| - 1])
  }

  lemma {:induction false} HexValueBound(s: string)
    requires IsHexString(s)
    ensures HexValue(s) < Pow16(|s|)
  {
    if |s| > 0 {
      HexValueBound(s[..|s| - 1]);
    }
  }

  /** Reading a concatenation: the digits of s are worth 16^|t| times as much. */
  lemma {:induction false} HexValueConcat(s: string, t: string)
    requires IsHexString(s) && IsHexString(t)
    ensures IsHexString(s + t)
    ensures HexValue(s + t) == HexValue(s) * Pow16(|t|) + HexValue(t)
  {
    if |t| > 0 {
      var t' := t[..|t| - 1];
      assert (s + t)[..|s + t| - 1] == s + t';
      HexValueConcat(s, t');
      var a, p, b, d := HexValue(s), Pow16(|t'|), HexValue(t'), DigitValue(t[|t| - 1]);
      assert (s + t)[|s + t| - 1] == t[|t| - 1];
      assert HexValue(s + t) == 16 * HexValue(s + t') + d;
      assert HexValue(s + t') == a * p + b;
      assert Pow16(|t|) == 16 * p;
      Distribute(16, a * p, b);
      Rearrange(16, a, p);
    } else {
      assert s + t == s;
    }
  }

  lemma Distribute(k: int, x: int, y: int)
    ensures k * (x + y) == k * x + k * y
  {
  }

  lemma Rearrange(k: int, a: int, p: int)
    ensures k * (a * p) == a * (k * p)
  {
  }

  lemma {:induction false} HexValueZeros(s: string)
    requires forall i :: 0 <= i < |s| ==> s[i] == '0'
    ensures IsHexString(s) && HexValue(s) == 0
  {
    if |s| > 0 {
      HexValueZeros(s[..|s| - 1]);
    }
  }

  lemma {:induction false} Pow16IsPow2(k: nat)
    ensures Pow16(k) == Pow2(4 * k)
  {
    if k > 0 {
      Pow16IsPow2(k - 1);
      var j := 4 * (k - 1);
      assert Pow2(j + 4) == 2 * Pow2(j + 3) == 4 * Pow2(j + 2) == 8 * Pow2(j + 1) == 16 * Pow2(j);
    }
  }

  /** `int(ps[i:i+2], 16)`: the byte written as the two hex digits at offset i. */
  function HexByteAt(ps: string, i: nat): Byte
    requires IsHexString(ps) && i + 2 <= |ps|
  {
    HexValueBound(ps[i..i + 2]);
    HexValue(ps[i..i + 2])
  }

  /** The byte at offset i is worth sixteen times its first digit plus its second. */
  lemma HexByteAtDigits(ps: string, i: nat)
    requires IsHexString(ps) && i + 2 <= |ps|
    ensures HexByteAt(ps, i) == 16 * DigitValue(ps[i]) + DigitValue(ps[i + 1])
  {
    var pair := ps[i..i + 2];
    assert pair[..1][..0] == [];
    assert HexValue(pair[..1]) == DigitValue(ps[i]);
  }

  /** Reading a byte inside a slice is reading it at the shifted offset of the whole string. */
  lemma HexByteAtSlice(ps: string, a: nat, b: nat, j: nat)
    requires IsHexString(ps) && a <= b <= |ps| && j + 2 <= b - a
    ensures IsHexString(ps[a..b]) && HexByteAt(ps[a..b], j) == HexByteAt(ps, a + j)
  {
    assert ps[a..b][j..j + 2] == [ps[a + j], ps[a + j + 1]] == ps[a + j..a + j + 2];
  }

  /** `unhexlify(s)` / `s.decode("hex")` on an even-length hex string: one byte per digit pair. */
  function Unhexlify(s: string): (bytes: seq<Byte>)
    requires IsHexString(s) && |s| % 2 == 0
    ensures |bytes| == |s| / 2
  {
    seq(|s| / 2, k requires 0 <= k < |s| / 2 => HexByteAt(s, 2 * k))
  }

  /** The two lower-case hex digits of a byte. */
  function HexPair(b: Byte): (s: string)
    ensures |s| == 2 && IsHexString(s) && HexByteAt(s, 0) == b
  {
    var s := [LowerDigit(b / 16), LowerDigit(b % 16)];
    HexByteAtDigits(s, 0);
    s
  }

  /** Reinterprets an unsigned 32-bit pattern as two's complement, as `struct` format `i` does. */
  function ToInt32(u: nat): int
    requires u < 0x1_0000_0000
  {
    if u < 0x8000_0000 then u else u - 0x1_0000_0000
  }

  /** The four digit pairs of an 8-digit string in reverse order: its little-endian reading
      as an ordinary big-endian hex number. */
  function SwapBytes32(s: string): (r: string)
    requires |s| == 8
  {
    s[6..8] + s[4..6] + s[2..4] + s[0..2]
  }

  /** hex_to_int_le: `unpack('<i', unhexlify(hexstr))[0]`, with the `TypeError` that `unhexlify`
      raises on an odd-length or non-hex string turned into -1. A well-formed string that is not
      four bytes long makes `unpack` raise `struct.error`, which is not caught. */
  function HexToIntLe(s: string): (r: PyResult<int>)
    ensures (|s| % 2 == 1 || !IsHexString(s)) ==> r == Ok(-1)
    ensures r.Raise? <==> |s| % 2 == 0 && IsHexString(s) && |s| != 8
    ensures r.Raise? ==> r.error == StructError
    ensures |s| == 8 && IsHexString(s) ==> r.Ok? && -0x8000_0000 <= r.value < 0x8000_0000
  {
    if |s| % 2 == 1 || !IsHexString(s) then Ok(-1)
    else
      var bytes := Unhexlify(s);
      if |bytes| != 4 then Raise(StructError)
      else
        var u: int := bytes[0] as int + 256 * (bytes[1] as int) + 65536 * (bytes[2] as int) + 16777216 * (bytes[3] as int);
        Ok(ToInt32(u))
  }

  /** On 8 hex digits hex_to_int_le agrees, modulo 2^32, with reading the digit pairs in
      reverse order as one big-endian number. */
  lemma HexToIntLeIsSwappedHex(s: string)
    requires |s| == 8 && IsHexString(s)
    ensures IsHexString(SwapBytes32(s))
    ensures HexToIntLe(s).value % 0x1_0000_0000 == HexValue(SwapBytes32(s))
  {
    LittleEndianIsSwapped(s);
    var u := HexByteAt(s, 0) + 256 * HexByteAt(s, 2) + 65536 * HexByteAt(s, 4) + 16777216 * HexByteAt(s, 6);
    HexToIntLeOfBytes(s, Unhexlify(s));
    assert HexToIntLe(s).value == ToInt32(u);
  }

  lemma LittleEndianIsSwapped(s: string)
    requires |s| == 8 && IsHexString(s)
    ensures IsHexString(SwapBytes32(s))
    ensures HexValue(SwapBytes32(s))
         == HexByteAt(s, 0) + 256 * HexByteAt(s, 2) + 65536 * HexByteAt(s, 4) + 16777216 * HexByteAt(s, 6)
  {
    var a, b, c, d := s[6..8], s[4..6], s[2..4], s[0..2];
    AppendByte(a, b);
    AppendByte(a + b, c);
    AppendByte(a + b + c, d);
  }

  /** Appending two digits to a hex number multiplies it by 256 and adds their byte. */
  lemma AppendByte(s: string, pair: string)
    requires IsHexString(s) && IsHexString(pair) && |pair| == 2
    ensures IsHexString(s + pair) && HexValue(s + pair) == 256 * HexValue(s) + HexValue(pair)
  {
    HexValueConcat(s, pair);
    assert Pow16(2) == 256;
  }

  /** The 8 lower-case digits that `struct.pack('<i', v)` hexlified would give. */
  function EncodeLe32(v: int): (s: string)
    requires -0x8000_0000 <= v < 0x8000_0000
    ensures |s| == 8 && IsHexString(s)
  {
    var u := v % 0x1_0000_0000;
    HexPair(u % 256) + HexPair((u / 256) % 256) + HexPair((u / 65536) % 256) + HexPair((u / 16777216) % 256)
  }

  /** hex_to_int_le inverts the little-endian encoding of every 32-bit signed value. */
  lemma LeRoundTrip(v: int)
    requires -0x8000_0000 <= v < 0x8000_0000
    ensures HexToIntLe(EncodeLe32(v)) == Ok(v)
  {
    var u := v % 0x1_0000_0000;
    var bytes: seq<Byte> := [u % 256, (u / 256) % 256, (u / 65536) % 256, (u / 16777216) % 256];
    EncodeLe32Bytes(v, bytes);
    HexToIntLeOfBytes(EncodeLe32(v), bytes);
    Int32OfBytes(v);
  }

  /** Unhexlifying the encoding gives back the four bytes it was built from. */
  lemma EncodeLe32Bytes(v: int, bytes: seq<Byte>)
    requires -0x8000_0000 <= v < 0x8000_0000
    requires var u := v % 0x1_0000_0000;
      bytes == [u % 256, (u / 256) % 256, (u / 65536) % 256, (u / 16777216) % 256]
    ensures Unhexlify(EncodeLe32(v)) == bytes
  {
    var s := EncodeLe32(v);
    forall k | 0 <= k < 4 ensures HexByteAt(s, 2 * k) == bytes[k] {
      var pair := HexPair(bytes[k]);
      assert s[2 * k..2 * k + 2] == pair == pair[0..2];
    }
  }

  /** The four bytes of `v mod 2^32`, reassembled and read as two's complement, give v back. */
  lemma Int32OfBytes(v: int)
    requires -0x8000_0000 <= v < 0x8000_0000
    ensures var u := v % 0x1_0000_0000;
      ToInt32(u % 256 + 256 * ((u / 256) % 256) + 65536 * ((u / 65536) % 256) + 16777216 * ((u / 16777216) % 256)) == v
  {
    var u := v % 0x1_0000_0000;
    SplitBytes32(u);
    assert u == if v >= 0 then v else v + 0x1_0000_0000;
  }

  /** On 8 hex digits, hex_to_int_le assembles the four bytes least significant first. */
  lemma HexToIntLeOfBytes(s: string, bytes: seq<Byte>)
    requires |s| == 8 && IsHexString(s) && Unhexlify(s) == bytes
    ensures HexToIntLe(s)
         == Ok(ToInt32(bytes[0] as int + 256 * (bytes[1] as int) + 65536 * (bytes[2] as int) + 16777216 * (bytes[3] as int)))
  {
  }

  /** The four bytes of a 32-bit value put back together. */
  lemma SplitBytes32(u: nat)
    requires u < 0x1_0000_0000
    ensures u == u % 256 + 256 * ((u / 256) % 256) + 65536 * ((u / 65536) % 256)
                 + 16777216 * ((u / 16777216) % 256)
  {
    var q1 := u / 256;
    var q2 := q1 / 256;
    var q3 := q2 / 256;
    assert u == 65536 * q2 + (256 * (q1 % 256) + u % 256);
    DivModUnique(u, 65536, q2, 256 * (q1 % 256) + u % 256);
    assert u == 16777216 * q3 + (65536 * (q2 % 256) + 256 * (q1 % 256) + u % 256);
    DivModUnique(u, 16777216, q3, 65536 * (q2 % 256) + 256 * (q1 % 256) + u % 256);
  }

  /** The little-endian 32-bit word at ps[i:i+8], as the decoder reads every timestamp with
      `hex_to_int_le(ps[i:i+8])`: its four bytes, least significant first, in two's complement.
      Le32AtIsHexToIntLe shows this is what hex_to_int_le returns there. */
  function Le32At(ps: string, i: nat): int
    requires IsHexString(ps) && i + 8 <= |ps|
  {
    ToInt32(HexByteAt(ps, i) + 256 * HexByteAt(ps, i + 2)
            + 65536 * HexByteAt(ps, i + 4) + 16777216 * HexByteAt(ps, i + 6))
  }

  /** Inside a hex packet, hex_to_int_le on eight digits succeeds with the word Le32At reads,
      a value in the signed 32-bit range. */
  lemma Le32AtIsHexToIntLe(ps: string, i: nat)
    requires IsHexString(ps) && i + 8 <= |ps|
    ensures HexToIntLe(ps[i..i + 8]) == Ok(Le32At(ps, i))
    ensures -0x8000_0000 <= Le32At(ps, i) < 0x8000_0000
  {
    HexByteAtSlice(ps, i, i + 8, 0);
    HexByteAtSlice(ps, i, i + 8, 2);
    HexByteAtSlice(ps, i, i + 8, 4);
    HexByteAtSlice(ps, i, i + 8, 6);
    var s := ps[i..i + 8];
    HexToIntLeOfBytes(s, Unhexlify(s));
  }

  /** The unsigned 16-bit word at ps[i:i+4], least significant byte first, as the decoder reads
      the infrared fields with `hex_to_int_le(ps[i:i+4] + '0000')`; Le16PaddedAtIsHexToIntLe
      shows the two agree. */
  function Le16PaddedAt(ps: string, i: nat): int
    requires IsHexString(ps) && i + 4 <= |ps|
  {
    HexValue(ps[i + 2..i + 4] + ps[i..i + 2])
  }

  /** Two bytes padded with two zero bytes: hex_to_int_le succeeds with the unsigned
      little-endian 16-bit value of the two bytes, in 0..65535. */
  lemma Le16PaddedAtIsHexToIntLe(ps: string, i: nat)
    requires IsHexString(ps) && i + 4 <= |ps|
    ensures HexToIntLe(ps[i..i + 4] + "0000") == Ok(Le16PaddedAt(ps, i))
    ensures 0 <= Le16PaddedAt(ps, i) < 65536
  {
    var padded := ps[i..i + 4] + "0000";
    assert IsHexString(padded);
    assert padded[0..2] == ps[i..i + 2] && padded[2..4] == ps[i + 2..i + 4];
    assert padded[4..6] == "00" && padded[6..8] == "00";
    var bytes := Unhexlify(padded);
    assert bytes[0] == HexByteAt(ps, i) && bytes[1] == HexByteAt(ps, i + 2);
    HexValueZeros(padded[4..6]);
    HexValueZeros(padded[6..8]);
    assert bytes[2] == 0 && bytes[3] == 0;
    HexToIntLeOfBytes(padded, bytes);
    Le16PaddedAtBytes(ps, i);
  }

  /** The byte-swapped digits of a two-byte word read as the low byte plus 256 times the high. */
  lemma Le16PaddedAtBytes(ps: string, i: nat)
    requires IsHexString(ps) && i + 4 <= |ps|
    ensures Le16PaddedAt(ps, i) == HexByteAt(ps, i) + 256 * HexByteAt(ps, i + 2)
  {
    HexValueConcat(ps[i + 2..i + 4], ps[i..i + 2]);
    assert Pow16(2) == 256;
  }

  /** hex_string_byte_to_signed_int: `int(byte + '000000', 16) >> 24`. Python integers are
      unbounded, so the shift undoes the padding and no sign extension takes place. */
  function HexByteToSignedInt(byte: string): (r: int)
    requires IsHexString(byte)
    ensures r == HexValue(byte)
    ensures |byte| == 2 ==> 0 <= r <= 255
  {
    HexValueBound(byte);
    ShiftUndoesPadding(byte);
    ShiftRight(HexValue(byte + "000000"), 24)
  }

  /** Six zero digits multiply by 2^24, which the shift by 24 divides out again. */
  lemma ShiftUndoesPadding(byte: string)
    requires IsHexString(byte)
    ensures IsHexString(byte + "000000") && ShiftRight(HexValue(byte + "000000"), 24) == HexValue(byte)
  {
    HexValueZeros("000000");
    HexValueConcat(byte, "000000");
    Pow16IsPow2(6);
    DivModUnique(HexValue(byte + "000000"), Pow2(24), HexValue(byte), 0);
  }

  /** `hex_string_byte_to_signed_int(ps[i:i+2])` inside a packet. */
  function SignedByteAt(ps: string, i: nat): (r: int)
    requires IsHexString(ps) && i + 2 <= |ps|
    ensures r == HexByteAt(ps, i)
  {
    HexByteToSignedInt(ps[i..i + 2])
  }

  /** The lower-case hex digits of n, without leading zeros. */
  function HexDigits(n: nat): (s: string)
    ensures |s| >= 1 && IsHexString(s) && IsLowerHexString(s) && HexValue(s) == n
    ensures s[0] == '0' ==> s == "0"
  {
    if n < 16 then [LowerDigit(n)]
    else
      var s := HexDigits(n / 16) + [LowerDigit(n % 16)];
      assert s[..|s| - 1] == HexDigits(n / 16);
      s
  }

  /** A lower-case digit string that does not start with 0 is worth at least 1. */
  lemma {:induction false} HexValuePositive(s: string)
    requires |s| >= 1 && IsLowerHexString(s) && s[0] != '0'
    ensures IsHexString(s) && HexValue(s) >= 1
  {
    if |s| > 1 {
      HexValuePositive(s[..|s| - 1]);
    }
  }

  /** The digits HexDigits writes are the only lower-case spelling of a number without leading
      zeros, so they fix `hex(n)` character by character. */
  lemma {:induction false} HexDigitsUnique(s: string)
    requires |s| >= 1 && IsLowerHexString(s) && (s[0] == '0' ==> |s| == 1)
    ensures IsHexString(s) && s == HexDigits(HexValue(s))
  {
    var n, c := HexValue(s), s[|s| - 1];
    if |s| > 1 {
      var p := s[..|s| - 1];
      HexDigitsUnique(p);
      HexValuePositive(p);
      DivModUnique(n, 16, HexValue(p), DigitValue(c));
      assert HexDigits(n) == HexDigits(n / 16) + [LowerDigit(n % 16)];
      assert s == p + [c];
    }
  }

  /** int_to_hex: `hex(intval)[2:]`. Dropping two characters removes "0x" from a non-negative
      value but only "-0" from a negative one, which leaves "x" in front of the digits. */
  function IntToHex(v: int): (s: string)
    ensures v >= 0 ==> (|s| >= 1 && IsHexString(s) && IsLowerHexString(s) && HexValue(s) == v
                        && (s[0] == '0' ==> s == "0"))
    ensures v < 0 ==> (|s| >= 2 && s[0] == 'x' && IsHexString(s[1..]) && IsLowerHexString(s[1..])
                       && HexValue(s[1..]) == -v && s[1] != '0')
  {
    if v >= 0 then HexDigits(v)
    else
      var s := ['x'] + HexDigits(-v);
      assert s[1..] == HexDigits(-v);
      s
  }
}
