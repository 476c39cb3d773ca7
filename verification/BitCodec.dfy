/** Bits, bytes and hexadecimal text. */
module BitCodec {
  type Byte = b: nat | b < 256
  type Bit = b: nat | b < 2

  function Pow2(n: nat): (p: nat)
    ensures p > 0
  {
    if n == 0 then 1 else 2 * Pow2(n - 1)
  }

  /** The low `len` bits of v, most significant first. */
  function Bits(v: nat, len: nat): (b: seq<Bit>)
    ensures |b| == len
  {
    if len == 0 then [] else Bits(v / 2, len - 1) + [v % 2]
  }

  function Value(b: seq<Bit>): (v: nat)
    ensures v < Pow2(|b|)
  {
    if b == [] then 0 else 2 * Value(b[..|b| - 1]) + b[|b| - 1]
  }

  lemma {:induction false} ValueOfBits(v: nat, len: nat)
    requires v < Pow2(len)
    ensures Value(Bits(v, len)) == v
  {
    if len > 0 {
      ValueOfBits(v / 2, len - 1);
      assert Bits(v, len)[..len - 1] == Bits(v / 2, len - 1);
    }
  }

  lemma {:induction false} BitsOfValue(b: seq<Bit>)
    ensures Bits(Value(b), |b|) == b
  {
    if b != [] {
      BitsOfValue(b[..|b| - 1]);
      assert b == b[..|b| - 1] + [b[|b| - 1]];
    }
  }

  lemma {:induction false} ValueConcat(a: seq<Bit>, b: seq<Bit>)
    ensures Value(a + b) == Value(a) * Pow2(|b|) + Value(b)
  {
    if b == [] {
      assert a + b == a;
    } else {
      var init, last := b[..|b| - 1], b[|b| - 1];
      ValueConcat(a, init);
      assert (a + b)[..|a + b| - 1] == a + init && (a + b)[|a + b| - 1] == last;
      DoubleSum(Value(a), Pow2(|init|), Value(init), last);
    }
  }

  lemma {:induction false} DoubleSum(x: nat, p: nat, y: nat, w: nat)
    ensures 2 * (x * p + y) + w == x * (2 * p) + (2 * y + w)
  {
  }

  lemma {:induction false} Pow2Values()
    ensures Pow2(3) == 8 && Pow2(4) == 16 && Pow2(8) == 256
  {
    assert Pow2(1) == 2 && Pow2(2) == 4;
    assert Pow2(5) == 32 && Pow2(6) == 64 && Pow2(7) == 128;
  }

  function ByteOf(b: seq<Bit>): Byte
    requires |b| == 8
  {
    Pow2Values();
    Value(b)
  }

  function Pack(bits: seq<Bit>): (r: seq<Byte>)
    ensures |r| == |bits| / 8
  {
    seq(|bits| / 8, i requires 0 <= i < |bits| / 8 => ByteOf(bits[8 * i..8 * i + 8]))
  }

  function Unpack(bytes: seq<Byte>): (r: seq<Bit>)
    ensures |r| == 8 * |bytes|
  {
    seq(8 * |bytes|, i requires 0 <= i < 8 * |bytes| => BitAt(bytes, i))
  }

  function BitAt(bytes: seq<Byte>, i: nat): Bit
    requires i < 8 * |bytes|
  {
    Bits(bytes[i / 8], 8)[i % 8]
  }

  lemma {:induction false} UnpackPack(bits: seq<Bit>)
    requires |bits| % 8 == 0
    ensures Unpack(Pack(bits)) == bits
  {
    forall i | 0 <= i < |bits| ensures Unpack(Pack(bits))[i] == bits[i] {
      BitsOfValue(bits[8 * (i / 8)..8 * (i / 8) + 8]);
    }
  }

  lemma {:induction false} UnpackAppend(bytes: seq<Byte>, last: Byte)
    ensures Unpack(bytes + [last]) == Unpack(bytes) + Bits(last, 8)
  {
    var n := |bytes|;
    forall i | 0 <= i < 8 * n + 8 ensures BitAt(bytes + [last], i) == (Unpack(bytes) + Bits(last, 8))[i] {
      BitOfAppended(bytes, last, i);
    }
  }

  lemma {:induction false} BitOfAppended(bytes: seq<Byte>, last: Byte, i: nat)
    requires i < 8 * |bytes| + 8
    ensures BitAt(bytes + [last], i)
         == if i < 8 * |bytes| then BitAt(bytes, i) else Bits(last, 8)[i - 8 * |bytes|]
  {
    if i >= 8 * |bytes| {
      var j := i - 8 * |bytes|;
      assert i / 8 == |bytes| && i % 8 == j;
    }
  }

  // ----- hexadecimal text -----

  function HexDigit(d: nat, upper: bool := false): char
    requires d < 16
  {
    if upper then "0123456789ABCDEF"[d] else "0123456789abcdef"[d]
  }

  predicate IsHexDigit(c: char) {
    '0' <= c <= '9' || 'a' <= c <= 'f' || 'A' <= c <= 'F'
  }

  function HexValue(c: char): (v: nat)
    ensures v < 16
  {
    if '0' <= c <= '9' then (c - '0') as nat
    else if 'a' <= c <= 'f' then 10 + (c - 'a') as nat
    else if 'A' <= c <= 'F' then 10 + (c - 'A') as nat
    else 0
  }

  predicate IsHex(s: string) {
    |s| % 2 == 0 && forall i :: 0 <= i < |s| ==> IsHexDigit(s[i])
  }

  function Hex(bytes: seq<Byte>, upper: bool := false): (s: string)
    ensures |s| == 2 * |bytes|
  {
    seq(2 * |bytes|, i requires 0 <= i < 2 * |bytes| =>
      HexDigit(if i % 2 == 0 then bytes[i / 2] / 16 else bytes[i / 2] % 16, upper))
  }

  function Unhex(s: string): (bytes: seq<Byte>)
    requires IsHex(s)
    ensures 2 * |bytes| == |s|
  {
    seq(|s| / 2, i requires 0 <= i < |s| / 2 => UnhexByte(s[2 * i], s[2 * i + 1]))
  }

  function UnhexByte(high: char, low: char): Byte
    requires IsHexDigit(high) && IsHexDigit(low)
  {
    16 * HexValue(high) + HexValue(low)
  }

  lemma {:induction false} DigitValue(d: nat, upper: bool)
    requires d < 16
    ensures IsHexDigit(HexDigit(d, upper)) && HexValue(HexDigit(d, upper)) == d
  {
  }

  lemma {:induction false} ByteValue(v: Byte, upper: bool)
    ensures IsHexDigit(HexDigit(v / 16, upper)) && IsHexDigit(HexDigit(v % 16, upper))
    ensures UnhexByte(HexDigit(v / 16, upper), HexDigit(v % 16, upper)) == v
  {
    DigitValue(v / 16, upper);
    DigitValue(v % 16, upper);
  }

  lemma {:induction false} HexIsHex(bytes: seq<Byte>, upper: bool := false)
    ensures IsHex(Hex(bytes, upper))
  {
    forall i | 0 <= i < 2 * |bytes| ensures IsHexDigit(Hex(bytes, upper)[i]) {
      ByteValue(bytes[i / 2], upper);
    }
  }

  lemma {:induction false} UnhexHex(bytes: seq<Byte>, upper: bool := false)
    ensures IsHex(Hex(bytes, upper)) && Unhex(Hex(bytes, upper)) == bytes
  {
    HexIsHex(bytes, upper);
    var back := Unhex(Hex(bytes, upper));
    forall k | 0 <= k < |bytes| ensures back[k] == bytes[k] {
      UnhexAt(bytes, k, upper);
    }
  }

  lemma {:induction false} UnhexAt(bytes: seq<Byte>, k: nat, upper: bool)
    requires k < |bytes| && IsHex(Hex(bytes, upper))
    ensures Unhex(Hex(bytes, upper))[k] == bytes[k]
  {
    var h := Hex(bytes, upper);
    assert h[2 * k] == HexDigit(bytes[k] / 16, upper);
    assert h[2 * k + 1] == HexDigit(bytes[k] % 16, upper);
    ByteValue(bytes[k], upper);
  }

  lemma {:induction false} HexConcat(a: seq<Byte>, b: seq<Byte>, upper: bool := false)
    ensures Hex(a + b, upper) == Hex(a, upper) + Hex(b, upper)
  {
  }

  function NibbleDigit(bits: seq<Bit>): char
    requires |bits| == 4
  {
    Pow2Values();
    HexDigit(Value(bits))
  }

  /** One hexadecimal digit for every four bits. */
  function Nibbles(bits: seq<Bit>): (s: string)
    ensures |s| == |bits| / 4
  {
    seq(|bits| / 4, i requires 0 <= i < |bits| / 4 => NibbleDigit(bits[4 * i..4 * i + 4]))
  }

  lemma {:induction false} ByteNibbles(b: seq<Bit>)
    requires |b| == 8
    ensures Value(b[..4]) < 16 && Value(b[4..]) < 16
    ensures ByteOf(b) / 16 == Value(b[..4]) && ByteOf(b) % 16 == Value(b[4..])
  {
    Pow2Values();
    ValueConcat(b[..4], b[4..]);
    assert b == b[..4] + b[4..];
  }

  lemma {:induction false} ByteDigits(b: seq<Bit>)
    requires |b| == 8
    ensures NibbleDigit(b[..4]) == HexDigit(ByteOf(b) / 16) && NibbleDigit(b[4..]) == HexDigit(ByteOf(b) % 16)
  {
    ByteNibbles(b);
  }

  /** Printing four bits at a time is printing the packed bytes. */
  lemma {:induction false} NibblesArePacked(bits: seq<Bit>)
    requires |bits| % 8 == 0
    ensures Nibbles(bits) == Hex(Pack(bits))
  {
    forall i | 0 <= i < |bits| / 4 ensures Nibbles(bits)[i] == Hex(Pack(bits))[i] {
      NibbleOfPacked(bits, i / 2);
      assert i == 2 * (i / 2) + i % 2;
    }
  }

  lemma {:induction false} NibbleOfPacked(bits: seq<Bit>, k: nat)
    requires 8 * k + 8 <= |bits|
    ensures NibbleDigit(bits[8 * k..8 * k + 4]) == HexDigit(Pack(bits)[k] / 16)
    ensures NibbleDigit(bits[8 * k + 4..8 * k + 8]) == HexDigit(Pack(bits)[k] % 16)
  {
    var b := bits[8 * k..8 * k + 8];
    ByteDigits(b);
    assert b[..4] == bits[8 * k..8 * k + 4] && b[4..] == bits[8 * k + 4..8 * k + 8];
  }

  lemma {:induction false} NibblesConcat(a: seq<Bit>, b: seq<Bit>)
    requires |a| % 4 == 0
    ensures Nibbles(a + b) == Nibbles(a) + Nibbles(b)
  {
    forall i | 0 <= i < |a + b| / 4 ensures Nibbles(a + b)[i] == (Nibbles(a) + Nibbles(b))[i] {
      if i < |a| / 4 {
        assert (a + b)[4 * i..4 * i + 4] == a[4 * i..4 * i + 4];
      } else {
        var k := i - |a| / 4;
        assert (a + b)[4 * i..4 * i + 4] == b[4 * k..4 * k + 4];
      }
    }
  }

  // ----- the two bit helpers, on buffers -----

  /** Write the low `len` bits of `ch` at `at`, from the last position backwards. */
  method ConvertUnsignedCharToBinary(ch: nat, bitflow: array<Bit>, at: nat, len: nat)
    requires at + len <= bitflow.Length
    modifies bitflow
    ensures bitflow[..] == old(bitflow[..at]) + Bits(ch, len) + old(bitflow[at + len..])
  {
    var c := ch;
    for i := 0 to len
      invariant bitflow[..at] == old(bitflow[..at])
      invariant bitflow[at + len..] == old(bitflow[at + len..])
      invariant Bits(c, len - i) + bitflow[at + len - i..at + len] == Bits(ch, len)
    {
      bitflow[at + len - 1 - i] := c % 2;
      assert bitflow[at + len - 1 - i..at + len] == [c % 2] + bitflow[at + len - i..at + len];
      c := c / 2;
    }
    assert bitflow[..] == bitflow[..at] + bitflow[at..at + len] + bitflow[at + len..];
  }

  /** Sum of bits shifted to their places, as an unsigned char. */
  method ConvertBinaryToUnsignedChar(bitflow: array<Bit>, index: nat, len: nat) returns (dec: Byte)
    requires index + len <= bitflow.Length && len <= 8
    ensures dec == Value(bitflow[index..index + len])
  {
    Pow2Values();
    Pow2Grows(len, 8);
    dec := 0;
    for i := 0 to len
      invariant dec == Shifted(bitflow[index..index + i], len - i)
    {
      ghost var part := bitflow[index..index + i + 1];
      assert part[..i] == bitflow[index..index + i];
      AddBit(part, len - 1 - i);
      dec := dec + bitflow[index + i] * Pow2(len - 1 - i);
    }
  }

  ghost function Shifted(b: seq<Bit>, k: nat): nat {
    Value(b) * Pow2(k)
  }

  /** Adding a bit at its place keeps the sum below the full width. */
  lemma {:induction false} AddBit(part: seq<Bit>, k: nat)
    requires part != []
    ensures Shifted(part, k) == Shifted(part[..|part| - 1], k + 1) + part[|part| - 1] * Pow2(k)
    ensures Shifted(part, k) < Pow2(|part| + k)
  {
    ShiftStep(part, k);
    ValueBound(part, k);
    Pow2Sum(|part|, k);
  }

  lemma {:induction false} Pow2Sum(a: nat, b: nat)
    ensures Pow2(a) * Pow2(b) == Pow2(a + b)
  {
    if a > 0 { Pow2Sum(a - 1, b); }
  }

  lemma {:induction false} Pow2Grows(a: nat, b: nat)
    requires a <= b
    ensures Pow2(a) <= Pow2(b)
  {
    if a < b { Pow2Grows(a, b - 1); }
  }

  /** Appending one bit to a prefix adds that bit at its own place. */
  lemma {:induction false} ShiftStep(b: seq<Bit>, k: nat)
    requires b != []
    ensures Value(b) * Pow2(k) == Value(b[..|b| - 1]) * Pow2(k + 1) + b[|b| - 1] * Pow2(k)
  {
    var v, w, p := Value(b[..|b| - 1]), b[|b| - 1], Pow2(k);
    assert (2 * v + w) * p == v * (2 * p) + w * p;
  }

  lemma {:induction false} ValueBound(b: seq<Bit>, k: nat)
    ensures Value(b) * Pow2(k) < Pow2(|b|) * Pow2(k)
  {
    MulLess(Value(b), Pow2(|b|), Pow2(k));
  }

  lemma {:induction false} MulLess(x: nat, y: nat, p: nat)
    requires x < y && 0 < p
    ensures x * p < y * p
  {
  }
}
