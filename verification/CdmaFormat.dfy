/** The wire format of the CDMA message (3GPP2 C.S0015-B, section 3.4), spelled out in
    numbers, both for what is sent and for what is read.  */
module CdmaFormat {
  import opened BitCodec
  import opened CdmaSms

  // ----- the message -----

  /** Byte by byte: message type 00; the teleservice identifier 00 02; perhaps the
      service category 01 02; the address 04; the reply option 06 01 00; the bearer
      data 08. Numbers are sent high byte first.  */
  lemma {:induction false} MessageFormat(m: Sms)
    requires ValidSms(m)
    ensures |Pack(AddressBits(m.address))| < 256
    ensures var packed := Pack(AddressBits(m.address));
      Encode(m)
      == [0x00, 0x00, 0x02, m.teleserviceId / 256, m.teleserviceId % 256]
         + (if m.servicePresent then [0x01, 0x02, m.serviceCategory / 256, m.serviceCategory % 256] else [])
         + ([0x04, |packed|] + packed)
         + ([0x06, 0x01, 0x00] + [0x08, |m.bearer|] + m.bearer)
  {
    AddressBitsLen(m.address);
    EncodeIs(m);
    IdsFormat(m);
    BearerFormat(m);
    var packed := Pack(AddressBits(m.address));
    assert AddressBytes(m.address) == [0x04, |packed|] + packed;
    Regroup(Ids(m), AddressBytes(m.address), BearerBytes(m));
  }

  /** What can be sent: 16-bit numbers, data of up to 255 bytes, and an address of at
      most 36 digits whose bits fit 128 bits.  */
  lemma {:induction false} SendableFormat(m: Sms)
    ensures var a := m.address;
      ValidSms(m) <==>
        && m.teleserviceId < 65536 && m.serviceCategory < 65536 && |m.bearer| <= 255
        && a.numberType < 8 && a.numberPlan < 16 && |a.digits| <= 36
        && (forall d <- a.digits :: d < if a.digitMode == 0 then 16 else 256)
        && DigitsAt(a) + |a.digits| * DigitWidth(a) <= 128
  {
    Pow2Values();
  }

  /** Every message of up to 3839 bytes can be read: the buffer has 4096. */
  lemma {:induction false} ReadableLength(bytes: seq<Byte>)
    requires |bytes| <= 3839
    ensures Decode(bytes) == Parse(bytes + seq(4096 - |bytes|, _ => 0), |bytes|, 2, ZERO)
  {
  }

  lemma {:induction false} IdsFormat(m: Sms)
    requires ValidSms(m)
    ensures Ids(m)
      == [0x00, 0x00, 0x02, m.teleserviceId / 256, m.teleserviceId % 256]
         + if m.servicePresent then [0x01, 0x02, m.serviceCategory / 256, m.serviceCategory % 256] else []
  {
  }

  lemma {:induction false} BearerFormat(m: Sms)
    requires ValidSms(m)
    ensures BearerBytes(m) == [0x06, 0x01, 0x00] + [0x08, |m.bearer|] + m.bearer
  {
  }

  lemma {:induction false} Regroup(a: seq<Byte>, b: seq<Byte>, c: seq<Byte>)
    ensures a + (b + c) == a + b + c
  {
  }

  // ----- the address -----

  function Three(v: nat): seq<Bit> {
    [v / 4 % 2, v / 2 % 2, v % 2]
  }

  function Four(v: nat): seq<Bit> {
    [v / 8 % 2, v / 4 % 2, v / 2 % 2, v % 2]
  }

  function Eight(v: nat): seq<Bit> {
    [v / 128 % 2, v / 64 % 2, v / 32 % 2, v / 16 % 2, v / 8 % 2, v / 4 % 2, v / 2 % 2, v % 2]
  }

  /** Bits are sent most significant first. */
  lemma {:induction false} BitOrder(v: nat)
    ensures Bits(v, 3) == Three(v) && Bits(v, 4) == Four(v) && Bits(v, 8) == Eight(v)
  {
    LastThree(v, 0);
    LastFour(v, 0);
    LastFour(v, 4);
    LastFour(v / 16, 0);
    HighFour(v);
  }

  lemma {:induction false} HighFour(v: nat)
    ensures Four(v / 16) + Four(v) == Eight(v)
  {
    var w := v / 16;
    assert w / 2 == v / 32 && w / 4 == v / 64 && w / 8 == v / 128;
  }

  lemma {:induction false} LastThree(v: nat, len: nat)
    ensures Bits(v, len + 3) == Bits(v / 8, len) + Three(v)
  {
    var v1, v2 := v / 2, v / 4;
    assert v1 / 2 == v2 && v2 / 2 == v / 8;
    assert Bits(v2, len + 1) == Bits(v / 8, len) + [v2 % 2];
    assert Bits(v1, len + 2) == Bits(v2, len + 1) + [v1 % 2];
    assert Bits(v, len + 3) == Bits(v1, len + 2) + [v % 2];
  }

  lemma {:induction false} LastFour(v: nat, len: nat)
    ensures Bits(v, len + 4) == Bits(v / 16, len) + Four(v)
  {
    LastThree(v, len + 1);
    assert Bits(v / 8, len + 1) == Bits(v / 8 / 2, len) + [v / 8 % 2];
    assert v / 8 / 2 == v / 16;
  }

  /** Number of bits before the digits. */
  function DigitsAt(a: Address): nat {
    if a.digitMode == 0 then 10 else if a.numberMode == 0 then 17 else 13
  }

  function DigitWidth(a: Address): nat {
    if a.digitMode == 0 then 4 else 8
  }

  function DigitFormat(a: Address, digit: Byte): seq<Bit> {
    if a.digitMode == 0 then Four(digit) else Eight(digit)
  }

  /** Bit by bit: digit mode, number mode, for 8-bit digits the type and, outside a
      data network, the plan; the number of digits; the digits; zeros up to the next
      whole byte.  */
  lemma {:induction false} AddressFormat(a: Address)
    ensures var b, n, at := AddressBits(a), |a.digits|, DigitsAt(a);
      && |b| >= at + n * DigitWidth(a)
      && b[..at] == [a.digitMode, a.numberMode]
           + (if a.digitMode == 0 then [] else Three(a.numberType) + if a.numberMode == 0 then Four(a.numberPlan) else [])
           + Eight(n)
      && (forall i :: 0 <= i < n ==> DigitFrom(b, at, i, DigitWidth(a)) == DigitFormat(a, a.digits[i]))
      && |b| % 8 == 0 && |b| < at + n * DigitWidth(a) + 8
      && (forall k :: at + n * DigitWidth(a) <= k < |b| ==> b[k] == 0)
  {
    var b, n, at, w := AddressBits(a), |a.digits|, DigitsAt(a), DigitWidth(a);
    var front, digits := Header(a) + Bits(n, 8), DigitBits(a.digits, w);
    FrontFormat(a);
    PadZeros(front + digits);
    assert b[..at] == front;
    forall i | 0 <= i < n ensures DigitFrom(b, at, i, w) == DigitFormat(a, a.digits[i]) {
      DigitAt(b, front, a.digits, w, i);
      BitOrder(a.digits[i]);
    }
  }

  lemma {:induction false} FrontFormat(a: Address)
    ensures var front := Header(a) + Bits(|a.digits|, 8);
      && |front| == DigitsAt(a) && DigitWidth(a) == DigitLen(a.digitMode)
      && front == [a.digitMode, a.numberMode]
           + (if a.digitMode == 0 then [] else Three(a.numberType) + if a.numberMode == 0 then Four(a.numberPlan) else [])
           + Eight(|a.digits|)
  {
    BitOrder(a.numberType);
    BitOrder(a.numberPlan);
    BitOrder(|a.digits|);
  }

  /** The bits of digit i, if the digits are w bits wide and start at `at`. */
  function DigitFrom(b: seq<Bit>, at: nat, i: nat, w: nat): seq<Bit> {
    Part(b, at + i * w, w)
  }

  function Part(b: seq<Bit>, from: nat, w: nat): seq<Bit> {
    if from + w <= |b| then b[from..from + w] else []
  }

  lemma {:induction false} PartInside(b: seq<Bit>, front: seq<Bit>, digits: seq<Bit>, from: nat, w: nat)
    requires from + w <= |digits| && front + digits <= b
    ensures Part(b, |front| + from, w) == digits[from..from + w]
  {
    var p, d := Part(b, |front| + from, w), digits[from..from + w];
    forall k | 0 <= k < w ensures p[k] == d[k] {
      assert b[|front| + from + k] == (front + digits)[|front| + from + k];
    }
  }

  lemma {:induction false} DigitAt(b: seq<Bit>, front: seq<Bit>, digits: seq<Byte>, w: nat, i: nat)
    requires i < |digits| && front + DigitBits(digits, w) <= b
    ensures DigitFrom(b, |front|, i, w) == Bits(digits[i], w)
    decreases |digits|
  {
    var n, bits := |digits| - 1, DigitBits(digits, w);
    var most := DigitBits(digits[..n], w);
    if i < n {
      DigitAt(b, front, digits[..n], w, i);
    } else {
      assert bits[|most|..|most| + w] == Bits(digits[n], w);
      PartInside(b, front, bits, |most|, w);
    }
  }

  lemma {:induction false} PadZeros(b: seq<Bit>)
    ensures forall k :: |b| <= k < |Pad(b)| ==> Pad(b)[k] == 0
    decreases 7 - (|b| + 7) % 8
  {
    if |b| % 8 != 0 {
      PadZeros(b + [0]);
      assert Pad(b)[|b|] == (b + [0])[|b|];
    }
  }

  /** Eight bits make a byte, the first being worth 128; bytes are written as two
      lower-case digits, high half first.  */
  lemma {:induction false} ByteFormat(bits: seq<Bit>, k: nat)
    requires 8 * k + 8 <= |bits|
    ensures Eight(Pack(bits)[k]) == bits[8 * k..8 * k + 8]
  {
    var b := bits[8 * k..8 * k + 8];
    BitsOfValue(b);
    BitOrder(Value(b));
  }

  lemma {:induction false} TextFormat(bytes: seq<Byte>, k: nat)
    requires k < |bytes|
    ensures Hex(bytes)[2 * k] == "0123456789abcdef"[bytes[k] / 16]
    ensures Hex(bytes)[2 * k + 1] == "0123456789abcdef"[bytes[k] % 16]
  {
  }

  // ----- what is understood -----

  /** A parameter sets exactly one field: 00 the teleservice identifier and 01 the
      service category, if they have two bytes; 02 and 04 the address; 08 the bearer
      data. Every other one is skipped.  */
  lemma {:induction false} ParameterFormat(m: Sms, id: Byte, data: seq<Byte>)
    ensures id == 0x00 && |data| == 2 ==> Apply(m, id, data) == m.(teleserviceId := 256 * (data[0] as nat) + data[1])
    ensures id == 0x01 && |data| == 2 ==> Apply(m, id, data) == m.(serviceCategory := 256 * (data[0] as nat) + data[1])
    ensures (id == 0x00 || id == 0x01) && |data| != 2 ==> Apply(m, id, data) == m
    ensures (id == 0x02 || id == 0x04) && AddressFits(Unpack(data)) ==>
      Apply(m, id, data) == m.(address := DecodeAddress(m.address, Unpack(data)))
    ensures id == 0x08 ==> Apply(m, id, data) == m.(bearer := data)
    ensures id !in {0x00, 0x01, 0x02, 0x04, 0x08} ==> Apply(m, id, data) == m
  {
  }

  /** The length of an address that is long enough for its digits, at most 36. */
  lemma {:induction false} AddressLength(b: seq<Bit>)
    requires |b| >= 2
    ensures var at := if b[0] == 0 then 10 else if b[1] == 0 then 17 else 13;
      AddressFits(b) <==> |b| >= at && Value(b[at - 8..at]) <= 36
                          && |b| >= at + Value(b[at - 8..at]) * (if b[0] == 0 then 4 else 8)
  {
  }

  lemma {:induction false} ValueFormat(b: seq<Bit>)
    ensures |b| == 3 ==> Value(b) < 8 && Three(Value(b)) == b
    ensures |b| == 4 ==> Value(b) < 16 && Four(Value(b)) == b
    ensures |b| == 8 ==> Value(b) < 256 && Eight(Value(b)) == b
  {
    Pow2Values();
    BitsOfValue(b);
    BitOrder(Value(b));
  }

  /** A received address has its fields where the format says, and its digits after
      them; what is not transmitted stays as it was.  */
  lemma {:induction false} AddressRead(before: Address, b: seq<Bit>)
    requires AddressFits(b)
    ensures var a := DecodeAddress(before, b);
      && a.digitMode == b[0] && a.numberMode == b[1] && |b| >= DigitsAt(a) && |a.digits| < 256
      && Eight(|a.digits|) == b[DigitsAt(a) - 8..DigitsAt(a)]
      && (if a.digitMode == 1 then a.numberType < 8 && Three(a.numberType) == b[2..5]
          else a.numberType == before.numberType)
      && (if a.digitMode == 1 && a.numberMode == 0 then a.numberPlan < 16 && Four(a.numberPlan) == b[5..9]
          else a.numberPlan == before.numberPlan)
      && (forall i :: 0 <= i < |a.digits| ==> DigitFrom(b, DigitsAt(a), i, DigitWidth(a)) == DigitFormat(a, a.digits[i]))
  {
    var a := DecodeAddress(before, b);
    var at, w := DigitsAt(a), DigitWidth(a);
    ValueFormat(b[at - 8..at]);
    if a.digitMode == 1 {
      ValueFormat(b[2..5]);
      if a.numberMode == 0 { ValueFormat(b[5..9]); }
    }
    forall i | 0 <= i < |a.digits| ensures DigitFrom(b, at, i, w) == DigitFormat(a, a.digits[i]) {
      DigitRead(b, at, |a.digits|, w, i);
    }
  }

  lemma {:induction false} DigitRead(b: seq<Bit>, at: nat, n: nat, w: nat, i: nat)
    requires (w == 4 || w == 8) && i < n && at <= |b| && n * w <= |b| - at
    ensures var d := ReadDigits(b[at..], n, w)[i];
      DigitFrom(b, at, i, w) == if w == 4 then Four(d) else Eight(d)
  {
    var from := i * w;
    Before(i, n, w, from);
    DigitIsPart(b[at..], n, w, i, from);
    PartRead(b, at, from, w);
  }

  lemma {:induction false} Before(i: nat, n: nat, w: nat, from: nat)
    requires i < n && from == i * w
    ensures from + w <= n * w
  {
    assert (n - 1) * w + w == n * w;
    if i < n - 1 { Before(i, n - 1, w, from); }
  }

  lemma {:induction false} DigitIsPart(b: seq<Bit>, n: nat, w: nat, i: nat, from: nat)
    requires w <= 8 && i < n && n * w <= |b| && from == i * w && from + w <= |b|
    ensures ReadDigits(b, n, w)[i] == Value(b[from..from + w])
  {
    if i < n - 1 {
      assert (n - 1) * w + w == n * w;
      DigitIsPart(b, n - 1, w, i, from);
    }
  }

  lemma {:induction false} PartRead(b: seq<Bit>, at: nat, from: nat, w: nat)
    requires (w == 4 || w == 8) && at + from + w <= |b|
    ensures var d := Value(b[at..][from..from + w]);
      Part(b, at + from, w) == if w == 4 then Four(d) else Eight(d)
  {
    assert b[at..][from..from + w] == Part(b, at + from, w);
    ValueFormat(Part(b, at + from, w));
  }
}
