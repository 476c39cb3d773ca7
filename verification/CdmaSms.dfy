/** The CDMA point-to-point message (3GPP2 C.S0015-B, section 3.4): what is sent
    and what is read back, as functions on values.  */
module CdmaSms {
  import opened BitCodec

  const DIGIT_MODE_8_BIT := 1
  const NOT_DATA_NETWORK := 0
  const ADDRESS_BITS := 128
  const ADDRESS_MAX := 36
  const PDU_SIZE := 1024
  const RESPONSE_LEN := 4096

  // Parameter ids.
  const TELESERVICE_ID := 0
  const SERVICE_CATEGORY := 1
  const ORIGINATING_ADDRESS := 2
  const DESTINATION_ADDRESS := 4
  const BEARER_REPLY_OPTION := 6
  const BEARER_DATA := 8

  datatype Address = Address(digitMode: Bit, numberMode: Bit, numberType: nat, numberPlan: nat, digits: seq<Byte>)

  datatype Sms = Sms(teleserviceId: nat, servicePresent: bool, serviceCategory: nat, address: Address, bearer: seq<Byte>)

  const ZERO := Sms(0, false, 0, Address(0, 0, 0, 0, []), [])

  function DigitLen(digitMode: Bit): nat {
    if digitMode == DIGIT_MODE_8_BIT then 8 else 4
  }

  function HeaderLen(digitMode: Bit, numberMode: Bit): nat {
    if digitMode != DIGIT_MODE_8_BIT then 2 else if numberMode == NOT_DATA_NETWORK then 9 else 5
  }

  /** Bits of an address before padding. */
  function AddressLen(digitMode: Bit, numberMode: Bit, n: nat): nat {
    HeaderLen(digitMode, numberMode) + 8 + n * DigitLen(digitMode)
  }

  /** Fields in range and an address that fits the encoder's bit buffer. */
  predicate ValidAddress(a: Address) {
    && a.numberType < 8 && a.numberPlan < 16 && |a.digits| <= ADDRESS_MAX
    && (forall d <- a.digits :: d < Pow2(DigitLen(a.digitMode)))
    && AddressLen(a.digitMode, a.numberMode, |a.digits|) <= ADDRESS_BITS
  }

  predicate ValidSms(m: Sms) {
    m.teleserviceId < 0x10000 && m.serviceCategory < 0x10000 && |m.bearer| <= 255 && ValidAddress(m.address)
  }

  // ----- encoding -----

  function Header(a: Address): (b: seq<Bit>)
    ensures |b| == HeaderLen(a.digitMode, a.numberMode)
  {
    [a.digitMode, a.numberMode]
    + (if a.digitMode != DIGIT_MODE_8_BIT then []
       else Bits(a.numberType, 3) + if a.numberMode == NOT_DATA_NETWORK then Bits(a.numberPlan, 4) else [])
  }

  function DigitBits(digits: seq<Byte>, len: nat): (b: seq<Bit>)
    ensures |b| == |digits| * len
  {
    if digits == [] then [] else DigitBits(digits[..|digits| - 1], len) + Bits(digits[|digits| - 1], len)
  }

  /** Fill up to whole bytes; the buffer's size is a multiple of eight. */
  function Pad(b: seq<Bit>): (r: seq<Bit>)
    ensures |r| % 8 == 0 && b <= r && |r| < |b| + 8
    decreases 7 - (|b| + 7) % 8
  {
    if |b| % 8 == 0 then b else Pad(b + [0])
  }

  function AddressBits(a: Address): seq<Bit> {
    Pad(Header(a) + Bits(|a.digits|, 8) + DigitBits(a.digits, DigitLen(a.digitMode)))
  }

  datatype Param = Param(id: Byte, data: seq<Byte>)

  function Word(v: nat): seq<Byte>
    requires v < 0x10000
  {
    [v / 256, v % 256]
  }

  function Params(m: Sms): seq<Param>
    requires ValidSms(m)
  {
    [Param(TELESERVICE_ID, Word(m.teleserviceId))]
    + (if m.servicePresent then [Param(SERVICE_CATEGORY, Word(m.serviceCategory))] else [])
    + [Param(DESTINATION_ADDRESS, Pack(AddressBits(m.address))),
       Param(BEARER_REPLY_OPTION, [0]),
       Param(BEARER_DATA, m.bearer)]
  }

  ghost predicate Short(ps: seq<Param>) {
    forall p <- ps :: |p.data| < 256
  }

  function Flatten(ps: seq<Param>): seq<Byte>
    requires Short(ps)
  {
    if ps == [] then []
    else
      assert forall p <- ps[1..] :: p in ps;
      [ps[0].id, |ps[0].data|] + ps[0].data + Flatten(ps[1..])
  }

  /** Message type 0 and the parameters. */
  function Encode(m: Sms): seq<Byte>
    requires ValidSms(m)
  {
    ParamsShort(m);
    [0] + Flatten(Params(m))
  }

  lemma {:induction false} AddressBitsLen(a: Address)
    requires ValidAddress(a)
    ensures |AddressBits(a)| <= ADDRESS_BITS && |Pack(AddressBits(a))| <= 16
  {
    var b := Header(a) + Bits(|a.digits|, 8) + DigitBits(a.digits, DigitLen(a.digitMode));
    assert |b| == AddressLen(a.digitMode, a.numberMode, |a.digits|);
  }

  lemma {:induction false} ParamsShort(m: Sms)
    requires ValidSms(m)
    ensures Short(Params(m))
  {
    AddressBitsLen(m.address);
  }

  // ----- decoding -----

  /** An address parameter long enough for the digits it announces. */
  predicate AddressFits(b: seq<Bit>) {
    && |b| >= 2
    && |b| >= HeaderLen(b[0], b[1]) + 8
    && var h := HeaderLen(b[0], b[1]); var n := Value(b[h..h + 8]);
       n <= ADDRESS_MAX && |b| >= AddressLen(b[0], b[1], n)
  }

  function ReadDigits(b: seq<Bit>, n: nat, len: nat): (d: seq<Byte>)
    requires len <= 8 && n * len <= |b|
    ensures |d| == n
  {
    if n == 0 then []
    else
      assert (n - 1) * len + len == n * len;
      Pow2Values(); Pow2Grows(len, 8);
      ReadDigits(b, n - 1, len) + [Value(b[(n - 1) * len..n * len])]
  }

  /** Read an address over `before`; fields that are not transmitted stay as they were. */
  function DecodeAddress(before: Address, b: seq<Bit>): Address
    requires AddressFits(b)
  {
    var h := HeaderLen(b[0], b[1]);
    var n := Value(b[h..h + 8]);
    Address(b[0], b[1],
            if b[0] == DIGIT_MODE_8_BIT then Value(b[2..5]) else before.numberType,
            if h == 9 then Value(b[5..9]) else before.numberPlan,
            ReadDigits(b[h + 8..], n, DigitLen(b[0])))
  }

  function WordValue(data: seq<Byte>): nat
    requires |data| == 2
  {
    data[0] as nat * 256 + data[1]
  }

  function Apply(m: Sms, id: Byte, data: seq<Byte>): Sms {
    if id == TELESERVICE_ID && |data| == 2 then m.(teleserviceId := WordValue(data))
    else if id == SERVICE_CATEGORY && |data| == 2 then m.(serviceCategory := WordValue(data))
    else if (id == DESTINATION_ADDRESS || id == ORIGINATING_ADDRESS) && AddressFits(Unpack(data))
    then m.(address := DecodeAddress(m.address, Unpack(data)))
    else if id == BEARER_DATA then m.(bearer := data)
    else m
  }

  /** Read parameters from `index` on. `buf` is the zero-filled byte buffer, of
      which the first `length` bytes were received.  */
  function Parse(buf: seq<Byte>, length: nat, index: nat, m: Sms): Sms
    requires length + 257 <= |buf|
    decreases length - index
  {
    if index >= length then m
    else
      var len := buf[index + 1];
      Parse(buf, length, index + 2 + len, Apply(m, buf[index], buf[index + 2..index + 2 + len]))
  }

  function Buffer(bytes: seq<Byte>): (b: seq<Byte>)
    requires |bytes| <= RESPONSE_LEN
    ensures |b| == RESPONSE_LEN
  {
    bytes + seq(RESPONSE_LEN - |bytes|, _ => 0)
  }

  /** buildCdmaSmsMessage on a received message: the first two bytes are skipped. */
  function Decode(bytes: seq<Byte>): Sms
    requires |bytes| + 257 <= RESPONSE_LEN
  {
    Parse(Buffer(bytes), |bytes|, 2, ZERO)
  }

  // ----- round trip -----

  /** What of an address is transmitted. */
  function Transmitted(a: Address): Address {
    a.(numberType := if a.digitMode == DIGIT_MODE_8_BIT then a.numberType else 0,
       numberPlan := if HeaderLen(a.digitMode, a.numberMode) == 9 then a.numberPlan else 0)
  }

  lemma {:induction false} ReadDigitsBack(digits: seq<Byte>, len: nat, rest: seq<Bit>)
    requires len <= 8 && forall d <- digits :: d < Pow2(len)
    ensures ReadDigits(DigitBits(digits, len) + rest, |digits|, len) == digits
  {
    var n := |digits|;
    if n > 0 {
      var front, last := digits[..n - 1], digits[n - 1];
      assert forall d <- front :: d in digits;
      assert last in digits;
      assert (n - 1) * len + len == n * len;
      var tail := Bits(last, len) + rest;
      assert DigitBits(digits, len) + rest == DigitBits(front, len) + tail;
      ReadDigitsBack(front, len, tail);
      ValueOfBits(last, len);
      assert (DigitBits(front, len) + tail)[(n - 1) * len..n * len] == Bits(last, len);
      assert digits == front + [last];
    }
  }

  /** Where the fields of an encoded address are. */
  lemma {:induction false} AddressLayout(a: Address) returns (padding: seq<Bit>)
    ensures var b := AddressBits(a); var h := HeaderLen(a.digitMode, a.numberMode);
      && |b| >= AddressLen(a.digitMode, a.numberMode, |a.digits|)
      && b[..h] == Header(a)
      && b[h..h + 8] == Bits(|a.digits|, 8)
      && b[h + 8..] == DigitBits(a.digits, DigitLen(a.digitMode)) + padding
  {
    var n := |a.digits|;
    var digits := DigitBits(a.digits, DigitLen(a.digitMode));
    var unpadded := Header(a) + Bits(n, 8) + digits;
    var b := AddressBits(a);
    padding := b[|unpadded|..];
    assert b == unpadded + padding;
    assert unpadded + padding == Header(a) + (Bits(n, 8) + (digits + padding));
  }

  lemma {:induction false} HeaderFields(a: Address)
    requires a.numberType < 8 && a.numberPlan < 16
    ensures var h := Header(a);
      && h[0] == a.digitMode && h[1] == a.numberMode
      && (a.digitMode == DIGIT_MODE_8_BIT ==> Value(h[2..5]) == a.numberType)
      && (|h| == 9 ==> Value(h[5..9]) == a.numberPlan)
  {
    Pow2Values();
    var h := Header(a);
    if a.digitMode == DIGIT_MODE_8_BIT {
      ValueOfBits(a.numberType, 3);
      assert h[2..5] == Bits(a.numberType, 3);
      if a.numberMode == NOT_DATA_NETWORK {
        ValueOfBits(a.numberPlan, 4);
        assert h[5..9] == Bits(a.numberPlan, 4);
      }
    }
  }

  /** Reading an address back gives every transmitted field, for both digit modes. */
  lemma {:induction false} AddressRoundTrip(a: Address)
    requires ValidAddress(a)
    ensures AddressFits(AddressBits(a))
    ensures DecodeAddress(ZERO.address, AddressBits(a)) == Transmitted(a)
  {
    var b, h, n := AddressBits(a), HeaderLen(a.digitMode, a.numberMode), |a.digits|;
    var padding := AddressLayout(a);
    HeaderFields(a);
    assert b[0] == b[..h][0] && b[1] == b[..h][1];
    assert a.digitMode == DIGIT_MODE_8_BIT ==> b[2..5] == b[..h][2..5];
    assert h == 9 ==> b[5..9] == b[..h][5..9];
    Pow2Values();
    ValueOfBits(n, 8);
    assert AddressFits(b);
    ReadDigitsBack(a.digits, DigitLen(a.digitMode), padding);
  }

  function ApplyAll(m: Sms, ps: seq<Param>): Sms
    decreases |ps|
  {
    if ps == [] then m else ApplyAll(Apply(m, ps[0].id, ps[0].data), ps[1..])
  }

  lemma {:induction false} SliceOfSlice(buf: seq<Byte>, from: nat, to: nat, i: nat, j: nat)
    requires from <= to <= |buf| && i <= j <= to - from
    ensures buf[from..to][i..j] == buf[from + i..from + j]
    ensures buf[from..to][j..] == buf[from + j..to]
  {
    var a, b := buf[from..to][i..j], buf[from + i..from + j];
    assert |a| == |b|;
    forall k | 0 <= k < |a| ensures a[k] == b[k] {
      assert a[k] == buf[from..to][i + k];
    }
  }

  /** The first of a row of parameters, and where the others start. */
  lemma {:induction false} FirstParam(buf: seq<Byte>, length: nat, index: nat, ps: seq<Param>)
    requires ps != [] && Short(ps)
    requires index <= length <= |buf| && buf[index..length] == Flatten(ps)
    ensures var p := ps[0]; var next := index + 2 + |p.data|;
      && next <= length && buf[index] == p.id && buf[index + 1] == |p.data|
      && buf[index + 2..next] == p.data
      && Short(ps[1..]) && buf[next..length] == Flatten(ps[1..])
  {
    var p, f := ps[0], Flatten(ps);
    assert forall q <- ps[1..] :: q in ps;
    assert f == [p.id, |p.data|] + p.data + Flatten(ps[1..]);
    assert buf[index] == f[0] && buf[index + 1] == f[1];
    assert f[2..2 + |p.data|] == p.data && f[2 + |p.data|..] == Flatten(ps[1..]);
    SliceOfSlice(buf, index, length, 2, 2 + |p.data|);
  }

  lemma {:induction false} ParseOne(buf: seq<Byte>, length: nat, index: nat, p: Param, m: Sms)
    requires length + 257 <= |buf| && index < length
    requires buf[index] == p.id && buf[index + 1] == |p.data| && buf[index + 2..index + 2 + |p.data|] == p.data
    ensures Parse(buf, length, index, m) == Parse(buf, length, index + 2 + |p.data|, Apply(m, p.id, p.data))
  {
  }

  /** Reading a row of parameters applies them one after the other. */
  lemma {:induction false} ParseFlatten(buf: seq<Byte>, length: nat, index: nat, ps: seq<Param>, m: Sms)
    requires length + 257 <= |buf| && Short(ps)
    requires index <= length && buf[index..length] == Flatten(ps)
    ensures Parse(buf, length, index, m) == ApplyAll(m, ps)
    decreases |ps|
  {
    if ps != [] {
      var p := ps[0];
      FirstParam(buf, length, index, ps);
      ParseOne(buf, length, index, p, m);
      var m1 := Apply(m, p.id, p.data);
      ParseFlatten(buf, length, index + 2 + |p.data|, ps[1..], m1);
      assert ApplyAll(m, ps) == ApplyAll(m1, ps[1..]);
    }
  }

  /** Decoding one extra 00 byte followed by the encoded message gives back the
      teleservice id, the service category when present, the bearer data and
      every transmitted address field.  */
  lemma {:induction false} RoundTrip(m: Sms)
    requires ValidSms(m)
    ensures |Encode(m)| < 300
    ensures Decode([0] + Encode(m))
         == Sms(m.teleserviceId, false, if m.servicePresent then m.serviceCategory else 0,
                Transmitted(m.address), m.bearer)
  {
    ParamsShort(m);
    EncodeLen(m);
    var bytes := [0] + Encode(m);
    assert Buffer(bytes)[2..|bytes|] == Flatten(Params(m));
    ParseFlatten(Buffer(bytes), |bytes|, 2, Params(m), ZERO);
    ApplyParams(m);
  }

  lemma {:induction false} EncodeLen(m: Sms)
    requires ValidSms(m)
    ensures |Encode(m)| < 300
  {
    AddressBitsLen(m.address);
    EncodeIs(m);
  }

  lemma {:induction false} FlattenCons(p: Param, ps: seq<Param>)
    requires |p.data| < 256 && Short(ps)
    ensures Short([p] + ps) && Flatten([p] + ps) == [p.id, |p.data|] + p.data + Flatten(ps)
  {
    assert ([p] + ps)[1..] == ps;
  }

  lemma {:induction false} FlattenTail(m: Sms)
    requires ValidSms(m)
    ensures Short(Tail(m)) && Flatten(Tail(m)) == TailBytes(m)
  {
    AddressBitsLen(m.address);
    var a, b, c := Tail(m)[0], Tail(m)[1], Tail(m)[2];
    FlattenCons(c, []);
    FlattenCons(b, [c]);
    FlattenCons(a, [b, c]);
    assert [c] + [] == [c] && [b] + [c] == [b, c] && [a] + [b, c] == Tail(m);
    assert Flatten([c]) == [BEARER_DATA, |m.bearer|] + m.bearer;
  }

  /** The parameters up to the address, with the message type. */
  function Ids(m: Sms): seq<Byte>
    requires ValidSms(m)
  {
    [0] + ([TELESERVICE_ID, 2] + Word(m.teleserviceId))
    + (if m.servicePresent then [SERVICE_CATEGORY, 2] + Word(m.serviceCategory) else [])
  }

  function AddressBytes(a: Address): seq<Byte>
    requires ValidAddress(a)
  {
    AddressBitsLen(a);
    [DESTINATION_ADDRESS, |Pack(AddressBits(a))|] + Pack(AddressBits(a))
  }

  function TailBytes(m: Sms): seq<Byte>
    requires ValidSms(m)
  {
    AddressBytes(m.address) + BearerBytes(m)
  }

  function BearerBytes(m: Sms): seq<Byte>
    requires ValidSms(m)
  {
    [BEARER_REPLY_OPTION, 1] + [0] + ([BEARER_DATA, |m.bearer|] + m.bearer)
  }

  /** The encoding written out as one row of bytes. */
  lemma {:induction false} EncodeIs(m: Sms)
    requires ValidSms(m)
    ensures Encode(m) == Ids(m) + TailBytes(m)
  {
    ParamsShort(m);
    FlattenTail(m);
    var t := Param(TELESERVICE_ID, Word(m.teleserviceId));
    var rest := Tail(m);
    if m.servicePresent {
      var c := Param(SERVICE_CATEGORY, Word(m.serviceCategory));
      FlattenCons(c, rest);
      rest := [c] + rest;
    }
    FlattenCons(t, rest);
    assert Params(m) == [t] + rest;
  }

  lemma {:induction false} ApplyParams(m: Sms)
    requires ValidSms(m)
    ensures ApplyAll(ZERO, Params(m))
         == Sms(m.teleserviceId, false, if m.servicePresent then m.serviceCategory else 0,
                Transmitted(m.address), m.bearer)
  {
    var m1 := ZERO.(teleserviceId := m.teleserviceId);
    var m2 := if m.servicePresent then m1.(serviceCategory := m.serviceCategory) else m1;
    ApplyIds(m, m1, m2);
    ApplyTail(m2, Tail(m));
    ApplyAddress(m2, m.address);
  }

  function Tail(m: Sms): seq<Param>
    requires ValidSms(m)
  {
    AddressBitsLen(m.address);
    [Param(DESTINATION_ADDRESS, Pack(AddressBits(m.address))), Param(BEARER_REPLY_OPTION, [0]), Param(BEARER_DATA, m.bearer)]
  }

  lemma {:induction false} ApplyIds(m: Sms, m1: Sms, m2: Sms)
    requires ValidSms(m)
    requires m1 == ZERO.(teleserviceId := m.teleserviceId)
    requires m2 == if m.servicePresent then m1.(serviceCategory := m.serviceCategory) else m1
    ensures ApplyAll(ZERO, Params(m)) == ApplyAll(m2, Tail(m))
  {
    var ps := Params(m);
    assert Apply(ZERO, ps[0].id, ps[0].data) == m1;
    if m.servicePresent {
      var c := Param(SERVICE_CATEGORY, Word(m.serviceCategory));
      assert ps[1..] == [c] + Tail(m) && ([c] + Tail(m))[1..] == Tail(m);
      assert Apply(m1, c.id, c.data) == m2;
      assert ApplyAll(m1, [c] + Tail(m)) == ApplyAll(m2, Tail(m));
    } else {
      assert ps[1..] == Tail(m);
    }
  }

  lemma {:induction false} ApplyAddress(m: Sms, a: Address)
    requires ValidAddress(a) && m.address == ZERO.address
    ensures Apply(m, DESTINATION_ADDRESS, Pack(AddressBits(a))) == m.(address := Transmitted(a))
  {
    AddressRoundTrip(a);
    UnpackPack(AddressBits(a));
  }

  lemma {:induction false} ApplyTail(m: Sms, ps: seq<Param>)
    requires |ps| == 3
    ensures ApplyAll(m, ps)
         == Apply(Apply(Apply(m, ps[0].id, ps[0].data), ps[1].id, ps[1].data), ps[2].id, ps[2].data)
  {
    var qs := ps[1..];
    var m1 := Apply(m, ps[0].id, ps[0].data);
    var m2 := Apply(m1, qs[0].id, qs[0].data);
    assert ApplyAll(m, ps) == ApplyAll(m1, qs);
    assert ApplyAll(m1, qs) == ApplyAll(m2, qs[1..]);
    assert ApplyAll(m2, qs[1..]) == ApplyAll(Apply(m2, qs[1..][0].id, qs[1..][0].data), qs[1..][1..]);
    assert qs[1..][1..] == [];
  }
}
