/** The CDMA message encoder and decoder on their character and bit buffers. */
module CdmaPdu {
  import opened BitCodec
  import opened CdmaSms

  /** The buffer is the text of `bytes` followed by NULs. */
  ghost predicate Holds(pdu: array<char>, bytes: seq<Byte>)
    reads pdu
  {
    && 2 * |bytes| <= pdu.Length
    && pdu[..2 * |bytes|] == Hex(bytes)
    && forall i :: 2 * |bytes| <= i < pdu.Length ==> pdu[i] == '\0'
  }

  /** snprintf of `text` at `at`, with its terminator. */
  method Print(pdu: array<char>, at: nat, text: string)
    requires at + |text| < pdu.Length
    modifies pdu
    ensures pdu[..] == old(pdu[..at]) + text + ['\0'] + old(pdu[at + |text| + 1..])
  {
    for i := 0 to |text|
      invariant pdu[..at] == old(pdu[..at])
      invariant pdu[at..at + i] == text[..i]
      invariant pdu[at + |text|..] == old(pdu[at + |text|..])
    {
      pdu[at + i] := text[i];
    }
    pdu[at + |text|] := '\0';
    assert pdu[..] == pdu[..at] + pdu[at..at + |text|] + pdu[at + |text|..];
    assert pdu[at + |text|..] == ['\0'] + old(pdu[at + |text| + 1..]);
  }

  /** Append whole bytes, in hexadecimal. */
  method Append(pdu: array<char>, ghost done: seq<Byte>, length: nat, bytes: seq<Byte>)
    requires Holds(pdu, done) && length == |done| && 2 * (length + |bytes|) < pdu.Length
    modifies pdu
    ensures Holds(pdu, done + bytes)
  {
    Print(pdu, length * 2, Hex(bytes));
    HexConcat(done, bytes);
    assert pdu[..2 * |done + bytes|] == Hex(done) + Hex(bytes);
  }

  method BuildHeader(a: Address, content: array<Bit>) returns (bits: nat)
    requires content.Length == ADDRESS_BITS
    modifies content
    ensures bits == HeaderLen(a.digitMode, a.numberMode) && content[..bits] == Header(a)
  {
    content[0] := a.digitMode;
    content[1] := a.numberMode;
    bits := 2;
    assert content[..2] == [a.digitMode, a.numberMode];
    if a.digitMode == DIGIT_MODE_8_BIT {
      AppendBits(content, bits, a.numberType, 3);
      bits := bits + 3;
      if a.numberMode == NOT_DATA_NETWORK {
        AppendBits(content, bits, a.numberPlan, 4);
        bits := bits + 4;
      }
    }
  }

  method AppendBits(content: array<Bit>, bits: nat, v: nat, len: nat)
    requires bits + len <= content.Length
    modifies content
    ensures content[..bits + len] == old(content[..bits]) + Bits(v, len)
  {
    ConvertUnsignedCharToBinary(v, content, bits, len);
  }

  method AppendDigits(a: Address, content: array<Bit>, start: nat) returns (bits: nat)
    requires ValidAddress(a) && content.Length == ADDRESS_BITS
    requires start == HeaderLen(a.digitMode, a.numberMode) + 8
    modifies content
    ensures bits == start + |a.digits| * DigitLen(a.digitMode) && bits <= ADDRESS_BITS
    ensures content[..bits] == old(content[..start]) + DigitBits(a.digits, DigitLen(a.digitMode))
  {
    bits := start;
    var len := DigitLen(a.digitMode);
    ghost var front := content[..start];
    for i := 0 to |a.digits|
      invariant bits == start + i * len && bits <= ADDRESS_BITS
      invariant content[..bits] == front + DigitBits(a.digits[..i], len)
    {
      RoomForDigit(a, i);
      AppendBits(content, bits, a.digits[i], len);
      NextDigit(front, a.digits, i, len);
      bits := bits + len;
    }
    assert a.digits[..|a.digits|] == a.digits;
  }

  lemma {:induction false} NextDigit(front: seq<Bit>, digits: seq<Byte>, i: nat, len: nat)
    requires i < |digits|
    ensures (front + DigitBits(digits[..i], len)) + Bits(digits[i], len) == front + DigitBits(digits[..i + 1], len)
    ensures i * len + len == (i + 1) * len
  {
    assert digits[..i + 1][..i] == digits[..i];
  }

  /** Reserved bits, filled with 0. */
  method PadBits(content: array<Bit>, start: nat) returns (bits: nat)
    requires start <= content.Length == ADDRESS_BITS
    modifies content
    ensures bits <= ADDRESS_BITS && content[..bits] == Pad(old(content[..start]))
  {
    bits := start;
    for i := 0 to 7
      invariant bits == start + i <= ADDRESS_BITS
      invariant Pad(content[..bits]) == Pad(old(content[..start]))
      invariant forall k :: start <= k < bits ==> k % 8 != 0
    {
      if bits % 8 == 0 {
        break;
      }
      content[bits] := 0;
      assert content[..bits + 1] == content[..bits] + [0];
      bits := bits + 1;
    }
  }

  /** The address bits, padded to whole bytes. */
  method BuildAddressBits(a: Address) returns (content: array<Bit>, bits: nat)
    requires ValidAddress(a)
    ensures fresh(content) && content.Length == ADDRESS_BITS
    ensures bits <= ADDRESS_BITS && content[..bits] == AddressBits(a)
  {
    content := new Bit[ADDRESS_BITS](_ => 0);
    bits := BuildHeader(a, content);
    AppendBits(content, bits, |a.digits|, 8);
    bits := AppendDigits(a, content, bits + 8);
    bits := PadBits(content, bits);
  }

  lemma {:induction false} RoomForDigit(a: Address, i: nat)
    requires ValidAddress(a) && i < |a.digits|
    ensures HeaderLen(a.digitMode, a.numberMode) + 8 + i * DigitLen(a.digitMode) + DigitLen(a.digitMode) <= ADDRESS_BITS
  {
    var len := DigitLen(a.digitMode);
    assert (i + 1) * len <= |a.digits| * len;
  }

  /** The buffer is `text` followed by NULs. */
  ghost predicate Shows(pdu: array<char>, text: string)
    reads pdu
  {
    && |text| <= pdu.Length
    && pdu[..|text|] == text
    && forall i :: |text| <= i < pdu.Length ==> pdu[i] == '\0'
  }

  method PrintNibble(pdu: array<char>, ghost text: string, at: nat, content: array<Bit>, index: nat)
    requires Shows(pdu, text) && at == |text| && at + 1 < pdu.Length && index + 4 <= content.Length && index % 4 == 0
    modifies pdu
    ensures Shows(pdu, text + Nibbles(content[index..index + 4]))
  {
    Pow2Values();
    var temp := ConvertBinaryToUnsignedChar(content, index, 4);
    assert content[index..index + 4][..4] == content[index..index + 4];
    assert Nibbles(content[index..index + 4]) == [HexDigit(temp)];
    Print(pdu, at, [HexDigit(temp)]);
  }

  /** Print the address bits, one digit for every four of them. */
  method PrintNibbles(pdu: array<char>, ghost prefix: string, at: nat, content: array<Bit>, count: nat)
    requires Shows(pdu, prefix) && at == |prefix| && at + count / 4 < pdu.Length
    requires count <= content.Length && count % 4 == 0
    modifies pdu
    ensures Shows(pdu, prefix + Nibbles(content[..count]))
  {
    ghost var b := content[..];
    ghost var text := prefix;
    var bits := count;
    var index := 0;
    assert prefix + Nibbles(b[..0]) == prefix;
    while bits > 0
      invariant bits + index == count && index % 4 == 0 && content[..] == b
      invariant |text| == at + index / 4
      invariant text == prefix + Nibbles(b[..index]) && Shows(pdu, text)
    {
      assert bits >= 4 && (index + 4) / 4 == index / 4 + 1;
      PrintNibble(pdu, text, at + index / 4, content, index);
      assert content[index..index + 4] == b[index..index + 4];
      NextNibble(prefix, b, index);
      text := text + Nibbles(b[index..index + 4]);
      index := index + 4;
      bits := bits - 4;
    }
    assert b[..count] == content[..count];
  }

  lemma {:induction false} NextNibble(prefix: string, b: seq<Bit>, index: nat)
    requires index + 4 <= |b| && index % 4 == 0
    ensures (prefix + Nibbles(b[..index])) + Nibbles(b[index..index + 4]) == prefix + Nibbles(b[..index + 4])
  {
    NibblesConcat(b[..index], b[index..index + 4]);
    assert b[..index + 4] == b[..index] + b[index..index + 4];
  }

  method PrintAddress(pdu: array<char>, ghost done: seq<Byte>, length: nat, content: array<Bit>, count: nat)
    requires Holds(pdu, done) && length == |done| && 2 * length + 33 < pdu.Length
    requires count <= content.Length == ADDRESS_BITS && count % 8 == 0
    modifies pdu
    ensures Holds(pdu, done + Pack(content[..count]))
  {
    PrintNibbles(pdu, Hex(done), 2 * length, content, count);
    NibblesArePacked(content[..count]);
    HexConcat(done, Pack(content[..count]));
  }

  method PrintIds(m: Sms, pdu: array<char>) returns (length: nat)
    requires ValidSms(m) && pdu.Length == PDU_SIZE && Holds(pdu, [])
    modifies pdu
    ensures length == |Ids(m)| <= 9 && Holds(pdu, Ids(m))
  {
    Append(pdu, [], 0, [0]);
    length := 1;
    ghost var done := [0];
    assert Holds(pdu, done);
    Append(pdu, done, length, [TELESERVICE_ID, 2] + Word(m.teleserviceId));
    length := length + 4;
    done := done + ([TELESERVICE_ID, 2] + Word(m.teleserviceId));
    if m.servicePresent {
      Append(pdu, done, length, [SERVICE_CATEGORY, 2] + Word(m.serviceCategory));
      length := length + 4;
      done := done + ([SERVICE_CATEGORY, 2] + Word(m.serviceCategory));
    }
    assert done == Ids(m);
  }

  method PrintBearer(m: Sms, pdu: array<char>, ghost done: seq<Byte>, start: nat)
    requires ValidSms(m) && pdu.Length == PDU_SIZE && Holds(pdu, done) && start == |done| <= 50
    modifies pdu
    ensures Holds(pdu, done + BearerBytes(m))
  {
    var length := start;
    Append(pdu, done, length, [BEARER_REPLY_OPTION, 1, 0]);
    length := length + 3;
    ghost var done1 := done + [BEARER_REPLY_OPTION, 1, 0];
    Append(pdu, done1, length, [BEARER_DATA, |m.bearer|]);
    length := length + 2;
    ghost var done2 := done1 + [BEARER_DATA, |m.bearer|];
    Append(pdu, done2, length, m.bearer);
    assert done2 + m.bearer == done + BearerBytes(m);
  }

  /** convertCdmaSmsMsgToPDU on a zeroed buffer. */
  method ConvertCdmaSmsMsgToPdu(m: Sms, pdu: array<char>)
    requires ValidSms(m) && pdu.Length == PDU_SIZE
    requires forall i :: 0 <= i < pdu.Length ==> pdu[i] == '\0'
    modifies pdu
    ensures Holds(pdu, Encode(m))
  {
    var length := PrintIds(m, pdu);
    var content, bits := BuildAddressBits(m.address);
    Append(pdu, Ids(m), length, [DESTINATION_ADDRESS, bits / 8]);
    length := length + 2;
    ghost var packed := Pack(content[..bits]);
    ghost var head := [DESTINATION_ADDRESS, |packed|];
    PrintAddress(pdu, Ids(m) + head, length, content, bits);
    length := length + bits / 8;
    Regroup(Ids(m), head, packed);
    PrintBearer(m, pdu, Ids(m) + AddressBytes(m.address), length);
    EncodeIs(m);
    Regroup(Ids(m), AddressBytes(m.address), BearerBytes(m));
  }

  lemma {:induction false} Regroup(a: seq<Byte>, b: seq<Byte>, c: seq<Byte>)
    ensures (a + b) + c == a + (b + c)
  {
  }

  // ----- decoding -----

  method UnpackBytes(bytePdu: seq<Byte>) returns (bitflow: array<Bit>)
    ensures fresh(bitflow) && bitflow[..] == Unpack(bytePdu)
  {
    var length := |bytePdu|;
    bitflow := new Bit[length * 8](_ => 0);
    for i := 0 to length
      invariant bitflow.Length == length * 8
      invariant bitflow[..i * 8] == Unpack(bytePdu[..i])
    {
      UnpackAppend(bytePdu[..i], bytePdu[i]);
      assert bytePdu[..i + 1] == bytePdu[..i] + [bytePdu[i]];
      AppendBits(bitflow, i * 8, bytePdu[i], 8);
    }
    assert bytePdu[..length] == bytePdu;
    assert bitflow[..length * 8] == bitflow[..];
  }

  method ReadAddressDigits(bitflow: array<Bit>, start: nat, n: nat, charLen: nat) returns (digits: seq<Byte>)
    requires charLen <= 8 && start + n * charLen <= bitflow.Length
    ensures digits == ReadDigits(bitflow[start..], n, charLen)
  {
    digits := [];
    var index := start;
    ghost var b := bitflow[start..];
    for i := 0 to n
      invariant index == start + i * charLen && i * charLen <= |b|
      invariant digits == ReadDigits(b, i, charLen)
    {
      MoreDigits(i, n, charLen);
      var d := ConvertBinaryToUnsignedChar(bitflow, index, charLen);
      ghost var from := i * charLen;
      assert b[from..from + charLen] == bitflow[index..index + charLen];
      digits := digits + [d];
      index := index + charLen;
    }
  }

  lemma {:induction false} MoreDigits(i: nat, n: nat, charLen: nat)
    requires i < n
    ensures i * charLen + charLen == (i + 1) * charLen <= n * charLen
  {
    assert (n - (i + 1)) * charLen >= 0;
  }

  /** decodeCdmaSmsAddress */
  method DecodeCdmaSmsAddress(bytePdu: seq<Byte>, initial: Address) returns (a: Address)
    requires AddressFits(Unpack(bytePdu))
    ensures a == DecodeAddress(initial, Unpack(bytePdu))
  {
    var bitflow := UnpackBytes(bytePdu);
    assert bitflow.Length == |bitflow[..]| == |Unpack(bytePdu)|;
    var charLen := 4;
    var digitMode, numberMode := bitflow[0], bitflow[1];
    var numberType, numberPlan := initial.numberType, initial.numberPlan;
    var index := 2;
    if digitMode == DIGIT_MODE_8_BIT {
      charLen := 8;
      numberType := ConvertBinaryToUnsignedChar(bitflow, index, 3);
      index := index + 3;
      if numberMode == NOT_DATA_NETWORK {
        numberPlan := ConvertBinaryToUnsignedChar(bitflow, index, 4);
        index := index + 4;
      }
    }
    assert bitflow[2..5] == bitflow[..][2..5];
    assert index == 9 ==> bitflow[5..9] == bitflow[..][5..9];
    assert bitflow[index..index + 8] == bitflow[..][index..index + 8];
    assert bitflow[index + 8..] == bitflow[..][index + 8..];
    var n := ConvertBinaryToUnsignedChar(bitflow, index, 8);
    var digits := ReadAddressDigits(bitflow, index + 8, n, charLen);
    a := Address(digitMode, numberMode, numberType, numberPlan, digits);
  }

  /** Every address parameter of a received message has room for its digits. */
  ghost predicate WellFormed(buf: seq<Byte>, length: nat, index: nat)
    requires length + 257 <= |buf|
    decreases length - index
  {
    index < length ==>
      var id, len := buf[index], buf[index + 1];
      && (id == DESTINATION_ADDRESS || id == ORIGINATING_ADDRESS ==> AddressFits(Unpack(buf[index + 2..index + 2 + len])))
      && WellFormed(buf, length, index + 2 + len)
  }

  /** One parameter of a received message. */
  method ApplyParam(sms: Sms, id: Byte, data: seq<Byte>) returns (r: Sms)
    requires id == DESTINATION_ADDRESS || id == ORIGINATING_ADDRESS ==> AddressFits(Unpack(data))
    ensures r == Apply(sms, id, data)
  {
    r := sms;
    if id == TELESERVICE_ID {
      if |data| == 2 {
        r := sms.(teleserviceId := data[0] as nat * 256 + data[1]);
      }
    } else if id == SERVICE_CATEGORY {
      if |data| == 2 {
        r := sms.(serviceCategory := data[0] as nat * 256 + data[1]);
      }
    } else if id == DESTINATION_ADDRESS || id == ORIGINATING_ADDRESS {
      var a := DecodeCdmaSmsAddress(data, sms.address);
      r := sms.(address := a);
    } else if id == BEARER_DATA {
      r := sms.(bearer := data);
    }
  }

  lemma {:induction false} Unread(buf: seq<Byte>, length: nat, index: nat, m: Sms)
    requires length + 257 <= |buf| && index < length && WellFormed(buf, length, index)
    ensures var id, len := buf[index], buf[index + 1];
      && (id == DESTINATION_ADDRESS || id == ORIGINATING_ADDRESS ==> AddressFits(Unpack(buf[index + 2..index + 2 + len])))
      && WellFormed(buf, length, index + 2 + len)
      && Parse(buf, length, index, m)
         == Parse(buf, length, index + 2 + len, Apply(m, id, buf[index + 2..index + 2 + len]))
  {
  }

  method ParseBytes(bytePdu: seq<Byte>, length: nat) returns (sms: Sms)
    requires length + 257 <= |bytePdu| && WellFormed(bytePdu, length, 2)
    ensures sms == Parse(bytePdu, length, 2, ZERO)
  {
    sms := ZERO;
    var index := 2;
    while index < length
      invariant WellFormed(bytePdu, length, index)
      invariant Parse(bytePdu, length, index, sms) == Parse(bytePdu, length, 2, ZERO)
      decreases length - index
    {
      Unread(bytePdu, length, index, sms);
      var id := bytePdu[index];
      index := index + 1;
      var len := bytePdu[index];
      index := index + 1;
      sms := ApplyParam(sms, id, bytePdu[index..index + len]);
      index := index + len;
    }
  }

  /** buildCdmaSmsMessage */
  method BuildCdmaSmsMessage(pdu: string) returns (sms: Sms)
    requires IsHex(pdu) && |pdu| / 2 + 257 <= RESPONSE_LEN
    requires WellFormed(Buffer(Unhex(pdu)), |pdu| / 2, 2)
    ensures sms == Decode(Unhex(pdu))
  {
    sms := ParseBytes(Buffer(Unhex(pdu)), |pdu| / 2);
  }

  /** An encoded message, received after one extra 00 byte, is read back from the
      very text the encoder writes.  */
  lemma {:induction false} EncodedIsReadable(m: Sms)
    requires ValidSms(m)
    ensures |Encode(m)| < 300
    ensures IsHex("00" + Hex(Encode(m)))
    ensures Unhex("00" + Hex(Encode(m))) == [0] + Encode(m)
    ensures WellFormed(Buffer([0] + Encode(m)), |Encode(m)| + 1, 2)
  {
    EncodeLen(m);
    HexOfZero(Encode(m));
    UnhexHex([0] + Encode(m));
    EncodedIsWellFormed(m);
  }

  lemma {:induction false} EncodedIsWellFormed(m: Sms)
    requires ValidSms(m)
    ensures |Encode(m)| < 300 && WellFormed(Buffer([0] + Encode(m)), |Encode(m)| + 1, 2)
  {
    EncodeLen(m);
    ParamsShort(m);
    var bytes := [0] + Encode(m);
    assert Buffer(bytes)[2..|bytes|] == Flatten(Params(m));
    AddressesFit(m);
    WellFormedFlatten(Buffer(bytes), |bytes|, 2, Params(m));
  }

  lemma {:induction false} HexOfZero(bytes: seq<Byte>)
    ensures "00" + Hex(bytes) == Hex([0] + bytes)
  {
    HexConcat([0], bytes);
    assert Hex([0]) == "00";
  }

  lemma {:induction false} AddressesFit(m: Sms)
    requires ValidSms(m)
    ensures forall p <- Params(m) :: p.id == DESTINATION_ADDRESS || p.id == ORIGINATING_ADDRESS ==> AddressFits(Unpack(p.data))
  {
    AddressRoundTrip(m.address);
    UnpackPack(AddressBits(m.address));
  }

  lemma {:induction false} WellFormedFirst(buf: seq<Byte>, length: nat, index: nat)
    requires length + 257 <= |buf| && index < length
    requires var id, len := buf[index], buf[index + 1];
      && (id == DESTINATION_ADDRESS || id == ORIGINATING_ADDRESS ==> AddressFits(Unpack(buf[index + 2..index + 2 + len])))
      && WellFormed(buf, length, index + 2 + len)
    ensures WellFormed(buf, length, index)
  {
  }

  lemma {:induction false} WellFormedFlatten(buf: seq<Byte>, length: nat, index: nat, ps: seq<Param>)
    requires length + 257 <= |buf| && Short(ps)
    requires index <= length && buf[index..length] == Flatten(ps)
    requires forall p <- ps :: p.id == DESTINATION_ADDRESS || p.id == ORIGINATING_ADDRESS ==> AddressFits(Unpack(p.data))
    ensures WellFormed(buf, length, index)
    decreases |ps|
  {
    if ps != [] {
      var p := ps[0];
      assert p in ps;
      assert forall q <- ps[1..] :: q in ps;
      FirstParam(buf, length, index, ps);
      WellFormedFlatten(buf, length, index + 2 + |p.data|, ps[1..]);
      WellFormedFirst(buf, length, index);
    }
  }
}
